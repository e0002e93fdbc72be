/**
 * The reality augmentor: which object and which virtual content are active,
 * whether the hand mouse is needed, and how each projector frame is updated,
 * either warped onto the tracked surface inside a dirty rectangle or drawn at
 * a fixed place.  The warped corner positions, the hand-mouse position mapped
 * into the object image, whether each object's region of interest is found,
 * and the sizes of the images are inputs; the warps, copies and resizes are
 * recorded as what is drawn.
 */
module RealityAugmentor {
  import opened JavaNumbers
  import opened Wrappers
  import opened Geometry
  import opened DirtyRect

  datatype ProjectionType = Tracked | Fixed

  datatype RoiAcquisition = User | ObjectFinder | MarkerDetector

  /** An image file: none set, one that cannot be loaded, or one that loads. */
  datatype ImageFile = NoFile | Unloadable | Loadable

  /**
   * One piece of virtual content: its hot spot on the object (null as
   * `None`), its desktop screen, its projection, and its projector image file.
   */
  datatype VirtualSettings = VirtualSettings(objectHotSpot: Option<Rect>, desktopScreenNumber: int, projectionType: ProjectionType,
                                             projectorImageFile: ImageFile)

  /**
   * `initVirtualSettings` succeeds on the content: it shows a desktop screen,
   * or its projector image file is absent (the fractal, or a video alone) or
   * loads.  An image that does not load throws, whether it is read for a
   * video's alpha channel or projected by itself.
   */
  predicate ContentLoads(vs: VirtualSettings)
  {
    vs.desktopScreenNumber >= 0 || vs.projectorImageFile != Unloadable
  }

  /** Every child with an empty hot spot has content that loads, so activating them in turn does not throw. */
  predicate ActivatesCleanly(children: seq<VirtualSettings>)
  {
    forall k :: 0 <= k < |children| && EmptyHotSpot(children[k]) ==> ContentLoads(children[k])
  }

  /**
   * The activation of `children` threw, leaving `v` active: the first child
   * with an empty hot spot whose content does not load.
   */
  predicate ActivationFailedOn(children: seq<VirtualSettings>, v: Option<VirtualSettings>)
  {
    exists i :: 0 <= i < |children| && v == Some(children[i]) && EmptyHotSpot(children[i]) && !ContentLoads(children[i]) &&
                forall k :: 0 <= k < i && EmptyHotSpot(children[k]) ==> ContentLoads(children[k])
  }

  /** One tracked object: how its region of interest is acquired, its image file, and its virtual contents. */
  datatype ObjectSettings = ObjectSettings(acquisition: RoiAcquisition, objectImageFile: ImageFile, children: seq<VirtualSettings>)

  /** A hand-mouse reading: its position, its click, and that position mapped into the object image. */
  datatype HandMouse = HandMouse(x: real, y: real, click: bool, mapped: Point)

  /** What an update draws into the projector image. */
  datatype Drawing = NoDrawing | WarpedWhole | WarpedWithin(area: Rect) | Copied | Resized

  /** A hot spot that is null or has no area, which makes its content active as soon as its object is found. */
  predicate EmptyHotSpot(vs: VirtualSettings)
  {
    vs.objectHotSpot.None? || vs.objectHotSpot.value.width <= 0 || vs.objectHotSpot.value.height <= 0
  }

  /** An object whose region can be acquired: the user picks it, or its image file loads. */
  predicate ImageAvailable(os: ObjectSettings)
  {
    os.acquisition == User || os.objectImageFile == Loadable
  }

  /** How the scan over the objects ends. */
  datatype Acquisition = Acquired(index: nat) | NoneFound | LoadFailure(index: nat)

  /**
   * The scan of `acquireRoi` from object `i` on: an object whose image is
   * needed but missing throws, the first object whose region is found is
   * taken, and the scan moves on otherwise.
   */
  function ScanFrom(settings: seq<ObjectSettings>, found: seq<bool>, i: nat): (a: Acquisition)
    requires |found| == |settings| && i <= |settings|
    ensures a.Acquired? ==> i <= a.index < |settings| && found[a.index] && ImageAvailable(settings[a.index])
    ensures a.LoadFailure? ==> i <= a.index < |settings| && !ImageAvailable(settings[a.index])
    ensures a.Acquired? || a.LoadFailure? ==>
              forall j :: i <= j < a.index ==> ImageAvailable(settings[j]) && !found[j]
    ensures a.NoneFound? <==> forall j :: i <= j < |settings| ==> ImageAvailable(settings[j]) && !found[j]
    decreases |settings| - i
  {
    if i == |settings| then NoneFound
    else if !ImageAvailable(settings[i]) then LoadFailure(i)
    else if found[i] then Acquired(i)
    else ScanFrom(settings, found, i + 1)
  }

  /** The content left active after activating, in order, every child with an empty hot spot: the last one. */
  function LastEmptyHotSpot(children: seq<VirtualSettings>): (v: Option<VirtualSettings>)
    ensures v.None? <==> forall i :: 0 <= i < |children| ==> !EmptyHotSpot(children[i])
    ensures v.Some? ==> exists i :: 0 <= i < |children| && children[i] == v.value && EmptyHotSpot(children[i]) &&
                                    forall j :: i < j < |children| ==> !EmptyHotSpot(children[j])
  {
    if |children| == 0 then None
    else if EmptyHotSpot(children[|children| - 1]) then Some(children[|children| - 1])
    else LastEmptyHotSpot(children[..|children| - 1])
  }

  /** The hot spot of `vs` contains the point, as `java.awt.Rectangle.contains` decides. */
  predicate Hit(vs: VirtualSettings, mx: int, my: int)
  {
    vs.objectHotSpot.Some? && AwtContains(vs.objectHotSpot.value, mx, my)
  }

  /** The first content whose hot spot contains the point. */
  function FirstHit(children: seq<VirtualSettings>, mx: int, my: int): (v: Option<VirtualSettings>)
    ensures v.None? <==> forall i :: 0 <= i < |children| ==> !Hit(children[i], mx, my)
    ensures v.Some? ==> exists i :: 0 <= i < |children| && children[i] == v.value && Hit(children[i], mx, my) &&
                                    forall j :: 0 <= j < i ==> !Hit(children[j], mx, my)
  {
    if |children| == 0 then None
    else if Hit(children[0], mx, my) then Some(children[0])
    else
      var rest := FirstHit(children[1..], mx, my);
      assert forall i :: 1 <= i < |children| ==> children[i] == children[1..][i - 1];
      rest
  }

  /** Whether the hand mouse reports a position at all: both coordinates non-negative. */
  predicate MouseActive(h: Option<HandMouse>)
  {
    h.Some? && h.value.x >= 0.0 && h.value.y >= 0.0
  }

  /**
   * The mouse position and click an update uses: the mapped position rounded
   * with `Math.round` and cast to `int`, or (-1, -1) without a click when the
   * hand mouse reports nothing.
   */
  function MouseReading(h: Option<HandMouse>): (m: (int, int, bool))
    ensures !MouseActive(h) ==> m == (-1, -1, false)
    ensures MouseActive(h) ==> m.2 == h.value.click && INT_MIN <= m.0 <= INT_MAX && INT_MIN <= m.1 <= INT_MAX
  {
    if MouseActive(h) then (Int32(Round(h.value.mapped.x)), Int32(Round(h.value.mapped.y)), h.value.click)
    else (-1, -1, false)
  }

  /** The four corners of a `width` by `height` image, clockwise from the origin. */
  function FullCorners(width: nat, height: nat): (c: seq<Point>)
    ensures |c| == 4
  {
    [Point(0.0, 0.0), Point(width as real, 0.0), Point(width as real, height as real), Point(0.0, height as real)]
  }

  class Augmentor {
    const settings: seq<ObjectSettings>
    var objectSettings: Option<ObjectSettings>
    var virtualSettings: Option<VirtualSettings>
    /** Whether the `objectImage` field holds an image. */
    var objectImageLoaded: bool
    var roi: Rect
    var maxroi: Rect
    var dstPts: seq<Point>

    constructor (settings: seq<ObjectSettings>)
      ensures this.settings == settings && objectSettings.None? && virtualSettings.None? && !objectImageLoaded
      ensures roi == Rect(0, 0, 0, 0) && maxroi == Rect(0, 0, 0, 0) && dstPts == []
    {
      this.settings := settings;
      objectSettings, virtualSettings, objectImageLoaded := None, None, false;
      roi, maxroi, dstPts := Rect(0, 0, 0, 0), Rect(0, 0, 0, 0), [];
    }

    /**
     * `acquireRoi`: tries the objects in order, `found[i]` telling whether the
     * region of object `i` is found.  The first object found becomes current
     * and its children with an empty hot spot are activated in turn, which
     * throws when one's content does not load; an object needing a missing
     * image throws; when none is found the result is `false` and the
     * selection is kept.
     */
    method AcquireRoi(found: seq<bool>) returns (r: Result<bool, string>)
      requires |found| == |settings|
      modifies `objectSettings, `virtualSettings, `objectImageLoaded
      ensures ObjectImageAfterScan(ScanFrom(settings, found, 0), old(objectImageLoaded), objectImageLoaded)
      ensures match ScanFrom(settings, found, 0)
              case Acquired(i) =>
                objectSettings == Some(settings[i]) &&
                if ActivatesCleanly(settings[i].children) then
                  r == Success(true) && virtualSettings == LastEmptyHotSpot(settings[i].children)
                else
                  r.Failure? && ActivationFailedOn(settings[i].children, virtualSettings)
              case NoneFound =>
                r == Success(false) && objectSettings == old(objectSettings) && virtualSettings == old(virtualSettings)
              case LoadFailure(i) =>
                r.Failure? && objectSettings == old(objectSettings) && virtualSettings == old(virtualSettings)
      ensures roi == old(roi) && maxroi == old(maxroi) && dstPts == old(dstPts)
    {
      var scanned := ScanObjects(found);
      match scanned
      case Acquired(i) =>
        var activated := Activate(settings[i]);
        r := if activated then Success(true) else Failure("NullPointerException: the projector image file did not load");
      case NoneFound =>
        r := Success(false);
      case LoadFailure(_) =>
        r := Failure("Could not load the object image file");
    }

    /**
     * Every object tried that is not picked by the user loads its image, so
     * the object image is loaded after a scan exactly when one was loaded
     * before or such an object was tried, unless the last load failed.
     */
    ghost predicate ObjectImageAfterScan(a: Acquisition, before: bool, after: bool)
    {
      match a
      case Acquired(i) => i < |settings| && after == (before || ImageTried(i + 1))
      case NoneFound => after == (before || ImageTried(|settings|))
      case LoadFailure(i) => i < |settings| && after == (settings[i].objectImageFile != Unloadable && (before || ImageTried(i)))
    }

    /** The loop of `acquireRoi` over the objects, up to the one found or the one whose image does not load. */
    method ScanObjects(found: seq<bool>) returns (a: Acquisition)
      requires |found| == |settings|
      modifies `objectImageLoaded
      ensures a == ScanFrom(settings, found, 0)
      ensures ObjectImageAfterScan(a, old(objectImageLoaded), objectImageLoaded)
    {
      var i := 0;
      while i < |settings|
        invariant 0 <= i <= |settings|
        invariant ScanFrom(settings, found, i) == ScanFrom(settings, found, 0)
        invariant objectImageLoaded == (old(objectImageLoaded) || ImageTried(i))
      {
        var os := settings[i];
        if os.acquisition != User {
          if os.objectImageFile == NoFile {
            return LoadFailure(i);
          }
          objectImageLoaded := os.objectImageFile == Loadable;
          if !objectImageLoaded {
            return LoadFailure(i);
          }
        }
        assert objectImageLoaded == (old(objectImageLoaded) || ImageTried(i + 1)) by {
          if os.acquisition != User {
            assert settings[i].acquisition != User;
          }
        }
        if found[i] {
          return Acquired(i);
        }
        i := i + 1;
      }
      a := NoneFound;
    }

    /** Whether one of the first `n` objects is not picked by the user, so that trying it loads its image. */
    ghost predicate ImageTried(n: nat)
      requires n <= |settings|
    {
      exists k :: 0 <= k < n && settings[k].acquisition != User
    }

    /**
     * The object `os` becomes current, and each of its children with an empty
     * hot spot in turn becomes active and has its content initialised.  The
     * last of them stays active, unless one's content does not load, which
     * throws with that one active.
     */
    method Activate(os: ObjectSettings) returns (ok: bool)
      modifies `objectSettings, `virtualSettings
      ensures objectSettings == Some(os)
      ensures ok <==> ActivatesCleanly(os.children)
      ensures ok ==> virtualSettings == LastEmptyHotSpot(os.children)
      ensures !ok ==> ActivationFailedOn(os.children, virtualSettings)
    {
      objectSettings := Some(os);
      virtualSettings := None;
      var j := 0;
      while j < |os.children|
        invariant 0 <= j <= |os.children|
        invariant virtualSettings == LastEmptyHotSpot(os.children[..j])
        invariant forall k :: 0 <= k < j && EmptyHotSpot(os.children[k]) ==> ContentLoads(os.children[k])
        invariant objectSettings == Some(os)
      {
        assert os.children[..j + 1][..j] == os.children[..j];
        var vs := os.children[j];
        if EmptyHotSpot(vs) {
          virtualSettings := Some(vs);
          if !ContentLoads(vs) {
            return false;
          }
        }
        j := j + 1;
      }
      assert os.children[..j] == os.children;
      ok := true;
    }

    /**
     * `needsHandMouse`: the active content shows a desktop screen, or some
     * content of the current object has a hot spot with an area.
     */
    method NeedsHandMouse() returns (b: bool)
      requires (virtualSettings.Some? && virtualSettings.value.desktopScreenNumber >= 0) || objectSettings.Some?
      ensures b <==> (virtualSettings.Some? && virtualSettings.value.desktopScreenNumber >= 0) ||
                     exists i :: 0 <= i < |objectSettings.value.children| && !EmptyHotSpot(objectSettings.value.children[i])
    {
      if virtualSettings.Some? && virtualSettings.value.desktopScreenNumber >= 0 {
        return true;
      }
      var children := objectSettings.value.children;
      for i := 0 to |children|
        invariant forall k :: 0 <= k < i ==> EmptyHotSpot(children[k])
      {
        var r := children[i].objectHotSpot;
        if r.Some? && r.value.width > 0 && r.value.height > 0 {
          return true;
        }
      }
      return false;
    }

    /** The content active after a click at (`mx`, `my`): the first child hit, else the one active before. */
    function SelectOnClick(mx: int, my: int, click: bool): (v: Option<VirtualSettings>)
      requires click ==> objectSettings.Some?
      reads this
      ensures !click ==> v == virtualSettings
      ensures click ==> var cs := objectSettings.value.children;
                        (forall i :: 0 <= i < |cs| ==> !Hit(cs[i], mx, my)) ==> v == virtualSettings
      ensures click ==> var cs := objectSettings.value.children;
                        (exists i :: 0 <= i < |cs| && Hit(cs[i], mx, my)) ==>
                          exists i :: 0 <= i < |cs| && v == Some(cs[i]) && Hit(cs[i], mx, my) &&
                                      forall j :: 0 <= j < i ==> !Hit(cs[j], mx, my)
    {
      if click then
        match FirstHit(objectSettings.value.children, mx, my)
        case Some(hit) => Some(hit)
        case None => virtualSettings
      else virtualSettings
    }

    /**
     * `update`: one projector frame into an image of `projectorWidth` by
     * `projectorHeight`, from a frame of `frameWidth` by `frameHeight` whose
     * corners the current parameters warp to `warpedCorners`.  The rectangle
     * the caller passes as `prevroi` is the one drawn last time into the same
     * projector image; it is replaced by this frame's rectangle.  The result
     * is the rectangle that needs redrawing, or `None` for a whole-image
     * update or when no content is active.
     */
    method Update(prevroi: CvRect?, handMouse: Option<HandMouse>, frameWidth: nat, frameHeight: nat,
                  projectorWidth: nat, projectorHeight: nat, warpedCorners: seq<Point>)
      returns (r: Result<Option<Rect>, string>, drawing: Drawing)
      requires MouseActive(handMouse) && handMouse.value.click ==> objectSettings.Some?
      modifies this, prevroi
      ensures objectSettings == old(objectSettings) && objectImageLoaded == old(objectImageLoaded)
      ensures MouseActive(handMouse) && !objectImageLoaded ==>
                r.Failure? && virtualSettings == old(virtualSettings) && drawing == NoDrawing &&
                roi == old(roi) && maxroi == old(maxroi) && dstPts == old(dstPts) &&
                (prevroi != null ==> prevroi.Value() == old(prevroi.Value()))
      ensures !(MouseActive(handMouse) && !objectImageLoaded) ==>
                var (mx, my, click) := MouseReading(handMouse);
                virtualSettings == old(SelectOnClick(mx, my, click)) &&
                (old(ClickLoadFails(mx, my, click)) ==>
                   r.Failure? && drawing == NoDrawing && roi == old(roi) && maxroi == old(maxroi) && dstPts == old(dstPts) &&
                   (prevroi != null ==> prevroi.Value() == old(prevroi.Value()))) &&
                (!old(ClickLoadFails(mx, my, click)) ==>
                   r.Success? &&
                   UpdateDone(prevroi == null, old(if prevroi == null then Rect(0, 0, 0, 0) else prevroi.Value()),
                              prevroi, old(roi), old(maxroi), old(dstPts), frameWidth, frameHeight,
                              projectorWidth, projectorHeight, warpedCorners, r.value, drawing))
      ensures r.Failure? <==> old(UpdateFails(handMouse))
    {
      if MouseActive(handMouse) && !objectImageLoaded {
        return Failure("NullPointerException: no object image to map the hand mouse through"), NoDrawing;
      }
      var (mx, my, click) := MouseReading(handMouse);
      var loaded := SelectContent(mx, my, click);
      if !loaded {
        return Failure("NullPointerException: the projector image file did not load"), NoDrawing;
      }
      r, drawing := Draw(prevroi, frameWidth, frameHeight, projectorWidth, projectorHeight, warpedCorners);
    }

    /**
     * A click at (`mx`, `my`) hits a child whose content does not load, so
     * that initialising it throws.
     */
    predicate ClickLoadFails(mx: int, my: int, click: bool)
      requires click ==> objectSettings.Some?
      reads this
    {
      click && var hit := FirstHit(objectSettings.value.children, mx, my); hit.Some? && !ContentLoads(hit.value)
    }

    /** `update` throws: the hand mouse needs the missing object image, or a click activates content that does not load. */
    predicate UpdateFails(handMouse: Option<HandMouse>)
      requires MouseActive(handMouse) && handMouse.value.click ==> objectSettings.Some?
      reads this
    {
      (MouseActive(handMouse) && !objectImageLoaded) ||
      var (mx, my, click) := MouseReading(handMouse);
      ClickLoadFails(mx, my, click)
    }

    /**
     * The click handling of `update`: the first child whose hot spot contains
     * the mouse becomes active and has its content initialised, which fails
     * when that content does not load.
     */
    method SelectContent(mx: int, my: int, click: bool) returns (loaded: bool)
      requires click ==> objectSettings.Some?
      modifies `virtualSettings
      ensures virtualSettings == old(SelectOnClick(mx, my, click))
      ensures loaded <==> !old(ClickLoadFails(mx, my, click))
    {
      loaded := true;
      if click {
        var children := objectSettings.value.children;
        for i := 0 to |children|
          invariant forall k :: 0 <= k < i ==> !Hit(children[k], mx, my)
          invariant virtualSettings == old(virtualSettings)
        {
          var hs := children[i].objectHotSpot;
          if hs.Some? && AwtContains(hs.value, mx, my) {
            FirstHitAt(children, mx, my, i);
            virtualSettings := Some(children[i]);
            loaded := ContentLoads(children[i]);
            return;
          }
        }
      }
    }

    /** The drawing part of `update`, once the active content is known. */
    method Draw(prevroi: CvRect?, frameWidth: nat, frameHeight: nat,
                projectorWidth: nat, projectorHeight: nat, warpedCorners: seq<Point>)
      returns (r: Result<Option<Rect>, string>, drawing: Drawing)
      modifies `roi, `maxroi, `dstPts, prevroi
      ensures r.Success?
      ensures UpdateDone(prevroi == null, old(if prevroi == null then Rect(0, 0, 0, 0) else prevroi.Value()),
                         prevroi, old(roi), old(maxroi), old(dstPts), frameWidth, frameHeight,
                         projectorWidth, projectorHeight, warpedCorners, r.value, drawing)
    {
      if virtualSettings.None? {
        return Success(None), NoDrawing;
      }
      if virtualSettings.value.projectionType == Tracked {
        dstPts := warpedCorners;
        if prevroi == null {
          drawing := WarpedWhole;
        } else {
          var b := CornerBounds(warpedCorners);
          roi := AlignedRoi(Padded(b, projectorWidth, projectorHeight), projectorWidth, projectorHeight);
          maxroi := Union(prevroi.Value(), roi);
          drawing := WarpedWithin(maxroi);
          prevroi.Set(roi);
        }
      } else {
        dstPts := FullCorners(projectorWidth, projectorHeight);
        drawing := if frameWidth == projectorWidth && frameHeight == projectorHeight then Copied else Resized;
      }
      r := Success(if prevroi == null then None else Some(maxroi));
    }

    /**
     * The state after an update with active content: what is drawn, the new
     * `roi`, `maxroi` and `dstPts`, the caller's rectangle, and the result.
     */
    ghost predicate UpdateDone(prevNull: bool, prev: Rect, prevroi: CvRect?, oldRoi: Rect, oldMaxroi: Rect,
                               oldDstPts: seq<Point>, frameWidth: nat, frameHeight: nat,
                               projectorWidth: nat, projectorHeight: nat, warpedCorners: seq<Point>,
                               result: Option<Rect>, drawing: Drawing)
      reads this, prevroi
    {
      (prevNull <==> prevroi == null) &&
      if virtualSettings.None? then
        result.None? && drawing == NoDrawing && roi == oldRoi && maxroi == oldMaxroi && dstPts == oldDstPts &&
        (prevroi != null ==> prevroi.Value() == prev)
      else if virtualSettings.value.projectionType == Tracked then
        dstPts == warpedCorners &&
        if prevroi == null then
          result.None? && drawing == WarpedWhole && roi == oldRoi && maxroi == oldMaxroi
        else
          roi == AlignedRoi(Padded(BoundsOf(warpedCorners), projectorWidth, projectorHeight), projectorWidth, projectorHeight) &&
          maxroi == Union(prev, roi) && drawing == WarpedWithin(maxroi) && prevroi.Value() == roi &&
          result == Some(maxroi)
      else
        dstPts == FullCorners(projectorWidth, projectorHeight) && roi == oldRoi && maxroi == oldMaxroi &&
        drawing == (if frameWidth == projectorWidth && frameHeight == projectorHeight then Copied else Resized) &&
        result == (if prevroi == null then None else Some(oldMaxroi)) &&
        (prevroi != null ==> prevroi.Value() == prev)
    }
  }

  /** A child hit at `i` with no hit before it is the first hit. */
  lemma FirstHitAt(children: seq<VirtualSettings>, mx: int, my: int, i: nat)
    requires i < |children| && Hit(children[i], mx, my)
    requires forall k :: 0 <= k < i ==> !Hit(children[k], mx, my)
    ensures FirstHit(children, mx, my) == Some(children[i])
  {
    var v := FirstHit(children, mx, my);
    var k :| 0 <= k < |children| && children[k] == v.value && Hit(children[k], mx, my) &&
             forall j :: 0 <= j < k ==> !Hit(children[j], mx, my);
    assert k == i;
  }
}
