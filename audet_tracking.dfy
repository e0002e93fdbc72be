/**
 * The tracking worker of the name.audet revision: the gain and ambient-light
 * entries set at start-up, the hysteresis audit that switches back to the
 * previous frame's parameters when they fit better, the 0/1 double buffer of
 * projector images shared by the camera and projector tasks, the region of
 * the overlay's alpha channel, the dirty rectangle of each projector update,
 * and the alpha blend of the overlay into each video frame.
 *
 * What the camera, the reflectance initializer, the transformer and the
 * aligner report is given as input: a `Session` for the one run of
 * `doInBackground`, a `FrameInput` per tracked frame.  Video frames are
 * arrays of pixels that the projector task blends in place.
 */
module AudetTracking {
  import opened JavaNumbers
  import opened Wrappers
  import opened Geometry
  import opened Aligner
  import opened ParameterRules
  import opened ProjectorBuffers
  import opened DirtyRect
  import opened PixelBlend
  import opened AlphaRegion
  import opened TimeDisplay
  import opened Chronometers

  /** Whether the content follows the tracked surface or stays where it is on the projector image. */
  datatype Projection = Tracked | Fixed

  datatype Settings = Settings(
    projection: Projection,
    hysteresisPixelCount: int,
    iteratingTimeMax: int,
    gammaSet: bool,
    projectorWidth: nat,
    projectorHeight: nat)

  /**
   * Where the projected content comes from: the generated fractal when no
   * file is named, a video with an optional overlay image, or a still image,
   * `None` when it fails to load.
   */
  datatype Content =
    | Fractal(fractal: array2<Pixel>)
    | Video(overlay: Option<array2<Pixel>>)
    | Still(still: Option<array2<Pixel>>)

  /** How the region of the object is acquired in the first camera images. */
  datatype Acquisition = User | ObjectFinder | MarkerDetector

  /** One camera grab: whether it returns an image, and the objective the aligner then measures against. */
  datatype CameraInput = CameraInput(grabbed: bool, target: Objective)

  /** One projector update: the video frame grabbed, the clock, and the corners of the content warped onto the projector image. */
  datatype ProjectorInput = ProjectorInput(video: array2<Pixel>, now: int, warpedCorners: seq<Point>)

  /**
   * One tracked frame: the clock when its iteration loop starts, the
   * outcomes of the `iterate` calls, the rounded logarithm that sets the
   * audit level, the camera grab and the projector update.
   */
  datatype FrameInput = FrameInput(loopStart: int, its: seq<Iteration>, levelShift: int, camera: CameraInput,
                                   projector: ProjectorInput)

  /**
   * What the one run of `doInBackground` is given: the content and the
   * overlay's channel count, the region acquisition and whether the object
   * image and the region are found, the created parameters and the ambient
   * light, the first frame composed, the first projector update and camera
   * grab, the aligner's starting level and first target, the tracked frames,
   * and the frame at whose start the worker is found cancelled.
   */
  datatype Session = Session(
    content: Content,
    overlayChannels: nat,
    acquisition: Acquisition,
    objectImageLoaded: bool,
    roiFound: bool,
    created: seq<real>,
    ambientLight: seq<real>,
    composeFrame: ProjectorInput,
    firstShow: ProjectorInput,
    firstGrab: CameraInput,
    initialLevel: nat,
    initialTarget: Objective,
    frames: seq<FrameInput>,
    cancelAt: nat)

  /**
   * The exceptions that end a run: the still image that does not load, the
   * object image the acquisition needs that does not load, the region of
   * interest not acquired, and the gamma applied to a grab that returned no
   * image.
   */
  datatype Error = ImageNotLoaded | ObjectImageNotLoaded | RoiNotAcquired | GammaOnFailedGrab

  /** How the camera and projector tasks of a frame used the double buffer, or the exception that ended it. */
  datatype FrameEnd = Continued(fed: Option<nat>, shown: Option<nat>) | Crashed

  /** Why the run ended. */
  datatype Exit = Cancelled | GrabFailed | Failed(error: Error)

  /**
   * The parameter initialisation: entry 8, the gain, becomes 1.0, entries 9
   * onwards take the ambient light, one `parameters.set` each, and every
   * other entry keeps the value the transformer created.
   */
  method InitParameters(created: seq<real>, ambientLight: seq<real>) returns (parameters: seq<real>)
    requires 9 + |ambientLight| <= |created|
    ensures InitialParameters(parameters, created, ambientLight)
  {
    parameters := WriteSlice(created, 8, [1.0] + ambientLight);
    assert parameters[9..9 + |ambientLight|] == parameters[8..9 + |ambientLight|][1..];
  }

  /** The created parameters with the gain 1.0 at entry 8 and the ambient light from entry 9 on. */
  predicate InitialParameters(parameters: seq<real>, created: seq<real>, ambientLight: seq<real>)
  {
    9 + |ambientLight| <= |parameters| == |created| &&
    parameters[..8] == created[..8] &&
    parameters[8] == 1.0 &&
    parameters[9..9 + |ambientLight|] == ambientLight &&
    parameters[9 + |ambientLight|..] == created[9 + |ambientLight|..]
  }

  /**
   * The pyramid level of the hysteresis audit,
   * `Math.max(p, p + (int)Math.round(x))`, where `shift` is the `long` that
   * `Math.round` returns: the cast keeps its low 32 bits and the sum wraps.
   */
  function AuditLevel(p: nat, shift: int): (newp: int)
    requires p <= INT_MAX
    ensures newp >= p
  {
    MaxInt(p, Int32(p + Int32(shift)))
  }

  /**
   * The aligner after a frame whose iteration loop stopped after call
   * `n - 1`: with the hysteresis audit, at the audit level and holding the
   * better of that call's parameters and `before`; without, at that call's
   * level and holding its parameters.
   */
  predicate AlignedAfter(its: seq<Iteration>, n: nat, audit: bool, shift: int, before: seq<real>, objective: Objective,
                         parameters: seq<real>, level: nat)
  {
    1 <= n <= |its| &&
    if audit then
      its[n - 1].levelAfter <= INT_MAX && level == AuditLevel(its[n - 1].levelAfter, shift) &&
      parameters == AuditChoice(its[n - 1].parametersAfter, before, objective, level)
    else
      level == its[n - 1].levelAfter && parameters == its[n - 1].parametersAfter
  }

  /**
   * The audit level never goes below the current level; it goes up by the
   * shift's low 32 bits when they are positive, unless the sum overflows, in
   * which case it stays.
   */
  lemma AuditLevelCases(p: nat, shift: int)
    requires p <= INT_MAX
    ensures Int32(shift) <= 0 ==> AuditLevel(p, shift) == p
    ensures p + Int32(shift) <= INT_MAX ==> AuditLevel(p, shift) == MaxInt(p, p + Int32(shift))
    ensures p + Int32(shift) > INT_MAX ==> AuditLevel(p, shift) == p
  {
  }

  /** The overlay blended into the video frames: the overlay image of a video content, if it has one. */
  function BlendSource(c: Content): array2?<Pixel>
  {
    if c.Video? && c.overlay.Some? then c.overlay.value else null
  }

  /** The image `nextFrameImage` starts from when no video plays. */
  function StillImage(c: Content): array2?<Pixel>
  {
    match c
    case Fractal(img) => img
    case Video(o) => if o.Some? then o.value else null
    case Still(o) => if o.Some? then o.value else null
  }

  /** Every pixel of `img` has `n` channels. */
  predicate HasChannels(img: array2<Pixel>, n: nat)
    reads img
  {
    forall i, j :: 0 <= i < img.Length0 && 0 <= j < img.Length1 ==> |img[i, j]| == n
  }

  /** Content the worker can load: an overlay with 1 to 4 channels, all pixels alike, and sizes that fit an `int`. */
  predicate ContentOk(c: Content, channels: nat)
    reads BlendSource(c)
  {
    var o := BlendSource(c);
    o != null ==> 1 <= channels <= 4 && HasChannels(o, channels) && o.Length0 <= INT_MAX && o.Length1 <= INT_MAX
  }

  /**
   * A video frame the blend can walk: a different image from the overlay, of
   * the overlay's size, which the video grabber is set to.
   */
  predicate VideoOk(video: array2<Pixel>, overlay: array2?<Pixel>)
  {
    overlay != null ==> video != overlay && video.Length0 == overlay.Length0 && video.Length1 == overlay.Length1
  }

  /**
   * What the blend leaves in the frame `video`: with no overlay it is
   * unchanged; otherwise each pixel of the window the loop visits is the
   * blend of the overlay's pixel over the old one, and every other pixel is
   * unchanged.
   */
  twostate predicate Composed(overlay: array2?<Pixel>, new roi: Option<Rect>, video: array2<Pixel>)
    requires overlay != null && roi.Some? ==>
               WindowFits(roi.value, overlay.Length0, overlay.Length1, video.Length0, video.Length1)
    reads overlay, video
  {
    if overlay == null then
      forall i, j :: 0 <= i < video.Length0 && 0 <= j < video.Length1 ==> video[i, j] == old(video[i, j])
    else
      var w := BlendWindow(roi, overlay.Length0, overlay.Length1, video.Length0, video.Length1);
      var rows := RowsVisited(w, overlay.Length0, video.Length0);
      forall i, j :: 0 <= i < video.Length0 && 0 <= j < video.Length1 ==>
        video[i, j] == if Blended(w, rows, i, j) then BlendPixelAsWritten(overlay[i, j], old(video[i, j]), IdentityTable())
                       else old(video[i, j])
  }

  /**
   * What one draw does to a chronometer, if there is one: the first draw
   * latches the start time and shows 0 ms, later ones show the time since;
   * the placement is anchored in a `width` by `height` frame.  `elapsed` is
   * the time shown, which the chronometer draws as `Decompose(elapsed)`.
   */
  twostate predicate Drawn(c: Chronometer?, now: int, width: int, height: int, new elapsed: Option<int>)
    reads c, (if c == null then {} else {c.roi})
  {
    if c == null then elapsed == None
    else
      var start := old(c.startTime);
      c.startTime == (if start < 0 then now else start) &&
      elapsed == Some(if start < 0 then 0 else now - start) &&
      c.roi.x == Anchor(old(c.roi.x), width) && c.roi.y == Anchor(old(c.roi.y), height) &&
      c.roi.width == old(c.roi.width) && c.roi.height == old(c.roi.height)
  }

  class TrackingWorker {
    const settings: Settings
    const levels: nat
    const chronometerBounds: AwtRectangle?
    const prevroi: array<CvRect>
    var aligner: ImageAligner?
    var parameters: seq<real>
    var lastParameters: seq<real>
    var tempParameters: seq<real>
    var projectorImageIndex: nat
    var grabbed: bool
    var roi: Rect
    var maxroi: Rect
    var overlay: array2?<Pixel>
    var overlayRoi: Option<Rect>
    var playsVideo: bool
    var chronometer: Chronometer?

    /** The two previous rectangles start empty. */
    constructor (settings: Settings, levels: nat, chronometerBounds: AwtRectangle?)
      requires levels <= INT_MAX
      ensures this.settings == settings && this.levels == levels && this.chronometerBounds == chronometerBounds
      ensures fresh(prevroi) && prevroi.Length == 2 && fresh(prevroi[0]) && fresh(prevroi[1])
      ensures prevroi[0] != prevroi[1]
      ensures prevroi[0].Value() == Rect(0, 0, 0, 0) && prevroi[1].Value() == Rect(0, 0, 0, 0)
      ensures aligner == null && chronometer == null && projectorImageIndex == 0
    {
      this.settings := settings;
      this.levels := levels;
      this.chronometerBounds := chronometerBounds;
      var first := new CvRect(Rect(0, 0, 0, 0));
      var second := new CvRect(Rect(0, 0, 0, 0));
      prevroi := new CvRect[2](i => if i == 0 then first else second);
      aligner := null;
      parameters, lastParameters, tempParameters := [], [], [];
      projectorImageIndex := 0;
      grabbed := false;
      roi, maxroi := Rect(0, 0, 0, 0), Rect(0, 0, 0, 0);
      overlay, overlayRoi, playsVideo := null, None, false;
      chronometer := null;
    }

    /** Two distinct previous rectangles, one per projector image, and a pyramid that fits an `int`. */
    predicate BuffersOk()
      reads `projectorImageIndex, prevroi
    {
      prevroi.Length == 2 && prevroi[0] != prevroi[1] && projectorImageIndex < 2 && levels <= INT_MAX
    }

    /** The overlay blended into the video frames, when a video plays. */
    function Blender(): array2?<Pixel>
      reads `playsVideo, `overlay
    {
      if playsVideo then overlay else null
    }

    /**
     * Without a video there is an image to project; an overlay to blend has 1
     * to 4 channels; its region is a window the blend can walk over it.
     */
    predicate OverlayOk()
      reads `playsVideo, `overlay, `overlayRoi
    {
      (!playsVideo ==> overlay != null) &&
      (overlayRoi.Some? ==> overlay != null &&
                            WindowFits(overlayRoi.value, overlay.Length0, overlay.Length1, overlay.Length0, overlay.Length1))
    }

    /** The buffers and the overlay in order, and an aligner over this worker's pyramid. */
    predicate Ready()
      reads `projectorImageIndex, prevroi, `playsVideo, `overlay, `overlayRoi, `aligner
    {
      BuffersOk() && OverlayOk() && aligner != null && aligner.levels == levels
    }

    /** A worker that is tracking: ready, with the aligner on its pyramid. */
    predicate Valid()
      reads `projectorImageIndex, prevroi, `playsVideo, `overlay, `overlayRoi, `aligner, aligner
    {
      Ready() && aligner.Valid()
    }

    /** The placement a chronometer draw moves, when there is a chronometer. */
    function ChronoRoi(): set<AwtRectangle>
      reads `chronometer
    {
      if chronometer == null then {} else {chronometer.roi}
    }

    /**
     * `nextFrameImage`: the next video frame with the overlay blended in over
     * its region, or the still image when no video plays; the chronometer,
     * if any, is drawn on it.
     */
    method NextFrameImage(p: ProjectorInput) returns (frame: array2<Pixel>, elapsed: Option<int>)
      requires OverlayOk() && VideoOk(p.video, Blender())
      modifies p.video, chronometer, ChronoRoi()
      ensures frame == (if playsVideo then p.video else overlay)
      ensures VideoOk(p.video, Blender())
      ensures Composed(Blender(), overlayRoi, p.video)
      ensures Drawn(chronometer, p.now, frame.Length1, frame.Length0, elapsed)
    {
      if playsVideo {
        frame := p.video;
        if overlay != null {
          var rows := BlendInto(overlay, frame, overlayRoi, IdentityTable());
        }
      } else {
        frame := overlay;
      }
      elapsed := DrawChronometer(p.now, frame.Length1, frame.Length0);
    }

    /** The chronometer's draw on a `width` by `height` frame, when there is a chronometer. */
    method DrawChronometer(now: int, width: int, height: int) returns (elapsed: Option<int>)
      modifies chronometer, ChronoRoi()
      ensures Drawn(chronometer, now, width, height, elapsed)
    {
      elapsed := None;
      if chronometer != null {
        elapsed := Some(if chronometer.startTime < 0 then 0 else now - chronometer.startTime);
        var shown, text := chronometer.Draw(now, width, height);
      }
    }

    /**
     * `doProjector`: the next frame, then the dirty rectangle of the warped
     * quad on projector image `projectorImageIndex`, its union with that
     * image's previous rectangle, which the warp redraws, and the previous
     * rectangle overwritten; the other image's rectangle is not touched.
     */
    method DoProjector(p: ProjectorInput) returns (frame: array2<Pixel>, elapsed: Option<int>)
      requires BuffersOk() && OverlayOk() && VideoOk(p.video, Blender())
      modifies `roi, `maxroi, prevroi[projectorImageIndex], p.video, chronometer, ChronoRoi()
      ensures BuffersOk() && OverlayOk()
      ensures VideoOk(p.video, Blender())
      ensures Composed(Blender(), overlayRoi, p.video)
      ensures Drawn(chronometer, p.now, frame.Length1, frame.Length0, elapsed)
      ensures roi == DirtyRoiAsWritten(p.warpedCorners, settings.projectorWidth, settings.projectorHeight)
      ensures maxroi == Union(old(prevroi[projectorImageIndex].Value()), roi)
      ensures prevroi[projectorImageIndex].Value() == roi
      ensures prevroi[OtherSlot(projectorImageIndex)].Value() == old(prevroi[OtherSlot(projectorImageIndex)].Value())
    {
      
      frame, elapsed := NextFrameImage(p);
      UpdateRoi(p.warpedCorners);
    }

    /**
     * The rectangles of `doProjector`: the dirty rectangle of the warped
     * corners, whose right edge is not clamped to the image, its union with the previous rectangle of the current image,
     * and that previous rectangle overwritten.
     */
    method UpdateRoi(corners: seq<Point>)
      requires BuffersOk()
      modifies `roi, `maxroi, prevroi[projectorImageIndex]
      ensures roi == DirtyRoiAsWritten(corners, settings.projectorWidth, settings.projectorHeight)
      ensures 0 <= roi.x && roi.x % 16 == 0 && 0 <= roi.y && roi.Bottom() <= settings.projectorHeight &&
              roi.Right() <= settings.projectorWidth + 15 &&
              (settings.projectorWidth % 16 == 0 ==> roi.Right() <= settings.projectorWidth)
      ensures forall i :: 0 <= i < |corners| && OnImage(corners[i], settings.projectorWidth, settings.projectorHeight) ==>
                Encloses(roi, corners[i])
      ensures maxroi == Union(old(prevroi[projectorImageIndex].Value()), roi)
      ensures prevroi[projectorImageIndex].Value() == roi
      ensures prevroi[OtherSlot(projectorImageIndex)].Value() == old(prevroi[OtherSlot(projectorImageIndex)].Value())
    {
      var b := CornerBounds(corners);
      roi := AlignedRoiUnclamped(Padded(b, settings.projectorWidth, settings.projectorHeight));
      DirtyRoiAsWrittenBounds(corners, settings.projectorWidth, settings.projectorHeight);
      maxroi := Union(prevroi[projectorImageIndex].Value(), roi);
      prevroi[projectorImageIndex].Set(roi);
    }

    /**
     * `doCamera`: unless the projection is fixed, the transformer is given
     * the other projector image, `(projectorImageIndex+1)%2`; then the grab.
     * The gamma is applied before the grab is checked, so a failed grab with
     * a gamma other than 1 throws; a good grab becomes the aligner's target
     * when there is an aligner.
     */
    method DoCamera(c: CameraInput) returns (fed: Option<nat>, ok: bool)
      requires projectorImageIndex < 2 && (aligner != null ==> aligner.Valid())
      modifies aligner, `grabbed
      ensures fed == (if settings.projection == Tracked then Some(OtherSlot(projectorImageIndex)) else None)
      ensures grabbed == c.grabbed
      ensures ok <==> c.grabbed || !settings.gammaSet
      ensures aligner != null ==>
                aligner.Valid() && aligner.parameters == old(aligner.parameters) && aligner.level == old(aligner.level) &&
                aligner.objective == (if c.grabbed then c.target else old(aligner.objective))
    {
      fed := None;
      if settings.projection != Fixed {
        fed := Some(OtherSlot(projectorImageIndex));
      }
      grabbed := c.grabbed;
      if settings.gammaSet && !grabbed {
        return fed, false;
      }
      if grabbed && aligner != null {
        aligner.SetTargetImage(c.target);
      }
      ok := true;
    }

    /**
     * The hysteresis audit: the aligner moves to the audit level, and keeps
     * the new parameters only when their RMSE there is strictly below that
     * of the parameters kept at the previous audit; otherwise it goes back
     * to those.  Either way the kept parameters are the aligner's afterwards.
     */
    method Audit(shift: int)
      requires Valid() && parameters == aligner.parameters && AuditLevel(aligner.level, shift) < levels
      modifies aligner, `tempParameters, `lastParameters
      ensures Valid() && aligner.objective == old(aligner.objective)
      ensures aligner.level == AuditLevel(old(aligner.level), shift)
      ensures aligner.parameters == AuditChoice(old(aligner.parameters), old(lastParameters), aligner.objective, aligner.level)
      ensures lastParameters == aligner.parameters
      ensures tempParameters == old(aligner.parameters)
    {
      var p := aligner.level;
      var newp := AuditLevel(p, shift);
      if newp != p {
        aligner.SetPyramidLevel(newp);
      }
      var rmse := aligner.RMSE();
      tempParameters := parameters;
      aligner.SetParameters(lastParameters);
      var lastRmse := aligner.RMSE();
      if Less(rmse, lastRmse) {
        aligner.SetParameters(tempParameters);
        lastParameters := tempParameters;
      }
    }

    /**
     * The camera task then the projector task of a tracked frame, on the
     * current projector image.
     */
    method CameraAndProjector(f: FrameInput) returns (end: FrameEnd)
      requires Valid() && VideoOk(f.projector.video, Blender()) && settings.projection == Tracked
      modifies aligner, `grabbed, `roi, `maxroi, prevroi[projectorImageIndex], f.projector.video,
               chronometer, ChronoRoi()
      ensures Valid() && aligner.parameters == old(aligner.parameters) && aligner.level == old(aligner.level)
      ensures end.Crashed? <==> !f.camera.grabbed && settings.gammaSet
      ensures end.Continued? ==>
                grabbed == f.camera.grabbed && end == Continued(Some(OtherSlot(projectorImageIndex)), Some(projectorImageIndex))
    {
      var fed, ok := DoCamera(f.camera);
      if !ok {
        return Crashed;
      }
      var frame, elapsed := DoProjector(f.projector);
      end := Continued(fed, Some(projectorImageIndex));
    }

    /**
     * The two tasks of a frame: the camera task alone for a fixed
     * projection, the camera and projector tasks otherwise; then the two
     * projector images swap.
     */
    method RunTasks(f: FrameInput) returns (end: FrameEnd)
      requires Valid() && VideoOk(f.projector.video, Blender())
      modifies aligner, `grabbed, `projectorImageIndex, `roi, `maxroi, prevroi[0], prevroi[1], f.projector.video,
               chronometer, ChronoRoi()
      ensures Valid() && aligner.parameters == old(aligner.parameters) && aligner.level == old(aligner.level)
      ensures end.Crashed? <==> !f.camera.grabbed && settings.gammaSet
      ensures end.Continued? ==>
                grabbed == f.camera.grabbed && projectorImageIndex == OtherSlot(old(projectorImageIndex)) &&
                end.fed == (if settings.projection == Tracked then Some(projectorImageIndex) else None) &&
                end.shown == (if settings.projection == Tracked then Some(old(projectorImageIndex)) else None)
    {
      if settings.projection == Tracked {
        end := CameraAndProjector(f);
      } else {
        var fed, ok := DoCamera(f.camera);
        if !ok {
          return Crashed;
        }
        end := Continued(fed, None);
      }
      if end.Continued? {
        OtherSlotInvolution(projectorImageIndex);
        projectorImageIndex := OtherSlot(projectorImageIndex);
      }
    }

    /** A frame whose calls stay on the pyramid, whose audit level does too, and whose iteration loop stops. */
    predicate FrameOk(f: FrameInput)
    {
      (forall k :: 0 <= k < |f.its| ==>
         f.its[k].levelAfter < levels &&
         (settings.hysteresisPixelCount > 0 ==> f.its[k].levelAfter <= INT_MAX && AuditLevel(f.its[k].levelAfter, f.levelShift) < levels)) &&
      exists k :: 0 <= k < |f.its| && StopsByDeadline(f.its, k, f.loopStart, settings.iteratingTimeMax)
    }

    /**
     * The aligner's part of a frame: `iterate` until the wall-clock deadline,
     * the parameters read back, and the audit when a hysteresis pixel count
     * is set.
     */
    method Align(f: FrameInput) returns (iterations: nat)
      requires Valid() && FrameOk(f)
      modifies aligner, `parameters, `lastParameters, `tempParameters
      ensures Valid() && aligner.objective == old(aligner.objective)
      ensures FirstStopByDeadline(f.its, iterations, f.loopStart, settings.iteratingTimeMax)
      ensures parameters == f.its[iterations - 1].parametersAfter
      ensures AlignedAfter(f.its, iterations, settings.hysteresisPixelCount > 0, f.levelShift, old(lastParameters),
                           aligner.objective, aligner.parameters, aligner.level)
      ensures settings.hysteresisPixelCount > 0 ==> lastParameters == aligner.parameters && tempParameters == parameters
      ensures settings.hysteresisPixelCount <= 0 ==> lastParameters == old(lastParameters)
    {
      iterations := IterateUntilDeadline(aligner, f.its, f.loopStart, settings.iteratingTimeMax);
      parameters := aligner.parameters;
      if settings.hysteresisPixelCount > 0 {
        Audit(f.levelShift);
      }
    }

    /** Whether the grab before frame `n` of a session succeeded: the first grab, or the previous frame's. */
    function LastGrab(s: Session, n: nat): bool
      requires n <= |s.frames|
    {
      if n == 0 then s.firstGrab.grabbed else s.frames[n - 1].camera.grabbed
    }

    /**
     * What the frame loop keeps after `n` frames: a valid worker blending the
     * session's overlay into frames it can walk, projector image `n % 2`
     * next, the last grab recorded, and, with an audit, the kept parameters
     * in the aligner.
     */
    ghost predicate Running(s: Session, n: nat)
      reads this, aligner, prevroi
    {
      n <= |s.frames| && Valid() && Blender() == BlendSource(s.content) &&
      (forall k :: 0 <= k < |s.frames| ==> VideoOk(s.frames[k].projector.video, Blender())) &&
      projectorImageIndex == n % 2 && grabbed == LastGrab(s, n) &&
      (settings.hysteresisPixelCount > 0 && n > 0 ==> lastParameters == aligner.parameters)
    }

    /** Frame `n` of a session: the aligner's part, then the worker tasks. */
    method TrackFrame(s: Session, n: nat) returns (end: FrameEnd, ghost iterations: nat)
      requires n < |s.frames| && Running(s, n) && FrameOk(s.frames[n])
      modifies aligner, `parameters, `lastParameters, `tempParameters, `grabbed, `projectorImageIndex, `roi, `maxroi,
               prevroi[0], prevroi[1], s.frames[n].projector.video, chronometer, ChronoRoi()
      ensures aligner == old(aligner)
      ensures end.Crashed? <==> !s.frames[n].camera.grabbed && settings.gammaSet
      ensures FirstStopByDeadline(s.frames[n].its, iterations, s.frames[n].loopStart, settings.iteratingTimeMax)
      ensures parameters == s.frames[n].its[iterations - 1].parametersAfter
      ensures AlignedAfter(s.frames[n].its, iterations, settings.hysteresisPixelCount > 0, s.frames[n].levelShift,
                           old(lastParameters), old(aligner.objective), aligner.parameters, aligner.level)
      ensures end.Continued? ==> Running(s, n + 1)
    {
      iterations := Align(s.frames[n]);
      end := RunTasks(s.frames[n]);
    }

    /** Frame `n` of a session, as the frame loop sees it: whether it crashed and what the loop keeps. */
    method SessionFrame(s: Session, n: nat) returns (end: FrameEnd)
      requires n < |s.frames| && Running(s, n) && FrameOk(s.frames[n])
      modifies aligner, `parameters, `lastParameters, `tempParameters, `grabbed, `projectorImageIndex, `roi, `maxroi,
               prevroi[0], prevroi[1], s.frames[n].projector.video, chronometer, ChronoRoi()
      ensures aligner == old(aligner)
      ensures end.Crashed? <==> !s.frames[n].camera.grabbed && settings.gammaSet
      ensures end.Continued? ==> Running(s, n + 1)
    {
      var e, _ := TrackFrame(s, n);
      end := e;
    }

    /** Every video frame of a session. */
    ghost function Videos(s: Session): set<array2<Pixel>>
    {
      (set k | 0 <= k < |s.frames| :: s.frames[k].projector.video) + {s.composeFrame.video, s.firstShow.video}
    }

    /** A session the worker can run: sizes that fit, levels on the pyramid, frames that each stop, and frames the blend can walk. */
    predicate SessionOk(s: Session)
      reads BlendSource(s.content)
    {
      9 + |s.ambientLight| <= |s.created| && s.initialLevel < levels && s.cancelAt <= |s.frames| &&
      ContentOk(s.content, s.overlayChannels) &&
      VideoOk(s.composeFrame.video, BlendSource(s.content)) && VideoOk(s.firstShow.video, BlendSource(s.content)) &&
      forall k :: 0 <= k < |s.frames| ==> FrameOk(s.frames[k]) && VideoOk(s.frames[k].projector.video, BlendSource(s.content))
    }

    /**
     * The frame loop of `doInBackground`: frames run while the worker is not
     * cancelled and the last grab succeeded; an exception ends the run.
     */
    method TrackFrames(s: Session, ghost videos: set<array2<Pixel>>) returns (exit: Exit, framesRun: nat)
      requires s.cancelAt <= |s.frames| && Running(s, 0)
      requires forall k :: 0 <= k < |s.frames| ==> FrameOk(s.frames[k]) && s.frames[k].projector.video in videos
      modifies aligner, `parameters, `lastParameters, `tempParameters, `grabbed, `projectorImageIndex, `roi, `maxroi,
               prevroi[0], prevroi[1], videos, chronometer, ChronoRoi()
      ensures framesRun <= s.cancelAt
      ensures exit == Cancelled <==> !exit.Failed? && framesRun == s.cancelAt
      ensures exit == GrabFailed ==> framesRun < s.cancelAt && !LastGrab(s, framesRun)
      ensures exit.Failed? ==>
                exit.error == GammaOnFailedGrab && 1 <= framesRun && !s.frames[framesRun - 1].camera.grabbed && settings.gammaSet
      ensures !exit.Failed? ==> Running(s, framesRun)
    {
      framesRun := 0;
      while framesRun < s.cancelAt && grabbed
        invariant framesRun <= s.cancelAt && Running(s, framesRun)
        invariant aligner == old(aligner) && chronometer == old(chronometer)
        invariant forall k :: 0 <= k < |s.frames| ==> FrameOk(s.frames[k])
        decreases s.cancelAt - framesRun
      {
        var end := SessionFrame(s, framesRun);
        framesRun := framesRun + 1;
        if end.Crashed? {
          return Failed(GammaOnFailedGrab), framesRun;
        }
      }
      exit := if framesRun == s.cancelAt then Cancelled else GrabFailed;
    }
  
    /**
     * The content loading of `doInBackground`: the fractal, or a video with
     * its overlay image, whose region becomes the one the alpha scan computes
     * when it has an alpha channel, or a still image, which throws when it
     * does not load.
     */
    method LoadContent(c: Content, channels: nat) returns (failure: Option<Error>)
      requires ContentOk(c, channels)
      modifies `overlay, `overlayRoi, `playsVideo
      ensures failure.Some? <==> c.Still? && c.still.None?
      ensures failure.Some? ==> failure.value == ImageNotLoaded
      ensures failure.None? ==> OverlayOk() && playsVideo == c.Video? && overlay == StillImage(c) &&
                                Blender() == BlendSource(c)
      ensures overlayRoi.Some? <==> failure.None? && BlendSource(c) != null && channels == 4
      ensures overlayRoi.Some? && AnyVisible(overlay) ==>
                overlayRoi.value.Right() < overlay.Length1 && overlayRoi.value.Bottom() < overlay.Length0 &&
                BoundingBox(overlay, Rect(overlayRoi.value.x, overlayRoi.value.y,
                                          overlayRoi.value.width + 1, overlayRoi.value.height + 1))
      ensures overlayRoi.Some? && !AnyVisible(overlay) ==> overlayRoi.value == Rect(INT_MAX, INT_MAX, 1, 1)
    {
      failure := None;
      overlayRoi := None;
      match c
      case Fractal(img) =>
        overlay, playsVideo := img, false;
      case Video(o) =>
        overlay, playsVideo := if o.Some? then o.value else null, true;
        if o.Some? && channels == 4 {
          var region := AlphaRegionOf(o.value);
          overlayRoi := Some(region);
        }
      case Still(o) =>
        if o.None? {
          return Some(ImageNotLoaded);
        }
        overlay, playsVideo := o.value, false;
    }

    /** Whether the set-up that `Prepare` does throws. */
    predicate PrepareFails(s: Session)
    {
      (s.content.Still? && s.content.still.None?) || InitialiseFails(s)
    }

    /** Whether the checks of `Initialise` throw. */
    predicate InitialiseFails(s: Session)
    {
      (s.acquisition != User && !s.objectImageLoaded) || !s.roiFound
    }

    /**
     * The set-up of `doInBackground` after the content is loaded: projector
     * image 0 current, the object image the acquisition needs, the region of
     * interest, the initial parameters, and the chronometer when its bounds
     * are not empty; each check that fails throws.
     */
    method Initialise(s: Session) returns (failure: Option<Error>)
      requires 9 + |s.ambientLight| <= |s.created|
      modifies `projectorImageIndex, `parameters, `lastParameters, `tempParameters, `chronometer
      ensures projectorImageIndex == 0
      ensures failure.Some? <==> InitialiseFails(s)
      ensures failure.None? ==>
                InitialParameters(parameters, s.created, s.ambientLight) && lastParameters == tempParameters == parameters
      ensures failure.None? ==>
                (chronometer != null <==> chronometerBounds != null && chronometerBounds.width > 0 && chronometerBounds.height > 0)
      ensures failure.None? && chronometer != null ==> fresh(chronometer) && fresh(chronometer.roi) && chronometer.startTime < 0
    {
      projectorImageIndex := 0;
      if s.acquisition != User && !s.objectImageLoaded {
        return Some(ObjectImageNotLoaded);
      }
      if !s.roiFound {
        return Some(RoiNotAcquired);
      }
      parameters := InitParameters(s.created, s.ambientLight);
      lastParameters, tempParameters := parameters, parameters;
      var r := chronometerBounds;
      if r != null && r.width > 0 && r.height > 0 {
        chronometer := new Chronometer.Unstarted(r);
      } else {
        chronometer := null;
      }
      failure := None;
    }

    /**
     * The set-up of `doInBackground` up to the tracking: the content, then
     * `Initialise`, then the first frame composed, on which the chronometer
     * starts.
     */
    method Prepare(s: Session) returns (failure: Option<Error>)
      requires BuffersOk() && 9 + |s.ambientLight| <= |s.created| && ContentOk(s.content, s.overlayChannels)
      requires VideoOk(s.composeFrame.video, BlendSource(s.content))
      modifies `overlay, `overlayRoi, `playsVideo, `projectorImageIndex, `parameters, `lastParameters, `tempParameters,
               `chronometer, s.composeFrame.video
      ensures BuffersOk()
      ensures failure.Some? <==> PrepareFails(s)
      ensures s.content.Still? && s.content.still.None? ==> failure == Some(ImageNotLoaded)
      ensures failure.None? ==> OverlayOk() && Blender() == BlendSource(s.content) && projectorImageIndex == 0
      ensures failure.None? ==>
                InitialParameters(parameters, s.created, s.ambientLight) && lastParameters == tempParameters == parameters
      ensures failure.None? ==>
                (chronometer != null <==> chronometerBounds != null && chronometerBounds.width > 0 && chronometerBounds.height > 0)
      ensures failure.None? && chronometer != null ==>
                fresh(chronometer) && fresh(chronometer.roi) && chronometer.startTime == s.composeFrame.now
      ensures failure.None? ==> Composed(Blender(), overlayRoi, s.composeFrame.video)
    {
      failure := LoadContent(s.content, s.overlayChannels);
      if failure.Some? {
        return;
      }
      failure := Initialise(s);
      if failure.None? {
        var frame, elapsed := NextFrameImage(s.composeFrame);
      }
    }

    /** The start of the tracking, first half: for a tracked projection, a projector update of image 0. */
    method ShowFirst(p: ProjectorInput)
      requires BuffersOk() && OverlayOk() && VideoOk(p.video, Blender())
      modifies `projectorImageIndex, `roi, `maxroi, prevroi[0], p.video, chronometer, ChronoRoi()
      ensures BuffersOk() && OverlayOk()
      ensures settings.projection == Tracked ==>
                projectorImageIndex == 0 && Composed(Blender(), overlayRoi, p.video) &&
                prevroi[0].Value() == DirtyRoiAsWritten(p.warpedCorners, settings.projectorWidth, settings.projectorHeight)
    {
      if settings.projection == Tracked {
        projectorImageIndex := 0;
        var frame, elapsed := DoProjector(p);
      }
    }

    /**
     * The start of the tracking, second half: a camera grab with image 1
     * current, then an aligner holding the parameters, measuring against the
     * grabbed image, or the last initialisation image when the grab returned
     * none, and image 0 current.  A failed grab with a gamma throws.
     */
    method StartAligner(s: Session) returns (ok: bool)
      requires BuffersOk() && OverlayOk() && aligner == null && s.initialLevel < levels
      modifies `aligner, `projectorImageIndex, `grabbed
      ensures BuffersOk() && grabbed == s.firstGrab.grabbed
      ensures ok <==> s.firstGrab.grabbed || !settings.gammaSet
      ensures ok ==> Valid() && fresh(aligner) && projectorImageIndex == 0
      ensures ok ==> aligner.parameters == parameters && aligner.level == s.initialLevel &&
                     aligner.objective == if s.firstGrab.grabbed then s.firstGrab.target else s.initialTarget
    {
      projectorImageIndex := 1;
      var fed;
      fed, ok := DoCamera(s.firstGrab);
      if ok {
        var target := if s.firstGrab.grabbed then s.firstGrab.target else s.initialTarget;
        aligner := new ImageAligner(parameters, s.initialLevel, levels, target);
        projectorImageIndex := 0;
      }
    }

    /** Whether the set-up throws before the frame loop: `Prepare` does, or the first grab fails with a gamma. */
    predicate SetUpFails(s: Session)
    {
      PrepareFails(s) || (!s.firstGrab.grabbed && settings.gammaSet)
    }

    /**
     * Everything in `doInBackground` before the frame loop: `Prepare`, no
     * aligner, `ShowFirst`, then `StartAligner`.  On success the worker is
     * ready to run the session's first frame.
     */
    method SetUp(s: Session) returns (failure: Option<Error>)
      requires BuffersOk() && SessionOk(s)
      modifies this, prevroi[0], s.composeFrame.video, s.firstShow.video
      ensures failure.Some? <==> SetUpFails(s)
      ensures s.content.Still? && s.content.still.None? ==> failure == Some(ImageNotLoaded)
      ensures failure.None? ==> Running(s, 0) && fresh(aligner)
      ensures failure.None? && chronometer != null ==> fresh(chronometer) && fresh(chronometer.roi)
    {
      failure := Prepare(s);
      if failure.Some? {
        return;
      }
      aligner := null;
      ShowFirst(s.firstShow);
      var ok := StartAligner(s);
      if !ok {
        return Some(GammaOnFailedGrab);
      }
    }

    /**
     * `doInBackground`: the set-up, then the frame loop.  An exception in
     * the set-up ends the run before any frame; otherwise the run ends as the
     * frame loop does.
     */
    method DoInBackground(s: Session) returns (exit: Exit, framesRun: nat)
      requires BuffersOk() && SessionOk(s)
      modifies this, prevroi[0], prevroi[1], Videos(s)
      ensures framesRun <= s.cancelAt
      ensures SetUpFails(s) ==> exit.Failed? && framesRun == 0
      ensures s.content.Still? && s.content.still.None? ==> exit == Failed(ImageNotLoaded)
      ensures exit.Failed? && framesRun > 0 ==>
                exit.error == GammaOnFailedGrab && !s.frames[framesRun - 1].camera.grabbed && settings.gammaSet
      ensures !SetUpFails(s) ==>
                (exit == Cancelled <==> !exit.Failed? && framesRun == s.cancelAt) &&
                (exit == GrabFailed ==> framesRun < s.cancelAt && !LastGrab(s, framesRun)) &&
                (exit.Failed? ==> 1 <= framesRun) &&
                (!exit.Failed? ==> Running(s, framesRun))
    {
      var failure := SetUp(s);
      if failure.Some? {
        return Failed(failure.value), 0;
      }
      exit, framesRun := TrackFrames(s, Videos(s));
    }
}
}
