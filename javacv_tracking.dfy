/**
 * The tracking worker of the com.googlecode.javacv revision: the gain and
 * ambient-light entries of the parameter vector, the per-frame reset and
 * audit around the aligner, the RMSE guard that ends tracking when the object
 * is lost, the millisecond time budget, the 0/1 double buffer of projector
 * images shared by the camera and projector tasks, and the restart loop
 * around `doTracking`.
 *
 * The reality augmentor is the one of the same package (`RealityAugmentor`).
 * What the camera, the reflectance initializer, the transformer, the aligner
 * and the hand mouse report is given as input: a `Session` per call of
 * `doTracking`, a `FrameInput` per tracked frame.
 */
module JavacvTracking {
  import opened JavaNumbers
  import opened Wrappers
  import opened Geometry
  import opened Aligner
  import opened ParameterRules
  import opened ProjectorBuffers
  import opened RealityAugmentor

  datatype Settings = Settings(
    iteratingTimeMax: int,
    auditPyramidLevel: int,
    lostObjectThreshold: real,
    gamma: real,
    projectorWidth: nat,
    projectorHeight: nat)

  /**
   * The parameter initialisation: the gain entry just before the last
   * `|ambientLight|` entries becomes 1.0, those entries take the ambient
   * light, and the rest keeps the values the transformer created.
   */
  method InitParameters(created: seq<real>, ambientLight: seq<real>)
    returns (parameters: seq<real>, lastParameters: seq<real>, tempParameters: seq<real>)
    requires |ambientLight| + 1 <= |created|
    ensures |parameters| == |created|
    ensures parameters[..|created| - |ambientLight| - 1] == created[..|created| - |ambientLight| - 1]
    ensures parameters[|created| - |ambientLight| - 1] == 1.0
    ensures parameters[|created| - |ambientLight|..] == ambientLight
    ensures lastParameters == parameters && tempParameters == parameters
  {
    var start := |created| - |ambientLight| - 1;
    parameters := WriteSlice(created, start, [1.0] + ambientLight);
    assert parameters[start..] == [1.0] + ambientLight by {
      assert parameters[start..] == parameters[start..start + |ambientLight| + 1];
    }
    assert parameters[start + 1..] == parameters[start..][1..];
    lastParameters := parameters;
    tempParameters := parameters;
  }

  /** One camera grab: whether it returns an image, and the objective the aligner then measures against. */
  datatype CameraInput = CameraInput(grabbed: bool, target: Objective)

  /** One projector update: the hand-mouse reading, the size of the content frame, and the warped corners. */
  datatype ProjectorInput = ProjectorInput(handMouse: Option<HandMouse>, frameWidth: nat, frameHeight: nat,
                                           warpedCorners: seq<Point>)

  /** What one tracked frame reports: the outcomes of the `iterate` calls, the camera grab and the projector update. */
  datatype FrameInput = FrameInput(its: seq<Iteration>, camera: CameraInput, projector: ProjectorInput)

  /**
   * What one call of `doTracking` is given: whether each object's region is
   * found, the created parameters and the ambient light, the first composed
   * projector image, the first projector update and camera grab, the
   * aligner's starting level and what the undistorted camera buffer holds
   * before the first grab, the tracked frames, and the
   * frame at whose start the worker is found cancelled.
   */
  datatype Session = Session(
    found: seq<bool>,
    created: seq<real>,
    ambientLight: seq<real>,
    compose: ProjectorInput,
    firstShow: ProjectorInput,
    firstGrab: CameraInput,
    initialLevel: nat,
    initialTarget: Objective,
    frames: seq<FrameInput>,
    cancelAt: nat)

  /** How the camera and projector tasks of a frame used the double buffer, or the exception that ended it. */
  datatype FrameEnd = Continued(fed: Option<nat>, shown: Option<nat>) | Crashed(reason: string)

  /** Why a call of `doTracking` ended. */
  datatype Exit = Cancelled | GrabFailed | ObjectLost | RoiNotFound | Failed(reason: string)

  /** An exit after which `doInBackground` stops: `doTracking` returned true, or it threw. */
  predicate EndsWorker(e: Exit)
  {
    e.Cancelled? || e.GrabFailed? || e.Failed?
  }

  /** Content that is drawn at a fixed place, which the camera and projector tasks treat apart. */
  predicate IsFixed(vs: Option<VirtualSettings>)
  {
    vs.Some? && vs.value.projectionType == Fixed
  }

  class TrackingWorker {
    const settings: Settings
    const levels: nat
    const augmentor: Augmentor
    const prevroi: array<CvRect>
    var aligner: ImageAligner?
    var parameters: seq<real>
    var lastParameters: seq<real>
    var tempParameters: seq<real>
    var projectorImageIndex: nat
    var grabbed: bool

    /** The two previous rectangles start empty; nothing resets them between calls of `doTracking`. */
    constructor (settings: Settings, levels: nat, augmentor: Augmentor)
      ensures this.settings == settings && this.levels == levels && this.augmentor == augmentor
      ensures fresh(prevroi) && prevroi.Length == 2 && fresh(prevroi[0]) && fresh(prevroi[1])
      ensures prevroi[0] != prevroi[1]
      ensures prevroi[0].Value() == Rect(0, 0, 0, 0) && prevroi[1].Value() == Rect(0, 0, 0, 0)
      ensures aligner == null && projectorImageIndex == 0
    {
      this.settings := settings;
      this.levels := levels;
      this.augmentor := augmentor;
      var first := new CvRect(Rect(0, 0, 0, 0));
      var second := new CvRect(Rect(0, 0, 0, 0));
      prevroi := new CvRect[2](i => if i == 0 then first else second);
      aligner := null;
      parameters, lastParameters, tempParameters := [], [], [];
      projectorImageIndex := 0;
      grabbed := false;
    }

    /** Two distinct previous rectangles, one per projector image. */
    predicate BuffersOk()
      reads this, prevroi
    {
      prevroi.Length == 2 && prevroi[0] != prevroi[1] && projectorImageIndex < 2
    }

    predicate Valid()
      reads this, aligner, prevroi, augmentor
    {
      BuffersOk() && settings.auditPyramidLevel < levels &&
      aligner != null && aligner.Valid() && aligner.levels == levels &&
      |aligner.parameters| == |lastParameters| && augmentor.objectSettings.Some?
    }

    /** A frame whose calls stay on the pyramid, keep the vector's size, and stop within the script. */
    predicate FrameOk(f: FrameInput, size: nat)
    {
      (forall k :: 0 <= k < |f.its| ==> f.its[k].levelAfter < levels && |f.its[k].parametersAfter| == size) &&
      exists k :: 0 <= k < |f.its| && StopsAfter(f.its, k, settings.iteratingTimeMax)
    }

    /**
     * The reset of the gain/ambient-light slice, the last `sliceLength`
     * entries, then, when the audit level is set, the audit at that level;
     * the previous parameters then catch up with the aligner's, whichever it
     * kept.
     */
    method AuditFrame(sliceLength: nat)
      requires Valid() && sliceLength <= |aligner.parameters|
      modifies aligner, `parameters, `lastParameters, `tempParameters
      ensures Valid() && aligner.objective == old(aligner.objective)
      ensures aligner.parameters == Audited(old(aligner.parameters), old(lastParameters), aligner.objective,
                                            sliceLength, settings.auditPyramidLevel)
      ensures lastParameters == aligner.parameters
      ensures parameters == ResetSlice(old(aligner.parameters), old(lastParameters),
                                       |old(aligner.parameters)| - sliceLength, |old(aligner.parameters)|)
      ensures aligner.level == (if settings.auditPyramidLevel >= 0 then settings.auditPyramidLevel else old(aligner.level))
      ensures settings.auditPyramidLevel >= 0 ==> tempParameters == parameters
      ensures settings.auditPyramidLevel < 0 ==> tempParameters == old(tempParameters)
    {
      parameters := aligner.parameters;
      var reset, r := ResetGainAmbient(parameters, lastParameters, |parameters| - sliceLength, |parameters|);
      if reset {
        parameters := r;
        aligner.SetParameters(parameters);
      }
      if settings.auditPyramidLevel >= 0 {
        if aligner.level != settings.auditPyramidLevel {
          aligner.SetPyramidLevel(settings.auditPyramidLevel);
        }
        var rmse := aligner.RMSE();
        tempParameters := parameters;
        aligner.SetParameters(lastParameters);
        var lastRmse := aligner.RMSE();
        if Less(rmse, lastRmse) {
          aligner.SetParameters(tempParameters);
        }
      }
      lastParameters := aligner.parameters;
    }

    /**
     * `doCamera`: unless the active content is fixed, the transformer is
     * given the other projector image, `(projectorImageIndex+1)%2`; then the
     * grab.  The gamma is applied before the grab is checked, so a failed
     * grab with a gamma other than 1 throws; a good grab becomes the
     * aligner's target when there is an aligner.
     */
    method DoCamera(c: CameraInput) returns (fed: Option<nat>, ok: bool)
      requires projectorImageIndex < 2 && (aligner != null ==> aligner.Valid())
      modifies aligner, `grabbed
      ensures fed == (if augmentor.virtualSettings.Some? && !IsFixed(augmentor.virtualSettings)
                      then Some(OtherSlot(projectorImageIndex)) else None)
      ensures grabbed == c.grabbed
      ensures ok <==> c.grabbed || settings.gamma == 1.0
      ensures aligner != null ==>
                aligner.Valid() && aligner.parameters == old(aligner.parameters) && aligner.level == old(aligner.level) &&
                aligner.objective == (if c.grabbed then c.target else old(aligner.objective))
    {
      fed := None;
      var vs := augmentor.virtualSettings;
      if vs.Some? && vs.value.projectionType != Fixed {
        fed := Some(OtherSlot(projectorImageIndex));
      }
      grabbed := c.grabbed;
      if settings.gamma != 1.0 && !grabbed {
        return fed, false;
      }
      if grabbed && aligner != null {
        aligner.SetTargetImage(c.target);
      }
      ok := true;
    }

    /**
     * `doProjector`: the augmentor updates projector image
     * `projectorImageIndex` with that image's previous rectangle; the other
     * image's rectangle is not touched.
     */
    method DoProjector(p: ProjectorInput) returns (r: Result<Option<Rect>, string>, drawing: Drawing)
      requires BuffersOk()
      requires MouseActive(p.handMouse) && p.handMouse.value.click ==> augmentor.objectSettings.Some?
      modifies augmentor, prevroi[projectorImageIndex]
      ensures augmentor.objectSettings == old(augmentor.objectSettings)
      ensures r.Failure? <==> old(augmentor.UpdateFails(p.handMouse))
      ensures prevroi[OtherSlot(projectorImageIndex)].Value() == old(prevroi[OtherSlot(projectorImageIndex)].Value())
      ensures r.Success? ==>
                var (mx, my, click) := MouseReading(p.handMouse);
                augmentor.virtualSettings == old(augmentor.SelectOnClick(mx, my, click)) &&
                augmentor.UpdateDone(false, old(prevroi[projectorImageIndex].Value()), prevroi[projectorImageIndex],
                                     old(augmentor.roi), old(augmentor.maxroi), old(augmentor.dstPts),
                                     p.frameWidth, p.frameHeight, settings.projectorWidth, settings.projectorHeight,
                                     p.warpedCorners, r.value, drawing)
    {
      r, drawing := augmentor.Update(prevroi[projectorImageIndex], p.handMouse, p.frameWidth, p.frameHeight,
                                     settings.projectorWidth, settings.projectorHeight, p.warpedCorners);
    }

    /** The worker tasks for content that is not fixed: the camera task, then the projector task on the current image. */
    method CameraAndProjector(f: FrameInput) returns (end: FrameEnd)
      requires Valid() && !IsFixed(augmentor.virtualSettings)
      modifies aligner, `grabbed, augmentor, prevroi[0], prevroi[1]
      ensures Valid() && aligner.parameters == old(aligner.parameters) && aligner.level == old(aligner.level)
      ensures end.Continued? ==>
                grabbed == f.camera.grabbed &&
                end.fed == (if old(augmentor.virtualSettings).Some? then Some(OtherSlot(projectorImageIndex)) else None) &&
                end.shown == Some(projectorImageIndex) &&
                prevroi[OtherSlot(projectorImageIndex)].Value() == old(prevroi[OtherSlot(projectorImageIndex)].Value())
      ensures end.Crashed? ==> (!f.camera.grabbed && settings.gamma != 1.0) || MouseActive(f.projector.handMouse)
    {
      var fed, ok := DoCamera(f.camera);
      if !ok {
        return Crashed("NullPointerException: gamma applied to a failed grab");
      }
      var r, drawing := DoProjector(f.projector);
      if r.Failure? {
        return Crashed(r.error);
      }
      end := Continued(fed, Some(projectorImageIndex));
    }

    /**
     * The two tasks of a frame: the camera task alone for fixed content, the
     * camera and projector tasks otherwise; then the two projector images
     * swap.
     */
    method RunTasks(f: FrameInput) returns (end: FrameEnd)
      requires Valid()
      modifies aligner, `grabbed, `projectorImageIndex, augmentor, prevroi[0], prevroi[1]
      ensures Valid() && aligner.parameters == old(aligner.parameters) && aligner.level == old(aligner.level)
      ensures end.Continued? ==>
                grabbed == f.camera.grabbed && projectorImageIndex == OtherSlot(old(projectorImageIndex)) &&
                end.fed == (if old(augmentor.virtualSettings).Some? && !IsFixed(old(augmentor.virtualSettings))
                            then Some(OtherSlot(old(projectorImageIndex))) else None) &&
                end.shown == (if IsFixed(old(augmentor.virtualSettings)) then None else Some(old(projectorImageIndex))) &&
                prevroi[OtherSlot(old(projectorImageIndex))].Value() == old(prevroi[OtherSlot(projectorImageIndex)].Value())
      ensures end.Crashed? ==>
                (!f.camera.grabbed && settings.gamma != 1.0) ||
                (!IsFixed(old(augmentor.virtualSettings)) && MouseActive(f.projector.handMouse))
    {
      if IsFixed(augmentor.virtualSettings) {
        var fed, ok := DoCamera(f.camera);
        if !ok {
          return Crashed("NullPointerException: gamma applied to a failed grab");
        }
        end := Continued(fed, None);
      } else {
        end := CameraAndProjector(f);
      }
      if end.Continued? {
        projectorImageIndex := OtherSlot(projectorImageIndex);
      }
    }

    /**
     * One tracked frame: the iteration loop within the millisecond budget,
     * the reset and audit, then the worker tasks.
     */
    method TrackFrame(f: FrameInput, sliceLength: nat) returns (end: FrameEnd, ghost iterations: nat)
      requires Valid() && sliceLength <= |lastParameters| && FrameOk(f, |lastParameters|)
      modifies this, aligner, augmentor, prevroi[0], prevroi[1]
      ensures Valid() && aligner == old(aligner) && |lastParameters| == |old(lastParameters)|
      ensures FrameAudited(f.its, settings.iteratingTimeMax, iterations, old(lastParameters), old(aligner.objective),
                           sliceLength, settings.auditPyramidLevel, aligner.parameters)
      ensures lastParameters == aligner.parameters
      ensures aligner.level == (if settings.auditPyramidLevel >= 0 then settings.auditPyramidLevel else f.its[iterations - 1].levelAfter)
      ensures end.Continued? ==>
                grabbed == f.camera.grabbed && projectorImageIndex == OtherSlot(old(projectorImageIndex))
      ensures end.Crashed? ==>
                (!f.camera.grabbed && settings.gamma != 1.0) ||
                (!IsFixed(old(augmentor.virtualSettings)) && MouseActive(f.projector.handMouse))
    {
      var n, iteratingTime, iterationsPerLevel;
      n, iteratingTime, iterationsPerLevel, iterations := IterateWithinBudget(aligner, f.its, settings.iteratingTimeMax);
      AuditFrame(sliceLength);
      end := RunTasks(f);
    }

    /** Frame `k` of a session, with the slice of the ambient light and the gain reset. */
    method SessionFrame(s: Session, k: nat) returns (end: FrameEnd)
      requires Valid() && SessionOk(s) && k < |s.frames| && |lastParameters| == |s.created|
      modifies this, aligner, augmentor, prevroi[0], prevroi[1]
      ensures Valid() && aligner == old(aligner) && |lastParameters| == |s.created|
      ensures end.Continued? ==>
                grabbed == s.frames[k].camera.grabbed && projectorImageIndex == OtherSlot(old(projectorImageIndex))
    {
      var e, _ := TrackFrame(s.frames[k], |s.ambientLight| + 1);
      end := e;
    }

    /** A session the worker can run: sizes that fit, levels on the pyramid, and frames that each stop. */
    predicate SessionOk(s: Session)
    {
      |s.found| == |augmentor.settings| && |s.ambientLight| + 1 <= |s.created| &&
      settings.auditPyramidLevel < levels && s.initialLevel < levels && s.cancelAt <= |s.frames| &&
      forall k :: 0 <= k < |s.frames| ==> FrameOk(s.frames[k], |s.created|)
    }

    /**
     * The first half of the set-up of `doTracking` once the region of
     * interest is found: the parameters, the first composed image (no
     * previous rectangle, no hand mouse), and a projector update of image 0
     * with no aligner yet.
     */
    method ShowFirst(s: Session) returns (ok: Result<bool, string>)
      requires BuffersOk() && SessionOk(s) && augmentor.objectSettings.Some?
      modifies `parameters, `lastParameters, `tempParameters, `aligner, `projectorImageIndex,
               augmentor, prevroi[0], prevroi[1]
      ensures BuffersOk() && augmentor.objectSettings == old(augmentor.objectSettings)
      ensures aligner == null && projectorImageIndex == 0
      ensures |parameters| == |s.created| && lastParameters == tempParameters == parameters
      ensures parameters[..|s.created| - |s.ambientLight| - 1] == s.created[..|s.created| - |s.ambientLight| - 1]
      ensures parameters[|s.created| - |s.ambientLight| - 1] == 1.0
      ensures parameters[|s.created| - |s.ambientLight|..] == s.ambientLight
      ensures ok.Failure? <==> old(augmentor.UpdateFails(s.firstShow.handMouse))
    {
      parameters, lastParameters, tempParameters := InitParameters(s.created, s.ambientLight);
      var composed, firstDrawing := augmentor.Update(null, None, s.compose.frameWidth, s.compose.frameHeight,
                                                     settings.projectorWidth, settings.projectorHeight,
                                                     s.compose.warpedCorners);
      aligner := null;
      projectorImageIndex := 0;
      var r, drawing := DoProjector(s.firstShow);
      ok := if r.Failure? then Failure(r.error) else Success(true);
    }

    /**
     * The second half of the set-up: a camera grab with image 1 current, then
     * a new aligner holding the parameters, and image 0 current.  The
     * aligner's target is the undistorted camera image: the grabbed frame
     * when the grab succeeded, otherwise whatever that buffer already held
     * (`s.initialTarget`).
     */
    method StartAligner(s: Session) returns (ok: bool)
      requires BuffersOk() && SessionOk(s) && augmentor.objectSettings.Some? && aligner == null
      requires |parameters| == |lastParameters| == |s.created|
      modifies `aligner, `projectorImageIndex, `grabbed
      ensures BuffersOk() && grabbed == s.firstGrab.grabbed
      ensures ok <==> s.firstGrab.grabbed || settings.gamma == 1.0
      ensures ok ==> Valid() && fresh(aligner) && projectorImageIndex == 0
      ensures ok ==> aligner.parameters == parameters && aligner.level == s.initialLevel &&
                     aligner.objective == (if s.firstGrab.grabbed then s.firstGrab.target else s.initialTarget)
    {
      projectorImageIndex := 1;
      var fed;
      fed, ok := DoCamera(s.firstGrab);
      if ok {
        var target := if s.firstGrab.grabbed then s.firstGrab.target else s.initialTarget;
        aligner := new ImageAligner(parameters, s.initialLevel, levels, target);
        projectorImageIndex := 0;
      }
    }

    /** The loop guard: the RMSE is below the lost-object threshold, when there is one. */
    predicate TrackingObject()
      reads this, aligner
      requires aligner != null
    {
      settings.lostObjectThreshold <= 0.0 || Less(aligner.RMSE(), Finite(settings.lostObjectThreshold))
    }

    /**
     * The frame loop of `doTracking`: frames run while the object is not
     * lost, the worker is not cancelled and the last grab succeeded.
     * `seen` is the RMSE at the head of each frame that ran.
     */
    method TrackFrames(s: Session) returns (exit: Exit, framesRun: nat, ghost seen: seq<Double>)
      requires Valid() && SessionOk(s) && |lastParameters| == |s.created| && grabbed == s.firstGrab.grabbed
      requires projectorImageIndex == 0
      modifies this, aligner, augmentor, prevroi[0], prevroi[1]
      ensures Valid() && exit != RoiNotFound
      ensures framesRun <= s.cancelAt && |seen| == framesRun
      ensures forall k :: 0 <= k < |seen| ==>
                settings.lostObjectThreshold <= 0.0 || Less(seen[k], Finite(settings.lostObjectThreshold))
      ensures !exit.Failed? ==> projectorImageIndex == framesRun % 2
      ensures !exit.Failed? ==> (exit == Cancelled <==> framesRun == s.cancelAt)
      ensures exit == GrabFailed <==> !exit.Failed? && framesRun < s.cancelAt && !grabbed
      ensures exit == GrabFailed ==> if framesRun == 0 then !s.firstGrab.grabbed else !s.frames[framesRun - 1].camera.grabbed
      ensures exit == ObjectLost ==> framesRun < s.cancelAt && grabbed && !TrackingObject()
      ensures exit.Failed? ==> 1 <= framesRun
    {
      framesRun := 0;
      seen := [];
      exit := Cancelled;
      while TrackingObject() && framesRun < s.cancelAt && grabbed
        invariant Valid() && aligner == old(aligner) && |lastParameters| == |s.created|
        invariant framesRun <= s.cancelAt && |seen| == framesRun
        invariant forall k :: 0 <= k < |seen| ==>
                    settings.lostObjectThreshold <= 0.0 || Less(seen[k], Finite(settings.lostObjectThreshold))
        invariant projectorImageIndex == framesRun % 2
        invariant framesRun == 0 ==> grabbed == s.firstGrab.grabbed
        invariant framesRun > 0 ==> grabbed == s.frames[framesRun - 1].camera.grabbed
        invariant exit == Cancelled
        decreases s.cancelAt - framesRun
      {
        seen := seen + [aligner.RMSE()];
        var end := SessionFrame(s, framesRun);
        framesRun := framesRun + 1;
        if end.Crashed? {
          exit := Failed(end.reason);
          return;
        }
      }
      exit := if framesRun >= s.cancelAt then Cancelled else if !grabbed then GrabFailed else ObjectLost;
    }

    /**
     * Everything in `doTracking` before the frame loop: the region of
     * interest, then the set-up.  Returns how the call ends when it ends
     * here: the region is not found, or an exception is thrown.
     */
    method SetUp(s: Session) returns (stopped: Option<Exit>)
      requires BuffersOk() && SessionOk(s)
      modifies this, augmentor, prevroi[0], prevroi[1]
      ensures BuffersOk()
      ensures stopped == Some(RoiNotFound) <==> ScanFrom(augmentor.settings, s.found, 0).NoneFound?
      ensures stopped.Some? ==> stopped.value == RoiNotFound || stopped.value.Failed?
      ensures ScanFrom(augmentor.settings, s.found, 0).LoadFailure? ==> stopped.Some? && stopped.value.Failed?
      ensures stopped.None? ==> Valid() && fresh(aligner) && |lastParameters| == |s.created| && grabbed == s.firstGrab.grabbed &&
                                projectorImageIndex == 0
    {
      var acquired := augmentor.AcquireRoi(s.found);
      if acquired.Failure? {
        return Some(Failed(acquired.error));
      }
      if !acquired.value {
        return Some(RoiNotFound);
      }
      var shown := ShowFirst(s);
      if shown.Failure? {
        return Some(Failed(shown.error));
      }
      var started := StartAligner(s);
      if !started {
        return Some(Failed("NullPointerException: gamma applied to a failed grab"));
      }
      stopped := None;
    }

    /**
     * `doTracking`: acquire the region of interest, set up, then track.  A
     * region not found returns false, so `doInBackground` starts over; an
     * exception ends the worker; otherwise the result says whether the worker
     * is done, which it is exactly when it was cancelled or a grab failed.
     */
    method DoTracking(s: Session) returns (done: bool, exit: Exit, framesRun: nat)
      requires BuffersOk() && SessionOk(s)
      modifies this, augmentor, prevroi[0], prevroi[1]
      ensures BuffersOk()
      ensures exit == RoiNotFound <==> ScanFrom(augmentor.settings, s.found, 0).NoneFound?
      ensures ScanFrom(augmentor.settings, s.found, 0).LoadFailure? ==> exit.Failed?
      ensures !exit.Failed? ==> (done <==> EndsWorker(exit))
      ensures framesRun <= s.cancelAt
      ensures exit != RoiNotFound && !exit.Failed? ==> (exit == Cancelled <==> framesRun == s.cancelAt)
      ensures exit == GrabFailed ==> if framesRun == 0 then !s.firstGrab.grabbed else !s.frames[framesRun - 1].camera.grabbed
      ensures exit == ObjectLost ==> settings.lostObjectThreshold > 0.0 && aligner != null && grabbed &&
                                     !Less(aligner.RMSE(), Finite(settings.lostObjectThreshold))
    {
      var stopped := SetUp(s);
      if stopped.Some? {
        return false, stopped.value, 0;
      }
      ghost var seen;
      exit, framesRun, seen := TrackFrames(s);
      done := framesRun >= s.cancelAt || !grabbed;
    }

    /**
     * `doInBackground`: call `doTracking` until it returns true or throws.
     * Returns why each call ended; the script of sessions must contain one
     * that ends the loop.
     */
    method DoInBackground(sessions: seq<Session>) returns (exits: seq<Exit>)
      requires BuffersOk()
      requires forall j :: 0 <= j < |sessions| ==> SessionOk(sessions[j])
      requires exists j :: 0 <= j < |sessions| && sessions[j].cancelAt == 0 &&
                           |sessions[j].found| == |augmentor.settings| &&
                           !ScanFrom(augmentor.settings, sessions[j].found, 0).NoneFound?
      modifies this, augmentor, prevroi[0], prevroi[1]
      ensures 1 <= |exits| <= |sessions|
      ensures EndsWorker(exits[|exits| - 1])
      ensures forall i :: 0 <= i < |exits| - 1 ==> !EndsWorker(exits[i])
    {
      ghost var last :| 0 <= last < |sessions| && sessions[last].cancelAt == 0 &&
                        |sessions[last].found| == |augmentor.settings| &&
                        !ScanFrom(augmentor.settings, sessions[last].found, 0).NoneFound?;
      exits := [];
      var stop := false;
      while !stop
        invariant |exits| <= last + 1 && BuffersOk()
        invariant forall i :: 0 <= i < |exits| ==> (EndsWorker(exits[i]) <==> i == |exits| - 1 && stop)
        invariant stop ==> |exits| >= 1
        invariant !stop ==> |exits| <= last
        decreases last + 1 - |exits|, if stop then 0 else 1
      {
        var done, exit, framesRun := DoTracking(sessions[|exits|]);
        exits := exits + [exit];
        stop := done || exit.Failed?;
      }
    }
  }
}
