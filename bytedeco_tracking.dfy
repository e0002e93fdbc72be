/**
 * The tracking worker of the org.bytedeco revision: the parameter vector's
 * gain/ambient-light slice, the per-frame reset, audit and lost-track rules
 * around the aligner, the nanosecond time budget, the projector buffer ring
 * (filled once, then composed at offset 0, shown at offset -1 and fed to the
 * transformer at offset +1 before the position advances), the monitor-image
 * conversion, and the restart loop around `doTracking`.
 *
 * What the camera, the reflectance initializer, the transformer, the aligner
 * and the reality augmentor of this revision report is given as input: a
 * `Session` per call of `doTracking`, a `FrameInput` per tracked frame.
 */
module BytedecoTracking {
  import opened JavaNumbers
  import opened Wrappers
  import opened Geometry
  import opened Aligner
  import opened ParameterRules
  import opened ProjectorBuffers
  import opened RealityAugmentor

  // ---------------------------------------------------------------------
  // Time budget

  /**
   * `getIteratingTimeMax()*1000000` as written: both operands are `int`, so
   * the product wraps to 32 bits before it is widened to the `long` timeMax.
   */
  function TimeMaxAsWritten(iteratingTimeMax: int): (t: int)
    requires INT_MIN <= iteratingTimeMax <= INT_MAX
    ensures INT_MIN <= t <= INT_MAX
    ensures (t - iteratingTimeMax * 1000000) % TWO_TO_32 == 0
  {
    Int32(iteratingTimeMax * 1000000)
  }

  /**
   * A budget from 2148 to 4294 ms wraps to a negative timeMax, which switches
   * the time budget off: the frame then iterates until the aligner converges.
   */
  lemma TimeBudgetWrapsNegative(iteratingTimeMax: int)
    requires 2148 <= iteratingTimeMax <= 4294
    ensures TimeMaxAsWritten(iteratingTimeMax) == iteratingTimeMax * 1000000 - TWO_TO_32
    ensures TimeMaxAsWritten(iteratingTimeMax) < 0
  {
    var x := iteratingTimeMax * 1000000;
    EuclidUnique(x - INT_MIN, TWO_TO_32, 1, x - INT_MIN - TWO_TO_32);
  }

  /** The budget in nanoseconds, computed without overflow: on exactly when the setting is positive. */
  function TimeMaxNanos(iteratingTimeMax: int): (t: int)
    ensures t > 0 <==> iteratingTimeMax > 0
    ensures t % 1000000 == 0 && t / 1000000 == iteratingTimeMax
  {
    iteratingTimeMax * 1000000
  }

  /** Below the wrap the written expression and the intended one agree. */
  lemma TimeMaxAgreesBelowWrap(iteratingTimeMax: int)
    requires 0 <= iteratingTimeMax <= 2147
    ensures TimeMaxAsWritten(iteratingTimeMax) == TimeMaxNanos(iteratingTimeMax)
  {
  }

  // ---------------------------------------------------------------------
  // Gain and ambient light

  /** The length of the gain/ambient-light vector: 4 for a colour camera, 2 for a grey one. */
  function GainAmbientLength(channels: nat): (n: nat)
  {
    if channels > 1 then 4 else 2
  }

  /**
   * Writes the gain/ambient-light vector into the last entries of the
   * created parameters; the previous and temporary parameters start as
   * copies.
   */
  method InitParameters(created: seq<real>, gainAmbientLight: seq<real>)
    returns (parameters: seq<real>, lastParameters: seq<real>, tempParameters: seq<real>)
    requires |gainAmbientLight| <= |created|
    ensures |parameters| == |created|
    ensures parameters[..|created| - |gainAmbientLight|] == created[..|created| - |gainAmbientLight|]
    ensures parameters[|created| - |gainAmbientLight|..] == gainAmbientLight
    ensures lastParameters == parameters && tempParameters == parameters
  {
    var start := |created| - |gainAmbientLight|;
    parameters := WriteSlice(created, start, gainAmbientLight);
    assert parameters[start..] == parameters[start..start + |gainAmbientLight|];
    lastParameters := parameters;
    tempParameters := parameters;
  }

  // ---------------------------------------------------------------------
  // Monitor image

  function Abs(v: real): real { if v < 0.0 then -v else v }

  /**
   * One byte of the monitor image: 0 under a zero mask byte, else the
   * magnitude clamped to [0, 1] and scaled to 0..255 with `Math.round`
   * (which gives 0 for NaN).  The scaling and rounding are exact here,
   * where the source does them in `float`.
   */
  function MonitorByte(m: byte, v: Double): (b: byte)
    ensures m == 0 || v.NaN? ==> b == 0
    ensures m != 0 && v.Finite? ==>
              var c := MaxReal(0.0, MinReal(1.0, Abs(v.value)));
              b as real - 0.5 <= 255.0 * c < b as real + 0.5
  {
    if m == 0 then 0
    else match v
      case NaN => 0
      case Finite(x) => Round(255.0 * MaxReal(0.0, MinReal(1.0, Abs(x))))
  }

  /** Channel `z` of the conversion buffer: the pixel's value, or the buffer's initial 0 past its channels. */
  function BufferEntry(pixel: seq<Double>, z: nat): Double
  {
    if z < |pixel| then pixel[z] else Finite(0.0)
  }

  /**
   * The three output bytes of one pixel: channel order kept for a
   * three-channel input, reversed otherwise, channels the input lacks as 0.
   */
  function MonitorPixel(m: byte, pixel: seq<Double>): (out: seq<byte>)
    requires 1 <= |pixel| <= 4
    ensures |out| == 3
    ensures m == 0 ==> out == [0, 0, 0]
    ensures |pixel| == 3 ==> out == [MonitorByte(m, pixel[0]), MonitorByte(m, pixel[1]), MonitorByte(m, pixel[2])]
    ensures |pixel| != 3 ==> out[2] == MonitorByte(m, pixel[0])
    ensures |pixel| != 3 ==> out[1] == (if |pixel| >= 2 then MonitorByte(m, pixel[1]) else 0)
    ensures |pixel| != 3 ==> out[0] == (if |pixel| >= 3 then MonitorByte(m, pixel[2]) else 0)
  {
    var order := if |pixel| == 3 then [0, 1, 2] else [2, 1, 0];
    [MonitorByte(m, BufferEntry(pixel, order[0])), MonitorByte(m, BufferEntry(pixel, order[1])),
     MonitorByte(m, BufferEntry(pixel, order[2]))]
  }

  /** The mask byte of pixel `p`: 0xFF without a mask. */
  function MaskByte(mask: Option<seq<byte>>, p: nat): byte
    requires mask.Some? ==> p < |mask.value|
  {
    if mask.None? then 255 else mask.value[p]
  }

  /** How many pixels the conversion loop handles: it stops at the first buffer exhausted. */
  function MonitorPixels(inPixels: nat, outPixels: nat, mask: Option<seq<byte>>): (n: nat)
    ensures n <= inPixels && n <= outPixels && (mask.Some? ==> n <= |mask.value|)
    ensures n == inPixels || n == outPixels || (mask.Some? && n == |mask.value|)
  {
    var n := MinInt(inPixels, outPixels);
    if mask.Some? then MinInt(n, |mask.value|) else n
  }

  /**
   * `getMonitorImage`: converts the float image `input`, pixel by pixel, into
   * three bytes per pixel of `out`, under the optional mask.  The loop runs
   * while every buffer has something left; when `out` has room for only part
   * of a pixel, the bytes that fit are written and the next `put` throws
   * (`overflow`).
   */
  method GetMonitorImage(input: seq<seq<Double>>, inChannels: nat, mask: Option<seq<byte>>, out: array<byte>)
    returns (pixels: nat, overflow: bool)
    requires 1 <= inChannels <= 4 && forall p :: 0 <= p < |input| ==> |input[p]| == inChannels
    modifies out
    ensures pixels == MonitorPixels(|input|, out.Length / 3, mask)
    ensures overflow <==> out.Length % 3 != 0 && pixels == out.Length / 3 < |input| &&
                          (mask.None? || pixels < |mask.value|)
    ensures 3 * |input| <= out.Length ==> !overflow
    ensures forall p, z :: 0 <= p < pixels && 0 <= z < 3 ==>
              out[3 * p + z] == MonitorPixel(MaskByte(mask, p), input[p])[z]
    ensures overflow ==> forall i :: 3 * pixels <= i < out.Length ==>
                           out[i] == MonitorPixel(MaskByte(mask, pixels), input[pixels])[i - 3 * pixels]
    ensures !overflow ==> forall i :: 3 * pixels <= i < out.Length ==> out[i] == old(out[i])
  {
    pixels, overflow := 0, false;
    while pixels < |input| && 3 * pixels < out.Length && (mask.None? || pixels < |mask.value|)
      invariant 0 <= pixels <= |input| && 3 * pixels <= out.Length
      invariant mask.Some? ==> pixels <= |mask.value|
      invariant forall p, z :: 0 <= p < pixels && 0 <= z < 3 ==>
                  out[3 * p + z] == MonitorPixel(MaskByte(mask, p), input[p])[z]
      invariant forall i :: 3 * pixels <= i < out.Length ==> out[i] == old(out[i])
    {
      var m := MaskByte(mask, pixels);
      var converted := MonitorPixel(m, input[pixels]);
      if out.Length < 3 * pixels + 3 {
        PutUntilFull(out, 3 * pixels, converted);
        return pixels, true;
      }
      out[3 * pixels] := converted[0];
      out[3 * pixels + 1] := converted[1];
      out[3 * pixels + 2] := converted[2];
      pixels := pixels + 1;
    }
  }

  /** Puts the bytes of `bytes` into `out` from `start` on until `out` is full, leaving the part before `start` as it was. */
  method PutUntilFull(out: array<byte>, start: nat, bytes: seq<byte>)
    requires start <= out.Length <= start + |bytes|
    modifies out
    ensures forall i :: 0 <= i < start ==> out[i] == old(out[i])
    ensures forall i :: start <= i < out.Length ==> out[i] == bytes[i - start]
  {
    for z := 0 to out.Length - start
      invariant forall i :: 0 <= i < start ==> out[i] == old(out[i])
      invariant forall i :: start <= i < start + z ==> out[i] == bytes[i - start]
    {
      out[start + z] := bytes[z];
    }
  }

  /** Under a zero mask byte the whole pixel is black, whatever the input. */
  lemma MaskedPixelIsBlack(input: seq<seq<Double>>, mask: seq<byte>, p: nat)
    requires p < |input| && p < |mask| && mask[p] == 0 && 1 <= |input[p]| <= 4
    ensures MonitorPixel(MaskByte(Some(mask), p), input[p]) == [0, 0, 0]
  {
  }

  // ---------------------------------------------------------------------
  // Projector buffer ring

  /**
   * The initial fill: the position goes to 0, slot 0 holds the composed
   * first image with the rectangle the augmentor left, and every other slot a
   * copy of that image with a full-image rectangle.
   */
  method FillRing(ring: BufferRing, composedImage: Image, composedRoi: Rect)
    requires ring.Valid()
    modifies ring, ring.buffers
    ensures ring.Valid() && ring.position == 0
    ensures ring.buffers[0] == ProjectorBuffer(composedImage, composedRoi)
    ensures forall i :: 1 <= i < ring.buffers.Length ==>
              ring.buffers[i] == ProjectorBuffer(composedImage, FullImage(composedImage.width, composedImage.height))
  {
    ring.SetPosition(0);
    ring.Put(0, ProjectorBuffer(composedImage, composedRoi));
    for i := 1 to ring.buffers.Length
      invariant ring.Valid() && ring.position == 0
      invariant ring.buffers[0] == ProjectorBuffer(composedImage, composedRoi)
      invariant forall j :: 1 <= j < i ==>
                  ring.buffers[j] == ProjectorBuffer(composedImage, FullImage(composedImage.width, composedImage.height))
    {
      assert ring.Index(i) == i;
      ring.Put(i, ProjectorBuffer(composedImage, FullImage(composedImage.width, composedImage.height)));
    }
  }

  // ---------------------------------------------------------------------
  // Tracking

  datatype Settings = Settings(
    iteratingTimeMax: int,
    pyramidLevelAudit: int,
    pyramidLevelHandMouse: nat,
    outlierRatioMax: real)

  /**
   * What one tracked frame reports: the outcomes of the `iterate` calls, the
   * outlier and pixel counts after the audit, whether the augmentor needs the
   * hand mouse, the projection type of the active content (if any), whether
   * the camera grab succeeds and the frame it gives, and the image and
   * rectangle the augmentor composes.
   */
  datatype FrameInput = FrameInput(
    its: seq<Iteration>,
    outlierCount: nat,
    pixelCount: nat,
    needsMouse: bool,
    projection: Option<ProjectionType>,
    grabbed: bool,
    target: Objective,
    composedImage: Image,
    composedRoi: Rect)

  /** A frame the outlier rule counts against the track. */
  predicate Bad(settings: Settings, f: FrameInput)
  {
    BadFrame(settings.outlierRatioMax, f.outlierCount, f.pixelCount)
  }

  /** The bad-frame flags of a sequence of frames, in order. */
  function Bads(settings: Settings, frames: seq<FrameInput>): (bads: seq<bool>)
  {
    seq(|frames|, i requires 0 <= i < |frames| => Bad(settings, frames[i]))
  }

  /** How the camera and projector tasks of a frame used the ring. */
  datatype FrameEnd = Continued(fed: Option<nat>, shown: Option<nat>, composed: nat) | LostTrack

  /** Why a call of `doTracking` ended. */
  datatype Exit = Cancelled | GrabFailed | RmseNaN | Lost | RoiNotFound

  /** The bad-frame flags of one more frame extend those of the frames before it. */
  lemma BadsExtend(settings: Settings, frames: seq<FrameInput>, n: nat)
    requires n < |frames|
    ensures Bads(settings, frames[..n + 1]) == Bads(settings, frames[..n]) + [Bad(settings, frames[n])]
  {
  }

  /**
   * After `n` frames the lost counter matches the frames' bad flags and no
   * frame so far was the second bad one in a row.
   */
  ghost predicate LostClear(settings: Settings, frames: seq<FrameInput>, n: nat, lostCount: nat)
    requires n <= |frames|
  {
    lostCount == LostCountAfter(Bads(settings, frames[..n])) &&
    forall i :: 0 <= i < n ==> !SecondConsecutiveBad(Bads(settings, frames[..n]), i)
  }

  /** One more frame: the counter either stays clear or fires on exactly this frame. */
  lemma LostClearStep(settings: Settings, frames: seq<FrameInput>, n: nat, lostCount: nat)
    requires n < |frames| && LostClear(settings, frames, n, lostCount)
    ensures var c, bads := NextLostCount(lostCount, Bad(settings, frames[n])), Bads(settings, frames[..n + 1]);
            if c > 1 then
              SecondConsecutiveBad(bads, n) && forall i :: 0 <= i < n ==> !SecondConsecutiveBad(bads, i)
            else LostClear(settings, frames, n + 1, c)
  {
    BadsExtend(settings, frames, n);
    LostCounterStep(Bads(settings, frames[..n]), Bad(settings, frames[n]));
  }

  /**
   * Whether `doInBackground` stops after a call of `doTracking` that ended
   * with `e` after `framesRun` frames: the region was found and, at the end,
   * the worker is cancelled (the cancellation comes at the start of frame
   * `cancelAt` and stays) or the last grab failed.
   */
  predicate Finishes(e: Exit, framesRun: nat, cancelAt: nat)
  {
    e != RoiNotFound && (framesRun >= cancelAt || e == GrabFailed)
  }

  /**
   * What one call of `doTracking` is given: whether the region of interest
   * is found, the camera's channel count, the gain/ambient-light vector and
   * created parameters, the transformer's gain and bias counts, the first
   * composed projector image, the first camera grab, the aligner's starting
   * level, the tracked frames, and the frame at whose start the worker is
   * found cancelled.
   */
  datatype Session = Session(
    roiFound: bool,
    channels: nat,
    gainAmbientLight: seq<real>,
    created: seq<real>,
    numGainsBiases: nat,
    initialImage: Image,
    initialRoi: Rect,
    initialGrab: bool,
    initialTarget: Objective,
    initialLevel: nat,
    frames: seq<FrameInput>,
    cancelAt: nat)

  class TrackingWorker {
    const settings: Settings
    const ring: BufferRing
    /** The number of pyramid levels, `pyramidLevelMax + 1`. */
    const levels: nat
    var aligner: ImageAligner?
    var parameters: seq<real>
    var lastParameters: seq<real>
    var tempParameters: seq<real>
    var grabbed: bool

    constructor (settings: Settings, ring: BufferRing, levels: nat)
      ensures this.settings == settings && this.ring == ring && this.levels == levels
      ensures aligner == null && !grabbed
    {
      this.settings, this.ring, this.levels := settings, ring, levels;
      aligner := null;
      parameters, lastParameters, tempParameters := [], [], [];
      grabbed := false;
    }

    /** The settings name levels the aligner has, and the time budget is a Java `int`. */
    predicate SettingsOk()
    {
      settings.pyramidLevelAudit < levels && settings.pyramidLevelHandMouse < levels &&
      INT_MIN <= settings.iteratingTimeMax <= INT_MAX
    }

    predicate Valid()
      reads this, aligner, ring
    {
      SettingsOk() && ring.Valid() && aligner != null && aligner.Valid() && aligner.levels == levels &&
      |aligner.parameters| == |lastParameters|
    }

    /**
     * A frame whose calls stay on the pyramid, keep the vector's size, and
     * stop within the script under the budget as the source computes it.
     */
    predicate FrameOk(f: FrameInput, size: nat)
    {
      SettingsOk() &&
      (forall k :: 0 <= k < |f.its| ==> f.its[k].levelAfter < levels && |f.its[k].parametersAfter| == size) &&
      exists k :: 0 <= k < |f.its| && StopsAfter(f.its, k, TimeMaxAsWritten(settings.iteratingTimeMax))
    }

    /**
     * The gain/ambient-light reset followed, when the audit level is set, by
     * the audit: the aligner moves to the audit level and keeps the reset
     * parameters only when their RMSE there is below the previous frame's.
     */
    method ResetAndAudit(numGainsBiases: nat)
      requires Valid() && numGainsBiases <= |aligner.parameters|
      modifies aligner, `tempParameters
      ensures Valid() && aligner.objective == old(aligner.objective)
      ensures aligner.parameters ==
              Audited(old(aligner.parameters), lastParameters, aligner.objective, numGainsBiases, settings.pyramidLevelAudit)
      ensures aligner.level == (if settings.pyramidLevelAudit >= 0 then settings.pyramidLevelAudit else old(aligner.level))
      ensures settings.pyramidLevelAudit >= 0 ==>
                tempParameters == ResetSlice(old(aligner.parameters), lastParameters,
                                             |old(aligner.parameters)| - numGainsBiases, |old(aligner.parameters)|)
      ensures settings.pyramidLevelAudit < 0 ==> tempParameters == old(tempParameters)
    {
      var p := aligner.parameters;
      var from := |p| - numGainsBiases;
      var reset, r := ResetGainAmbient(p, lastParameters, from, |p|);
      if reset {
        aligner.SetParameters(r);
      }
      if settings.pyramidLevelAudit >= 0 {
        var level := settings.pyramidLevelAudit;
        if aligner.level != level {
          aligner.SetPyramidLevel(level);
        }
        var rmse := aligner.RMSE();
        tempParameters := r;
        aligner.SetParameters(lastParameters);
        var lastRmse := aligner.RMSE();
        if Less(rmse, lastRmse) {
          aligner.SetParameters(tempParameters);
        }
      }
    }

    /**
     * The hand-mouse level, then the camera task (fed from ring offset +1
     * for tracked content) and the projector task (shown from offset -1
     * unless the content is fixed).
     */
    method RunTasks(f: FrameInput) returns (fed: Option<nat>, shown: Option<nat>)
      requires Valid()
      modifies aligner, `grabbed
      ensures Valid()
      ensures aligner.level == (if f.needsMouse then settings.pyramidLevelHandMouse else old(aligner.level))
      ensures aligner.parameters == old(aligner.parameters)
      ensures aligner.objective == (if f.grabbed then f.target else old(aligner.objective))
      ensures grabbed == f.grabbed
      ensures fed == (if f.projection == Some(Tracked) then Some(ring.Index(1)) else None)
      ensures shown == (if f.projection == Some(Fixed) then None else Some(ring.Index(-1)))
    {
      if f.needsMouse {
        var level := settings.pyramidLevelHandMouse;
        if aligner.level != level {
          aligner.SetPyramidLevel(level);
        }
      }
      fed, shown := None, None;
      if f.projection == Some(Tracked) {
        fed := Some(ring.Index(1));
      }
      grabbed := f.grabbed;
      if grabbed {
        aligner.SetTargetImage(f.target);
      }
      if f.projection != Some(Fixed) {
        shown := Some(ring.Index(-1));
      }
    }

    /** The augmentor composes into ring offset 0, then the position advances by one. */
    method ComposeAndAdvance(f: FrameInput) returns (composed: nat)
      requires ring.Valid()
      modifies ring, ring.buffers
      ensures ring.Valid()
      ensures composed == SlotIndex(old(ring.position), 0, ring.buffers.Length)
      ensures ring.buffers[composed] == ProjectorBuffer(f.composedImage, f.composedRoi)
      ensures forall i :: 0 <= i < ring.buffers.Length && i != composed ==> ring.buffers[i] == old(ring.buffers[i])
      ensures ring.position == SlotIndex(old(ring.position) + 1, 0, ring.buffers.Length)
    {
      composed := ring.Index(0);
      ring.Put(0, ProjectorBuffer(f.composedImage, f.composedRoi));
      ring.SetPosition(ring.position + 1);
    }

    /**
     * One tracked frame: the iteration loop, the reset and audit, the lost
     * counter (the frame ends the loop on the second bad frame in a row), and
     * otherwise the worker tasks, the previous parameters catching up, and the ring
     * rotation.
     */
    method TrackFrame(f: FrameInput, numGainsBiases: nat, lostCount: nat)
      returns (end: FrameEnd, newLostCount: nat, ghost iterations: nat)
      requires Valid() && numGainsBiases <= |lastParameters| && FrameOk(f, |lastParameters|)
      modifies this, aligner, ring, ring.buffers
      ensures Valid() && aligner == old(aligner) && |lastParameters| == |old(lastParameters)|
      ensures FrameAudited(f.its, TimeMaxAsWritten(settings.iteratingTimeMax), iterations, old(lastParameters),
                           old(aligner.objective), numGainsBiases, settings.pyramidLevelAudit, aligner.parameters)
      ensures var audited := if settings.pyramidLevelAudit >= 0 then settings.pyramidLevelAudit else f.its[iterations - 1].levelAfter;
              aligner.level == (if end.Continued? && f.needsMouse then settings.pyramidLevelHandMouse else audited)
      ensures newLostCount == NextLostCount(lostCount, Bad(settings, f))
      ensures end.LostTrack? <==> newLostCount > 1
      ensures end.Continued? ==>
                lastParameters == parameters == aligner.parameters &&
                grabbed == f.grabbed &&
                aligner.objective == (if f.grabbed then f.target else old(aligner.objective)) &&
                end.composed == SlotIndex(old(ring.position), 0, ring.buffers.Length) &&
                ring.buffers[end.composed] == ProjectorBuffer(f.composedImage, f.composedRoi) &&
                ring.position == SlotIndex(old(ring.position) + 1, 0, ring.buffers.Length) &&
                end.fed == (if f.projection == Some(Tracked) then Some(SlotIndex(old(ring.position), 1, ring.buffers.Length)) else None) &&
                end.shown == (if f.projection == Some(Fixed) then None else Some(SlotIndex(old(ring.position), -1, ring.buffers.Length))) &&
                forall i :: 0 <= i < ring.buffers.Length && i != end.composed ==> ring.buffers[i] == old(ring.buffers[i])
      ensures end.LostTrack? ==> grabbed == old(grabbed) && ring.position == old(ring.position) && ring.buffers[..] == old(ring.buffers[..])
    {
      var n, iteratingTime, iterationsPerLevel;
      n, iteratingTime, iterationsPerLevel, iterations := IterateWithinBudget(aligner, f.its, TimeMaxAsWritten(settings.iteratingTimeMax));
      parameters := aligner.parameters;
      ResetAndAudit(numGainsBiases);
      newLostCount := lostCount;
      if Bad(settings, f) {
        newLostCount := newLostCount + 1;
        if newLostCount > 1 {
          end := LostTrack;
          return;
        }
      } else {
        newLostCount := 0;
      }
      parameters := aligner.parameters;
      var fed, shown := RunTasks(f);
      lastParameters := parameters;
      var composed := ComposeAndAdvance(f);
      end := Continued(fed, shown, composed);
    }

    /** Frame `k` of a session, with its gain and bias slice reset. */
    method SessionFrame(s: Session, k: nat, lostCount: nat) returns (end: FrameEnd, newLostCount: nat)
      requires Valid() && SessionOk(s) && k < |s.frames| && |lastParameters| == |s.created|
      modifies this, aligner, ring, ring.buffers
      ensures Valid() && aligner == old(aligner) && |lastParameters| == |s.created|
      ensures newLostCount == NextLostCount(lostCount, Bad(settings, s.frames[k]))
      ensures end.LostTrack? <==> newLostCount > 1
      ensures end.Continued? ==> grabbed == s.frames[k].grabbed
      ensures end.LostTrack? ==> grabbed == old(grabbed)
    {
      var e, c, _ := TrackFrame(s.frames[k], s.numGainsBiases, lostCount);
      end, newLostCount := e, c;
    }

    /** A session the worker can run: consistent sizes and levels, and frames that each stop. */
    predicate SessionOk(s: Session)
    {
      |s.gainAmbientLight| == GainAmbientLength(s.channels) && |s.gainAmbientLight| <= |s.created| &&
      s.numGainsBiases <= |s.created| && s.initialLevel < levels && s.cancelAt <= |s.frames| &&
      forall k :: 0 <= k < |s.frames| ==> FrameOk(s.frames[k], |s.created|)
    }

    /**
     * The set-up of `doTracking` once the region of interest is found: the
     * parameters with their gain/ambient-light slice, the ring fill, the first
     * grab, and a new aligner holding the parameters.
     */
    method Initialize(s: Session)
      requires SettingsOk() && ring.Valid() && SessionOk(s)
      modifies this, ring, ring.buffers
      ensures Valid() && fresh(aligner)
      ensures |parameters| == |s.created| && lastParameters == tempParameters == parameters
      ensures parameters[..|s.created| - |s.gainAmbientLight|] == s.created[..|s.created| - |s.gainAmbientLight|]
      ensures parameters[|s.created| - |s.gainAmbientLight|..] == s.gainAmbientLight
      ensures aligner.parameters == parameters && aligner.level == s.initialLevel && aligner.objective == s.initialTarget
      ensures grabbed == s.initialGrab
      ensures ring.position == 0 && ring.buffers[0] == ProjectorBuffer(s.initialImage, s.initialRoi)
      ensures forall i :: 1 <= i < ring.buffers.Length ==>
                ring.buffers[i] == ProjectorBuffer(s.initialImage, FullImage(s.initialImage.width, s.initialImage.height))
    {
      parameters, lastParameters, tempParameters := InitParameters(s.created, s.gainAmbientLight);
      aligner := null;
      FillRing(ring, s.initialImage, s.initialRoi);
      grabbed := s.initialGrab;
      aligner := new ImageAligner(parameters, s.initialLevel, levels, s.initialTarget);
    }

    /**
     * The frame loop of `doTracking`: frames run while the worker is not
     * cancelled, the last grab succeeded and the RMSE is a number, and the
     * loop breaks when the track is lost.
     */
    method TrackFrames(s: Session) returns (exit: Exit, framesRun: nat)
      requires Valid() && SessionOk(s) && |lastParameters| == |s.created| && grabbed == s.initialGrab
      modifies this, aligner, ring, ring.buffers
      ensures Valid() && exit != RoiNotFound
      ensures exit == Lost || exit == RmseNaN ==> grabbed
      ensures framesRun <= s.cancelAt
      ensures exit != Lost ==> (exit == Cancelled <==> framesRun == s.cancelAt)
      ensures exit == GrabFailed <==> exit != Lost && framesRun < s.cancelAt && !grabbed
      ensures exit == GrabFailed ==> if framesRun == 0 then !s.initialGrab else !s.frames[framesRun - 1].grabbed
      ensures exit == RmseNaN ==> aligner.RMSE().NaN?
      ensures exit == Lost ==> SecondConsecutiveBad(Bads(settings, s.frames[..framesRun]), framesRun - 1)
      ensures forall i :: 0 <= i < framesRun - (if exit == Lost then 1 else 0) ==>
                !SecondConsecutiveBad(Bads(settings, s.frames[..framesRun]), i)
    {
      framesRun := 0;
      var lostCount := 0;
      exit := Cancelled;
      while framesRun < s.cancelAt && grabbed && !aligner.RMSE().NaN?
        invariant Valid() && aligner == old(aligner) && |lastParameters| == |s.created|
        invariant framesRun <= s.cancelAt
        invariant framesRun == 0 ==> grabbed == s.initialGrab
        invariant framesRun > 0 ==> grabbed == s.frames[framesRun - 1].grabbed
        invariant LostClear(settings, s.frames, framesRun, lostCount)
        invariant exit == Cancelled
        decreases s.cancelAt - framesRun
      {
        LostClearStep(settings, s.frames, framesRun, lostCount);
        var end, newLostCount := SessionFrame(s, framesRun, lostCount);
        lostCount := newLostCount;
        framesRun := framesRun + 1;
        if end.LostTrack? {
          exit := Lost;
          break;
        }
      }
      if exit != Lost {
        exit := if framesRun >= s.cancelAt then Cancelled else if !grabbed then GrabFailed else RmseNaN;
      }
    }

    /**
     * `doTracking`: acquire the region of interest, set up, then track. The
     * result says whether the worker is done: it is, exactly when it is
     * cancelled by the end or the last grab failed, whatever ended the frame
     * loop; otherwise `doInBackground` starts over.
     */
    method DoTracking(s: Session) returns (done: bool, exit: Exit, framesRun: nat)
      requires SettingsOk() && ring.Valid() && SessionOk(s)
      modifies this, ring, ring.buffers
      ensures ring.Valid()
      ensures done <==> Finishes(exit, framesRun, s.cancelAt)
      ensures exit == Lost ==> (done <==> framesRun == s.cancelAt)
      ensures exit == RmseNaN ==> !done
      ensures exit == RoiNotFound <==> !s.roiFound
      ensures framesRun <= s.cancelAt
      ensures exit != RoiNotFound && exit != Lost ==> (exit == Cancelled <==> framesRun == s.cancelAt)
      ensures exit == GrabFailed ==> if framesRun == 0 then !s.initialGrab else !s.frames[framesRun - 1].grabbed
      ensures exit == RmseNaN ==> aligner != null && aligner.RMSE().NaN?
      ensures exit == Lost ==> SecondConsecutiveBad(Bads(settings, s.frames[..framesRun]), framesRun - 1)
      ensures exit != RoiNotFound ==>
                forall i :: 0 <= i < framesRun - (if exit == Lost then 1 else 0) ==>
                  !SecondConsecutiveBad(Bads(settings, s.frames[..framesRun]), i)
    {
      if !s.roiFound {
        return false, RoiNotFound, 0;
      }
      Initialize(s);
      exit, framesRun := TrackFrames(s);
      done := framesRun >= s.cancelAt || !grabbed;
    }

    /**
     * `doInBackground`: call `doTracking` until it reports done.  Returns
     * why each call ended and how many frames it ran; the script of
     * sessions must contain one that ends the loop.
     */
    method DoInBackground(sessions: seq<Session>) returns (exits: seq<Exit>, runs: seq<nat>)
      requires SettingsOk() && ring.Valid()
      requires forall j :: 0 <= j < |sessions| ==> SessionOk(sessions[j])
      requires exists j :: 0 <= j < |sessions| && sessions[j].roiFound && sessions[j].cancelAt == 0
      modifies this, ring, ring.buffers
      ensures 1 <= |exits| == |runs| <= |sessions|
      ensures Finishes(exits[|exits| - 1], runs[|exits| - 1], sessions[|exits| - 1].cancelAt)
      ensures forall i :: 0 <= i < |exits| - 1 ==> !Finishes(exits[i], runs[i], sessions[i].cancelAt)
    {
      ghost var last :| 0 <= last < |sessions| && sessions[last].roiFound && sessions[last].cancelAt == 0;
      exits, runs := [], [];
      var done := false;
      while !done
        invariant |exits| == |runs| <= last + 1 && ring.Valid()
        invariant forall i :: 0 <= i < |exits| ==>
                    (Finishes(exits[i], runs[i], sessions[i].cancelAt) <==> i == |exits| - 1 && done)
        invariant done ==> |exits| >= 1
        invariant !done ==> |exits| <= last
        decreases last + 1 - |exits|, if done then 0 else 1
      {
        var exit, framesRun;
        done, exit, framesRun := DoTracking(sessions[|exits|]);
        exits, runs := exits + [exit], runs + [framesRun];
      }
    }
  }
}
