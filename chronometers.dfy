/**
 * The chronometer overlays: a `java.awt.Rectangle` placement whose negative
 * offsets count from the right and bottom edges of the frame, a start time
 * latched on the first draw, and the reading drawn at each frame.  The
 * current time is passed in; the text rendering and the copy into the frame
 * are not modelled.
 */
module Chronometers {
  import opened TimeDisplay

  /** A mutable `java.awt.Rectangle`. */
  class AwtRectangle {
    var x: int
    var y: int
    var width: int
    var height: int

    constructor (x: int, y: int, width: int, height: int)
      ensures this.x == x && this.y == y && this.width == width && this.height == height
    {
      this.x, this.y, this.width, this.height := x, y, width, height;
    }

    /** `Rectangle.clone()`: a new rectangle with the same fields. */
    method Clone() returns (r: AwtRectangle)
      ensures fresh(r) && r.x == x && r.y == y && r.width == width && r.height == height
    {
      r := new AwtRectangle(x, y, width, height);
    }
  }

  /** One anchoring step: a negative offset has the frame's extent added. */
  function Anchor(offset: int, extent: int): (r: int)
    ensures offset >= 0 ==> r == offset
    ensures -extent <= offset < 0 ==> 0 <= r < extent
    ensures extent != 0 ==> (r - offset) % extent == 0
  {
    if offset < 0 then offset + extent else offset
  }

  /** An offset that anchoring made non-negative is never moved again. */
  lemma AnchorSettles(offset: int, extent: int)
    requires offset + extent >= 0
    ensures Anchor(Anchor(offset, extent), extent) == Anchor(offset, extent) >= 0
  {
  }

  /**
   * Applies one draw's anchoring to the rectangle in place, as both
   * chronometers do after rendering.
   */
  method AnchorInFrame(roi: AwtRectangle, frameWidth: int, frameHeight: int)
    modifies roi
    ensures roi.x == Anchor(old(roi.x), frameWidth) && roi.y == Anchor(old(roi.y), frameHeight)
    ensures roi.width == old(roi.width) && roi.height == old(roi.height)
  {
    if roi.x < 0 {
      roi.x := roi.x + frameWidth;
    }
    if roi.y < 0 {
      roi.y := roi.y + frameHeight;
    }
  }

  /**
   * A chronometer that measures from its own start time: negative means not
   * started, and the first draw starts it.
   */
  class Chronometer {
    const roi: AwtRectangle
    var startTime: int

    /** Clones the caller's rectangle, so drawing never moves the caller's. */
    constructor (roi: AwtRectangle, startTime: int)
      ensures fresh(this.roi) && this.startTime == startTime
      ensures this.roi.x == roi.x && this.roi.y == roi.y && this.roi.width == roi.width && this.roi.height == roi.height
    {
      var copy := roi.Clone();
      this.roi := copy;
      this.startTime := startTime;
    }

    /** The one-argument constructor: a chronometer not yet started. */
    constructor Unstarted(roi: AwtRectangle)
      ensures fresh(this.roi) && this.startTime == -1
      ensures this.roi.x == roi.x && this.roi.y == roi.y && this.roi.width == roi.width && this.roi.height == roi.height
    {
      var copy := roi.Clone();
      this.roi := copy;
      this.startTime := -1;
    }

    /**
     * One frame: latches the start time on the first draw and shows 0, else
     * shows the time since the start; then anchors the placement.
     */
    method Draw(now: int, frameWidth: int, frameHeight: int) returns (shown: Reading, text: string)
      modifies this, roi
      ensures old(startTime) < 0 ==> startTime == now && shown == Decompose(0)
      ensures old(startTime) >= 0 ==> startTime == old(startTime) && shown == Decompose(now - startTime)
      ensures text == Text(shown)
      ensures roi.x == Anchor(old(roi.x), frameWidth) && roi.y == Anchor(old(roi.y), frameHeight)
      ensures roi.width == old(roi.width) && roi.height == old(roi.height)
    {
      var time;
      if startTime < 0 {
        startTime := now;
        time := 0;
      } else {
        time := now - startTime;
      }
      shown := Decompose(time);
      text := Text(shown);
      AnchorInFrame(roi, frameWidth, frameHeight);
    }
  }

  /** The older drawer, which is handed the time to show at each draw. */
  class ChronometerDrawer {
    const roi: AwtRectangle

    /** Clones the caller's rectangle, so drawing never moves the caller's. */
    constructor (roi: AwtRectangle)
      ensures fresh(this.roi)
      ensures this.roi.x == roi.x && this.roi.y == roi.y && this.roi.width == roi.width && this.roi.height == roi.height
    {
      var copy := roi.Clone();
      this.roi := copy;
    }

    /** Shows `time` and anchors the placement. */
    method Draw(time: int, frameWidth: int, frameHeight: int) returns (shown: Reading, text: string)
      modifies roi
      ensures shown == Decompose(time) && text == Text(shown)
      ensures roi.x == Anchor(old(roi.x), frameWidth) && roi.y == Anchor(old(roi.y), frameHeight)
      ensures roi.width == old(roi.width) && roi.height == old(roi.height)
    {
      shown := Decompose(time);
      text := Text(shown);
      AnchorInFrame(roi, frameWidth, frameHeight);
    }
  }

  /**
   * A chronometer placed 40 pixels in from the right edge of a 640 by 480
   * frame: its first draw latches the start time, shows 0 ms and moves its
   * own copy of the placement to x = 600, while the caller's rectangle keeps
   * its negative offset.
   */
  method FirstDrawKeepsCallerRectangle(now: int) returns (c: Chronometer, shown: Reading)
    ensures c.roi.x == 600 && c.roi.y == 10 && c.startTime == now
    ensures shown == Reading(0, 0, 0)
  {
    var placement := new AwtRectangle(-40, 10, 30, 20);
    c := new Chronometer.Unstarted(placement);
    var text;
    shown, text := c.Draw(now, 640, 480);
    assert placement.x == -40;
  }
}
