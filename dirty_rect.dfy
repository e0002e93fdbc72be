/**
 * The dirty rectangle of a projector frame: the bounding box of the four
 * warped image corners, padded by 3 pixels for the perspective warp, clamped
 * to the image, aligned to 16 pixels horizontally (the right edge clamped
 * back to the image width again, except in the oldest worker), and united
 * with the rectangle drawn in the previous frame of the same buffer.
 */
module DirtyRect {
  import opened JavaNumbers
  import opened Geometry

  /** A helper for the bit-shift arithmetic below: `1 << n`, which is at least 1. */
  function Pow2(n: nat): (r: nat)
    ensures r >= 1
  {
    if n == 0 then 1 else 2 * Pow2(n - 1)
  }

  /** `Double.MIN_VALUE`: the smallest positive double, not the most negative one. */
  const DOUBLE_MIN_VALUE: real := 1.0 / Pow2(1074) as real

  /** `Double.MAX_VALUE`. */
  const DOUBLE_MAX_VALUE: real := (Pow2(1024) - Pow2(971)) as real

  /** Extremes of a set of corners. */
  datatype Bounds = Bounds(minX: real, maxX: real, minY: real, maxY: real)

  /** The bounds before any corner is folded in: `Double.MAX_VALUE` for the minima, `Double.MIN_VALUE` for the maxima. */
  const INITIAL_BOUNDS: Bounds := Bounds(DOUBLE_MAX_VALUE, DOUBLE_MIN_VALUE, DOUBLE_MAX_VALUE, DOUBLE_MIN_VALUE)

  /** Folds one corner in with `Math.min` and `Math.max`. */
  function Include(b: Bounds, p: Point): Bounds
  {
    Bounds(MinReal(b.minX, p.x), MaxReal(b.maxX, p.x), MinReal(b.minY, p.y), MaxReal(b.maxY, p.y))
  }

  /** The fold over the corners in order, as the loop computes it. */
  function BoundsOf(pts: seq<Point>): Bounds
  {
    if |pts| == 0 then INITIAL_BOUNDS else Include(BoundsOf(pts[..|pts| - 1]), pts[|pts| - 1])
  }

  /** The corner fold: the minima start at `Double.MAX_VALUE`, the maxima at `Double.MIN_VALUE`, and every corner is folded in. */
  method CornerBounds(pts: seq<Point>) returns (b: Bounds)
    ensures b == BoundsOf(pts)
  {
    var minX, maxX, minY, maxY := DOUBLE_MAX_VALUE, DOUBLE_MIN_VALUE, DOUBLE_MAX_VALUE, DOUBLE_MIN_VALUE;
    var i := 0;
    while i < |pts|
      invariant 0 <= i <= |pts|
      invariant Bounds(minX, maxX, minY, maxY) == BoundsOf(pts[..i])
    {
      assert pts[..i + 1][..i] == pts[..i];
      var x2 := pts[i].x;
      var y2 := pts[i].y;
      minX := MinReal(minX, x2);
      minY := MinReal(minY, y2);
      maxX := MaxReal(maxX, x2);
      maxY := MaxReal(maxY, y2);
      i := i + 1;
    }
    assert pts[..|pts|] == pts;
    b := Bounds(minX, maxX, minY, maxY);
  }

  /** The fold bounds every corner. */
  lemma {:induction false} BoundsOfEnclosesCorners(pts: seq<Point>)
    ensures var b := BoundsOf(pts);
            forall i :: 0 <= i < |pts| ==> b.minX <= pts[i].x <= b.maxX && b.minY <= pts[i].y <= b.maxY
  {
    if |pts| > 0 {
      var q := pts[..|pts| - 1];
      BoundsOfEnclosesCorners(q);
      var b, c := BoundsOf(q), BoundsOf(pts);
      assert c == Include(b, pts[|pts| - 1]);
      forall i | 0 <= i < |pts|
        ensures c.minX <= pts[i].x <= c.maxX && c.minY <= pts[i].y <= c.maxY
      {
        if i < |q| {
          assert pts[i] == q[i];
        }
      }
    }
  }

  /**
   * The fold never passes its initial values, and each extreme is reached by
   * some corner unless it is still the initial value.
   */
  lemma {:induction false} BoundsOfAttained(pts: seq<Point>)
    ensures var b := BoundsOf(pts);
            b.minX <= DOUBLE_MAX_VALUE && b.minY <= DOUBLE_MAX_VALUE &&
            DOUBLE_MIN_VALUE <= b.maxX && DOUBLE_MIN_VALUE <= b.maxY
    ensures var b := BoundsOf(pts);
            (b.minX == DOUBLE_MAX_VALUE || exists i :: 0 <= i < |pts| && b.minX == pts[i].x) &&
            (b.minY == DOUBLE_MAX_VALUE || exists i :: 0 <= i < |pts| && b.minY == pts[i].y) &&
            (b.maxX == DOUBLE_MIN_VALUE || exists i :: 0 <= i < |pts| && b.maxX == pts[i].x) &&
            (b.maxY == DOUBLE_MIN_VALUE || exists i :: 0 <= i < |pts| && b.maxY == pts[i].y)
  {
    if |pts| > 0 {
      var q := pts[..|pts| - 1];
      BoundsOfAttained(q);
      assert forall i :: 0 <= i < |q| ==> q[i] == pts[i];
    }
  }

  /** The 3-pixel padding, clamped to a `width` by `height` image. */
  function Padded(b: Bounds, width: nat, height: nat): Bounds
  {
    Bounds(MaxReal(0.0, b.minX - 3.0), MinReal(width as real, b.maxX + 3.0),
           MaxReal(0.0, b.minY - 3.0), MinReal(height as real, b.maxY + 3.0))
  }

  /**
   * The 16-aligned rectangle of the tracked update: the left edge rounded
   * down to a multiple of 16, the right edge rounded up to one and then
   * clamped to the image width, the top and bottom edges rounded outwards
   * and clamped to the image.
   */
  function AlignedRoi(p: Bounds, width: nat, height: nat): Rect
  {
    var x := MaxInt(0, Floor(p.minX / 16.0) * 16);
    var y := MaxInt(0, Floor(p.minY));
    Rect(x, y, MinInt(width, Ceil(p.maxX / 16.0) * 16) - x, MinInt(height, Ceil(p.maxY)) - y)
  }

  /**
   * The rectangle starts at a non-negative multiple of 16, stays inside the
   * image on the right and at the bottom, and covers every point of the
   * padded, clamped corner box.
   */
  lemma AlignedRoiInsideAndCovering(b: Bounds, width: nat, height: nat, px: real, py: real)
    ensures var r := AlignedRoi(Padded(b, width, height), width, height);
            r.x >= 0 && r.x % 16 == 0 && r.y >= 0 && r.Right() <= width && r.Bottom() <= height
    ensures var p := Padded(b, width, height);
            var r := AlignedRoi(p, width, height);
            p.minX <= px <= p.maxX && p.minY <= py <= p.maxY ==>
              r.x as real <= px <= r.Right() as real && r.y as real <= py <= r.Bottom() as real
  {
    var p := Padded(b, width, height);
    var fx := Floor(p.minX / 16.0);
    var cx := Ceil(p.maxX / 16.0);
    assert fx as real * 16.0 <= p.minX;
    assert p.maxX <= cx as real * 16.0;
  }

  /** A point on the closed `width` by `height` image. */
  predicate OnImage(q: Point, width: nat, height: nat)
  {
    0.0 <= q.x <= width as real && 0.0 <= q.y <= height as real
  }

  /** A point inside the closed extent of `r`. */
  predicate Encloses(r: Rect, q: Point)
  {
    r.x as real <= q.x <= r.Right() as real && r.y as real <= q.y <= r.Bottom() as real
  }

  /** The dirty rectangle of a warped quad on a `width` by `height` projector image. */
  function DirtyRoi(pts: seq<Point>, width: nat, height: nat): Rect
  {
    AlignedRoi(Padded(BoundsOf(pts), width, height), width, height)
  }

  /**
   * The dirty rectangle starts at a non-negative multiple of 16, stays inside
   * the image, and encloses every corner of the quad that lies on the image.
   */
  lemma DirtyRoiEnclosesCorners(pts: seq<Point>, width: nat, height: nat)
    ensures var r := DirtyRoi(pts, width, height);
            0 <= r.x && r.x % 16 == 0 && 0 <= r.y && r.Right() <= width && r.Bottom() <= height
    ensures forall i :: 0 <= i < |pts| && OnImage(pts[i], width, height) ==> Encloses(DirtyRoi(pts, width, height), pts[i])
  {
    var b := BoundsOf(pts);
    BoundsOfEnclosesCorners(pts);
    AlignedRoiInsideAndCovering(b, width, height, 0.0, 0.0);
    forall i | 0 <= i < |pts| && OnImage(pts[i], width, height)
      ensures Encloses(DirtyRoi(pts, width, height), pts[i])
    {
      AlignedRoiInsideAndCovering(b, width, height, pts[i].x, pts[i].y);
    }
  }

  /**
   * The rectangle as the oldest projector code computes it: the same
   * rounding, but the right edge is not clamped back to the image width after
   * being rounded up to a multiple of 16.
   */
  function AlignedRoiUnclamped(p: Bounds): Rect
  {
    var x := Floor(p.minX / 16.0) * 16;
    var y := Floor(p.minY);
    Rect(x, y, Ceil(p.maxX / 16.0) * 16 - x, Ceil(p.maxY) - y)
  }

  /**
   * On a 100-pixel-wide image, a quad whose right corner lies at x = 98 pads
   * to maxX = 100 and rounds up to a right edge of 112, twelve columns past
   * the image; the clamped rectangle stops at 100.
   */
  lemma UnclampedRoiLeavesImage()
    ensures var p := Padded(Bounds(10.0, 98.0, 10.0, 50.0), 100, 80);
            AlignedRoiUnclamped(p).Right() == 112 && AlignedRoi(p, 100, 80).Right() == 100
  {
    var p := Padded(Bounds(10.0, 98.0, 10.0, 50.0), 100, 80);
    assert p.maxX == 100.0 && p.minX == 7.0;
    assert Ceil(100.0 / 16.0) == 7;
    assert Floor(7.0 / 16.0) == 0;
  }

  /** Rounding a value no larger than `width` up to a multiple of 16 passes `width` by at most 15, and not at all when `width` is a multiple of 16. */
  lemma RoundUpTo16(m: real, width: nat)
    requires m <= width as real
    ensures Ceil(m / 16.0) * 16 <= width + 15
    ensures width % 16 == 0 ==> Ceil(m / 16.0) * 16 <= width
  {
    var c := Ceil(m / 16.0);
    assert (c - 1) as real < width as real / 16.0;
    assert 16 * c < width + 16;
    if width % 16 == 0 {
      assert c - 1 < width / 16;
    }
  }

  /**
   * On bounds already clamped to a `width` by `height` image, the unclamped
   * rectangle starts at a non-negative multiple of 16, ends above the bottom
   * edge, and passes the right edge by at most 15 columns; the clamped one is
   * it with its right edge cut back to the width.
   */
  lemma UnclampedOnClampedBounds(p: Bounds, width: nat, height: nat)
    requires 0.0 <= p.minX && 0.0 <= p.minY && p.maxX <= width as real && p.maxY <= height as real
    ensures var r := AlignedRoiUnclamped(p);
            0 <= r.x && r.x % 16 == 0 && 0 <= r.y && r.Bottom() <= height &&
            r.Right() <= width + 15 && (width % 16 == 0 ==> r.Right() <= width)
    ensures var r := AlignedRoiUnclamped(p);
            AlignedRoi(p, width, height) == Rect(r.x, r.y, MinInt(width, r.Right()) - r.x, r.height)
  {
    RoundUpTo16(p.maxX, width);
    assert Ceil(p.maxY) as real - 1.0 < height as real;
  }

  /** The unclamped rectangle of padded bounds covers every point the padded box does. */
  lemma UnclampedCovers(b: Bounds, width: nat, height: nat, px: real, py: real)
    ensures var p := Padded(b, width, height);
            p.minX <= px <= p.maxX && p.minY <= py <= p.maxY ==> Encloses(AlignedRoiUnclamped(p), Point(px, py))
  {
    var p := Padded(b, width, height);
    var fx, cx := Floor(p.minX / 16.0), Ceil(p.maxX / 16.0);
    assert fx as real * 16.0 <= p.minX;
    assert p.maxX <= cx as real * 16.0;
  }

  /** The dirty rectangle of a warped quad as the oldest worker computes it. */
  function DirtyRoiAsWritten(pts: seq<Point>, width: nat, height: nat): Rect
  {
    AlignedRoiUnclamped(Padded(BoundsOf(pts), width, height))
  }

  /**
   * The unclamped rectangle still starts at a non-negative multiple of 16,
   * ends above the image's bottom edge and encloses every corner on the
   * image, but its right edge may pass the image width by up to 15 columns;
   * it does not when the width is a multiple of 16.  Cutting its right edge
   * back to the width gives the clamped rectangle.
   */
  lemma DirtyRoiAsWrittenBounds(pts: seq<Point>, width: nat, height: nat)
    ensures var r := DirtyRoiAsWritten(pts, width, height);
            0 <= r.x && r.x % 16 == 0 && 0 <= r.y && r.Bottom() <= height &&
            r.Right() <= width + 15 && (width % 16 == 0 ==> r.Right() <= width)
    ensures var r := DirtyRoiAsWritten(pts, width, height);
            DirtyRoi(pts, width, height) == Rect(r.x, r.y, MinInt(width, r.Right()) - r.x, r.height)
    ensures forall i :: 0 <= i < |pts| && OnImage(pts[i], width, height) ==>
              Encloses(DirtyRoiAsWritten(pts, width, height), pts[i])
  {
    var b := BoundsOf(pts);
    UnclampedOnClampedBounds(Padded(b, width, height), width, height);
    BoundsOfEnclosesCorners(pts);
    forall i | 0 <= i < |pts| && OnImage(pts[i], width, height)
      ensures Encloses(DirtyRoiAsWritten(pts, width, height), pts[i])
    {
      UnclampedCovers(b, width, height, pts[i].x, pts[i].y);
    }
  }
}
