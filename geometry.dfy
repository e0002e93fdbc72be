/**
 * Points and integer rectangles (OpenCV `CvRect`, AWT `Rectangle`) as the
 * tracker combines them: bounding unions and point containment.
 */
module Geometry {
  import opened JavaNumbers

  /** A point in image coordinates. */
  datatype Point = Point(x: real, y: real)

  /** An integer rectangle given by its origin and its extent. */
  datatype Rect = Rect(x: int, y: int, width: int, height: int)
  {
    function Right(): int { x + width }
    function Bottom(): int { y + height }
  }

  /** The rectangle at the origin that covers a whole `width` by `height` image. */
  function FullImage(width: nat, height: nat): Rect
  {
    Rect(0, 0, width, height)
  }

  /** Pixel (`px`, `py`) lies in the half-open rectangle `r`. */
  predicate Covers(r: Rect, px: int, py: int)
  {
    r.x <= px < r.Right() && r.y <= py < r.Bottom()
  }

  /** Every edge of `inner` lies on or inside the matching edge of `outer`. */
  predicate Spans(outer: Rect, inner: Rect)
  {
    outer.x <= inner.x && outer.y <= inner.y &&
    inner.Right() <= outer.Right() && inner.Bottom() <= outer.Bottom()
  }

  /** The bounding union of two rectangles, as the dirty-rectangle code builds `maxroi`. */
  function Union(a: Rect, b: Rect): (u: Rect)
    ensures Spans(u, a) && Spans(u, b)
    ensures (u.x == a.x || u.x == b.x) && (u.y == a.y || u.y == b.y)
    ensures (u.Right() == a.Right() || u.Right() == b.Right())
    ensures (u.Bottom() == a.Bottom() || u.Bottom() == b.Bottom())
  {
    var x := MinInt(a.x, b.x);
    var y := MinInt(a.y, b.y);
    Rect(x, y, MaxInt(a.Right(), b.Right()) - x, MaxInt(a.Bottom(), b.Bottom()) - y)
  }

  /** The union is the smallest rectangle spanning both. */
  lemma UnionIsSmallest(a: Rect, b: Rect, r: Rect)
    requires Spans(r, a) && Spans(r, b)
    ensures Spans(r, Union(a, b))
  {
  }

  /** The union does not depend on the order of its arguments. */
  lemma UnionCommutes(a: Rect, b: Rect)
    ensures Union(a, b) == Union(b, a)
  {
  }

  /**
   * `java.awt.Rectangle.contains(X, Y)`: a rectangle with a negative extent
   * contains nothing, and the right and bottom edges are computed in `int`
   * arithmetic, so an edge that overflows counts as unbounded.
   */
  predicate AwtContains(r: Rect, px: int, py: int)
  {
    r.width >= 0 && r.height >= 0 && r.x <= px && r.y <= py &&
    (var right := Int32(r.x + r.width);
     var bottom := Int32(r.y + r.height);
     (right < r.x || right > px) && (bottom < r.y || bottom > py))
  }

  /** Away from int overflow, containment is half-open membership in both axes. */
  lemma AwtContainsHalfOpen(r: Rect, px: int, py: int)
    requires INT_MIN <= r.x <= INT_MAX && INT_MIN <= r.y <= INT_MAX
    requires INT_MIN <= r.Right() <= INT_MAX && INT_MIN <= r.Bottom() <= INT_MAX
    ensures AwtContains(r, px, py) <==>
            r.x <= px < r.Right() && r.y <= py < r.Bottom() && r.width >= 0 && r.height >= 0
  {
  }

  /** A mutable OpenCV `CvRect`, as the caller hands in the previous frame's rectangle. */
  class CvRect {
    var x: int
    var y: int
    var width: int
    var height: int

    constructor (r: Rect)
      ensures Value() == r
    {
      x, y, width, height := r.x, r.y, r.width, r.height;
    }

    function Value(): Rect
      reads this
    {
      Rect(x, y, width, height)
    }

    /** Overwrites all four fields. */
    method Set(r: Rect)
      modifies this
      ensures Value() == r
    {
      x, y, width, height := r.x, r.y, r.width, r.height;
    }
  }
}
