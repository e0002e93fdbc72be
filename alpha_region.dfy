/**
 * The region of an overlay image with an alpha channel that is not fully
 * transparent, which the oldest worker sets as the overlay's region of
 * interest so that only that part is blended.
 */
module AlphaRegion {
  import opened JavaNumbers
  import opened Geometry
  import opened PixelBlend

  /** Pixel (`x`, `y`) exists and its alpha byte, the first one, is not zero. */
  predicate Visible(img: array2<Pixel>, y: int, x: int)
    reads img
  {
    0 <= y < img.Length0 && 0 <= x < img.Length1 && |img[y, x]| > 0 && img[y, x][0] != 0
  }

  /** Whether any pixel of `img` is visible. */
  ghost predicate AnyVisible(img: array2<Pixel>)
    reads img
  {
    exists y, x :: Visible(img, y, x)
  }

  /**
   * What the alpha scan reports: the extreme columns and rows of the visible
   * pixels, each reached by one of them, or `Integer.MAX_VALUE` and
   * `Integer.MIN_VALUE` as initialised when nothing is visible.
   */
  ghost predicate ScanResult(img: array2<Pixel>, minX: int, maxX: int, minY: int, maxY: int)
    reads img
  {
    (forall y, x :: Visible(img, y, x) ==> minX <= x <= maxX && minY <= y <= maxY) &&
    (if AnyVisible(img) then
       (exists y :: Visible(img, y, minX)) && (exists y :: Visible(img, y, maxX)) &&
       (exists x :: Visible(img, minY, x)) && (exists x :: Visible(img, maxY, x))
     else
       minX == INT_MAX && maxX == INT_MIN && minY == INT_MAX && maxY == INT_MIN)
  }

  /** The row-by-row scan for the bounds of the visible pixels. */
  method ScanAlpha(img: array2<Pixel>) returns (minX: int, maxX: int, minY: int, maxY: int)
    requires img.Length0 <= INT_MAX && img.Length1 <= INT_MAX
    ensures ScanResult(img, minX, maxX, minY, maxY)
  {
    minX, maxX, minY, maxY := INT_MAX, INT_MIN, INT_MAX, INT_MIN;
    ghost var found := false;
    // rows and columns where the current extremes are reached
    ghost var rowOfMinX, rowOfMaxX, colOfMinY, colOfMaxY := 0, 0, 0, 0;
    for y := 0 to img.Length0
      invariant found <==> exists yy, x :: yy < y && Visible(img, yy, x)
      invariant forall yy, x :: yy < y && Visible(img, yy, x) ==> minX <= x <= maxX && minY <= yy <= maxY
      invariant found ==> Visible(img, rowOfMinX, minX) && Visible(img, rowOfMaxX, maxX) &&
                          Visible(img, minY, colOfMinY) && Visible(img, maxY, colOfMaxY)
      invariant !found ==> minX == INT_MAX && maxX == INT_MIN && minY == INT_MAX && maxY == INT_MIN
    {
      for x := 0 to img.Length1
        invariant found <==> exists yy, xx :: (yy < y || (yy == y && xx < x)) && Visible(img, yy, xx)
        invariant forall yy, xx :: (yy < y || (yy == y && xx < x)) && Visible(img, yy, xx) ==>
                    minX <= xx <= maxX && minY <= yy <= maxY
        invariant found ==> Visible(img, rowOfMinX, minX) && Visible(img, rowOfMaxX, maxX) &&
                            Visible(img, minY, colOfMinY) && Visible(img, maxY, colOfMaxY)
        invariant !found ==> minX == INT_MAX && maxX == INT_MIN && minY == INT_MAX && maxY == INT_MIN
      {
        if |img[y, x]| > 0 && img[y, x][0] != 0 {
          assert Visible(img, y, x);
          if !found || x < minX { rowOfMinX := y; }
          if !found || x > maxX { rowOfMaxX := y; }
          if !found || y < minY { colOfMinY := x; }
          if !found || y > maxY { colOfMaxY := x; }
          minX := MinInt(minX, x);
          maxX := MaxInt(maxX, x);
          minY := MinInt(minY, y);
          maxY := MaxInt(maxY, y);
          found := true;
        }
      }
    }
  }

  /** The region of interest as the source builds it, `cvRect(minX, minY, maxX-minX, maxY-minY)` in `int` arithmetic. */
  function AlphaRoiAsWritten(minX: int, maxX: int, minY: int, maxY: int): Rect
  {
    Rect(minX, minY, Int32(maxX - minX), Int32(maxY - minY))
  }

  /**
   * The extents lack `+ 1`: the right-most column and the bottom row of
   * visible pixels fall outside the region, and a single visible pixel gives
   * an empty region.
   */
  lemma AlphaRoiAsWrittenDropsLastColumn(img: array2<Pixel>, minX: int, maxX: int, minY: int, maxY: int)
    requires ScanResult(img, minX, maxX, minY, maxY) && AnyVisible(img)
    requires img.Length0 <= INT_MAX && img.Length1 <= INT_MAX
    ensures exists y :: Visible(img, y, maxX) && !Covers(AlphaRoiAsWritten(minX, maxX, minY, maxY), maxX, y)
  {
    var y :| Visible(img, y, maxX);
    var yy, xx :| Visible(img, yy, xx);
    assert minX <= maxX;
    assert Int32(maxX - minX) == maxX - minX;
    assert !Covers(AlphaRoiAsWritten(minX, maxX, minY, maxY), maxX, y);
  }

  /** An image whose only visible pixel is (5, 7) gets an empty region from the source's formula. */
  lemma SinglePixelGivesEmptyRoi()
    ensures AlphaRoiAsWritten(5, 5, 7, 7) == Rect(5, 7, 0, 0)
    ensures !Covers(AlphaRoiAsWritten(5, 5, 7, 7), 5, 7)
  {
  }

  /**
   * The evidently intended region: the bounding box of the visible pixels,
   * inclusive of the last column and row, and an empty region when nothing is
   * visible.
   */
  function AlphaRoi(minX: int, maxX: int, minY: int, maxY: int): Rect
  {
    if maxX < minX || maxY < minY then Rect(0, 0, 0, 0)
    else Rect(minX, minY, maxX - minX + 1, maxY - minY + 1)
  }

  /**
   * `roi` is the bounding box of the visible pixels of `img`: it covers each
   * of them, each of its four edges passes through one, and it is empty when
   * none is visible.
   */
  ghost predicate BoundingBox(img: array2<Pixel>, roi: Rect)
    reads img
  {
    (forall y, x :: Visible(img, y, x) ==> Covers(roi, x, y)) &&
    if AnyVisible(img) then
      var right, bottom := roi.Right() - 1, roi.Bottom() - 1;
      (exists y :: Visible(img, y, roi.x)) && (exists y :: Visible(img, y, right)) &&
      (exists x :: Visible(img, roi.y, x)) && (exists x :: Visible(img, bottom, x))
    else
      roi == Rect(0, 0, 0, 0)
  }

  /** A bounding box is the smallest rectangle covering the visible pixels: every other one spans it. */
  lemma {:induction false} BoundingBoxIsSmallest(img: array2<Pixel>, roi: Rect, r: Rect)
    requires BoundingBox(img, roi) && AnyVisible(img)
    requires forall y, x :: Visible(img, y, x) ==> Covers(r, x, y)
    ensures Spans(r, roi)
  {
    var y1 :| Visible(img, y1, roi.x);
    var y2 :| Visible(img, y2, roi.Right() - 1);
    var x1 :| Visible(img, roi.y, x1);
    var x2 :| Visible(img, roi.Bottom() - 1, x2);
    assert Covers(r, roi.x, y1) && Covers(r, roi.Right() - 1, y2) && Covers(r, x1, roi.y) && Covers(r, x2, roi.Bottom() - 1);
  }

  /** A rectangle covering the visible pixels is their bounding box once a visible pixel lies on each of its edges. */
  lemma BoundingBoxByEdges(img: array2<Pixel>, roi: Rect, y1: int, y2: int, x1: int, x2: int)
    requires forall y, x :: Visible(img, y, x) ==> Covers(roi, x, y)
    requires Visible(img, y1, roi.x) && Visible(img, y2, roi.Right() - 1)
    requires Visible(img, roi.y, x1) && Visible(img, roi.Bottom() - 1, x2)
    ensures BoundingBox(img, roi)
  {
    assert AnyVisible(img);
  }

  /** The corrected region is the bounding box of the visible pixels the scan reports. */
  lemma AlphaRoiIsBoundingBox(img: array2<Pixel>, minX: int, maxX: int, minY: int, maxY: int)
    requires ScanResult(img, minX, maxX, minY, maxY)
    ensures BoundingBox(img, AlphaRoi(minX, maxX, minY, maxY))
  {
    var roi := AlphaRoi(minX, maxX, minY, maxY);
    if AnyVisible(img) {
      var yy, xx :| Visible(img, yy, xx);
      assert minX <= maxX && minY <= maxY;
      var y1 :| Visible(img, y1, minX);
      var y2 :| Visible(img, y2, maxX);
      var x1 :| Visible(img, minY, x1);
      var x2 :| Visible(img, maxY, x2);
      assert roi == Rect(minX, minY, maxX - minX + 1, maxY - minY + 1);
      forall y, x | Visible(img, y, x)
        ensures Covers(roi, x, y)
      {
        assert minX <= x <= maxX && minY <= y <= maxY;
      }
      BoundingBoxByEdges(img, roi, y1, y2, x1, x2);
    } else {
      assert forall y, x :: !Visible(img, y, x);
      assert maxX < minX;
    }
  }

  /** The corrected region lies inside the image it was scanned from. */
  lemma AlphaRoiInsideImage(img: array2<Pixel>, minX: int, maxX: int, minY: int, maxY: int)
    requires ScanResult(img, minX, maxX, minY, maxY)
    ensures var r := AlphaRoi(minX, maxX, minY, maxY);
            0 <= r.x && 0 <= r.y && r.Right() <= img.Length1 && r.Bottom() <= img.Length0
  {
    if AnyVisible(img) {
      var y1 :| Visible(img, y1, minX);
      var y2 :| Visible(img, y2, maxX);
      var x1 :| Visible(img, minY, x1);
      var x2 :| Visible(img, maxY, x2);
    }
  }

  /**
   * Where something is visible, the region as written is the bounding box
   * short of its last column and its last row.
   */
  lemma AsWrittenIsBoundingBoxShrunk(img: array2<Pixel>, minX: int, maxX: int, minY: int, maxY: int)
    requires ScanResult(img, minX, maxX, minY, maxY) && AnyVisible(img)
    requires img.Length0 <= INT_MAX && img.Length1 <= INT_MAX
    ensures var r := AlphaRoiAsWritten(minX, maxX, minY, maxY);
            0 <= r.x && 0 <= r.y && r.Right() < img.Length1 && r.Bottom() < img.Length0 &&
            Rect(r.x, r.y, r.width + 1, r.height + 1) == AlphaRoi(minX, maxX, minY, maxY)
  {
    var y1 :| Visible(img, y1, minX);
    var y2 :| Visible(img, y2, maxX);
    var x1 :| Visible(img, minY, x1);
    var x2 :| Visible(img, maxY, x2);
    assert Int32(maxX - minX) == maxX - minX;
    assert Int32(maxY - minY) == maxY - minY;
  }

  /**
   * The alpha scan of an overlay with four channels and the region it sets,
   * as the source computes it: when some pixel is visible, the bounding box
   * of the visible pixels without its last column and row; when none is, the
   * `int` wrap-around of the untouched extremes gives a 1 by 1 region at
   * (`Integer.MAX_VALUE`, `Integer.MAX_VALUE`), below and right of the image.
   */
  method AlphaRegionOf(img: array2<Pixel>) returns (roi: Rect)
    requires img.Length0 <= INT_MAX && img.Length1 <= INT_MAX
    ensures AnyVisible(img) ==>
              0 <= roi.x && 0 <= roi.y && roi.Right() < img.Length1 && roi.Bottom() < img.Length0 &&
              BoundingBox(img, Rect(roi.x, roi.y, roi.width + 1, roi.height + 1))
    ensures !AnyVisible(img) ==> roi == Rect(INT_MAX, INT_MAX, 1, 1)
  {
    var minX, maxX, minY, maxY := ScanAlpha(img);
    AlphaRoiIsBoundingBox(img, minX, maxX, minY, maxY);
    if AnyVisible(img) {
      AsWrittenIsBoundingBoxShrunk(img, minX, maxX, minY, maxY);
    }
    roi := AlphaRoiAsWritten(minX, maxX, minY, maxY);
  }
}
