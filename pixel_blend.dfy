/**
 * The integer alpha blend that lays an overlay image over each video frame
 * before it is projected.  A pixel is a sequence of 1 to 4 channel bytes; the
 * overlay's alpha is its first byte when it has 4 channels.  Colour channels
 * pass through a 256-entry lookup table (the gamma-2.2 table in the
 * augmentor, the identity table in the oldest worker).
 */
module PixelBlend {
  import opened JavaNumbers
  import opened Wrappers
  import opened Geometry

  /** An image pixel: its 1 to 4 channel bytes. */
  type Pixel = p: seq<byte> | 1 <= |p| <= 4 witness [0]

  /** The lookup table that leaves every byte as it is. */
  function IdentityTable(): (t: seq<byte>)
  {
    seq(256, i requires 0 <= i < 256 => i)
  }

  /** The overlay's colour channels, blue, green and red, read in the order the first switch falls through. */
  function Colours(src: Pixel, table: seq<byte>): (bgr: (byte, byte, byte))
    requires |table| == 256
  {
    (if |src| >= 3 then table[src[|src| - 3]] else 0,
     if |src| >= 2 then table[src[|src| - 2]] else 0,
     table[src[|src| - 1]])
  }

  /** One blended channel: `(c*a + d*a2)/255`, stored through a `(byte)` cast. */
  function Mix(c: byte, a: int, d: byte, a2: int): byte
    requires a >= 0 && a2 >= 0
  {
    LowByte((c * a + d * a2) / 255)
  }

  /**
   * The second switch, falling through from the frame's channel count: a
   * 4-channel frame adds the overlay alpha to its own alpha byte and weights
   * the colours by that old frame alpha; a frame with fewer channels takes the
   * last ones of blue, green and red.
   */
  function BlendWithWeights(a: byte, a2: int, bgr: (byte, byte, byte), dst: Pixel, table: seq<byte>): (out: Pixel)
    requires |table| == 256 && a2 >= 0
    ensures |out| == |dst|
  {
    var (b, g, r) := bgr;
    if |dst| == 4 then
      [LowByte(a + dst[0]), Mix(b, a, table[dst[1]], dst[0]), Mix(g, a, table[dst[2]], dst[0]),
       Mix(r, a, table[dst[3]], dst[0])]
    else if |dst| == 3 then
      [Mix(b, a, table[dst[0]], a2), Mix(g, a, table[dst[1]], a2), Mix(r, a, table[dst[2]], a2)]
    else if |dst| == 2 then
      [Mix(g, a, table[dst[0]], a2), Mix(r, a, table[dst[1]], a2)]
    else
      [Mix(r, a, table[dst[0]], a2)]
  }

  /**
   * The pixel blend as the source writes it: `a` and `a2` both start at 128
   * and only a 4-channel overlay replaces them with its alpha and `255 - a`.
   */
  function BlendPixelAsWritten(src: Pixel, dst: Pixel, table: seq<byte>): (out: Pixel)
    requires |table| == 256
    ensures |out| == |dst|
  {
    var a := if |src| == 4 then src[0] else 128;
    var a2 := if |src| == 4 then 255 - src[0] else 128;
    BlendWithWeights(a, a2, Colours(src, table), dst, table)
  }

  /**
   * Without an alpha channel the two weights add up to 256, so white over
   * white sums to 256 and the `(byte)` cast stores 0: a 3-channel overlay
   * turns white areas of a white frame black.
   */
  lemma OpaqueOverlayWrapsToBlack()
    ensures BlendPixelAsWritten([255, 255, 255], [255, 255, 255], IdentityTable()) == [0, 0, 0]
  {
    assert (255 * 128 + 255 * 128) / 255 == 256;
  }

  /**
   * The blend with the evidently intended weights: an overlay without alpha
   * is mixed half and half, with weights 128 and 127 that add up to 255 as
   * they do for a 4-channel overlay.
   */
  function BlendPixel(src: Pixel, dst: Pixel, table: seq<byte>): (out: Pixel)
    requires |table| == 256
    ensures |out| == |dst|
  {
    var a := if |src| == 4 then src[0] else 128;
    BlendWithWeights(a, 255 - a, Colours(src, table), dst, table)
  }

  /** One channel mixed with weights adding up to at most 255 never wraps. */
  lemma MixExact(c: byte, a: int, d: byte, a2: int)
    requires 0 <= a && 0 <= a2 && a + a2 <= 255
    ensures Mix(c, a, d, a2) as int == (c as int * a + d as int * a2) / 255
  {
    ByteTimesWeight(c, a);
    ByteTimesWeight(d, a2);
    var s := c as int * a + d as int * a2;
    assert 0 <= s / 255 < 256;
  }

  /** A byte times a non-negative weight lies between 0 and 255 times the weight. */
  lemma ByteTimesWeight(c: byte, a: int)
    requires 0 <= a
    ensures 0 <= c as int * a <= 255 * a
  {
    assert (255 - c as int) * a >= 0;
  }

  /** The overlay colour that lands on channel `k` of an `n`-channel frame. */
  function ColourFor(src: Pixel, table: seq<byte>, n: nat, k: nat): byte
    requires |table| == 256 && 1 <= n <= 3 && k < n
  {
    var (b, g, r) := Colours(src, table);
    [b, g, r][3 - n + k]
  }

  /** Channel `k` of the corrected blend over a frame of 1 to 3 channels is one mix of the matching colours. */
  lemma BlendChannelIsMix(src: Pixel, dst: Pixel, table: seq<byte>, k: nat)
    requires |dst| <= 3 && |table| == 256 && k < |dst|
    ensures var a := if |src| == 4 then src[0] as int else 128;
            BlendPixel(src, dst, table)[k] == Mix(ColourFor(src, table, |dst|, k), a, table[dst[k]], 255 - a)
  {
  }

  /** Every channel `k` blended over a frame of 1 to 3 channels is the exact weighted mean, with no wrap. */
  lemma BlendPixelExact(src: Pixel, dst: Pixel, table: seq<byte>, k: nat, a: int)
    requires |dst| <= 3 && |table| == 256 && k < |dst|
    requires a == if |src| == 4 then src[0] as int else 128
    ensures BlendPixel(src, dst, table)[k] as int ==
            (ColourFor(src, table, |dst|, k) as int * a + table[dst[k]] as int * (255 - a)) / 255
  {
    BlendChannelIsMix(src, dst, table, k);
    MixExact(ColourFor(src, table, |dst|, k), a, table[dst[k]], 255 - a);
  }

  /**
   * For a 4-channel overlay over a 3-channel frame the source and the
   * corrected blend agree: each channel is `(c*a + d*(255-a)) div 255` with
   * `a` the overlay alpha, `c` the looked-up overlay colour and `d` the
   * looked-up frame colour.
   */
  lemma AlphaOverlayOnColourFrame(src: Pixel, dst: Pixel, table: seq<byte>)
    requires |src| == 4 && |dst| == 3 && |table| == 256
    ensures BlendPixelAsWritten(src, dst, table) == BlendPixel(src, dst, table)
    ensures forall k :: 0 <= k < 3 ==>
              BlendPixel(src, dst, table)[k] as int ==
              (table[src[k + 1]] as int * src[0] as int + table[dst[k]] as int * (255 - src[0] as int)) / 255
  {
    forall k | 0 <= k < 3
      ensures BlendPixel(src, dst, table)[k] as int ==
              (table[src[k + 1]] as int * src[0] as int + table[dst[k]] as int * (255 - src[0] as int)) / 255
    {
      BlendPixelExact(src, dst, table, k, src[0] as int);
      assert ColourFor(src, table, 3, k) == table[src[k + 1]];
    }
  }

  /**
   * Whenever the overlay or the frame has an alpha channel the blend as
   * written is the corrected one: the overlay alpha sets both weights, or the
   * frame alpha replaces the second weight.
   */
  lemma AsWrittenAgreesWithAlpha(src: Pixel, dst: Pixel, table: seq<byte>)
    requires |table| == 256 && (|src| == 4 || |dst| == 4)
    ensures BlendPixelAsWritten(src, dst, table) == BlendPixel(src, dst, table)
  {
  }

  /**
   * Without any alpha channel the blend as written gives each channel of a
   * frame of 1 to 3 channels the rounded-down mean of overlay and frame
   * colour, except that two full-intensity colours wrap to 0.
   */
  lemma AsWrittenHalfMix(src: Pixel, dst: Pixel, table: seq<byte>, k: nat)
    requires |src| <= 3 && |dst| <= 3 && |table| == 256 && k < |dst|
    ensures var c, d := ColourFor(src, table, |dst|, k) as int, table[dst[k]] as int;
            BlendPixelAsWritten(src, dst, table)[k] as int == if c == 255 && d == 255 then 0 else (c + d) * 128 / 255
  {
    var c, d := ColourFor(src, table, |dst|, k), table[dst[k]];
    assert BlendPixelAsWritten(src, dst, table)[k] == Mix(c, 128, d, 128);
    var s := c as int * 128 + d as int * 128;
    assert s == (c as int + d as int) * 128;
    if c == 255 && d == 255 {
      assert s / 255 == 256;
    } else {
      assert c as int + d as int <= 509;
      assert 0 <= s <= 509 * 128;
      assert s / 255 < 256;
    }
  }

  /**
   * The window the blend loop walks: the overlay's region of interest when it
   * has one, otherwise the top-left corner common to both images.
   */
  function BlendWindow(roi: Option<Rect>, srcRows: nat, srcCols: nat, dstRows: nat, dstCols: nat): (w: Rect)
    ensures roi.None? ==> w.x == 0 && w.y == 0 &&
                          w.width <= srcCols && w.width <= dstCols && (w.width == srcCols || w.width == dstCols) &&
                          w.height <= srcRows && w.height <= dstRows && (w.height == srcRows || w.height == dstRows)
    ensures roi.Some? ==> w == roi.value
  {
    match roi
    case None => Rect(0, 0, MinInt(srcCols, dstCols), MinInt(srcRows, dstRows))
    case Some(r) => r
  }

  /**
   * A window the blend loop can walk: it starts at non-negative coordinates
   * and its columns lie inside both images, unless it starts below the last
   * row of one of them, in which case the loop visits no row.
   */
  predicate WindowFits(w: Rect, srcRows: int, srcCols: int, dstRows: int, dstCols: int)
  {
    0 <= w.x && 0 <= w.y && (w.Right() <= MinInt(srcCols, dstCols) || w.y >= MinInt(srcRows, dstRows))
  }

  /** How many rows the blend loop visits: it stops after `height` rows or when a row would start past either image. */
  function RowsVisited(w: Rect, srcRows: nat, dstRows: nat): (n: nat)
    requires w.y >= 0
    ensures n <= MaxInt(w.height, 0) && w.y + n <= MaxInt(w.y, srcRows) && w.y + n <= MaxInt(w.y, dstRows)
    ensures n < w.height ==> w.y + n >= srcRows || w.y + n >= dstRows
  {
    MaxInt(0, MinInt(w.height, MinInt(srcRows - w.y, dstRows - w.y)))
  }

  /** Whether frame pixel (`i`, `j`) lies in the part of the window the blend loop visits. */
  predicate Blended(w: Rect, rows: nat, i: int, j: int)
  {
    w.y <= i < w.y + rows && w.x <= j < w.x + w.width
  }

  /** One row of the blend loop: pixels `x0 .. x0 + width - 1` of row `row` in both images. */
  method BlendRow(src: array2<Pixel>, dst: array2<Pixel>, row: nat, x0: nat, width: int, table: seq<byte>)
    requires src != dst && |table| == 256
    requires row < src.Length0 && row < dst.Length0 && x0 + width <= MinInt(src.Length1, dst.Length1)
    modifies dst
    ensures forall i, j :: 0 <= i < dst.Length0 && 0 <= j < dst.Length1 ==>
              dst[i, j] == if i == row && x0 <= j < x0 + width then BlendPixelAsWritten(src[i, j], old(dst[i, j]), table)
                           else old(dst[i, j])
  {
    var x := 0;
    while x < width
      invariant 0 <= x <= MaxInt(width, 0)
      invariant forall i, j :: 0 <= i < dst.Length0 && 0 <= j < dst.Length1 ==>
                  dst[i, j] == if i == row && x0 <= j < x0 + x then BlendPixelAsWritten(src[i, j], old(dst[i, j]), table)
                               else old(dst[i, j])
    {
      dst[row, x0 + x] := BlendPixelAsWritten(src[row, x0 + x], dst[row, x0 + x], table);
      x := x + 1;
    }
  }

  /**
   * The blend of the overlay `src` into the frame `dst`, pixel by pixel in the
   * window.  The window's columns must lie inside both images whenever a
   * row is visited: the source walks raw buffers and would run into the next
   * row otherwise.
   */
  method BlendInto(src: array2<Pixel>, dst: array2<Pixel>, roi: Option<Rect>, table: seq<byte>) returns (rows: nat)
    requires src != dst && |table| == 256
    requires roi.Some? ==> WindowFits(roi.value, src.Length0, src.Length1, dst.Length0, dst.Length1)
    modifies dst
    ensures var w := BlendWindow(roi, src.Length0, src.Length1, dst.Length0, dst.Length1);
            rows == RowsVisited(w, src.Length0, dst.Length0) &&
            forall i, j :: 0 <= i < dst.Length0 && 0 <= j < dst.Length1 ==>
              dst[i, j] == if Blended(w, rows, i, j) then BlendPixelAsWritten(src[i, j], old(dst[i, j]), table) else old(dst[i, j])
  {
    var w := BlendWindow(roi, src.Length0, src.Length1, dst.Length0, dst.Length1);
    var y := 0;
    while y < w.height && w.y + y < src.Length0 && w.y + y < dst.Length0
      invariant y <= MaxInt(w.height, 0) && w.y + y <= MaxInt(w.y, src.Length0) && w.y + y <= MaxInt(w.y, dst.Length0)
      invariant forall i, j :: 0 <= i < dst.Length0 && 0 <= j < dst.Length1 ==>
                  dst[i, j] == if Blended(w, y, i, j) then BlendPixelAsWritten(src[i, j], old(dst[i, j]), table) else old(dst[i, j])
    {
      BlendRow(src, dst, w.y + y, w.x, w.width, table);
      y := y + 1;
    }
    rows := y;
  }
}
