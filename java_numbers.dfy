/**
 * The Java number semantics the tracker relies on: 32-bit int wrap-around,
 * byte stores, division truncating toward zero, Math.round, Math.floor and
 * Math.ceil, and the NaN-aware comparison of doubles.
 */
module JavaNumbers {

  /** A byte as read back with `& 0xFF`. */
  type byte = b: int | 0 <= b < 256

  const INT_MIN: int := -0x8000_0000
  const INT_MAX: int := 0x7FFF_FFFF
  const TWO_TO_32: int := 0x1_0000_0000

  /** The value of an `int`-typed Java expression whose exact value is `x`. */
  function Int32(x: int): (r: int)
    ensures INT_MIN <= r <= INT_MAX
    ensures (x - r) % TWO_TO_32 == 0
    ensures INT_MIN <= x <= INT_MAX ==> r == x
  {
    (x - INT_MIN) % TWO_TO_32 + INT_MIN
  }

  /** What `(byte)v` stores, read back with `& 0xFF`: the low eight bits of `v`. */
  function LowByte(v: int): (b: byte)
    ensures (v - b) % 256 == 0
    ensures 0 <= v < 256 ==> b == v
  {
    v % 256
  }

  /** Java's integer `/` for a positive divisor: the quotient truncated toward zero. */
  function Quot(a: int, d: int): (q: int)
    requires d > 0
    ensures a >= 0 ==> q * d <= a < q * d + d
    ensures a < 0 ==> q * d - d < a <= q * d
  {
    if a >= 0 then a / d else -((-a) / d)
  }

  /** `Math.floor` followed by an `(int)` cast, for values inside the int range. */
  function Floor(r: real): (n: int)
    ensures n as real <= r < n as real + 1.0
  {
    r.Floor
  }

  /** `Math.ceil` followed by an `(int)` cast, for values inside the int range. */
  function Ceil(r: real): (n: int)
    ensures n as real - 1.0 < r <= n as real
  {
    -((-r).Floor)
  }

  /** `Math.round`: the nearest integer, halves rounded up. */
  function Round(r: real): (n: int)
    ensures r - 0.5 < n as real <= r + 0.5
  {
    (r + 0.5).Floor
  }

  /** A Java `double` as the tracker compares it: a finite value or NaN. */
  datatype Double = Finite(value: real) | NaN

  /** Java's `<` on doubles, which is false whenever either side is NaN. */
  predicate Less(a: Double, b: Double)
  {
    a.Finite? && b.Finite? && a.value < b.value
  }

  /** Java's `Math.min` and `Math.max` on numbers. */
  function MinInt(a: int, b: int): int { if a <= b then a else b }
  function MaxInt(a: int, b: int): int { if a >= b then a else b }
  function MinReal(a: real, b: real): real { if a <= b then a else b }
  function MaxReal(a: real, b: real): real { if a >= b then a else b }

  /** Euclidean division has a single quotient and remainder. */
  lemma EuclidUnique(x: int, c: nat, q: int, r: int)
    requires c > 0 && 0 <= r < c && x == q * c + r
    ensures x % c == r && x / c == q
  {
    var q' := x / c;
    var r' := x % c;
    assert x == q' * c + r';
    assert (q - q') * c == r' - r by {
      assert q * c - q' * c == (q - q') * c;
    }
    MulAwayFromZero(q - q', c);
  }

  /** A non-zero multiple of `c` is at least `c` away from zero. */
  lemma MulAwayFromZero(d: int, c: int)
    requires c >= 0
    ensures d >= 1 ==> d * c >= c
    ensures d <= -1 ==> d * c <= -c
  {
    if d >= 1 {
      assert d * c == (d - 1) * c + c;
      assert (d - 1) * c >= 0;
    }
    if d <= -1 {
      assert d * c == -((-d - 1) * c) - c;
      assert (-d - 1) * c >= 0;
    }
  }
}
