/**
 Fixed-width affine transformations of 64-bit time stamps: saturating offsets around
 a multiplication by a ratio of 32-bit numbers, done with 64-bit words only.
 */
module Affine {
  import opened Arithmetic

  const TWO32: nat := 0x1_0000_0000
  const TWO64: nat := 0x1_0000_0000_0000_0000
  const INT64_MAX: int := 0x7FFF_FFFF_FFFF_FFFF
  const INT64_MIN: int := -0x8000_0000_0000_0000

  type Int64 = x: int | INT64_MIN <= x <= INT64_MAX witness 0

  function Clamp(x: int): Int64 {
    if x > INT64_MAX then INT64_MAX else if x < INT64_MIN then INT64_MIN else x
  }

  /** utils::ClampAdd: an overflow goes the way the second operand points. */
  function ClampAdd(a: Int64, b: Int64): (r: Int64)
    ensures r == Clamp(a + b)
  {
    if INT64_MIN <= a + b <= INT64_MAX then a + b else if b < 0 then INT64_MIN else INT64_MAX
  }

  function ClampSub(a: Int64, b: Int64): (r: Int64)
    ensures r == Clamp(a - b)
  {
    if INT64_MIN <= a - b <= INT64_MAX then a - b else if b < 0 then INT64_MAX else INT64_MIN
  }

  datatype Ratio = Ratio(numerator: nat, denominator: nat)

  predicate ValidRatio(r: Ratio) {
    r.numerator < TWO32 && 0 < r.denominator < TWO32
  }

  // ---------- long division by halves ----------

  /** The words ScaleUInt64 computes on its way. */
  datatype Words = Words(high: int, low: int, highQ: int, lowQ: int, lowR: int)

  function Divide(value: nat, r: Ratio): Words
    requires ValidRatio(r)
  {
    var low0 := r.numerator * (value % TWO32);
    var high := r.numerator * (value / TWO32) + low0 / TWO32;
    var low := (high % r.denominator) * TWO32 + low0 % TWO32;
    Words(high, low, high / r.denominator, low / r.denominator, low % r.denominator)
  }

  /** ScaleUInt64. */
  function ScaleUInt64(value: nat, r: Ratio, roundUp: bool, limit: int): int
    requires ValidRatio(r)
  {
    var w := Divide(value, r);
    if w.highQ > limit / TWO32 then limit
    else
      var result := w.highQ * TWO32 + w.lowQ;
      if result >= limit then limit
      else if roundUp && w.lowR != 0 then result + 1
      else result
  }

  lemma Recombine(v: int, n: int, d: int, vh: int, vl: int, lh: int, ll: int, hq: int, hr: int, lq: int, lr: int)
    requires v == vh * TWO32 + vl && n * vl == lh * TWO32 + ll && n * vh + lh == d * hq + hr
    requires hr * TWO32 + ll == d * lq + lr
    ensures v * n == d * (hq * TWO32 + lq) + lr
  {
    assert v * n == TWO32 * (n * vh) + n * vl by {
      Distribute(n, vh * TWO32, vl);
    }
    assert d * (hq * TWO32 + lq) == TWO32 * (d * hq) + d * lq by {
      Distribute(d, hq * TWO32, lq);
    }
  }

  /** Multiplying the halves and recombining loses nothing. */
  lemma HalvesRecombine(value: nat, r: Ratio)
    requires ValidRatio(r)
    ensures var w := Divide(value, r);
            value * r.numerator == r.denominator * (w.highQ * TWO32 + w.lowQ) + w.lowR
  {
    var n, d := r.numerator, r.denominator;
    var w := Divide(value, r);
    var low0 := n * (value % TWO32);
    Recombine(value, n, d, value / TWO32, value % TWO32, low0 / TWO32, low0 % TWO32,
              w.highQ, w.high % d, w.lowQ, w.lowR);
  }

  lemma ProductBound(a: int, b: int, m: int)
    requires 0 <= a < m && 0 <= b < m
    ensures 0 <= a * b <= (m - 1) * (m - 1)
  {
    MulMonotone(0, a, b);
    MulMonotone(a, m - 1, b);
    MulMonotone(b, m - 1, m - 1);
  }

  /** Every intermediate word fits in 64 bits, and the low quotient in 32. */
  lemma NoOverflow(value: nat, r: Ratio)
    requires ValidRatio(r) && value < TWO64
    ensures var w := Divide(value, r); 0 <= w.high < TWO64 && 0 <= w.low < TWO64 && 0 <= w.lowQ < TWO32
  {
    var n, d := r.numerator, r.denominator;
    ProductBound(n, value / TWO32, TWO32);
    ProductBound(n, value % TWO32, TWO32);
    var w := Divide(value, r);
    var hr := w.high % d;
    assert 0 <= w.low <= hr * TWO32 + TWO32 - 1 <= d * TWO32 - 1;
    FloorMonotone(0, w.low, d);
    FloorMonotone(w.low, d * TWO32 - 1, d);
    DivModUnique(d * TWO32 - 1, d, TWO32 - 1, d - 1);
  }

  /** The word-sized division is the exact quotient, rounded and capped at the limit. */
  lemma ScaleUInt64Exact(value: nat, r: Ratio, roundUp: bool, limit: nat)
    requires ValidRatio(r) && value < TWO64
    ensures var q, m := value * r.numerator / r.denominator, value * r.numerator % r.denominator;
            ScaleUInt64(value, r, roundUp, limit) == Least(limit, if roundUp && m != 0 then q + 1 else q)
  {
    var w := Divide(value, r);
    HalvesRecombine(value, r);
    NoOverflow(value, r);
    hide Divide;
    assert 0 <= w.lowR < r.denominator by { RemainderRange(value, r); }
    DivModUnique(value * r.numerator, r.denominator, w.highQ * TWO32 + w.lowQ, w.lowR);
  }

  lemma RemainderRange(value: nat, r: Ratio)
    requires ValidRatio(r)
    ensures 0 <= Divide(value, r).lowR < r.denominator
  {
  }

  function Least(a: int, b: int): int {
    if a <= b then a else b
  }

  // ---------- scaling signed values ----------

  /** Ratio::Scale, rounding down. */
  function Scale(value: Int64, r: Ratio): int
    requires ValidRatio(r)
  {
    if value >= 0 then ScaleUInt64(value, r, false, 0x7FFF_FFFF_FFFF_FFFF)
    else -ScaleUInt64(-(value as int), r, true, 0x8000_0000_0000_0000)
  }

  /** Scaling is the floor of the exact product, saturated. */
  lemma ScaleIsFloor(value: Int64, r: Ratio)
    requires ValidRatio(r)
    ensures Scale(value, r) == Clamp(value * r.numerator / r.denominator)
  {
    hide ScaleUInt64;
    var n, d := r.numerator, r.denominator;
    if value >= 0 {
      ScaleUInt64Exact(value, r, false, 0x7FFF_FFFF_FFFF_FFFF);
      MulMonotone(0, value, n);
      FloorMonotone(0, value * n, d);
    } else {
      var m := -(value as int) * n;
      ScaleUInt64Exact(-(value as int), r, true, 0x8000_0000_0000_0000);
      MulMonotone(0, -(value as int), n);
      FloorMonotone(0, m, d);
      Distribute(n, 0, value);
      assert value * n == -m;
      NegatedFloor(m, d);
    }
  }

  lemma ScaleMonotone(a: Int64, b: Int64, r: Ratio)
    requires ValidRatio(r) && a <= b
    ensures Scale(a, r) <= Scale(b, r)
  {
    hide Scale;
    ScaleIsFloor(a, r);
    ScaleIsFloor(b, r);
    MulMonotone(a, b, r.numerator);
    FloorMonotone(a * r.numerator, b * r.numerator, r.denominator);
  }

  lemma ScaleInRange(a: Int64, r: Ratio)
    requires ValidRatio(r)
    ensures INT64_MIN <= Scale(a, r) <= INT64_MAX && (a == 0 ==> Scale(a, r) == 0)
  {
    hide Scale;
    ScaleIsFloor(a, r);
    if a == 0 {
      DivModUnique(a * r.numerator, r.denominator, 0, 0);
    }
  }

  // ---------- transformations ----------

  datatype Transform = Transform(aOffset: Int64, bOffset: Int64, ratio: Ratio)

  /** Transform::Apply. */
  function Apply(t: Transform, x: Int64): Int64
    requires ValidRatio(t.ratio)
  {
    ScaleInRange(ClampSub(x, t.aOffset), t.ratio);
    ClampAdd(Scale(ClampSub(x, t.aOffset), t.ratio), t.bOffset)
  }

  /** Saturation and rounding never reverse two time stamps. */
  lemma ApplyMonotone(t: Transform, x: Int64, y: Int64)
    requires ValidRatio(t.ratio) && x <= y
    ensures Apply(t, x) <= Apply(t, y)
  {
    ScaleMonotone(ClampSub(x, t.aOffset), ClampSub(y, t.aOffset), t.ratio);
  }

  /** The transformation passes exactly through its pair of offsets. */
  lemma ApplyAtOffset(t: Transform)
    requires ValidRatio(t.ratio)
    ensures Apply(t, t.aOffset) == t.bOffset
  {
    ScaleInRange(0, t.ratio);
  }

  lemma ZeroQuotient(v: int, n: int, d: int)
    requires n == 0 && d > 0
    ensures v * n / d == 0
  {
    assert v * n == 0;
  }

  lemma ScaleFrozen(v: Int64, r: Ratio)
    requires ValidRatio(r) && r.numerator == 0
    ensures Scale(v, r) == 0
  {
    hide Scale;
    ScaleIsFloor(v, r);
    ZeroQuotient(v, r.numerator, r.denominator);
  }

  lemma ApplyPlain(x: Int64, r: Ratio)
    requires ValidRatio(r)
    ensures Apply(Transform(0, 0, r), x) == Scale(x, r)
  {
    ScaleInRange(x, r);
  }

  lemma ScaleByOne(x: Int64)
    ensures Scale(x, Ratio(1, 1)) == x
  {
    hide Scale;
    ScaleIsFloor(x, Ratio(1, 1));
    assert x * 1 / 1 == x;
  }

  /** A ratio of zero freezes the transformation at its value offset. */
  lemma ApplyFrozen(t: Transform, x: Int64)
    requires ValidRatio(t.ratio) && t.ratio.numerator == 0
    ensures Apply(t, x) == t.bOffset
  {
    hide Scale;
    ScaleFrozen(ClampSub(x, t.aOffset), t.ratio);
  }
}
