/** Facts about products and quotients that the solver does not find by itself. */
module Arithmetic {

  lemma Distribute(d: int, a: int, b: int)
    ensures d * (a - b) == d * a - d * b
    ensures d * (a + b) == d * a + d * b
  {
  }

  lemma NonNegative(a: int, b: int)
    requires a >= 0 && b >= 0
    ensures a * b >= 0
  {
  }

  lemma BigMultiple(n: int, k: int)
    requires n > 0 && k != 0
    ensures n * k >= n || n * k <= -n
  {
    if k > 0 {
      NonNegative(n, k - 1);
      Distribute(n, k, 1);
    } else {
      NonNegative(n, -k - 1);
      Distribute(n, -k, 1);
      Distribute(n, 0, k);
    }
  }

  /** A quotient and remainder are the only ones that fit. */
  lemma DivModUnique(x: int, d: int, q: int, r: int)
    requires d > 0 && x == d * q + r && 0 <= r < d
    ensures x / d == q && x % d == r
  {
    var p, s := x / d, x % d;
    assert x == d * p + s;
    Distribute(d, q, p);
    if q != p { BigMultiple(d, q - p); }
  }

  lemma FloorMonotone(a: int, b: int, d: int)
    requires d > 0 && a <= b
    ensures a / d <= b / d
  {
    var p, q := a / d, b / d;
    Distribute(d, p, q);
    if p > q { BigMultiple(d, p - q); }
  }

  lemma MulMonotone(a: int, b: int, n: int)
    requires a <= b && n >= 0
    ensures a * n <= b * n
  {
    assert (b - a) * n >= 0;
    Distribute(n, b, a);
  }

  /** The floor of a negated quotient is the negated ceiling. */
  lemma NegatedFloor(m: int, d: int)
    requires d > 0
    ensures (-m) / d == -(if m % d != 0 then m / d + 1 else m / d)
  {
    var q, r := m / d, m % d;
    assert m == d * q + r;
    if r != 0 {
      Distribute(d, -q, 1);
      DivModUnique(-m, d, -q - 1, d - r);
    } else {
      DivModUnique(-m, d, -q, 0);
    }
  }
}
