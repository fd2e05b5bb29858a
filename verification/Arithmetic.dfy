/** Nonlinear facts about products and quotients that the solver does not find on its own. */
module Arithmetic {

  lemma ProductGrows(p: int, t: int)
    requires p > 0
    ensures t >= 1 ==> p * t >= p
    ensures t <= -1 ==> p * t <= -p
  {
    if t >= 1 {
      assert p * t == p * (t - 1) + p;
    } else if t <= -1 {
      assert p * t == -(p * (-t - 1)) - p;
    }
  }

  lemma ProductMonotone(a: int, b: int, c: nat)
    requires a <= b
    ensures a * c <= b * c
  {
    assert b * c == a * c + (b - a) * c;
  }

  /** Quotient and remainder are unique. */
  lemma Divided(d: int, q: int, r: int)
    requires 0 <= r < d
    ensures (d * q + r) / d == q && (d * q + r) % d == r
  {
    var n := d * q + r;
    var q', r' := n / d, n % d;
    assert n == d * q' + r';
    assert d * (q - q') == r' - r;
    ProductGrows(d, q - q');
  }

  /** Whole multiples of the divisor do not change the remainder. */
  lemma Shifted(d: int, z: int, a: int)
    requires d > 0
    ensures (d * z + a) % d == a % d
  {
    var q, r := a / d, a % d;
    Divided(d, z + q, r);
    assert d * z + a == d * (z + q) + r;
  }

  lemma Commutes(a: int, b: int)
    ensures a * b == b * a
  {
  }
}
