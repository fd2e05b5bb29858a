/** The 32-bit linear congruential generator behind the brain's geometry: exact in double arithmetic,
    and one single cycle through all 32-bit states. */
module Seeded {
  import opened Arithmetic

  const MODULUS: int := 0x1_0000_0000
  const MULTIPLIER: int := 1664525
  const INCREMENT: int := 1013904223
  /** Up to here every integer is a double. */
  const EXACT_INTEGERS: int := 0x20_0000_0000_0000

  type State = x: int | 0 <= x < MODULUS witness 0

  /** Truncation to an unsigned 32-bit integer. */
  function ToUint32(n: int): State {
    n % MODULUS
  }

  function Advance(x: State): State {
    ToUint32(x * MULTIPLIER + INCREMENT)
  }

  /** The generator with its captured variable. */
  class Generator {
    var value: State

    constructor (seed: int)
      ensures value == ToUint32(seed)
    {
      value := ToUint32(seed);
    }

    /** The next number; everything that is rounded in doubles is an integer that needs no rounding. */
    method Next() returns (r: real)
      modifies this
      ensures value == Advance(old(value)) == (1664525 * old(value) + 1013904223) % 4294967296
      ensures r * (MODULUS as real) == value as real && 0.0 <= r < 1.0
      ensures 0 <= old(value) * MULTIPLIER + INCREMENT < EXACT_INTEGERS
    {
      value := ToUint32(value * MULTIPLIER + INCREMENT);
      r := value as real / 4294967296.0;
    }
  }

  function Iterate(x: State, n: nat): State {
    if n == 0 then x else Advance(Iterate(x, n - 1))
  }

  // ---------- powers of two ----------

  function Pow2(k: nat): (p: nat)
    ensures p > 0
  {
    if k == 0 then 1 else 2 * Pow2(k - 1)
  }

  /** 2^k divides n. */
  predicate Divides(k: nat, n: int) {
    k == 0 || (n % 2 == 0 && Divides(k - 1, n / 2))
  }

  lemma {:induction false} DividesIsModulo(k: nat, n: int)
    ensures Divides(k, n) <==> n % Pow2(k) == 0
  {
    if k > 0 {
      var p := Pow2(k - 1);
      DividesIsModulo(k - 1, n / 2);
      HalfModulo(n, p);
    }
  }

  lemma HalfModulo(n: int, p: nat)
    requires p > 0
    ensures n % (2 * p) == 0 <==> n % 2 == 0 && (n / 2) % p == 0
  {
    var q, r := n / (2 * p), n % (2 * p);
    assert n == 2 * (p * q) + r;
    if r == 0 {
      assert n / 2 == p * q;
      Divided(p, q, 0);
    }
    if n % 2 == 0 && (n / 2) % p == 0 {
      var h := (n / 2) / p;
      assert n / 2 == p * h;
      assert n == (2 * p) * h;
      Divided(2 * p, h, 0);
    }
  }

  lemma ModulusIsPow2()
    ensures Pow2(32) == MODULUS
  {
    assert Pow2(8) == 256;
    assert Pow2(16) == 65536;
    assert Pow2(24) == 16777216;
  }

  lemma {:induction false} DividesSum(k: nat, a: int, b: int)
    requires Divides(k, a)
    ensures Divides(k, a + b) <==> Divides(k, b)
  {
    if k > 0 && b % 2 == 0 {
      assert (a + b) / 2 == a / 2 + b / 2;
      DividesSum(k - 1, a / 2, b / 2);
    }
  }

  /** Two numbers divided by exactly 2^k add up to one that 2^(k+1) divides. */
  lemma {:induction false} ExactlySum(k: nat, a: int, b: int)
    requires Divides(k, a) && !Divides(k + 1, a)
    requires Divides(k, b) && !Divides(k + 1, b)
    ensures Divides(k + 1, a + b)
  {
    if k > 0 {
      assert (a + b) / 2 == a / 2 + b / 2;
      ExactlySum(k - 1, a / 2, b / 2);
    } else {
      assert Divides(1, a) <==> a % 2 == 0;
      assert Divides(1, b) <==> b % 2 == 0;
      assert Divides(1, a + b) <==> (a + b) % 2 == 0;
    }
  }

  lemma OddProduct(a: int, b: int)
    requires b % 2 == 1
    ensures (a * b) % 2 == a % 2
    ensures a % 2 == 0 ==> (a * b) / 2 == (a / 2) * b
  {
    var h := b / 2;
    assert a * b == 2 * (a * h) + a;
    if a % 2 == 0 {
      var m := a / 2;
      assert a * b == 2 * (m * b);
    }
  }

  /** An odd factor does not matter. */
  lemma {:induction false} DividesProduct(k: nat, a: int, odd: int)
    requires odd % 2 == 1
    ensures Divides(k, a * odd) <==> Divides(k, a)
  {
    OddProduct(a, odd);
    if k > 0 && a % 2 == 0 {
      DividesProduct(k - 1, a / 2, odd);
    }
  }

  // ---------- the geometric sum ----------

  function Power(n: nat): int {
    if n == 0 then 1 else MULTIPLIER * Power(n - 1)
  }

  /** 1 + a + ... + a^(n-1). */
  function Sum(n: nat): int {
    if n == 0 then 0 else MULTIPLIER * Sum(n - 1) + 1
  }

  lemma OneModuloFour(p: int)
    ensures (MULTIPLIER * p) % 4 == p % 4
  {
    Shifted(4, 416131 * p, p);
  }

  lemma {:induction false} PowerIsOneModuloFour(n: nat)
    ensures Power(n) % 4 == 1
  {
    if n > 0 {
      PowerIsOneModuloFour(n - 1);
      OneModuloFour(Power(n - 1));
    }
  }

  lemma {:induction false} SumAdds(m: nat, n: nat)
    ensures Power(m + n) == Power(m) * Power(n)
    ensures Sum(m + n) == Power(m) * Sum(n) + Sum(m)
    decreases m
  {
    if m > 0 {
      SumAdds(m - 1, n);
      var p := Power(m - 1);
      assert Power(m) * Power(n) == MULTIPLIER * (p * Power(n));
      assert Power(m) * Sum(n) == MULTIPLIER * (p * Sum(n));
    }
  }

  lemma {:induction false} SumParity(n: nat)
    ensures Sum(n) % 2 == n % 2
  {
    if n > 0 {
      SumParity(n - 1);
      Shifted(2, 832262 * Sum(n - 1), Sum(n - 1) + 1);
      ParityStep(Sum(n - 1), n - 1);
    }
  }

  lemma ParityStep(s: int, n: nat)
    requires s % 2 == n % 2
    ensures (s + 1) % 2 == (n + 1) % 2
  {
  }

  lemma SumDoubles(m: nat) returns (odd: int)
    ensures odd % 2 == 1 && Sum(m + m) == 2 * (Sum(m) * odd)
  {
    hide *;
    SumAdds(m, m);
    PowerIsOneModuloFour(m);
    odd := (Power(m) + 1) / 2;
    Distribute(Power(m), Sum(m), odd);
  }

  lemma Distribute(p: int, s: int, h: int)
    requires p + 1 == 2 * h
    ensures p * s + s == 2 * (s * h)
  {
    assert p * s + s == (p + 1) * s;
  }

  /** The sum carries exactly the powers of two that its length carries. */
  lemma {:induction false} SumValuation(k: nat, n: nat)
    ensures Divides(k, Sum(n)) <==> Divides(k, n)
    decreases k
  {
    hide Sum;
    SumParity(n);
    if k > 0 && n % 2 == 0 {
      var m := n / 2;
      var odd := SumDoubles(m);
      assert Sum(n) / 2 == Sum(m) * odd;
      DividesProduct(k - 1, Sum(m), odd);
      SumValuation(k - 1, m);
    }
  }

  // ---------- the generator without truncation ----------

  function Unreduced(x: int, n: nat): int {
    if n == 0 then x else Unreduced(x, n - 1) * MULTIPLIER + INCREMENT
  }

  lemma TruncationIgnoresModuli(z: int, a: int)
    ensures ToUint32(MODULUS * z + a) == ToUint32(a)
  {
    Shifted(MODULUS, z, a);
  }

  lemma AdvanceTruncates(u: int)
    ensures Advance(ToUint32(u)) == ToUint32(u * MULTIPLIER + INCREMENT)
  {
    hide ToUint32;
    var r: int := ToUint32(u);
    var q := Quotient(u);
    assert u * MULTIPLIER + INCREMENT == MODULUS * (q * MULTIPLIER) + (r * MULTIPLIER + INCREMENT);
    TruncationIgnoresModuli(q * MULTIPLIER, r * MULTIPLIER + INCREMENT);
  }

  lemma Quotient(u: int) returns (q: int)
    ensures u == MODULUS * q + ToUint32(u)
  {
    q := u / MODULUS;
  }

  lemma {:induction false} TruncationIsHarmless(x: State, n: nat)
    ensures Iterate(x, n) == ToUint32(Unreduced(x, n))
  {
    hide Advance;
    if n > 0 {
      TruncationIsHarmless(x, n - 1);
      AdvanceTruncates(Unreduced(x, n - 1));
    }
  }

  /** How far n steps move a state: always by the geometric sum times an odd number. */
  function Drift(x: int): int {
    (MULTIPLIER - 1) * x + INCREMENT
  }

  lemma {:induction false} StepsMove(x: int, m: nat, n: nat)
    ensures Unreduced(x, m + n) - Unreduced(x, m) == Power(m) * (Sum(n) * Drift(x))
    decreases m, n
  {
    if m > 0 {
      StepsMove(x, m - 1, n);
      var move := Sum(n) * Drift(x);
      assert Power(m) * move == MULTIPLIER * (Power(m - 1) * move);
    } else if n > 0 {
      StepsMove(x, 0, n - 1);
      var s, d := Sum(n - 1), Drift(x);
      assert (MULTIPLIER * s + 1) * d == MULTIPLIER * (s * d) + d;
    }
  }

  lemma DriftIsOdd(x: int)
    ensures Drift(x) % 2 == 1
  {
    Shifted(2, 832262 * x + 506952111, 1);
  }

  lemma MoveValuation(x: int, m: nat, n: nat, k: nat)
    ensures Divides(k, Unreduced(x, m + n) - Unreduced(x, m)) <==> Divides(k, n)
  {
    hide *;
    StepsMove(x, m, n);
    DriftIsOdd(x);
    PowerIsOneModuloFour(m);
    var p, move := Power(m), Sum(n) * Drift(x);
    Commutes(p, move);
    DividesProduct(k, move, p);
    DividesProduct(k, Sum(n), Drift(x));
    SumValuation(k, n);
  }

  /** Equal 32-bit truncation is divisibility of the difference. */
  lemma SameTruncation(a: int, b: int)
    ensures ToUint32(a) == ToUint32(b) <==> Divides(32, a - b)
  {
    hide Divides, ToUint32, Pow2;
    ModulusIsPow2();
    DividesIsModulo(32, a - b);
    var qa := Quotient(a);
    var qb := Quotient(b);
    Shifted(MODULUS, qa - qb, ToUint32(a) - ToUint32(b));
    SmallRemainder(ToUint32(a), ToUint32(b));
  }

  lemma SmallRemainder(a: State, b: State)
    ensures (a - b) % MODULUS == 0 <==> a == b
  {
  }

  // ---------- the theorems ----------

  /** A state comes back after n steps exactly when n is a multiple of 2^32. */
  lemma ReturnsIff(x: State, n: nat)
    ensures Iterate(x, n) == x <==> n % MODULUS == 0
  {
    TruncationIsHarmless(x, n);
    MoveValuation(x, 0, n, 32);
    SameTruncation(Unreduced(x, n), x);
    DividesIsModulo(32, n);
    ModulusIsPow2();
  }

  lemma {:induction false} ReachesModulo(x: int, y: int, k: nat) returns (n: nat)
    ensures n < Pow2(k) && Divides(k, Unreduced(x, n) - y)
  {
    if k == 0 {
      n := 0;
    } else {
      n := ReachesModulo(x, y, k - 1);
      var a := Unreduced(x, n) - y;
      if !Divides(k, a) {
        var p := Pow2(k - 1);
        var b := Unreduced(x, n + p) - Unreduced(x, n);
        MoveValuation(x, n, p, k - 1);
        MoveValuation(x, n, p, k);
        PowerExactly(k - 1);
        ExactlySum(k - 1, a, b);
        n := n + p;
        assert Unreduced(x, n) - y == a + b;
      }
    }
  }

  lemma {:induction false} PowerExactly(k: nat)
    ensures Divides(k, Pow2(k)) && !Divides(k + 1, Pow2(k))
  {
    hide Divides;
    if k > 0 {
      PowerExactly(k - 1);
      assert Pow2(k) % 2 == 0 && Pow2(k) / 2 == Pow2(k - 1);
      Halved(k, Pow2(k));
      Halved(k + 1, Pow2(k));
    } else {
      OneExactly();
    }
  }

  lemma OneExactly()
    ensures Divides(0, 1) && !Divides(1, 1)
  {
  }

  lemma Halved(k: nat, n: int)
    requires k > 0
    ensures Divides(k, n) <==> n % 2 == 0 && Divides(k - 1, n / 2)
  {
  }

  /** From any state every state is reached within one period, after exactly one number of steps:
      the states form a single cycle of length 2^32. */
  lemma SingleCycle(x: State, y: State)
    ensures exists n: nat :: n < MODULUS && Iterate(x, n) == y
                             && forall m: nat :: m < MODULUS && Iterate(x, m) == y ==> m == n
  {
    var n := ReachesModulo(x, y, 32);
    ModulusIsPow2();
    TruncationIsHarmless(x, n);
    SameTruncation(Unreduced(x, n), y);
    forall m: nat | m < MODULUS && Iterate(x, m) == y
      ensures m == n
    {
      if m < n {
        ReachedOnce(x, m, n);
      } else if n < m {
        ReachedOnce(x, n, m);
      }
    }
  }

  lemma {:induction false} IterateAdds(x: State, m: nat, n: nat)
    ensures Iterate(x, m + n) == Iterate(Iterate(x, m), n)
    decreases n
  {
    if n > 0 {
      IterateAdds(x, m, n - 1);
    }
  }

  lemma ReachedOnce(x: State, m: nat, n: nat)
    requires m < n < MODULUS
    ensures Iterate(x, m) != Iterate(x, n)
  {
    hide Iterate;
    IterateAdds(x, m, n - m);
    ReturnsIff(Iterate(x, m), n - m);
  }

  /** One step is a permutation of the 32-bit states. */
  lemma StepPermutes(x: State, y: State)
    ensures Advance(x) == Advance(y) <==> x == y
    ensures exists z: State :: Advance(z) == x
  {
    hide Iterate, Advance;
    var period: nat := MODULUS;
    ReturnsIff(x, period);
    ReturnsIff(y, period);
    IterateAdds(x, 1, period - 1);
    IterateAdds(y, 1, period - 1);
    OneStep(x);
    OneStep(y);
    IterateAdds(x, period - 1, 1);
    OneStep(Iterate(x, period - 1));
    assert Advance(Iterate(x, period - 1)) == x;
  }

  lemma OneStep(x: State)
    ensures Iterate(x, 1) == Advance(x)
  {
  }
}
