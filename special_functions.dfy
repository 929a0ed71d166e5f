/** The two numeric helpers of the studio: the physicists' Hermite polynomials,
    evaluated by a rolling three-term recurrence, and the factorial, accumulated
    in a 64-bit `long`.  Each loop is proved against a recursive definition. */
module SpecialFunctions {

  /** H_k(x): H_0 = 1, H_1 = 2x, H_k = 2x·H_{k-1} − 2(k−1)·H_{k-2}. */
  function Hermite(k: nat, x: real): real
  {
    if k == 0 then 1.0
    else if k == 1 then 2.0 * x
    else HermiteStep(x, (k - 1) as real, Hermite(k - 1, x), Hermite(k - 2, x))
  }

  /** One step of the recurrence from H_{j} = a and H_{j−1} = b: 2x·a − 2j·b. */
  function HermiteStep(x: real, j: real, a: real, b: real): real
  {
    2.0 * x * a - 2.0 * j * b
  }

  /** The sign (−1)^k, written as the source writes it: k % 2 == 0 ? 1 : −1. */
  function Parity(k: int): (r: real)
    ensures r == 1.0 || r == -1.0
  {
    if k % 2 == 0 then 1.0 else -1.0
  }

  /** hermitePolynomial: returns H_n(x) for n ≥ 0.  For a negative n neither base
      case matches and the loop does not run, so the source returns 2x. */
  method HermitePolynomial(n: int, x: real) returns (r: real)
    ensures 0 <= n ==> r == Hermite(n, x)
    ensures n < 0 ==> r == 2.0 * x
  {
    if n == 0 {
      return 1.0;
    }
    if n == 1 {
      return 2.0 * x;
    }
    var h0, h1 := 1.0, 2.0 * x;
    var i := 2;
    while i <= n
      invariant 2 <= i && (2 <= n ==> i <= n + 1) && (n < 2 ==> i == 2)
      invariant h0 == Hermite(i - 2, x) && h1 == Hermite(i - 1, x)
    {
      var h2 := HermiteStep(x, (i - 1) as real, h1, h0);
      h0 := h1;
      h1 := h2;
      i := i + 1;
    }
    r := h1;
  }

  /** The closed forms of the first four polynomials. */
  lemma HermiteLowOrders(x: real)
    ensures Hermite(0, x) == 1.0
    ensures Hermite(1, x) == 2.0 * x
    ensures Hermite(2, x) == 4.0 * x * x - 2.0
    ensures Hermite(3, x) == 8.0 * x * x * x - 12.0 * x
  {
    assert Hermite(2, x) == 2.0 * x * (2.0 * x) - 2.0;
    assert Hermite(3, x) == 2.0 * x * Hermite(2, x) - 4.0 * (2.0 * x);
  }

  /** H_k is even for even k and odd for odd k: H_k(−x) = (−1)^k·H_k(x). */
  lemma {:induction false} HermiteParity(k: nat, x: real)
    ensures Hermite(k, -x) == Parity(k) * Hermite(k, x)
  {
    if k >= 2 {
      HermiteParity(k - 1, x);
      HermiteParity(k - 2, x);
      ParityAlternates(k);
      SignedRecurrence(Hermite(k - 1, -x), Hermite(k - 1, x), Hermite(k - 2, -x), Hermite(k - 2, x),
                       Parity(k), x, (k - 1) as real);
    }
  }

  lemma ParityAlternates(k: int)
    ensures Parity(k - 1) == -Parity(k) && Parity(k - 2) == Parity(k)
  {
  }

  /** One step of the parity induction, on plain numbers: if the two previous
      values flip by −p and p, the recurrence flips the next one by p. */
  lemma SignedRecurrence(aNeg: real, a: real, bNeg: real, b: real, p: real, x: real, j: real)
    requires aNeg == -p * a && bNeg == p * b
    ensures HermiteStep(-x, j, aNeg, bNeg) == p * HermiteStep(x, j, a, b)
  {
  }

  /** Every odd-order polynomial vanishes at the origin; H_2(0) = −2. */
  lemma HermiteAtOrigin(k: nat)
    ensures k % 2 == 1 ==> Hermite(k, 0.0) == 0.0
    ensures Hermite(2, 0.0) == -2.0
  {
    HermiteParity(k, 0.0);
    HermiteLowOrders(0.0);
  }

  /** n! for n ≥ 0; the source's loop returns 1 for every n ≤ 0. */
  function Fact(n: int): (r: int)
    ensures 1 <= r
  {
    if n <= 0 then 1 else n * Fact(n - 1)
  }

  lemma {:induction false} FactMonotone(a: int, b: int)
    requires a <= b
    ensures Fact(a) <= Fact(b)
  {
    if a < b && 0 < b {
      FactMonotone(a, b - 1);
      assert Fact(b) == b * Fact(b - 1);
    }
  }

  const LONG_MIN: int := -0x8000_0000_0000_0000
  const LONG_MAX: int := 0x7FFF_FFFF_FFFF_FFFF

  /** Java's `long` arithmetic: the mathematical value reduced to 64-bit two's complement. */
  function Long(v: int): (r: int)
    ensures LONG_MIN <= r <= LONG_MAX
    ensures LONG_MIN <= v <= LONG_MAX ==> r == v
  {
    (v - LONG_MIN) % 0x1_0000_0000_0000_0000 + LONG_MIN
  }

  /** n! stays inside a `long` up to n = 20; over the slider range 1..10 it is at most 10! = 3628800. */
  lemma FactorialBounds(n: int)
    ensures n <= 20 ==> Fact(n) <= LONG_MAX
    ensures 1 <= n <= 10 ==> Fact(n) <= 3628800
    ensures Fact(0) == 1 && Fact(10) == 3628800
  {
    assert Fact(20) == 2432902008176640000;
    assert Fact(10) == 3628800;
    if n <= 20 {
      FactMonotone(n, 20);
    }
    if n <= 10 {
      FactMonotone(n, 10);
    }
  }

  /** Up to i = 20 one more multiplication in a `long` is exact: (i−1)!·i = i!. */
  lemma FactorialStep(i: int, result: int)
    requires 1 <= i <= 20 && result == Fact(i - 1)
    ensures Long(result * i) == Fact(i)
  {
    FactorialBounds(i);
    assert result * i == Fact(i);
  }

  /** factorial: multiplies `result` by 1, 2, …, n in a `long`.  The product is
      exact up to n = 20, which covers every n the slider can produce. */
  method Factorial(n: int) returns (result: int)
    ensures LONG_MIN <= result <= LONG_MAX
    ensures n <= 20 ==> result == Fact(n)
  {
    result := 1;
    var i := 1;
    while i <= n
      invariant 1 <= i && (1 <= n ==> i <= n + 1) && (n < 1 ==> i == 1)
      invariant LONG_MIN <= result <= LONG_MAX
      invariant i <= 21 ==> result == Fact(i - 1)
    {
      if i <= 20 {
        FactorialStep(i, result);
      }
      result := Long(result * i);
      i := i + 1;
    }
  }

  /** Math.pow(2, n) for a natural n, which a double represents exactly here. */
  function Pow2(n: nat): (r: real)
    ensures 0.0 < r
  {
    if n == 0 then 1.0 else 2.0 * Pow2(n - 1)
  }
}
