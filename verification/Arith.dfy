/** Powers of two and alignment. */
module Arith {

  function Pow2(e: nat): (p: nat)
    ensures p >= 1
  {
    if e == 0 then 1 else 2 * Pow2(e - 1)
  }

  lemma {:induction false} Pow2Sum(a: nat, b: nat)
    ensures Pow2(a + b) == Pow2(a) * Pow2(b)
  {
    if a != 0 {
      Pow2Sum(a - 1, b);
      assert Pow2(a + b) == 2 * (Pow2(a - 1) * Pow2(b));
    }
  }

  lemma {:induction false} Pow2Monotonic(a: nat, b: nat)
    requires a <= b
    ensures Pow2(a) <= Pow2(b)
    ensures a < b ==> 2 * Pow2(a) <= Pow2(b)
    decreases b
  {
    if a < b {
      Pow2Monotonic(a, b - 1);
    }
  }

  /** A power of two divides every larger one. */
  lemma Pow2Divides(a: nat, b: nat)
    requires a <= b
    ensures Pow2(b) == Pow2(b - a) * Pow2(a)
    ensures Pow2(b) % Pow2(a) == 0
  {
    Pow2Sum(b - a, a);
    MultipleMod(Pow2(b - a), Pow2(a));
  }

  lemma {:induction false} MulAtLeast(k: nat, d: nat)
    requires k >= 1
    ensures k * d >= d
  {
    if k > 1 {
      MulAtLeast(k - 1, d);
      assert k * d == (k - 1) * d + d;
    }
  }

  lemma MulOrder(p: int, q: int, d: nat)
    requires d > 0
    ensures p < q ==> p * d + d <= q * d
    ensures p <= q ==> p * d <= q * d
    ensures p * d < q * d ==> p < q
  {
    if p < q {
      MulAtLeast(q - p, d);
      assert (q - p) * d == q * d - p * d;
    } else if p > q {
      MulAtLeast(p - q, d);
      assert (p - q) * d == p * d - q * d;
    }
  }

  /** Quotient and remainder are the unique pair with `a == q * d + r`. */
  lemma DivModUnique(a: nat, d: nat, q: nat, r: nat)
    requires d > 0 && r < d && a == q * d + r
    ensures a / d == q && a % d == r
  {
    var p := a / d;
    assert a == p * d + a % d;
    MulOrder(p, q, d);
    MulOrder(q, p, d);
  }

  lemma MultipleMod(q: nat, d: nat)
    requires d > 0
    ensures (q * d) % d == 0
    ensures (q * d) / d == q
  {
    DivModUnique(q * d, d, q, 0);
  }

  lemma Multiple(a: nat, d: nat)
    requires d > 0 && a % d == 0
    ensures a == a / d * d
  {
  }

  /** A multiple of `c`, when `c` is a multiple of `d`, is a multiple of `d`. */
  lemma MultipleTrans(a: nat, c: nat, d: nat)
    requires c > 0 && d > 0 && a % c == 0 && c % d == 0
    ensures a % d == 0
  {
    var p, q := a / c, c / d;
    assert a == p * c && c == q * d;
    assert a == (p * q) * d by {
      assert p * (q * d) == (p * q) * d;
    }
    MultipleMod(p * q, d);
  }

  lemma MultipleSum(a: nat, b: nat, d: nat)
    requires d > 0 && a % d == 0 && b % d == 0
    ensures (a + b) % d == 0
    ensures a >= b ==> (a - b) % d == 0
  {
    var p, q := a / d, b / d;
    assert a + b == (p + q) * d;
    MultipleMod(p + q, d);
    if a >= b {
      assert a - b == (p - q) * d;
      MulOrder(p, q, d);
      MultipleMod(p - q, d);
    }
  }

  /** The exponent of the largest power of two not above `n`: what
      `8*sizeof(n) - (__builtin_clzl(n)+1)` computes. */
  function FloorLog2(n: nat): (e: nat)
    requires n > 0
    ensures Pow2(e) <= n < 2 * Pow2(e)
  {
    if n == 1 then 0 else FloorLog2(n / 2) + 1
  }

  /** The number of trailing zero bits, `__builtin_ctzl`. */
  function TrailingZeros(n: nat): (e: nat)
    requires n > 0
  {
    if n % 2 == 1 then 0 else TrailingZeros(n / 2) + 1
  }

  /** The trailing zero count is the largest exponent whose power of two divides n. */
  lemma {:induction false} TrailingZerosDivides(n: nat, e: nat)
    requires n > 0
    ensures n % Pow2(e) == 0 <==> e <= TrailingZeros(n)
    decreases n, e
  {
    if e == 0 {
    } else if n % 2 == 1 {
      EvenMultiple(n, Pow2(e - 1));
    } else {
      TrailingZerosDivides(n / 2, e - 1);
      HalveMultiple(n / 2, Pow2(e - 1));
    }
  }

  lemma EvenMultiple(n: nat, d: nat)
    requires d > 0
    ensures n % (2 * d) == 0 ==> n % 2 == 0
  {
    var q := n / (2 * d);
    assert n == q * (2 * d) + n % (2 * d);
    assert q * (2 * d) == 2 * (q * d);
  }

  lemma HalveMultiple(m: nat, d: nat)
    requires d > 0
    ensures (2 * m) % (2 * d) == 0 <==> m % d == 0
  {
    var q, r := m / d, m % d;
    assert 2 * m == q * (2 * d) + 2 * r by {
      assert 2 * (q * d) == q * (2 * d);
    }
    DivModUnique(2 * m, 2 * d, q, 2 * r);
  }

  /** What `(n & (n-1)) == 0` tests for n > 0. */
  predicate PowerOfTwo(n: nat)
  {
    n > 0 && n == Pow2(FloorLog2(n))
  }

  lemma {:induction false} FloorLog2Exact(e: nat)
    ensures FloorLog2(Pow2(e)) == e
  {
    if e > 0 {
      FloorLog2Exact(e - 1);
      assert Pow2(e) / 2 == Pow2(e - 1);
    }
  }
}
