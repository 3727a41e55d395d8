/**
 * Numeric vocabulary shared by the whole model.
 *
 * Doubles are idealised as `real` (no rounding). Complex numbers are pairs of
 * reals, so addition, subtraction and multiplication are exact. The
 * transcendental functions of <cmath>/<complex> (sqrt, log, log10, exp, cos,
 * pow, complex exp and complex magnitude) are NOT defined here: they are the
 * fields of a `Maths` value that every member needing them takes as a
 * parameter, and the few facts a proof needs about them are stated as
 * predicates on that value.
 */
module Maths {

  /** std::complex<double>, idealised. */
  datatype Complex = Complex(re: real, im: real)

  function Zero(): Complex { Complex(0.0, 0.0) }

  /** Promotion of a real sample into the complex plane (cplx(x)). */
  function FromReal(x: real): Complex { Complex(x, 0.0) }

  function Add(a: Complex, b: Complex): Complex { Complex(a.re + b.re, a.im + b.im) }

  function Sub(a: Complex, b: Complex): Complex { Complex(a.re - b.re, a.im - b.im) }

  function Mul(a: Complex, b: Complex): Complex
  {
    Complex(a.re * b.re - a.im * b.im, a.re * b.im + a.im * b.re)
  }

  /** complex /= unsigned: both parts divided by the real divisor. */
  function DivReal(a: Complex, d: real): Complex
    requires d != 0.0
  {
    Complex(a.re / d, a.im / d)
  }

  /** std::fabs on reals is exact. */
  function Abs(x: real): (r: real)
    ensures r >= 0.0 && (r == x || r == -x)
  {
    if x < 0.0 then -x else x
  }

  /** The transcendental functions the source calls, kept abstract. */
  datatype Maths = Maths(
    sqrt: real -> real,
    log: real -> real,
    log10: real -> real,
    exp: real -> real,
    cos: real -> real,
    pow: (real, real) -> real,
    cabs: Complex -> real,
    cexp: Complex -> Complex,
    pi: real)

  /** |z| is never negative. */
  ghost predicate AbsNonNegative(m: Maths)
  {
    forall z :: m.cabs(z) >= 0.0
  }

  /** sqrt is a square root: non-negative, squaring gives back a non-negative argument, sqrt(0) = 0. */
  ghost predicate SqrtIsRoot(m: Maths)
  {
    && m.sqrt(0.0) == 0.0
    && forall x :: m.sqrt(x) >= 0.0 && (x >= 0.0 ==> m.sqrt(x) * m.sqrt(x) == x)
  }

  /** exp is strictly increasing and exp(0) = 1. */
  ghost predicate ExpIncreasing(m: Maths)
  {
    && m.exp(0.0) == 1.0
    && forall x, y :: x < y ==> m.exp(x) < m.exp(y)
  }

  /** ln is strictly increasing on the positive reals and ln(1) = 0. */
  ghost predicate LogIncreasing(m: Maths)
  {
    && m.log(1.0) == 0.0
    && forall x, y :: 0.0 < x < y ==> m.log(x) < m.log(y)
  }

  /** exp and ln are inverse to each other on the positive reals. */
  ghost predicate ExpLogInverse(m: Maths)
  {
    forall x :: x > 0.0 ==> m.exp(m.log(x)) == x
  }

  // 32-bit unsigned arithmetic of the source, written out.

  const U32: int := 0x1_0000_0000

  predicate IsU32(x: int) { 0 <= x < U32 }

  /** Unsigned `x + 1`, wrapping at 2^32. */
  function IncU32(x: nat): (r: nat)
    requires IsU32(x)
    ensures IsU32(r)
    ensures x < U32 - 1 ==> r == x + 1
    ensures x == U32 - 1 ==> r == 0
  {
    (x + 1) % U32
  }

  /** Unsigned `x - 1`, wrapping at 0. */
  function DecU32(x: nat): (r: nat)
    requires IsU32(x)
    ensures IsU32(r)
    ensures r == if x == 0 then U32 - 1 else x - 1
  {
    (x - 1) % U32
  }

  /** Unsigned `a - b`, wrapping below 0. */
  function SubU32(a: nat, b: nat): (r: nat)
    requires IsU32(a) && IsU32(b)
    ensures IsU32(r)
    ensures b <= a ==> r == a - b
    ensures a < b ==> r == a - b + U32
  {
    (a - b) % U32
  }

  /** 2^k. */
  function Pow2(k: nat): (r: nat)
    ensures r >= 1
  {
    if k == 0 then 1 else 2 * Pow2(k - 1)
  }

  /** N is 2^k for some k. */
  predicate IsPowerOfTwo(n: nat)
  {
    n == 1 || (n > 1 && n % 2 == 0 && IsPowerOfTwo(n / 2))
  }

  /**
   * The FFT stage count: the source computes it as log(N)/ln 2 in floating
   * point; for a power of two it is modelled as the exact binary logarithm.
   */
  function Log2(n: nat): (k: nat)
    requires IsPowerOfTwo(n)
    ensures Pow2(k) == n
  {
    if n == 1 then 0 else 1 + Log2(n / 2)
  }

  lemma {:induction false} Pow2Add(a: nat, b: nat)
    ensures Pow2(a + b) == Pow2(a) * Pow2(b)
  {
    if a > 0 {
      Pow2Add(a - 1, b);
    }
  }

  lemma {:induction false} Pow2Mono(a: nat, b: nat)
    requires a <= b
    ensures Pow2(a) <= Pow2(b)
  {
    if a < b {
      Pow2Mono(a, b - 1);
    }
  }

  lemma {:induction false} PowerOfTwoIsPow2(k: nat)
    ensures IsPowerOfTwo(Pow2(k))
  {
    if k > 0 {
      PowerOfTwoIsPow2(k - 1);
      assert Pow2(k) / 2 == Pow2(k - 1);
    }
  }

  // A few facts about multiplication by a natural number, proved by induction
  // so that index arithmetic with a variable stride stays linear.

  lemma {:induction false} MulMonotone(a: nat, b: nat, d: nat)
    requires a <= b
    ensures a * d <= b * d
  {
    if a < b {
      MulMonotone(a, b - 1, d);
      assert b * d == (b - 1) * d + d;
    }
  }

  /** Euclidean division of a natural number by a positive divisor. */
  lemma DivMod(i: nat, d: nat)
    requires d > 0
    ensures i == (i / d) * d + i % d && 0 <= i % d < d && 0 <= i / d
  {
  }

  /** Division by d recovers the quotient and remainder of q * d + r. */
  lemma DivModUnique(q: nat, r: nat, d: nat)
    requires r < d
    ensures (q * d + r) / d == q && (q * d + r) % d == r
  {
    var a := q * d + r;
    var q', r' := a / d, a % d;
    assert a == q' * d + r' && 0 <= r' < d;
    if q' < q {
      MulMonotone(q' + 1, q, d);
    } else if q' > q {
      MulMonotone(q + 1, q', d);
    }
  }

  /** Block t of c blocks of length d ends inside the first c * d indices. */
  lemma BlockInside(t: nat, c: nat, d: nat, x: nat)
    requires t < c && x < d
    ensures t * d + x < c * d
  {
    MulMonotone(t + 1, c, d);
  }
}
