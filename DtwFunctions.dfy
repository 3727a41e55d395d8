/**
 * The distance functions of the DTW aligner (trunk/src/dtw/functions.cpp):
 * Euclidean, Manhattan, Chebyshev and Minkowski (p = 0.33) distances
 * between two feature vectors. Each loops over the first vector and indexes
 * the second at the same positions, so the second must be at least as long.
 *
 * The loops are methods; each is proved against a recursive fold that
 * states the sum or maximum it accumulates, and the metric properties are
 * lemmas about those folds.
 */
module DtwFunctions {
  import opened Maths

  /** The entries of Dtw::distanceFunctions, in the table's order. */
  datatype DistanceFunction = Euclidean | Manhattan | Chebyshev | Minkowski

  /** Minkowski's exponent. */
  const MINKOWSKI_P: real := 0.33

  /** The sum over i < n of (v1[i] - v2[i])^2, in the loop's order. */
  function SquaredSum(v1: seq<real>, v2: seq<real>, n: nat): real
    requires n <= |v1| && n <= |v2|
  {
    if n == 0 then 0.0 else SquaredSum(v1, v2, n - 1) + (v1[n - 1] - v2[n - 1]) * (v1[n - 1] - v2[n - 1])
  }

  /** The sum over i < n of |v1[i] - v2[i]|. */
  function AbsSum(v1: seq<real>, v2: seq<real>, n: nat): real
    requires n <= |v1| && n <= |v2|
  {
    if n == 0 then 0.0 else AbsSum(v1, v2, n - 1) + Abs(v1[n - 1] - v2[n - 1])
  }

  /** The running maximum of |v1[i] - v2[i]| over i < n, starting from 0. */
  function MaxAbs(v1: seq<real>, v2: seq<real>, n: nat): real
    requires n <= |v1| && n <= |v2|
  {
    if n == 0 then 0.0
    else
      var d := Abs(v1[n - 1] - v2[n - 1]);
      if d > MaxAbs(v1, v2, n - 1) then d else MaxAbs(v1, v2, n - 1)
  }

  /** The sum over i < n of pow(|v1[i] - v2[i]|, 0.33). */
  function PowSum(m: Maths, v1: seq<real>, v2: seq<real>, n: nat): real
    requires n <= |v1| && n <= |v2|
  {
    if n == 0 then 0.0 else PowSum(m, v1, v2, n - 1) + m.pow(Abs(v1[n - 1] - v2[n - 1]), MINKOWSKI_P)
  }

  /** The value the chosen function returns for (v1, v2). */
  function Distance(m: Maths, f: DistanceFunction, v1: seq<real>, v2: seq<real>): real
    requires |v1| <= |v2|
  {
    match f
    case Euclidean => m.sqrt(SquaredSum(v1, v2, |v1|))
    case Manhattan => AbsSum(v1, v2, |v1|)
    case Chebyshev => MaxAbs(v1, v2, |v1|)
    case Minkowski => m.pow(PowSum(m, v1, v2, |v1|), 1.0 / MINKOWSKI_P)
  }

  // ------------------------------------------------------------ the loops

  /** euclideanDistance: d += (v1[i] - v2[i])^2 over v1, then sqrt(d). */
  method EuclideanDistance(m: Maths, v1: seq<real>, v2: seq<real>) returns (r: real)
    requires |v1| <= |v2|
    ensures r == Distance(m, Euclidean, v1, v2)
  {
    var d := 0.0;
    var i := 0;
    while i < |v1|
      invariant 0 <= i <= |v1| && d == SquaredSum(v1, v2, i)
    {
      d := d + (v1[i] - v2[i]) * (v1[i] - v2[i]);
      i := i + 1;
    }
    r := m.sqrt(d);
  }

  /** manhattanDistance: d += |v1[i] - v2[i]| over v1. */
  method ManhattanDistance(v1: seq<real>, v2: seq<real>) returns (d: real)
    requires |v1| <= |v2|
    ensures d == AbsSum(v1, v2, |v1|)
  {
    d := 0.0;
    var i := 0;
    while i < |v1|
      invariant 0 <= i <= |v1| && d == AbsSum(v1, v2, i)
    {
      d := d + Abs(v1[i] - v2[i]);
      i := i + 1;
    }
  }

  /** chebyshevDistance: the largest |v1[i] - v2[i]|, with max starting at 0. */
  method ChebyshevDistance(v1: seq<real>, v2: seq<real>) returns (max: real)
    requires |v1| <= |v2|
    ensures max == MaxAbs(v1, v2, |v1|)
  {
    var d := 0.0;
    max := 0.0;
    var i := 0;
    while i < |v1|
      invariant 0 <= i <= |v1| && max == MaxAbs(v1, v2, i)
    {
      d := Abs(v1[i] - v2[i]);
      if d > max {
        max := d;
      }
      i := i + 1;
    }
  }

  /** minkowskiDistance: d += pow(|v1[i] - v2[i]|, p) over v1, then pow(d, 1/p). */
  method MinkowskiDistance(m: Maths, v1: seq<real>, v2: seq<real>) returns (r: real)
    requires |v1| <= |v2|
    ensures r == Distance(m, Minkowski, v1, v2)
  {
    var d := 0.0;
    var p := MINKOWSKI_P;
    var i := 0;
    while i < |v1|
      invariant 0 <= i <= |v1| && d == PowSum(m, v1, v2, i)
    {
      d := d + m.pow(Abs(v1[i] - v2[i]), p);
      i := i + 1;
    }
    r := m.pow(d, 1.0 / p);
  }

  /** A call through the distanceFn pointer. */
  method Apply(m: Maths, f: DistanceFunction, v1: seq<real>, v2: seq<real>) returns (d: real)
    requires |v1| <= |v2|
    ensures d == Distance(m, f, v1, v2)
  {
    match f
    case Euclidean => d := EuclideanDistance(m, v1, v2);
    case Manhattan => d := ManhattanDistance(v1, v2);
    case Chebyshev => d := ChebyshevDistance(v1, v2);
    case Minkowski => d := MinkowskiDistance(m, v1, v2);
  }

  // ------------------------------------------------------ metric properties

  /** The sum of squares is never negative, and is 0 when every pair agrees. */
  lemma {:induction false} SquaredSumProperties(v1: seq<real>, v2: seq<real>, n: nat)
    requires n <= |v1| && n <= |v2|
    ensures SquaredSum(v1, v2, n) >= 0.0
    ensures (forall i :: 0 <= i < n ==> v1[i] == v2[i]) ==> SquaredSum(v1, v2, n) == 0.0
  {
    if n > 0 {
      SquaredSumProperties(v1, v2, n - 1);
      var x := v1[n - 1] - v2[n - 1];
      assert x * x >= 0.0;
    }
  }

  /**
   * The Euclidean distance is a square root of the sum of squares, so it is
   * never negative and is 0 between a vector and itself.
   */
  lemma EuclideanProperties(m: Maths, v1: seq<real>, v2: seq<real>)
    requires SqrtIsRoot(m) && |v1| <= |v2|
    ensures Distance(m, Euclidean, v1, v2) >= 0.0
    ensures Distance(m, Euclidean, v1, v1) == 0.0
  {
    SquaredSumProperties(v1, v2, |v1|);
    SquaredSumProperties(v1, v1, |v1|);
  }

  /** The Manhattan sum is never negative and is 0 when every pair agrees. */
  lemma {:induction false} AbsSumProperties(v1: seq<real>, v2: seq<real>, n: nat)
    requires n <= |v1| && n <= |v2|
    ensures AbsSum(v1, v2, n) >= 0.0
    ensures (forall i :: 0 <= i < n ==> v1[i] == v2[i]) ==> AbsSum(v1, v2, n) == 0.0
  {
    if n > 0 {
      AbsSumProperties(v1, v2, n - 1);
    }
  }

  /** The Manhattan sum does not depend on the order of its arguments. */
  lemma {:induction false} AbsSumSymmetric(v1: seq<real>, v2: seq<real>, n: nat)
    requires n <= |v1| && n <= |v2|
    ensures AbsSum(v1, v2, n) == AbsSum(v2, v1, n)
  {
    if n > 0 {
      AbsSumSymmetric(v1, v2, n - 1);
      assert Abs(v1[n - 1] - v2[n - 1]) == Abs(v2[n - 1] - v1[n - 1]);
    }
  }

  /**
   * The running maximum is the largest |v1[i] - v2[i]| (or 0 when none is
   * positive): it bounds every difference and is attained unless it is 0.
   * It never exceeds the Manhattan sum.
   */
  lemma {:induction false} MaxAbsProperties(v1: seq<real>, v2: seq<real>, n: nat)
    requires n <= |v1| && n <= |v2|
    ensures 0.0 <= MaxAbs(v1, v2, n) <= AbsSum(v1, v2, n)
    ensures forall i :: 0 <= i < n ==> Abs(v1[i] - v2[i]) <= MaxAbs(v1, v2, n)
    ensures MaxAbs(v1, v2, n) == 0.0 || exists i :: 0 <= i < n && Abs(v1[i] - v2[i]) == MaxAbs(v1, v2, n)
    ensures (forall i :: 0 <= i < n ==> v1[i] == v2[i]) ==> MaxAbs(v1, v2, n) == 0.0
  {
    if n > 0 {
      MaxAbsProperties(v1, v2, n - 1);
      AbsSumProperties(v1, v2, n - 1);
    }
  }

  /** The Chebyshev maximum does not depend on the order of its arguments. */
  lemma {:induction false} MaxAbsSymmetric(v1: seq<real>, v2: seq<real>, n: nat)
    requires n <= |v1| && n <= |v2|
    ensures MaxAbs(v1, v2, n) == MaxAbs(v2, v1, n)
  {
    if n > 0 {
      MaxAbsSymmetric(v1, v2, n - 1);
      assert Abs(v1[n - 1] - v2[n - 1]) == Abs(v2[n - 1] - v1[n - 1]);
    }
  }

  /**
   * The distances on their own terms: Manhattan and Chebyshev are never
   * negative, 0 between a vector and itself, symmetric for equal lengths,
   * and Chebyshev never exceeds Manhattan; empty vectors are at distance 0.
   */
  lemma DistanceProperties(m: Maths, v1: seq<real>, v2: seq<real>)
    requires |v1| <= |v2|
    ensures 0.0 <= Distance(m, Chebyshev, v1, v2) <= Distance(m, Manhattan, v1, v2)
    ensures Distance(m, Manhattan, v1, v1) == 0.0 && Distance(m, Chebyshev, v1, v1) == 0.0
    ensures |v1| == |v2| ==> Distance(m, Manhattan, v1, v2) == Distance(m, Manhattan, v2, v1)
    ensures |v1| == |v2| ==> Distance(m, Chebyshev, v1, v2) == Distance(m, Chebyshev, v2, v1)
    ensures |v1| == 0 ==> Distance(m, Manhattan, v1, v2) == 0.0 && Distance(m, Chebyshev, v1, v2) == 0.0
  {
    MaxAbsProperties(v1, v2, |v1|);
    AbsSumProperties(v1, v1, |v1|);
    MaxAbsProperties(v1, v1, |v1|);
    if |v1| == |v2| {
      AbsSumSymmetric(v1, v2, |v1|);
      MaxAbsSymmetric(v1, v2, |v1|);
    }
  }
}
