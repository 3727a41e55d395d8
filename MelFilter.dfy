/**
 * Aquila::MelFilter (src/MelFilter.cpp, branches/cache/src/MelFilter.h): a
 * triangular filter on a linear frequency axis whose corners are placed on
 * the Mel scale.
 *
 * Frequencies are reals; ln and exp come from a `Maths` value.
 */
module MelFilters {
  import opened Maths

  // ------------------------------------------------------------ Mel scale

  /** MelFilter::linearToMel: 1127.01048 ln(1 + f / 700). */
  function LinearToMel(m: Maths, f: real): real
  {
    1127.01048 * m.log(1.0 + f / 700.0)
  }

  /** MelFilter::melToLinear: 700 (exp(mel / 1127.01048) - 1). */
  function MelToLinear(m: Maths, mel: real): real
  {
    700.0 * (m.exp(mel / 1127.01048) - 1.0)
  }

  /** Both conversions map 0 to 0. */
  lemma MelZero(m: Maths)
    requires LogIncreasing(m) && ExpIncreasing(m)
    ensures LinearToMel(m, 0.0) == 0.0 && MelToLinear(m, 0.0) == 0.0
  {
  }

  /** melToLinear undoes linearToMel on (-700, inf), where ln is defined. */
  lemma MelRoundTrip(m: Maths, f: real)
    requires ExpLogInverse(m) && f > -700.0
    ensures MelToLinear(m, LinearToMel(m, f)) == f
  {
    var x := 1.0 + f / 700.0;
    assert x > 0.0;
    assert LinearToMel(m, f) / 1127.01048 == m.log(x);
    assert m.exp(m.log(x)) == x;
  }

  /** linearToMel is strictly increasing on (-700, inf). */
  lemma LinearToMelIncreasing(m: Maths, f: real, g: real)
    requires LogIncreasing(m) && -700.0 < f < g
    ensures LinearToMel(m, f) < LinearToMel(m, g)
  {
    assert 0.0 < 1.0 + f / 700.0 < 1.0 + g / 700.0;
  }

  /** melToLinear is strictly increasing. */
  lemma MelToLinearIncreasing(m: Maths, x: real, y: real)
    requires ExpIncreasing(m) && x < y
    ensures MelToLinear(m, x) < MelToLinear(m, y)
  {
    assert x / 1127.01048 < y / 1127.01048;
  }

  // ----------------------------------------------------- filter placement

  /** The lower corner, the centre and the upper corner of a triangular filter. */
  datatype Corners = Corners(low: real, center: real, high: real)

  /**
   * createFilter's corners for filter filterNum of Mel width w:
   * min = filterNum * w / 2, center = min + w / 2, max = min + w.
   */
  function MelBounds(filterNum: nat, w: nat): (b: Corners)
  {
    var low := (filterNum * w) as real / 2.0;
    Corners(low, low + w as real / 2.0, low + w as real)
  }

  /**
   * Neighbouring filters overlap by half a band: filter i's center is filter
   * i+1's lower corner and its upper corner is filter i+1's center.
   */
  lemma AdjacentBands(i: nat, w: nat)
    ensures MelBounds(i, w).center == MelBounds(i + 1, w).low
    ensures MelBounds(i, w).high == MelBounds(i + 1, w).center
    ensures MelBounds(i, w).low < MelBounds(i, w).center < MelBounds(i, w).high <==> w > 0
  {
    assert (i + 1) * w == i * w + w;
  }

  // -------------------------------------------------- triangular weights

  /**
   * The weight generateFilterSpectrum writes for bin k, with the corners
   * already scaled to bins: 0 outside [mn, mx], then the rising and the
   * falling edge, each written as in the source with max = 1.0.
   * The falling edge divides by c - mx, so c == mx is excluded (for
   * k == c == mx the source computes 0/0).
   */
  function TriangleWeight(k: real, mn: real, c: real, mx: real): real
    requires c != mx
  {
    if k < mn || k > mx then 0.0
    else if k < c then k * 1.0 / (c - mn) - mn * 1.0 / (c - mn)
    else k * 1.0 / (c - mx) - mx * 1.0 / (c - mx)
  }

  /** a / d lies in [0, 1] for 0 <= a <= d. */
  lemma QuotientInUnit(a: real, d: real)
    requires 0.0 <= a <= d && d > 0.0
    ensures 0.0 <= a / d <= 1.0
  {
    var q := a / d;
    assert q * d == a;
  }

  /** The rising edge k / (c - mn) - mn / (c - mn) is (k - mn) / (c - mn), in [0, 1). */
  lemma RisingEdge(k: real, mn: real, c: real)
    requires mn <= k < c
    ensures k * 1.0 / (c - mn) - mn * 1.0 / (c - mn) == (k - mn) / (c - mn)
    ensures 0.0 <= (k - mn) / (c - mn) <= 1.0
  {
    QuotientInUnit(k - mn, c - mn);
  }

  /** The falling edge k / (c - mx) - mx / (c - mx) is (mx - k) / (mx - c), in [0, 1]. */
  lemma FallingEdge(k: real, c: real, mx: real)
    requires c <= k <= mx && c != mx
    ensures k * 1.0 / (c - mx) - mx * 1.0 / (c - mx) == (mx - k) / (mx - c)
    ensures 0.0 <= (mx - k) / (mx - c) <= 1.0
  {
    var d := c - mx;
    assert k * 1.0 / d - mx * 1.0 / d == (k - mx) / d;
    assert (k - mx) / d == (mx - k) / (mx - c);
    QuotientInUnit(mx - k, mx - c);
  }

  /**
   * The weights are the triangle through (mn, 0), (c, 1) and (mx, 0): they
   * vanish outside [mn, mx], rise as (k - mn) / (c - mn), fall as
   * (mx - k) / (mx - c), and always lie in [0, 1].
   */
  lemma TriangleWeightShape(k: real, mn: real, c: real, mx: real)
    requires c != mx
    ensures k < mn || k > mx ==> TriangleWeight(k, mn, c, mx) == 0.0
    ensures mn <= k < c && k <= mx ==> TriangleWeight(k, mn, c, mx) == (k - mn) / (c - mn)
    ensures mn <= k && c <= k <= mx ==> TriangleWeight(k, mn, c, mx) == (mx - k) / (mx - c)
    ensures 0.0 <= TriangleWeight(k, mn, c, mx) <= 1.0
  {
    if mn <= k <= mx {
      if k < c {
        RisingEdge(k, mn, c);
      } else {
        FallingEdge(k, c, mx);
      }
    }
  }

  /** The factor N / sampFreq that turns a frequency into a bin position. */
  function BinScale(N: nat, sampFreq: real): real
    requires sampFreq != 0.0
  {
    N as real / sampFreq
  }

  /** Corners that differ stay apart once scaled by a non-zero factor. */
  lemma ScaledApart(c: real, mx: real, s: real)
    requires c != mx && s != 0.0
    ensures c * s != mx * s
  {
    assert c * s - mx * s == (c - mx) * s;
  }

  lemma BinScaleNonZero(N: nat, sampFreq: real)
    requires sampFreq != 0.0 && N > 0
    ensures BinScale(N, sampFreq) != 0.0
  {
    assert BinScale(N, sampFreq) * sampFreq == N as real;
  }

  /** BinWeight with the scaled corners already computed. */
  lemma BinWeightIs(k: nat, minFreq: real, centerFreq: real, maxFreq: real, N: nat, sampFreq: real,
                    minBin: real, centerBin: real, maxBin: real)
    requires sampFreq != 0.0 && centerFreq != maxFreq && k < N
    requires minBin == minFreq * BinScale(N, sampFreq) && centerBin == centerFreq * BinScale(N, sampFreq)
    requires maxBin == maxFreq * BinScale(N, sampFreq)
    ensures centerBin != maxBin
    ensures BinWeight(k, minFreq, centerFreq, maxFreq, N, sampFreq) == TriangleWeight(k as real, minBin, centerBin, maxBin)
  {
    BinScaleNonZero(N, sampFreq);
    ScaledApart(centerFreq, maxFreq, BinScale(N, sampFreq));
  }

  /** The weight of bin k for linear corners, scaled by N / sampFreq. */
  function BinWeight(k: nat, minFreq: real, centerFreq: real, maxFreq: real, N: nat, sampFreq: real): real
    requires sampFreq != 0.0 && centerFreq != maxFreq && k < N
  {
    var s := BinScale(N, sampFreq);
    BinScaleNonZero(N, sampFreq);
    ScaledApart(centerFreq, maxFreq, s);
    TriangleWeight(k as real, minFreq * s, centerFreq * s, maxFreq * s)
  }

  /** The N weights generateFilterSpectrum leaves for the given linear corners. */
  function TriangleSpectrum(minFreq: real, centerFreq: real, maxFreq: real, N: nat, sampFreq: real): (w: seq<real>)
    requires sampFreq != 0.0 && (N == 0 || centerFreq != maxFreq)
    ensures |w| == N
  {
    seq(N, k requires 0 <= k < N => BinWeight(k, minFreq, centerFreq, maxFreq, N, sampFreq))
  }

  /** Every weight of a filter spectrum lies in [0, 1]. */
  lemma TriangleSpectrumBounded(minFreq: real, centerFreq: real, maxFreq: real, N: nat, sampFreq: real)
    requires sampFreq != 0.0 && (N == 0 || centerFreq != maxFreq)
    ensures forall k :: 0 <= k < N ==> 0.0 <= TriangleSpectrum(minFreq, centerFreq, maxFreq, N, sampFreq)[k] <= 1.0
  {
    forall k | 0 <= k < N
      ensures 0.0 <= TriangleSpectrum(minFreq, centerFreq, maxFreq, N, sampFreq)[k] <= 1.0
    {
      var s := BinScale(N, sampFreq);
      var mn, c, mx := minFreq * s, centerFreq * s, maxFreq * s;
      BinWeightIs(k, minFreq, centerFreq, maxFreq, N, sampFreq, mn, c, mx);
      TriangleWeightShape(k as real, mn, c, mx);
    }
  }

  /**
   * The weights createFilter leaves: the triangle over the Mel corners of
   * MelBounds, converted to linear frequencies. A zero width would make the
   * centre and the upper corner coincide.
   */
  function FilterWeights(m: Maths, filterNum: nat, w: nat, N: nat, sampFreq: real): (r: seq<real>)
    requires ExpIncreasing(m) && sampFreq != 0.0 && (N == 0 || w > 0)
    ensures |r| == N
  {
    var b := MelBounds(filterNum, w);
    if N > 0 then MelToLinearIncreasing(m, b.center, b.high); (TriangleSpectrum(MelToLinear(m, b.low), MelToLinear(m, b.center), MelToLinear(m, b.high), N, sampFreq))
    else []
  }

  /**
   * A created filter's weights lie in [0, 1], and they are 0 below the lower
   * and above the upper linear corner.
   */
  lemma FilterWeightsShape(m: Maths, filterNum: nat, w: nat, N: nat, sampFreq: real)
    requires ExpIncreasing(m) && sampFreq != 0.0 && (N == 0 || w > 0)
    ensures forall k :: 0 <= k < N ==> 0.0 <= FilterWeights(m, filterNum, w, N, sampFreq)[k] <= 1.0
    ensures var b := MelBounds(filterNum, w);
      forall k :: 0 <= k < N &&
        ((k as real) < MelToLinear(m, b.low) * BinScale(N, sampFreq) || (k as real) > MelToLinear(m, b.high) * BinScale(N, sampFreq))
        ==> FilterWeights(m, filterNum, w, N, sampFreq)[k] == 0.0
  {
    var b := MelBounds(filterNum, w);
    if N > 0 {
      MelToLinearIncreasing(m, b.center, b.high);
      var lo, c, hi := MelToLinear(m, b.low), MelToLinear(m, b.center), MelToLinear(m, b.high);
      TriangleSpectrumBounded(lo, c, hi, N, sampFreq);
      forall k | 0 <= k < N
        ensures (k as real) < lo * BinScale(N, sampFreq) || (k as real) > hi * BinScale(N, sampFreq)
            ==> FilterWeights(m, filterNum, w, N, sampFreq)[k] == 0.0
      {
        var s := BinScale(N, sampFreq);
        BinWeightIs(k, lo, c, hi, N, sampFreq, lo * s, c * s, hi * s);
      }
    }
  }

  // ----------------------------------------------------------------- apply

  /** sum over i < n of a[i] * w[i], accumulated from i = 0 upwards. */
  function DotProduct(a: seq<real>, w: seq<real>, n: nat): real
    requires n <= |a| && n <= |w|
  {
    if n == 0 then 0.0 else DotProduct(a, w, n - 1) + a[n - 1] * w[n - 1]
  }

  /** std::abs of every spectrum entry. */
  function Magnitudes(m: Maths, s: seq<Complex>): (r: seq<real>)
    ensures |r| == |s| && forall i :: 0 <= i < |s| ==> r[i] == m.cabs(s[i])
  {
    seq(|s|, i requires 0 <= i < |s| => m.cabs(s[i]))
  }

  /** The number of bins apply sums over: the unsigned N / 2 - 1. */
  function ApplyCount(N: nat): (n: nat)
    requires N >= 2
    ensures n + 1 == N / 2
  {
    N / 2 - 1
  }

  /** The dot product only reads the first n entries of each side. */
  lemma {:induction false} DotProductPrefix(a: seq<real>, b: seq<real>, w: seq<real>, n: nat)
    requires n <= |a| && n <= |b| && n <= |w|
    requires forall i :: 0 <= i < n ==> a[i] == b[i]
    ensures DotProduct(a, w, n) == DotProduct(b, w, n)
  {
    if n > 0 {
      DotProductPrefix(a, b, w, n - 1);
    }
  }

  /** Non-negative magnitudes against non-negative weights give a non-negative output. */
  lemma {:induction false} DotProductNonNegative(a: seq<real>, w: seq<real>, n: nat)
    requires n <= |a| && n <= |w|
    requires forall i :: 0 <= i < n ==> a[i] >= 0.0 && w[i] >= 0.0
    ensures DotProduct(a, w, n) >= 0.0
  {
    if n > 0 {
      DotProductNonNegative(a, w, n - 1);
      assert a[n - 1] * w[n - 1] >= 0.0;
    }
  }

  /**
   * The two apply overloads agree: the real one fed with |spectrum[i]| for
   * the bins it reads gives the complex one's result.
   */
  lemma ApplyOverloadsAgree(m: Maths, spectrum: seq<Complex>, magnitudes: seq<real>, w: seq<real>, n: nat)
    requires n <= |spectrum| && n <= |magnitudes| && n <= |w|
    requires forall i :: 0 <= i < n ==> magnitudes[i] == m.cabs(spectrum[i])
    ensures DotProduct(magnitudes, w, n) == DotProduct(Magnitudes(m, spectrum), w, n)
  {
    DotProductPrefix(magnitudes, Magnitudes(m, spectrum), w, n);
  }

  /** MELFILTERS: the number of filters in every bank. */
  const MELFILTERS: nat := 24

  /**
   * What a bank writes for one filter: its dot product with the spectrum
   * magnitudes when enabled, exactly 0.0 when disabled.
   */
  function Response(m: Maths, enabled: bool, weights: seq<real>, spectrum: seq<Complex>, N: nat): real
    requires N >= 2 && ApplyCount(N) <= |weights| && ApplyCount(N) <= |spectrum|
  {
    if enabled then DotProduct(Magnitudes(m, spectrum), weights, ApplyCount(N)) else 0.0
  }

  /** The outputs of applyAll for a bank with the given flags and weights. */
  function BankOutputs(m: Maths, flags: seq<bool>, weights: seq<seq<real>>, spectrum: seq<Complex>, N: nat): (r: seq<real>)
    requires |flags| == |weights| && N >= 2 && ApplyCount(N) <= |spectrum|
    requires forall i :: 0 <= i < |weights| ==> ApplyCount(N) <= |weights[i]|
    ensures |r| == |flags|
  {
    seq(|flags|, i requires 0 <= i < |flags| => Response(m, flags[i], weights[i], spectrum, N))
  }

  /**
   * A disabled filter contributes exactly 0, an enabled one its dot product;
   * with magnitudes and weights non-negative every output is non-negative.
   */
  lemma BankOutputsShape(m: Maths, flags: seq<bool>, weights: seq<seq<real>>, spectrum: seq<Complex>, N: nat)
    requires |flags| == |weights| && N >= 2 && ApplyCount(N) <= |spectrum|
    requires forall i :: 0 <= i < |weights| ==> ApplyCount(N) <= |weights[i]|
    ensures forall i :: 0 <= i < |flags| && !flags[i] ==> BankOutputs(m, flags, weights, spectrum, N)[i] == 0.0
    ensures forall i :: 0 <= i < |flags| && flags[i] ==>
      BankOutputs(m, flags, weights, spectrum, N)[i] == DotProduct(Magnitudes(m, spectrum), weights[i], ApplyCount(N))
    ensures AbsNonNegative(m) && (forall i, k :: 0 <= i < |weights| && 0 <= k < |weights[i]| ==> weights[i][k] >= 0.0) ==>
      forall i :: 0 <= i < |flags| ==> BankOutputs(m, flags, weights, spectrum, N)[i] >= 0.0
  {
    var out := BankOutputs(m, flags, weights, spectrum, N);
    if AbsNonNegative(m) && (forall i, k :: 0 <= i < |weights| && 0 <= k < |weights[i]| ==> weights[i][k] >= 0.0) {
      forall i | 0 <= i < |flags|
        ensures out[i] >= 0.0
      {
        if flags[i] {
          DotProductNonNegative(Magnitudes(m, spectrum), weights[i], ApplyCount(N));
        }
      }
    }
  }

  class MelFilter {
    const sampFreq: real
    var filterSpectrum: seq<real>
    var enabled: bool

    /** MelFilter(sampleFrequency): enabled, with that sample frequency and no weights yet. */
    constructor(sampleFrequency: real)
      ensures sampFreq == sampleFrequency && enabled && filterSpectrum == []
    {
      sampFreq := sampleFrequency;
      filterSpectrum := [];
      enabled := true;
    }

    /** setEnabled: the flag becomes `enable`; the weights stay. */
    method SetEnabled(enable: bool)
      modifies this`enabled
      ensures enabled == enable
    {
      enabled := enable;
    }

    /** isEnabled: the flag last set. */
    function IsEnabled(): (b: bool)
      reads this
    {
      enabled
    }

    /**
     * createFilter(filterNum, melFilterWidth, N): the Mel corners of
     * MelBounds converted to linear frequencies, then generateFilterSpectrum.
     */
    method CreateFilter(m: Maths, filterNum: nat, melFilterWidth: nat, N: nat)
      requires ExpIncreasing(m) && sampFreq != 0.0 && (N == 0 || melFilterWidth > 0)
      modifies this`filterSpectrum
      ensures filterSpectrum == FilterWeights(m, filterNum, melFilterWidth, N, sampFreq)
    {
      var melMinFreq := (filterNum * melFilterWidth) as real / 2.0;
      var melCenterFreq := melMinFreq + melFilterWidth as real / 2.0;
      var melMaxFreq := melMinFreq + melFilterWidth as real;
      var minFreq := MelToLinear(m, melMinFreq);
      var centerFreq := MelToLinear(m, melCenterFreq);
      var maxFreq := MelToLinear(m, melMaxFreq);
      if N > 0 {
        MelToLinearIncreasing(m, melCenterFreq, melMaxFreq);
      }
      GenerateFilterSpectrum(minFreq, centerFreq, maxFreq, N);
    }

    /**
     * generateFilterSpectrum: the old weights are discarded and N new ones
     * written, bin k getting the triangle weight at k for the corners scaled
     * by N / sampFreq.
     */
    method GenerateFilterSpectrum(minFreq: real, centerFreq: real, maxFreq: real, N: nat)
      requires sampFreq != 0.0 && (N == 0 || centerFreq != maxFreq)
      modifies this`filterSpectrum
      ensures filterSpectrum == TriangleSpectrum(minFreq, centerFreq, maxFreq, N, sampFreq)
    {
      var spectrum := new real[N];
      var scale := N as real / sampFreq;
      var minBin, centerBin, maxBin := minFreq * scale, centerFreq * scale, maxFreq * scale;
      ghost var expected := TriangleSpectrum(minFreq, centerFreq, maxFreq, N, sampFreq);
      var k := 0;
      while k < N
        invariant 0 <= k <= N
        invariant forall j :: 0 <= j < k ==> spectrum[j] == expected[j]
      {
        BinWeightIs(k, minFreq, centerFreq, maxFreq, N, sampFreq, minBin, centerBin, maxBin);
        var value;
        if k as real < minBin || k as real > maxBin {
          value := 0.0;
        } else if k as real < centerBin {
          value := k as real * 1.0 / (centerBin - minBin) - minBin * 1.0 / (centerBin - minBin);
        } else {
          value := k as real * 1.0 / (centerBin - maxBin) - maxBin * 1.0 / (centerBin - maxBin);
        }
        assert value == TriangleWeight(k as real, minBin, centerBin, maxBin);
        assert expected[k] == BinWeight(k, minFreq, centerFreq, maxFreq, N, sampFreq);
        spectrum[k] := value;
        k := k + 1;
      }
      filterSpectrum := spectrum[..];
    }

    /**
     * apply(spectrum, N): sum of |spectrum[i]| * weight[i] over the first
     * N / 2 - 1 bins. The unsigned count wraps for N < 2, so N >= 2 is needed.
     */
    method Apply(m: Maths, dataSpectrum: seq<Complex>, N: nat) returns (value: real)
      requires N >= 2 && ApplyCount(N) <= |dataSpectrum| && ApplyCount(N) <= |filterSpectrum|
      ensures value == DotProduct(Magnitudes(m, dataSpectrum), filterSpectrum, ApplyCount(N))
    {
      value := 0.0;
      var i := 0;
      while i < N / 2 - 1
        invariant 0 <= i <= ApplyCount(N)
        invariant value == DotProduct(Magnitudes(m, dataSpectrum), filterSpectrum, i)
      {
        value := value + m.cabs(dataSpectrum[i]) * filterSpectrum[i];
        i := i + 1;
      }
    }

    /** apply(magnitudes, N): the overload on a real magnitude spectrum. */
    method ApplyMagnitudes(dataAbsSpectrum: seq<real>, N: nat) returns (value: real)
      requires N >= 2 && ApplyCount(N) <= |dataAbsSpectrum| && ApplyCount(N) <= |filterSpectrum|
      ensures value == DotProduct(dataAbsSpectrum, filterSpectrum, ApplyCount(N))
    {
      value := 0.0;
      var i := 0;
      while i < N / 2 - 1
        invariant 0 <= i <= ApplyCount(N)
        invariant value == DotProduct(dataAbsSpectrum, filterSpectrum, i)
      {
        value := value + dataAbsSpectrum[i] * filterSpectrum[i];
        i := i + 1;
      }
    }
  }

  /** Filter i of a uniform bank: a new filter, then createFilter(i, melFilterWidth, N). */
  method UniformFilter(m: Maths, sampleFrequency: real, i: nat, melFilterWidth: nat, N: nat) returns (f: MelFilter)
    requires ExpIncreasing(m) && sampleFrequency != 0.0 && (N == 0 || melFilterWidth > 0)
    ensures fresh(f) && f.sampFreq == sampleFrequency && f.enabled
    ensures f.filterSpectrum == FilterWeights(m, i, melFilterWidth, N, sampleFrequency)
  {
    f := new MelFilter(sampleFrequency);
    f.CreateFilter(m, i, melFilterWidth, N);
  }

  /** The filters of a uniform bank, filter i created by createFilter(i, melFilterWidth, N). */
  method UniformFilters(m: Maths, sampleFrequency: real, melFilterWidth: nat, N: nat) returns (fs: seq<MelFilter>)
    requires ExpIncreasing(m) && sampleFrequency != 0.0 && (N == 0 || melFilterWidth > 0)
    ensures |fs| == MELFILTERS && fresh(fs)
    ensures forall j, k :: 0 <= j < k < MELFILTERS ==> fs[j] != fs[k]
    ensures forall j :: 0 <= j < MELFILTERS ==>
      && fs[j].sampFreq == sampleFrequency && fs[j].enabled
      && fs[j].filterSpectrum == FilterWeights(m, j, melFilterWidth, N, sampleFrequency)
  {
    fs := [];
    var i := 0;
    while i < MELFILTERS
      invariant 0 <= i <= MELFILTERS && |fs| == i
      invariant fresh(fs)
      invariant forall j, k :: 0 <= j < k < i ==> fs[j] != fs[k]
      invariant forall j :: 0 <= j < i ==>
        && fs[j].sampFreq == sampleFrequency && fs[j].enabled
        && fs[j].filterSpectrum == FilterWeights(m, j, melFilterWidth, N, sampleFrequency)
    {
      var f := UniformFilter(m, sampleFrequency, i, melFilterWidth, N);
      fs := fs + [f];
      i := i + 1;
    }
  }
}
