/**
 * Aquila::MelFiltersBank as tagged AQUILA_2_5_3
 * (tags/AQUILA_2_5_3/src/MelFiltersBank.cpp): MELFILTERS triangular filters,
 * built either on a uniform Mel grid or by the HFCC rule (centres equally
 * spaced in Mel, widths from the equivalent rectangular bandwidth), and
 * applied to a spectrum all at once.
 */
module MelFiltersBank {
  import opened Maths
  import opened MelFilters

  // ------------------------------------------------- HFCC filter placement

  /** The ERB polynomial's coefficients a, b, c (6.23e-6, 93.39e-3, 28.52). */
  const ErbA: real := 0.00000623
  const ErbB: real := 0.09339
  const ErbC: real := 28.52

  /** Equivalent rectangular bandwidth of a filter centred at fc: a fc^2 + b fc + c. */
  function Erb(fc: real): real
  {
    ErbA * fc * fc + ErbB * fc + ErbC
  }

  /** The lower corner of the HFCC filter centred at fc with bandwidth erb. */
  function ErbLow(m: Maths, fc: real, erb: real): real
  {
    -(700.0 + erb) + m.sqrt((700.0 + erb) * (700.0 + erb) + fc * (fc + 1400.0))
  }

  /**
   * The positive root 0.5 (-b2 + sqrt(b2^2 - 4 c2)) of the quadratic the
   * constructor sets up from a1, b1, c1 to find an edge filter's centre.
   */
  function EdgeRoot(m: Maths, a1: real, b1: real, c1: real): real
    requires ErbA - a1 != 0.0
  {
    var b2 := (ErbB - b1) / (ErbA - a1);
    var c2 := (ErbC - c1) / (ErbA - a1);
    0.5 * (-b2 + m.sqrt(b2 * b2 - 4.0 * c2))
  }

  /** fc_0: the linear centre of the first filter, from f_low_global = 0. */
  function FirstCentre(m: Maths): real
  {
    var fLowGlobal := 0.0;
    EdgeRoot(m, 0.5 / (700.0 + fLowGlobal), 700.0 / (700.0 + fLowGlobal),
             (-fLowGlobal / 2.0) * (1.0 + 700.0 / (700.0 + fLowGlobal)))
  }

  /** fc_last: the linear centre of the last filter, from f_high_global = fs / 2. */
  function LastCentre(m: Maths, fs: real): real
    requires fs > 0.0
  {
    var fHighGlobal := fs / 2.0;
    assert -0.5 / (700.0 + fHighGlobal) < 0.0;
    EdgeRoot(m, -0.5 / (700.0 + fHighGlobal), -700.0 / (700.0 + fHighGlobal),
             (fHighGlobal / 2.0) * (1.0 + 700.0 / (700.0 + fHighGlobal)))
  }

  /** (fc_0_mel, fc_last_mel): the Mel centres of the first and the last HFCC filter. */
  function HfccMelLimits(m: Maths, fs: real): (real, real)
    requires fs > 0.0
  {
    (LinearToMel(m, FirstCentre(m)), LinearToMel(m, LastCentre(m, fs)))
  }

  /** delta_f_mel: the Mel step between neighbouring HFCC centres. */
  function HfccMelStep(m: Maths, fs: real): real
    requires fs > 0.0
  {
    (HfccMelLimits(m, fs).1 - HfccMelLimits(m, fs).0) / (MELFILTERS - 1) as real
  }

  /** fc_mel of filter i, with the constructor's special cases for the first and the last filter. */
  function HfccCentreMel(m: Maths, fs: real, i: nat): real
    requires fs > 0.0
  {
    if i == 0 then HfccMelLimits(m, fs).0
    else if i == MELFILTERS - 1 then HfccMelLimits(m, fs).1
    else HfccMelLimits(m, fs).0 + i as real * HfccMelStep(m, fs)
  }

  /** The linear corners (f_low, fc, f_high) the constructor gives filter i. */
  function HfccCorners(m: Maths, fs: real, i: nat): Corners
    requires fs > 0.0
  {
    var fc := MelToLinear(m, HfccCentreMel(m, fs, i));
    var erb := Erb(fc);
    var low := ErbLow(m, fc, erb);
    Corners(low, fc, low + 2.0 * erb)
  }

  /**
   * Every centre, the special-cased first and last included, lies on the
   * equally spaced grid fc_0_mel + i * delta_f_mel.
   */
  lemma HfccCentresEquallySpaced(m: Maths, fs: real, i: nat)
    requires fs > 0.0 && i < MELFILTERS
    ensures HfccCentreMel(m, fs, i) == HfccMelLimits(m, fs).0 + i as real * HfccMelStep(m, fs)
  {
    if i == MELFILTERS - 1 {
      var first, last := HfccMelLimits(m, fs).0, HfccMelLimits(m, fs).1;
      assert 23.0 * ((last - first) / 23.0) == last - first;
    }
  }

  /** When fc_last_mel > fc_0_mel the centres strictly increase with the filter number. */
  lemma HfccCentresIncreasing(m: Maths, fs: real, i: nat, j: nat)
    requires fs > 0.0 && i < j < MELFILTERS
    requires HfccMelLimits(m, fs).1 > HfccMelLimits(m, fs).0
    ensures HfccCentreMel(m, fs, i) < HfccCentreMel(m, fs, j)
  {
    HfccCentresEquallySpaced(m, fs, i);
    HfccCentresEquallySpaced(m, fs, j);
    var d := HfccMelStep(m, fs);
    assert d > 0.0;
    assert j as real * d - i as real * d == (j - i) as real * d;
    assert (j - i) as real * d > 0.0;
  }

  /** The ERB of a non-negative centre frequency is at least c, hence positive. */
  lemma ErbPositive(fc: real)
    requires fc >= 0.0
    ensures Erb(fc) >= ErbC > 0.0
  {
    assert fc * fc >= 0.0;
  }

  /** Squaring is monotone on the non-negative reals. */
  lemma SquareMonotone(r: real, t: real)
    requires 0.0 <= r <= t
    ensures r * r <= t * t
  {
    assert r * r <= r * t;
    assert r * t <= t * t;
  }

  /** sqrt(x) > t whenever t^2 < x. */
  lemma SqrtAbove(m: Maths, x: real, t: real)
    requires SqrtIsRoot(m) && t * t < x
    ensures m.sqrt(x) > t
  {
    var r := m.sqrt(x);
    if 0.0 <= t && r <= t {
      SquareMonotone(r, t);
    }
  }

  /**
   * The corners of an HFCC filter centred at fc > 0 with bandwidth e > 0,
   * given the root r = sqrt((700 + e)^2 + fc (fc + 1400)): a proper
   * triangle 0 < f_low < fc < f_high, 2 e wide.
   */
  lemma ErbCornersOrdered(fc: real, e: real, r: real)
    requires fc > 0.0 && e > 0.0 && r >= 0.0 && r * r == (700.0 + e) * (700.0 + e) + fc * (fc + 1400.0)
    ensures 0.0 < r - (700.0 + e) < fc < r - (700.0 + e) + 2.0 * e
  {
    var x := r * r;
    ErbSquares(fc, e, x);
    if r <= 700.0 + e {
      SquareMonotone(r, 700.0 + e);
    }
    if fc + 700.0 + e <= r {
      SquareMonotone(fc + 700.0 + e, r);
    }
    if 0.0 <= fc + 700.0 - e && r <= fc + 700.0 - e {
      SquareMonotone(r, fc + 700.0 - e);
    }
    CornersAroundRoot(fc, e, r, r - (700.0 + e));
  }

  lemma ErbLowIsRoot(m: Maths, fc: real, e: real, x: real)
    requires x == (700.0 + e) * (700.0 + e) + fc * (fc + 1400.0)
    ensures ErbLow(m, fc, e) == m.sqrt(x) - (700.0 + e)
  {
  }

  lemma CornersAroundRoot(fc: real, e: real, r: real, low: real)
    requires 700.0 + e < r < fc + 700.0 + e && fc + 700.0 - e < r && low == r - (700.0 + e)
    ensures 0.0 < low < fc < low + 2.0 * e
  {
  }

  /** The three squares ErbCornersOrdered compares sqrt((700 + e)^2 + fc (fc + 1400)) with. */
  lemma ErbSquares(fc: real, e: real, x: real)
    requires fc > 0.0 && e > 0.0 && x == (700.0 + e) * (700.0 + e) + fc * (fc + 1400.0)
    ensures (700.0 + e) * (700.0 + e) < x
    ensures 0.0 <= x < (fc + 700.0 + e) * (fc + 700.0 + e)
    ensures (fc + 700.0 - e) * (fc + 700.0 - e) < x
  {
    assert fc * (fc + 1400.0) > 0.0;
    assert (fc + 700.0 + e) * (fc + 700.0 + e) == x + 2.0 * e * fc;
    assert (fc + 700.0 - e) * (fc + 700.0 - e) == x - e * (2800.0 + 2.0 * fc);
  }

  /** The first HFCC centre is a positive frequency. */
  lemma FirstCentrePositive(m: Maths)
    requires SqrtIsRoot(m)
    ensures FirstCentre(m) > 0.0
  {
    var b2 := (ErbB - 700.0 / 700.0) / (ErbA - 0.5 / 700.0);
    var c2 := (ErbC - (-0.0 / 2.0) * (1.0 + 700.0 / 700.0)) / (ErbA - 0.5 / 700.0);
    assert c2 < 0.0;
    SqrtAbove(m, b2 * b2 - 4.0 * c2, b2);
  }

  /**
   * The HFCC constructor can generate every filter's weights (f_high differs
   * from fc) as soon as all centres are positive frequencies.
   */
  lemma HfccCornersProper(m: Maths, fs: real)
    requires SqrtIsRoot(m) && fs > 0.0
    requires forall i :: 0 <= i < MELFILTERS ==> HfccCorners(m, fs, i).center > 0.0
    ensures forall i :: 0 <= i < MELFILTERS ==>
      HfccCorners(m, fs, i).low < HfccCorners(m, fs, i).center < HfccCorners(m, fs, i).high
  {
    forall i | 0 <= i < MELFILTERS
      ensures HfccCorners(m, fs, i).low < HfccCorners(m, fs, i).center < HfccCorners(m, fs, i).high
    {
      var fc := HfccCorners(m, fs, i).center;
      var e := Erb(fc);
      ErbPositive(fc);
      var x := (700.0 + e) * (700.0 + e) + fc * (fc + 1400.0);
      ErbLowIsRoot(m, fc, e, x);
      ErbCornersOrdered(fc, e, m.sqrt(x));
    }
  }

  /** Filter i's centre differs from its upper corner, so its falling edge can be divided out. */
  predicate HfccProper(m: Maths, fs: real, i: nat)
    requires fs > 0.0
  {
    HfccCorners(m, fs, i).center != HfccCorners(m, fs, i).high
  }

  /** The weights the HFCC constructor gives filter i. */
  function HfccWeights(m: Maths, fs: real, i: nat, N: nat): (r: seq<real>)
    requires fs > 0.0 && (N == 0 || HfccProper(m, fs, i))
    ensures |r| == N
  {
    var b := HfccCorners(m, fs, i);
    TriangleSpectrum(b.low, b.center, b.high, N, fs)
  }

  /**
   * One iteration of the HFCC constructor's loop: fc_mel of filter i (with
   * the special cases for the first and the last filter), its linear centre,
   * ERB and corners, and a new filter over them.
   */
  method HfccFilter(m: Maths, sampleFrequency: real, N: nat, i: nat, fc0Mel: real, fcLastMel: real, deltaFMel: real)
    returns (f: MelFilter)
    requires sampleFrequency > 0.0 && i < MELFILTERS
    requires fc0Mel == HfccMelLimits(m, sampleFrequency).0 && fcLastMel == HfccMelLimits(m, sampleFrequency).1
    requires deltaFMel == HfccMelStep(m, sampleFrequency)
    requires N == 0 || HfccProper(m, sampleFrequency, i)
    ensures fresh(f) && f.sampFreq == sampleFrequency && f.enabled
    ensures f.filterSpectrum == HfccWeights(m, sampleFrequency, i, N)
  {
    var fcMel;
    if 0 == i {
      fcMel := fc0Mel;
    } else if MELFILTERS - 1 == i {
      fcMel := fcLastMel;
    } else {
      fcMel := fc0Mel + i as real * deltaFMel;
    }
    assert fcMel == HfccCentreMel(m, sampleFrequency, i);
    var fc := MelToLinear(m, fcMel);
    assert fc == HfccCorners(m, sampleFrequency, i).center;
    var erb := Erb(fc);
    var fLow := ErbLow(m, fc, erb);
    assert fLow == HfccCorners(m, sampleFrequency, i).low;
    var fHigh := fLow + 2.0 * erb;
    assert Corners(fLow, fc, fHigh) == HfccCorners(m, sampleFrequency, i);
    f := new MelFilter(sampleFrequency);
    f.GenerateFilterSpectrum(fLow, fc, fHigh, N);
  }

  /** The loop of the HFCC constructor: filter i from HfccFilter, for i = 0 .. MELFILTERS - 1. */
  method HfccFilters(m: Maths, sampleFrequency: real, N: nat, fc0Mel: real, fcLastMel: real, deltaFMel: real)
    returns (fs: seq<MelFilter>)
    requires sampleFrequency > 0.0
    requires fc0Mel == HfccMelLimits(m, sampleFrequency).0 && fcLastMel == HfccMelLimits(m, sampleFrequency).1
    requires deltaFMel == HfccMelStep(m, sampleFrequency)
    requires N == 0 || forall i :: 0 <= i < MELFILTERS ==> HfccProper(m, sampleFrequency, i)
    ensures |fs| == MELFILTERS && fresh(fs)
    ensures forall j, k :: 0 <= j < k < MELFILTERS ==> fs[j] != fs[k]
    ensures forall j :: 0 <= j < MELFILTERS ==>
      && fs[j].sampFreq == sampleFrequency && fs[j].enabled
      && fs[j].filterSpectrum == HfccWeights(m, sampleFrequency, j, N)
  {
    fs := [];
    var i := 0;
    while i < MELFILTERS
      invariant 0 <= i <= MELFILTERS && |fs| == i
      invariant fresh(fs)
      invariant forall j, k :: 0 <= j < k < i ==> fs[j] != fs[k]
      invariant forall j :: 0 <= j < i ==>
        && fs[j].sampFreq == sampleFrequency && fs[j].enabled
        && fs[j].filterSpectrum == HfccWeights(m, sampleFrequency, j, N)
    {
      fs := AppendHfccFilter(m, sampleFrequency, N, fc0Mel, fcLastMel, deltaFMel, fs);
      i := i + 1;
    }
  }

  /** One iteration of the HFCC constructor's loop: filter |fs| appended to the filters 0 .. |fs| - 1. */
  method AppendHfccFilter(m: Maths, sampleFrequency: real, N: nat, fc0Mel: real, fcLastMel: real, deltaFMel: real,
                          fs: seq<MelFilter>) returns (fs': seq<MelFilter>)
    requires sampleFrequency > 0.0 && |fs| < MELFILTERS
    requires fc0Mel == HfccMelLimits(m, sampleFrequency).0 && fcLastMel == HfccMelLimits(m, sampleFrequency).1
    requires deltaFMel == HfccMelStep(m, sampleFrequency)
    requires N == 0 || forall i :: 0 <= i < MELFILTERS ==> HfccProper(m, sampleFrequency, i)
    requires forall j, k :: 0 <= j < k < |fs| ==> fs[j] != fs[k]
    requires forall j :: 0 <= j < |fs| ==>
      && fs[j].sampFreq == sampleFrequency && fs[j].enabled
      && fs[j].filterSpectrum == HfccWeights(m, sampleFrequency, j, N)
    ensures |fs'| == |fs| + 1 && fs'[..|fs|] == fs && fresh(fs'[|fs|])
    ensures forall j, k :: 0 <= j < k < |fs'| ==> fs'[j] != fs'[k]
    ensures forall j :: 0 <= j < |fs'| ==>
      && fs'[j].sampFreq == sampleFrequency && fs'[j].enabled
      && fs'[j].filterSpectrum == HfccWeights(m, sampleFrequency, j, N)
  {
    var f := HfccFilter(m, sampleFrequency, N, |fs|, fc0Mel, fcLastMel, deltaFMel);
    fs' := fs + [f];
  }

  // ------------------------------------------------------------------ bank

  class MelFiltersBank {
    const sampleFreq: real
    const N_: nat
    const filters: seq<MelFilter>

    /**
     * The bank's invariant: no filters or exactly MELFILTERS distinct ones,
     * each of N_ weights in [0, 1] for the bank's sample frequency.
     */
    ghost predicate Valid()
      reads this, filters
    {
      && (|filters| == 0 || |filters| == MELFILTERS)
      && (forall i, j :: 0 <= i < j < |filters| ==> filters[i] != filters[j])
      && (forall i :: 0 <= i < |filters| ==> filters[i].sampFreq == sampleFreq && |filters[i].filterSpectrum| == N_)
      && (forall i, k :: 0 <= i < |filters| && 0 <= k < |filters[i].filterSpectrum| ==>
            0.0 <= filters[i].filterSpectrum[k] <= 1.0)
    }

    /** The filters' enabled flags, in filter order. */
    function Flags(): (r: seq<bool>)
      reads this, filters
      ensures |r| == |filters| && forall i :: 0 <= i < |filters| ==> r[i] == filters[i].enabled
    {
      seq(|filters|, i reads filters requires 0 <= i < |filters| => filters[i].enabled)
    }

    /** The filters' weights, in filter order. */
    function Weights(): (r: seq<seq<real>>)
      reads this, filters
      ensures |r| == |filters| && forall i :: 0 <= i < |filters| ==> r[i] == filters[i].filterSpectrum
    {
      seq(|filters|, i reads filters requires 0 <= i < |filters| => filters[i].filterSpectrum)
    }

    /** getSampleFrequency. */
    function GetSampleFrequency(): real
    {
      sampleFreq
    }

    /** getSpectrumLength. */
    function GetSpectrumLength(): nat
    {
      N_
    }

    /**
     * MelFiltersBank(sampleFrequency, melFilterWidth, N): filter i is
     * created by createFilter(i, melFilterWidth, N); all start enabled.
     */
    constructor(m: Maths, sampleFrequency: real, melFilterWidth: nat, N: nat)
      requires ExpIncreasing(m) && sampleFrequency != 0.0 && (N == 0 || melFilterWidth > 0)
      ensures Valid() && |filters| == MELFILTERS && fresh(filters)
      ensures sampleFreq == sampleFrequency && N_ == N
      ensures forall i :: 0 <= i < MELFILTERS ==> filters[i].enabled
      ensures forall i :: 0 <= i < MELFILTERS ==>
        filters[i].filterSpectrum == FilterWeights(m, i, melFilterWidth, N, sampleFrequency)
    {
      var fs := UniformFilters(m, sampleFrequency, melFilterWidth, N);
      sampleFreq := sampleFrequency;
      N_ := N;
      filters := fs;
      forall j | 0 <= j < MELFILTERS
        ensures forall k :: 0 <= k < N ==> 0.0 <= fs[j].filterSpectrum[k] <= 1.0
      {
        FilterWeightsShape(m, j, melFilterWidth, N, sampleFrequency);
      }
    }

    /**
     * MelFiltersBank(sampleFrequency, N, isHfcc): filter i gets the HFCC
     * corners (f_low, fc, f_high) and generateFilterSpectrum over them.
     * The source divides by fc - f_high, so each pair must differ.
     */
    constructor Hfcc(m: Maths, sampleFrequency: real, N: nat, isHfcc: bool)
      requires sampleFrequency > 0.0
      requires N == 0 || forall i :: 0 <= i < MELFILTERS ==> HfccProper(m, sampleFrequency, i)
      ensures Valid() && |filters| == MELFILTERS && fresh(filters)
      ensures sampleFreq == sampleFrequency && N_ == N
      ensures forall i :: 0 <= i < MELFILTERS ==> filters[i].enabled
      ensures forall i :: 0 <= i < MELFILTERS ==> filters[i].filterSpectrum == HfccWeights(m, sampleFrequency, i, N)
    {
      var fc0Mel := LinearToMel(m, FirstCentre(m));
      var fcLastMel := LinearToMel(m, LastCentre(m, sampleFrequency));
      assert (fc0Mel, fcLastMel) == HfccMelLimits(m, sampleFrequency);
      var deltaFMel := (fcLastMel - fc0Mel) / (MELFILTERS - 1) as real;
      var fs := HfccFilters(m, sampleFrequency, N, fc0Mel, fcLastMel, deltaFMel);
      sampleFreq := sampleFrequency;
      N_ := N;
      filters := fs;
      forall j | 0 <= j < MELFILTERS
        ensures forall k :: 0 <= k < N ==> 0.0 <= fs[j].filterSpectrum[k] <= 1.0
      {
        assert N == 0 || HfccProper(m, sampleFrequency, j);
        var b := HfccCorners(m, sampleFrequency, j);
        TriangleSpectrumBounded(b.low, b.center, b.high, N, sampleFrequency);
      }
    }

    /**
     * applyAll (2.5.3): the first N / 2 - 1 magnitudes are computed once, then
     * every enabled filter applies its weights to them and every disabled one
     * writes 0.0. Only the output changes.
     */
    method ApplyAll(m: Maths, frameSpectrum: seq<Complex>, N: nat, filtersOutput: array<real>)
      requires |filters| == MELFILTERS && filtersOutput.Length == MELFILTERS
      requires N >= 2 && ApplyCount(N) <= |frameSpectrum|
      requires forall i :: 0 <= i < MELFILTERS ==> ApplyCount(N) <= |filters[i].filterSpectrum|
      modifies filtersOutput
      ensures filtersOutput[..] == BankOutputs(m, Flags(), Weights(), frameSpectrum, N)
    {
      var frameAbsSpectrum: seq<real> := [];
      var i := 0;
      while i < N / 2 - 1
        invariant 0 <= i <= ApplyCount(N) && |frameAbsSpectrum| == i
        invariant forall j :: 0 <= j < i ==> frameAbsSpectrum[j] == m.cabs(frameSpectrum[j])
      {
        frameAbsSpectrum := frameAbsSpectrum + [m.cabs(frameSpectrum[i])];
        i := i + 1;
      }
      ghost var expected := BankOutputs(m, Flags(), Weights(), frameSpectrum, N);
      i := 0;
      while i < MELFILTERS
        invariant 0 <= i <= MELFILTERS
        invariant forall j :: 0 <= j < i ==> filtersOutput[j] == expected[j]
      {
        if filters[i].IsEnabled() {
          var v := filters[i].ApplyMagnitudes(frameAbsSpectrum, N);
          ApplyOverloadsAgree(m, frameSpectrum, frameAbsSpectrum, filters[i].filterSpectrum, ApplyCount(N));
          filtersOutput[i] := v;
        } else {
          filtersOutput[i] := 0.0;
        }
        i := i + 1;
      }
    }

    /**
     * setEnabledFilters: nothing happens on an empty bank; otherwise filter i
     * takes flag i. The weights never change.
     */
    method SetEnabledFilters(enabledFilters: seq<bool>)
      requires Valid() && (|filters| == 0 || MELFILTERS <= |enabledFilters|)
      modifies filters
      ensures Valid() && Weights() == old(Weights())
      ensures |filters| == 0 ==> Flags() == old(Flags())
      ensures |filters| > 0 ==> Flags() == enabledFilters[..MELFILTERS]
    {
      if |filters| == 0 {
        return;
      }
      var i := 0;
      while i < MELFILTERS
        invariant 0 <= i <= MELFILTERS
        invariant forall j :: 0 <= j < i ==> filters[j].enabled == enabledFilters[j]
        invariant forall j :: 0 <= j < MELFILTERS ==> filters[j].filterSpectrum == old(filters[j].filterSpectrum)
      {
        filters[i].SetEnabled(enabledFilters[i]);
        i := i + 1;
      }
    }
  }
}
