/**
 * Aquila::MelFiltersBank on trunk (trunk/src/MelFiltersBank.cpp): MELFILTERS
 * triangular filters on a uniform Mel grid, applied to a complex spectrum
 * all at once.
 */
module MelFiltersBankTrunk {
  import opened Maths
  import opened MelFilters

  class MelFiltersBank {
    const sampleFreq: real
    const N_: nat
    const filters: seq<MelFilter>

    /**
     * The bank's invariant: no filters or exactly MELFILTERS distinct ones,
     * each of N_ weights in [0, 1] for the bank's sample frequency.
     */
    ghost predicate Valid()
      reads this, filters
    {
      && (|filters| == 0 || |filters| == MELFILTERS)
      && (forall i, j :: 0 <= i < j < |filters| ==> filters[i] != filters[j])
      && (forall i :: 0 <= i < |filters| ==> filters[i].sampFreq == sampleFreq && |filters[i].filterSpectrum| == N_)
      && (forall i, k :: 0 <= i < |filters| && 0 <= k < |filters[i].filterSpectrum| ==>
            0.0 <= filters[i].filterSpectrum[k] <= 1.0)
    }

    /** The filters' enabled flags, in filter order. */
    function Flags(): (r: seq<bool>)
      reads this, filters
      ensures |r| == |filters| && forall i :: 0 <= i < |filters| ==> r[i] == filters[i].enabled
    {
      seq(|filters|, i reads filters requires 0 <= i < |filters| => filters[i].enabled)
    }

    /** The filters' weights, in filter order. */
    function Weights(): (r: seq<seq<real>>)
      reads this, filters
      ensures |r| == |filters| && forall i :: 0 <= i < |filters| ==> r[i] == filters[i].filterSpectrum
    {
      seq(|filters|, i reads filters requires 0 <= i < |filters| => filters[i].filterSpectrum)
    }

    /** getSampleFrequency. */
    function GetSampleFrequency(): real
    {
      sampleFreq
    }

    /** getSpectrumLength. */
    function GetSpectrumLength(): nat
    {
      N_
    }

    /**
     * MelFiltersBank(sampleFrequency, melFilterWidth, N): filter i is
     * created by createFilter(i, melFilterWidth, N); all start enabled.
     */
    constructor(m: Maths, sampleFrequency: real, melFilterWidth: nat, N: nat)
      requires ExpIncreasing(m) && sampleFrequency != 0.0 && (N == 0 || melFilterWidth > 0)
      ensures Valid() && |filters| == MELFILTERS && fresh(filters)
      ensures sampleFreq == sampleFrequency && N_ == N
      ensures forall i :: 0 <= i < MELFILTERS ==> filters[i].enabled
      ensures forall i :: 0 <= i < MELFILTERS ==>
        filters[i].filterSpectrum == FilterWeights(m, i, melFilterWidth, N, sampleFrequency)
    {
      var fs := UniformFilters(m, sampleFrequency, melFilterWidth, N);
      sampleFreq := sampleFrequency;
      N_ := N;
      filters := fs;
      forall j | 0 <= j < MELFILTERS
        ensures forall k :: 0 <= k < N ==> 0.0 <= fs[j].filterSpectrum[k] <= 1.0
      {
        FilterWeightsShape(m, j, melFilterWidth, N, sampleFrequency);
      }
    }

    /**
     * applyAll (trunk): every enabled filter applies its weights to the complex
     * spectrum, every disabled one writes 0.0. Only the output changes.
     */
    method ApplyAll(m: Maths, frameSpectrum: seq<Complex>, N: nat, filtersOutput: array<real>)
      requires Valid() && |filters| == MELFILTERS && filtersOutput.Length == MELFILTERS
      requires N >= 2 && ApplyCount(N) <= |frameSpectrum| && ApplyCount(N) <= N_
      modifies filtersOutput
      ensures filtersOutput[..] == BankOutputs(m, Flags(), Weights(), frameSpectrum, N)
    {
      ghost var expected := BankOutputs(m, Flags(), Weights(), frameSpectrum, N);
      var i := 0;
      while i < MELFILTERS
        invariant 0 <= i <= MELFILTERS
        invariant forall j :: 0 <= j < i ==> filtersOutput[j] == expected[j]
      {
        if filters[i].IsEnabled() {
          filtersOutput[i] := filters[i].Apply(m, frameSpectrum, N);
        } else {
          filtersOutput[i] := 0.0;
        }
        i := i + 1;
      }
    }

    /**
     * setEnabledFilters: nothing happens on an empty bank; otherwise filter i
     * takes flag i. The weights never change.
     */
    method SetEnabledFilters(enabledFilters: seq<bool>)
      requires Valid() && (|filters| == 0 || MELFILTERS <= |enabledFilters|)
      modifies filters
      ensures Valid() && Weights() == old(Weights())
      ensures |filters| == 0 ==> Flags() == old(Flags())
      ensures |filters| > 0 ==> Flags() == enabledFilters[..MELFILTERS]
    {
      if |filters| == 0 {
        return;
      }
      var i := 0;
      while i < MELFILTERS
        invariant 0 <= i <= MELFILTERS
        invariant forall j :: 0 <= j < i ==> filters[j].enabled == enabledFilters[j]
        invariant forall j :: 0 <= j < MELFILTERS ==> filters[j].filterSpectrum == old(filters[j].filterSpectrum)
      {
        filters[i].SetEnabled(enabledFilters[i]);
        i := i + 1;
      }
    }
  }
}
