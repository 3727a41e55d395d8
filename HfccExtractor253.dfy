/**
 * Aquila::HfccExtractor of the 2.5.3 tag
 * (tags/AQUILA_2_5_3/src/feature/HfccExtractor.cpp): an MfccExtractor with
 * its own class-wide static bank `hfccFilters`, its own updateFilters over
 * that bank and its own process(), which runs the frames through the HFCC
 * bank.
 *
 * As for the trunk version, `mfcc` is the MfccExtractor base-class part.
 * The static `hfccFilters` pointer is a BankSlot object distinct from the
 * one MfccExtractor uses; every caller passes it in.
 */
module HfccExtractor253 {
  import opened Maths
  import Window
  import opened Transform
  import opened MelFilters
  import opened MelFiltersBank
  import opened Extractors
  import opened MfccExtractors
  import opened HfccExtractorTrunk

  /**
   * The invariant of the hfccFilters slot: whatever bank it holds is the
   * HFCC bank for that bank's own (sample frequency, spectrum length).
   */
  ghost predicate HoldsHfccBank(m: Maths, slot: BankSlot)
    reads slot, slot.filters, slot.Footprint()
  {
    && slot.Valid()
    && (slot.filters != null ==>
          && HfccBuildable(m, slot.filters.sampleFreq, slot.filters.N_)
          && slot.filters.Weights() == HfccBankWeights(m, slot.filters.sampleFreq, slot.filters.N_))
  }

  /** The empty slot the static pointer starts as holds the invariant. */
  lemma EmptySlotHoldsHfccBank(m: Maths, slot: BankSlot)
    requires slot.filters == null
    ensures HoldsHfccBank(m, slot)
  {
  }

  class HfccExtractor {
    /** The MfccExtractor base-class part. */
    const mfcc: MfccExtractor

    /** HfccExtractor(frameLength, paramsPerFrame): an MfccExtractor with type "HFCC". */
    constructor(frameLength: nat, paramsPerFrame: nat)
      ensures fresh(mfcc) && fresh(mfcc.core) && mfcc.Valid()
      ensures mfcc.core.featureType == "HFCC"
      ensures mfcc.core.frameLength == frameLength && mfcc.core.paramsPerFrame == paramsPerFrame
      ensures mfcc.core.indicator == null && mfcc.core.featureArray == [] && mfcc.enabledFilters == None
    {
      mfcc := new MfccExtractor(frameLength, paramsPerFrame);
      new;
      mfcc.core.featureType := "HFCC";
    }

    /**
     * updateFilters(frequency, N) over hfccFilters: the HFCC bank is built
     * when the slot is empty or holds a bank for another (frequency, N),
     * and kept otherwise; a stored selection is then applied. Since only
     * HFCC banks ever enter this slot, the bank afterwards always has the
     * HFCC weights for (frequency, N).
     */
    method UpdateFilters(m: Maths, hfccSlot: BankSlot, frequency: nat, N: nat)
      requires mfcc.Valid() && HoldsHfccBank(m, hfccSlot) && HfccBuildable(m, frequency as real, N)
      modifies hfccSlot, hfccSlot.Footprint()
      ensures HoldsHfccBank(m, hfccSlot) && hfccSlot.filters != null
      ensures hfccSlot.filters.sampleFreq == frequency as real && hfccSlot.filters.N_ == N
      ensures hfccSlot.filters.Weights() == HfccBankWeights(m, frequency as real, N)
      ensures old(NeedsRebuild(hfccSlot.filters, frequency, N)) ==> fresh(hfccSlot.filters) && fresh(hfccSlot.filters.filters)
      ensures !old(NeedsRebuild(hfccSlot.filters, frequency, N)) ==> hfccSlot.filters == old(hfccSlot.filters)
      ensures mfcc.enabledFilters.Some? ==> hfccSlot.filters.Flags() == mfcc.enabledFilters.value
      ensures mfcc.enabledFilters.None? && old(NeedsRebuild(hfccSlot.filters, frequency, N)) ==>
        forall i :: 0 <= i < MELFILTERS ==> hfccSlot.filters.Flags()[i]
      ensures mfcc.enabledFilters.None? && !old(NeedsRebuild(hfccSlot.filters, frequency, N)) ==>
        hfccSlot.filters.Flags() == old(hfccSlot.filters.Flags())
    {
      RebuildHfccIfNeeded(m, hfccSlot, frequency, N);
      assert hfccSlot.filters.Weights() == HfccBankWeights(m, frequency as real, N);
      if mfcc.enabledFilters.Some? {
        hfccSlot.filters.SetEnabledFilters(mfcc.enabledFilters.value);
        assert mfcc.enabledFilters.value[..MELFILTERS] == mfcc.enabledFilters.value;
      }
    }

    /**
     * process(wav, options): the file name, the feature array resized to the
     * frame count, start(0, framesCount - 1); hfccFilters brought up to date
     * for the recording; then for each frame fft, hfccFilters.applyAll and
     * dct into feature vector i, with progress(i); stop.
     */
    method Process(m: Maths, hfccSlot: BankSlot, win: Window.Window, wav: Recording, options: TransformOptions)
      requires mfcc.Valid() && HoldsHfccBank(m, hfccSlot) && win.Valid() && win.maths == m
      requires HfccBuildable(m, wav.sampleFrequency as real, wav.samplesPerFrameZP)
      requires options.zeroPaddedLength == wav.samplesPerFrameZP
      requires IsPowerOfTwo(wav.samplesPerFrameZP) && wav.samplesPerFrameZP >= 2
      requires FramesFit(wav.frames, wav.samplesPerFrameZP)
      modifies mfcc.core`wavFilename, mfcc.core`featureArray, mfcc.core.indicator, hfccSlot, hfccSlot.Footprint(), win
      ensures HoldsHfccBank(m, hfccSlot) && hfccSlot.filters != null && win.Valid()
      ensures hfccSlot.filters.sampleFreq == wav.sampleFrequency as real && hfccSlot.filters.N_ == wav.samplesPerFrameZP
      ensures mfcc.core.wavFilename == wav.filename
      ensures mfcc.enabledFilters.Some? ==> hfccSlot.filters.Flags() == mfcc.enabledFilters.value
      ensures BankFits(hfccSlot.filters.Flags(), HfccBankWeights(m, wav.sampleFrequency as real, wav.samplesPerFrameZP), wav.samplesPerFrameZP)
      ensures mfcc.core.featureArray ==
        CepstralFeatures(m, options, hfccSlot.filters.Flags(), HfccBankWeights(m, wav.sampleFrequency as real, wav.samplesPerFrameZP),
                         mfcc.core.paramsPerFrame, wav.frames, PipelineState(old(win.State()), ZeroSpectrum(wav.samplesPerFrameZP)))
      ensures win.State() == WindowsAfter(m, options, wav.frames, old(win.State()), |wav.frames|)
      ensures mfcc.core.indicator != null ==>
        mfcc.core.indicator.trace == old(mfcc.core.indicator.trace) + ProcessTrace(|wav.frames|)
    {
      var core := mfcc.core;
      BeginProcess(core, wav);
      UpdateAndExtract(m, hfccSlot, win, wav, options);
      if core.indicator != null {
        ProcessTraceAppend(old(core.indicator.trace), |wav.frames|);
      }
    }

    /** The part of process() after start: updateFilters, then the frame loop over hfccFilters. */
    method UpdateAndExtract(m: Maths, hfccSlot: BankSlot, win: Window.Window, wav: Recording, options: TransformOptions)
      requires mfcc.Valid() && HoldsHfccBank(m, hfccSlot) && win.Valid() && win.maths == m
      requires HfccBuildable(m, wav.sampleFrequency as real, wav.samplesPerFrameZP)
      requires options.zeroPaddedLength == wav.samplesPerFrameZP
      requires IsPowerOfTwo(wav.samplesPerFrameZP) && wav.samplesPerFrameZP >= 2
      requires FramesFit(wav.frames, wav.samplesPerFrameZP) && |mfcc.core.featureArray| == |wav.frames|
      modifies mfcc.core`featureArray, mfcc.core.indicator, hfccSlot, hfccSlot.Footprint(), win
      ensures HoldsHfccBank(m, hfccSlot) && hfccSlot.filters != null && win.Valid()
      ensures hfccSlot.filters.sampleFreq == wav.sampleFrequency as real && hfccSlot.filters.N_ == wav.samplesPerFrameZP
      ensures mfcc.enabledFilters.Some? ==> hfccSlot.filters.Flags() == mfcc.enabledFilters.value
      ensures BankFits(hfccSlot.filters.Flags(), HfccBankWeights(m, wav.sampleFrequency as real, wav.samplesPerFrameZP), wav.samplesPerFrameZP)
      ensures mfcc.core.featureArray ==
        CepstralFeatures(m, options, hfccSlot.filters.Flags(), HfccBankWeights(m, wav.sampleFrequency as real, wav.samplesPerFrameZP),
                         mfcc.core.paramsPerFrame, wav.frames, PipelineState(old(win.State()), ZeroSpectrum(wav.samplesPerFrameZP)))
      ensures win.State() == WindowsAfter(m, options, wav.frames, old(win.State()), |wav.frames|)
      ensures mfcc.core.indicator != null ==>
        mfcc.core.indicator.trace == old(mfcc.core.indicator.trace) + ProgressCalls(|wav.frames|) + [IndicatorCall.Stop]
    {
      UpdateFilters(m, hfccSlot, wav.sampleFrequency, wav.samplesPerFrameZP);
      ExtractWithSlot(m, options, win, hfccSlot, mfcc.core, wav.frames);
    }
  }

  /**
   * An MFCC extractor and then an HFCC extractor bring their banks up to
   * date for the same (frequency, N), both slots starting empty. The two
   * banks live in different slots, so the HFCC extractor gets the HFCC
   * weights and MFCC keeps its uniform ones.
   */
  method SeparateBankAfterMfcc(m: Maths, mfccSlot: BankSlot, hfccSlot: BankSlot, mfcc: MfccExtractor, hfcc: HfccExtractor,
                               frequency: nat, N: nat)
    requires mfccSlot != hfccSlot && mfccSlot.filters == null && hfccSlot.filters == null
    requires mfcc.Valid() && hfcc.mfcc.Valid()
    requires ExpIncreasing(m) && HfccBuildable(m, frequency as real, N)
    modifies mfccSlot, hfccSlot
    ensures mfccSlot.Valid() && mfccSlot.filters != null && HoldsHfccBank(m, hfccSlot) && hfccSlot.filters != null
    ensures forall i :: 0 <= i < MELFILTERS ==>
      mfccSlot.filters.Weights()[i] == FilterWeights(m, i, MEL_FILTER_WIDTH, N, frequency as real)
    ensures hfccSlot.filters.Weights() == HfccBankWeights(m, frequency as real, N)
  {
    mfcc.UpdateFilters(m, mfccSlot, frequency, N);
    EmptySlotHoldsHfccBank(m, hfccSlot);
    hfcc.UpdateFilters(m, hfccSlot, frequency, N);
  }
}
