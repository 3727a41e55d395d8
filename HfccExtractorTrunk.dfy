/**
 * Aquila::HfccExtractor of the trunk (trunk/src/feature/HfccExtractor.cpp,
 * src/feature/HfccExtractor.h): an MfccExtractor whose only override is
 * updateFilters, which builds the HFCC bank instead of the uniform one.
 *
 * The C++ subclass is modelled by composition: `mfcc` is the MfccExtractor
 * base-class part, whose constructor, setEnabledMelFilters and stored
 * selection the HFCC extractor inherits. Process is the inherited
 * MfccExtractor::process, with the virtual updateFilters call dispatched to
 * this class. The bank lives in the static slot inherited from
 * MfccExtractor, so the same BankSlot object as MFCC's is passed in.
 */
module HfccExtractorTrunk {
  import opened Maths
  import Window
  import opened Transform
  import opened MelFilters
  import opened MelFiltersBank
  import opened Extractors
  import opened MfccExtractors

  /** The HFCC bank's corners can be turned into weights for (fs, N). */
  predicate HfccBuildable(m: Maths, fs: real, N: nat)
  {
    fs > 0.0 && (N == 0 || forall i :: 0 <= i < MELFILTERS ==> HfccProper(m, fs, i))
  }

  /** The weights of the 24 filters of new MelFiltersBank(fs, N, true), in filter order. */
  function HfccBankWeights(m: Maths, fs: real, N: nat): (r: seq<seq<real>>)
    requires HfccBuildable(m, fs, N)
    ensures |r| == MELFILTERS && forall i :: 0 <= i < MELFILTERS ==> r[i] == HfccWeights(m, fs, i, N)
  {
    seq(MELFILTERS, i requires 0 <= i < MELFILTERS => HfccWeights(m, fs, i, N))
  }

  /**
   * The rebuild half of updateFilters: new MelFiltersBank(frequency, N, true)
   * replaces the slot's bank when NeedsRebuild says so. Whatever bank is in
   * the slot, uniform or HFCC, is kept when it was built for (frequency, N).
   */
  method RebuildHfccIfNeeded(m: Maths, slot: BankSlot, frequency: nat, N: nat)
    requires slot.Valid() && HfccBuildable(m, frequency as real, N)
    modifies slot
    ensures slot.Valid() && slot.filters != null
    ensures slot.filters.sampleFreq == frequency as real && slot.filters.N_ == N
    ensures old(NeedsRebuild(slot.filters, frequency, N)) ==>
      && fresh(slot.filters) && fresh(slot.filters.filters)
      && (forall i :: 0 <= i < MELFILTERS ==> slot.filters.Flags()[i])
      && forall i :: 0 <= i < MELFILTERS ==> slot.filters.Weights()[i] == HfccWeights(m, frequency as real, i, N)
    ensures !old(NeedsRebuild(slot.filters, frequency, N)) ==> slot.filters == old(slot.filters)
  {
    if slot.filters == null {
      RebuildHfcc(m, slot, frequency, N);
    } else if slot.filters.GetSampleFrequency() != frequency as real || slot.filters.GetSpectrumLength() != N {
      RebuildHfcc(m, slot, frequency, N);
    }
  }

  /** filters = new MelFiltersBank(frequency, N, true). */
  method RebuildHfcc(m: Maths, slot: BankSlot, frequency: nat, N: nat)
    requires HfccBuildable(m, frequency as real, N)
    modifies slot
    ensures slot.Valid() && slot.filters != null && fresh(slot.filters) && fresh(slot.filters.filters)
    ensures slot.filters.sampleFreq == frequency as real && slot.filters.N_ == N
    ensures forall i :: 0 <= i < MELFILTERS ==> slot.filters.Flags()[i]
    ensures forall i :: 0 <= i < MELFILTERS ==> slot.filters.Weights()[i] == HfccWeights(m, frequency as real, i, N)
  {
    slot.filters := new MelFiltersBank.Hfcc(m, frequency as real, N, true);
  }

  class HfccExtractor {
    /** The MfccExtractor base-class part. */
    const mfcc: MfccExtractor

    /** HfccExtractor(frameLength, paramsPerFrame): an MfccExtractor with type "HFCC". */
    constructor(frameLength: nat, paramsPerFrame: nat)
      ensures fresh(mfcc) && fresh(mfcc.core) && mfcc.Valid()
      ensures mfcc.core.featureType == "HFCC"
      ensures mfcc.core.frameLength == frameLength && mfcc.core.paramsPerFrame == paramsPerFrame
      ensures mfcc.core.indicator == null && mfcc.core.featureArray == [] && mfcc.enabledFilters == None
    {
      mfcc := new MfccExtractor(frameLength, paramsPerFrame);
      new;
      mfcc.core.featureType := "HFCC";
    }

    /**
     * updateFilters(frequency, N): the HFCC bank is built when the slot is
     * empty or holds a bank for another (frequency, N); otherwise the bank in
     * the slot is kept, even a uniform one MFCC left there. A stored
     * selection is then applied to it.
     */
    method UpdateFilters(m: Maths, slot: BankSlot, frequency: nat, N: nat)
      requires mfcc.Valid() && slot.Valid() && HfccBuildable(m, frequency as real, N)
      modifies slot, slot.Footprint()
      ensures slot.Valid() && slot.filters != null
      ensures slot.filters.sampleFreq == frequency as real && slot.filters.N_ == N
      ensures old(NeedsRebuild(slot.filters, frequency, N)) ==> fresh(slot.filters) && fresh(slot.filters.filters)
      ensures !old(NeedsRebuild(slot.filters, frequency, N)) ==> slot.filters == old(slot.filters)
      ensures slot.filters.Weights() ==
        if old(NeedsRebuild(slot.filters, frequency, N)) then HfccBankWeights(m, frequency as real, N)
        else old(slot.filters.Weights())
      ensures mfcc.enabledFilters.Some? ==> slot.filters.Flags() == mfcc.enabledFilters.value
      ensures mfcc.enabledFilters.None? && old(NeedsRebuild(slot.filters, frequency, N)) ==>
        forall i :: 0 <= i < MELFILTERS ==> slot.filters.Flags()[i]
      ensures mfcc.enabledFilters.None? && !old(NeedsRebuild(slot.filters, frequency, N)) ==>
        slot.filters.Flags() == old(slot.filters.Flags())
    {
      RebuildHfccIfNeeded(m, slot, frequency, N);
      if mfcc.enabledFilters.Some? {
        slot.filters.SetEnabledFilters(mfcc.enabledFilters.value);
        assert mfcc.enabledFilters.value[..MELFILTERS] == mfcc.enabledFilters.value;
      }
    }

    /**
     * The inherited process(wav, options) with this class's updateFilters:
     * the file name, the feature array resized to the frame count, start;
     * the shared bank brought up to date; one feature vector per frame from
     * the bank in the slot; stop.
     */
    method Process(m: Maths, slot: BankSlot, win: Window.Window, wav: Recording, options: TransformOptions)
      requires mfcc.Valid() && slot.Valid() && win.Valid() && win.maths == m
      requires HfccBuildable(m, wav.sampleFrequency as real, wav.samplesPerFrameZP)
      requires options.zeroPaddedLength == wav.samplesPerFrameZP
      requires IsPowerOfTwo(wav.samplesPerFrameZP) && wav.samplesPerFrameZP >= 2
      requires FramesFit(wav.frames, wav.samplesPerFrameZP)
      modifies mfcc.core`wavFilename, mfcc.core`featureArray, mfcc.core.indicator, slot, slot.Footprint(), win
      ensures slot.Valid() && slot.filters != null && win.Valid()
      ensures slot.filters.sampleFreq == wav.sampleFrequency as real && slot.filters.N_ == wav.samplesPerFrameZP
      ensures mfcc.core.wavFilename == wav.filename
      ensures mfcc.enabledFilters.Some? ==> slot.filters.Flags() == mfcc.enabledFilters.value
      ensures slot.filters.Weights() ==
        if old(NeedsRebuild(slot.filters, wav.sampleFrequency, wav.samplesPerFrameZP))
        then HfccBankWeights(m, wav.sampleFrequency as real, wav.samplesPerFrameZP)
        else old(slot.filters.Weights())
      ensures BankFits(slot.filters.Flags(), slot.filters.Weights(), wav.samplesPerFrameZP)
      ensures mfcc.core.featureArray ==
        CepstralFeatures(m, options, slot.filters.Flags(), slot.filters.Weights(), mfcc.core.paramsPerFrame, wav.frames,
                         PipelineState(old(win.State()), ZeroSpectrum(wav.samplesPerFrameZP)))
      ensures win.State() == WindowsAfter(m, options, wav.frames, old(win.State()), |wav.frames|)
      ensures mfcc.core.indicator != null ==>
        mfcc.core.indicator.trace == old(mfcc.core.indicator.trace) + ProcessTrace(|wav.frames|)
    {
      var core := mfcc.core;
      BeginProcess(core, wav);
      UpdateAndExtract(m, slot, win, wav, options);
      if core.indicator != null {
        ProcessTraceAppend(old(core.indicator.trace), |wav.frames|);
      }
    }

    /** The part of process() after start: updateFilters, then the frame loop over the slot's bank. */
    method UpdateAndExtract(m: Maths, slot: BankSlot, win: Window.Window, wav: Recording, options: TransformOptions)
      requires mfcc.Valid() && slot.Valid() && win.Valid() && win.maths == m
      requires HfccBuildable(m, wav.sampleFrequency as real, wav.samplesPerFrameZP)
      requires options.zeroPaddedLength == wav.samplesPerFrameZP
      requires IsPowerOfTwo(wav.samplesPerFrameZP) && wav.samplesPerFrameZP >= 2
      requires FramesFit(wav.frames, wav.samplesPerFrameZP) && |mfcc.core.featureArray| == |wav.frames|
      modifies mfcc.core`featureArray, mfcc.core.indicator, slot, slot.Footprint(), win
      ensures slot.Valid() && slot.filters != null && win.Valid()
      ensures slot.filters.sampleFreq == wav.sampleFrequency as real && slot.filters.N_ == wav.samplesPerFrameZP
      ensures mfcc.enabledFilters.Some? ==> slot.filters.Flags() == mfcc.enabledFilters.value
      ensures slot.filters.Weights() ==
        if old(NeedsRebuild(slot.filters, wav.sampleFrequency, wav.samplesPerFrameZP))
        then HfccBankWeights(m, wav.sampleFrequency as real, wav.samplesPerFrameZP)
        else old(slot.filters.Weights())
      ensures BankFits(slot.filters.Flags(), slot.filters.Weights(), wav.samplesPerFrameZP)
      ensures mfcc.core.featureArray ==
        CepstralFeatures(m, options, slot.filters.Flags(), slot.filters.Weights(), mfcc.core.paramsPerFrame, wav.frames,
                         PipelineState(old(win.State()), ZeroSpectrum(wav.samplesPerFrameZP)))
      ensures win.State() == WindowsAfter(m, options, wav.frames, old(win.State()), |wav.frames|)
      ensures mfcc.core.indicator != null ==>
        mfcc.core.indicator.trace == old(mfcc.core.indicator.trace) + ProgressCalls(|wav.frames|) + [IndicatorCall.Stop]
    {
      UpdateFilters(m, slot, wav.sampleFrequency, wav.samplesPerFrameZP);
      ExtractWithSlot(m, options, win, slot, mfcc.core, wav.frames);
    }
  }

  /**
   * An MFCC extractor and then an HFCC extractor bring the shared slot up to
   * date for the same (frequency, N), starting from an empty slot. The HFCC
   * update finds MFCC's uniform bank matching and keeps it, so the HFCC
   * extractor goes on with the uniform Mel weights.
   */
  method SharedBankAfterMfcc(m: Maths, slot: BankSlot, mfcc: MfccExtractor, hfcc: HfccExtractor, frequency: nat, N: nat)
    requires slot.filters == null && mfcc.Valid() && hfcc.mfcc.Valid()
    requires ExpIncreasing(m) && HfccBuildable(m, frequency as real, N)
    modifies slot
    ensures slot.Valid() && slot.filters != null
    ensures slot.filters.sampleFreq == frequency as real && slot.filters.N_ == N
    ensures forall i :: 0 <= i < MELFILTERS ==>
      slot.filters.Weights()[i] == FilterWeights(m, i, MEL_FILTER_WIDTH, N, frequency as real)
  {
    mfcc.UpdateFilters(m, slot, frequency, N);
    hfcc.UpdateFilters(m, slot, frequency, N);
  }
}
