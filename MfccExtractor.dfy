/**
 * Aquila::MfccExtractor (src/feature/MfccExtractor.cpp): Mel-frequency
 * cepstral coefficients, frame by frame FFT, Mel filter bank, DCT.
 *
 * The class-wide static `filters` pointer is a BankSlot object that every
 * caller passes in; the static window cache the FFT uses is a Window object
 * passed in the same way. The bank is the MelFiltersBank of the 2.5.3 tag,
 * the version with both the uniform and the HFCC constructor.
 *
 * The per-frame pipeline is shared with the HFCC extractors, which differ
 * only in how they bring the bank up to date.
 */
module MfccExtractors {
  import opened Maths
  import opened WindowFunctions
  import Window
  import opened Frames
  import opened Transform
  import opened MelFilters
  import opened MelFiltersBank
  import opened Extractors

  // ---------------------------------------------------- the static bank

  /** The width of every uniform Mel filter the extractors build. */
  const MEL_FILTER_WIDTH: nat := 200

  /** A class-wide static MelFiltersBank pointer (null until first use). */
  class BankSlot {
    var filters: MelFiltersBank?

    constructor()
      ensures filters == null
    {
      filters := null;
    }

    /** The filter objects the bank in the slot, if any, owns. */
    function Footprint(): set<MelFilter>
      reads this, filters
    {
      if filters == null then {} else set f | f in filters.filters
    }

    /** A bank in the slot is a full, well-formed bank. */
    ghost predicate Valid()
      reads this, filters, Footprint()
    {
      filters != null ==> filters.Valid() && |filters.filters| == MELFILTERS
    }
  }

  /**
   * The rebuild rule of updateFilters: a bank is (re)built when there is
   * none, or when its sample frequency or spectrum length differs from the
   * requested (frequency, N).
   */
  predicate NeedsRebuild(bank: MelFiltersBank?, frequency: nat, N: nat)
    reads bank
  {
    bank == null || bank.GetSampleFrequency() != frequency as real || bank.GetSpectrumLength() != N
  }

  /** With a bank present, it is kept exactly when it was built for (frequency, N). */
  lemma NeedsRebuildKeepsMatching(bank: MelFiltersBank, frequency: nat, N: nat)
    ensures !NeedsRebuild(bank, frequency, N) <==> bank.sampleFreq == frequency as real && bank.N_ == N
  {
  }

  /**
   * The rebuild half of updateFilters: a uniform bank of width 200 for
   * (frequency, N) replaces the slot's bank when NeedsRebuild says so.
   */
  method RebuildIfNeeded(m: Maths, slot: BankSlot, frequency: nat, N: nat)
    requires slot.Valid() && ExpIncreasing(m) && frequency > 0
    modifies slot
    ensures slot.Valid() && slot.filters != null
    ensures slot.filters.sampleFreq == frequency as real && slot.filters.N_ == N
    ensures old(NeedsRebuild(slot.filters, frequency, N)) ==>
      && fresh(slot.filters) && fresh(slot.filters.filters)
      && (forall i :: 0 <= i < MELFILTERS ==> slot.filters.Flags()[i])
      && forall i :: 0 <= i < MELFILTERS ==>
           slot.filters.Weights()[i] == FilterWeights(m, i, MEL_FILTER_WIDTH, N, frequency as real)
    ensures !old(NeedsRebuild(slot.filters, frequency, N)) ==> slot.filters == old(slot.filters)
  {
    if slot.filters == null {
      Rebuild(m, slot, frequency, N);
    } else if slot.filters.GetSampleFrequency() != frequency as real || slot.filters.GetSpectrumLength() != N {
      Rebuild(m, slot, frequency, N);
    }
  }

  /** filters = new MelFiltersBank(frequency, 200, N). */
  method Rebuild(m: Maths, slot: BankSlot, frequency: nat, N: nat)
    requires ExpIncreasing(m) && frequency > 0
    modifies slot
    ensures slot.Valid() && slot.filters != null && fresh(slot.filters) && fresh(slot.filters.filters)
    ensures slot.filters.sampleFreq == frequency as real && slot.filters.N_ == N
    ensures forall i :: 0 <= i < MELFILTERS ==> slot.filters.Flags()[i]
    ensures forall i :: 0 <= i < MELFILTERS ==>
      slot.filters.Weights()[i] == FilterWeights(m, i, MEL_FILTER_WIDTH, N, frequency as real)
  {
    slot.filters := new MelFiltersBank(m, frequency as real, MEL_FILTER_WIDTH, N);
  }

  // ------------------------------------------------- the frame pipeline

  /**
   * What the pipeline carries from one frame to the next: the shared window
   * cache and the frame spectrum buffer, which fft(Frame) overwrites only in
   * part (bit-reversal fixed points keep their contents).
   */
  datatype PipelineState = PipelineState(windows: WinState, spectrum: seq<Complex>)

  /** A frame fft(Frame) accepts: valid, non-empty, within the zero-padded length, 32-bit length. */
  predicate FrameFits(f: Frame, zeroPaddedLength: nat)
  {
    f.Valid() && 1 <= f.Length() <= zeroPaddedLength && IsU32(f.Length())
  }

  /** Every frame of the recording fits. */
  predicate FramesFit(frames: seq<Frame>, zeroPaddedLength: nat)
  {
    forall i :: 0 <= i < |frames| ==> FrameFits(frames[i], zeroPaddedLength)
  }

  /** The shape a pipeline state needs for the next FFT. */
  ghost predicate StateFits(ps: PipelineState, zeroPaddedLength: nat)
  {
    WellFormed(ps.windows) && |ps.spectrum| == zeroPaddedLength
  }

  /** transform.fft(frame, frameSpectrum): the window request, then the spectrum. */
  function FrameStep(m: Maths, options: TransformOptions, f: Frame, ps: PipelineState): (r: PipelineState)
    requires FrameFits(f, options.zeroPaddedLength) && IsPowerOfTwo(options.zeroPaddedLength)
    requires StateFits(ps, options.zeroPaddedLength)
    ensures StateFits(r, options.zeroPaddedLength)
  {
    var len := f.Length();
    var st := WindowAfter(m, ps.windows, options.windowType, len);
    assert WellFormed(st) by {
      if len >= 2 {
        Window.EnsuredWellFormed(m, ps.windows, (options.windowType, len));
      }
    }
    var data := Preemphasised(f.Samples(), options.preemphasisFactor,
                              WindowUsed(st, options.windowType, len), options.zeroPaddedLength);
    PipelineState(st, FftSpectrum(m, data, ps.spectrum))
  }

  /** The pipeline state after the first k frames. */
  function StateAfter(m: Maths, options: TransformOptions, frames: seq<Frame>, ps0: PipelineState, k: nat): (r: PipelineState)
    requires k <= |frames| && FramesFit(frames, options.zeroPaddedLength)
    requires IsPowerOfTwo(options.zeroPaddedLength) && StateFits(ps0, options.zeroPaddedLength)
    ensures StateFits(r, options.zeroPaddedLength)
    decreases k
  {
    if k == 0 then ps0
    else
      var prev := StateAfter(m, options, frames, ps0, k - 1);
      FrameStep(m, options, frames[k - 1], prev)
  }

  /**
   * The window cache after the first k frames: each frame asks for the table
   * of its own length. The spectra play no part in it.
   */
  function WindowsAfter(m: Maths, options: TransformOptions, frames: seq<Frame>, w0: WinState, k: nat): (r: WinState)
    requires k <= |frames| && FramesFit(frames, options.zeroPaddedLength)
    decreases k
  {
    if k == 0 then w0
    else WindowAfter(m, WindowsAfter(m, options, frames, w0, k - 1), options.windowType, frames[k - 1].Length())
  }

  /** The window part of the pipeline state is WindowsAfter of the starting cache. */
  lemma {:induction false} StateAfterWindows(m: Maths, options: TransformOptions, frames: seq<Frame>, ps0: PipelineState, k: nat)
    requires k <= |frames| && FramesFit(frames, options.zeroPaddedLength)
    requires IsPowerOfTwo(options.zeroPaddedLength) && StateFits(ps0, options.zeroPaddedLength)
    ensures StateAfter(m, options, frames, ps0, k).windows == WindowsAfter(m, options, frames, ps0.windows, k)
  {
    if k > 0 {
      StateAfterWindows(m, options, frames, ps0, k - 1);
    }
  }

  /** dct(applyAll(spectrum)): one frame's feature vector of paramsPerFrame coefficients. */
  function FrameCepstrum(m: Maths, flags: seq<bool>, weights: seq<seq<real>>, spectrum: seq<Complex>, N: nat, paramsPerFrame: nat): (r: seq<real>)
    requires |flags| == MELFILTERS && |weights| == MELFILTERS && N >= 2 && ApplyCount(N) <= |spectrum|
    requires forall i :: 0 <= i < MELFILTERS ==> ApplyCount(N) <= |weights[i]|
    ensures |r| == paramsPerFrame
  {
    DctSpec(m, BankOutputs(m, flags, weights, spectrum, N), paramsPerFrame)
  }

  /** The bank a pipeline runs with: 24 filters with at least N / 2 - 1 weights each. */
  predicate BankFits(flags: seq<bool>, weights: seq<seq<real>>, N: nat)
  {
    |flags| == MELFILTERS && |weights| == MELFILTERS && N >= 2 &&
    forall i :: 0 <= i < MELFILTERS ==> ApplyCount(N) <= |weights[i]|
  }

  /** The feature array process() leaves: entry k is the cepstrum of frame k's spectrum. */
  function CepstralFeatures(m: Maths, options: TransformOptions, flags: seq<bool>, weights: seq<seq<real>>,
                            paramsPerFrame: nat, frames: seq<Frame>, ps0: PipelineState): (r: FeatureArray)
    requires FramesFit(frames, options.zeroPaddedLength) && IsPowerOfTwo(options.zeroPaddedLength)
    requires StateFits(ps0, options.zeroPaddedLength) && BankFits(flags, weights, options.zeroPaddedLength)
    ensures |r| == |frames|
  {
    seq(|frames|, k requires 0 <= k < |frames| =>
      FrameCepstrum(m, flags, weights, StateAfter(m, options, frames, ps0, k + 1).spectrum,
                    options.zeroPaddedLength, paramsPerFrame))
  }

  /** Entry k of the features is the cepstrum of the spectrum after frame k. */
  lemma CepstralFeaturesAt(m: Maths, options: TransformOptions, flags: seq<bool>, weights: seq<seq<real>>,
                           paramsPerFrame: nat, frames: seq<Frame>, ps0: PipelineState, k: nat)
    requires FramesFit(frames, options.zeroPaddedLength) && IsPowerOfTwo(options.zeroPaddedLength)
    requires StateFits(ps0, options.zeroPaddedLength) && BankFits(flags, weights, options.zeroPaddedLength)
    requires k < |frames|
    ensures CepstralFeatures(m, options, flags, weights, paramsPerFrame, frames, ps0)[k] ==
      FrameCepstrum(m, flags, weights, StateAfter(m, options, frames, ps0, k + 1).spectrum,
                    options.zeroPaddedLength, paramsPerFrame)
  {
  }

  /** Every feature vector has exactly paramsPerFrame coefficients. */
  lemma CepstralFeaturesShape(m: Maths, options: TransformOptions, flags: seq<bool>, weights: seq<seq<real>>,
                              paramsPerFrame: nat, frames: seq<Frame>, ps0: PipelineState)
    requires FramesFit(frames, options.zeroPaddedLength) && IsPowerOfTwo(options.zeroPaddedLength)
    requires StateFits(ps0, options.zeroPaddedLength) && BankFits(flags, weights, options.zeroPaddedLength)
    ensures forall k :: 0 <= k < |frames| ==>
      |CepstralFeatures(m, options, flags, weights, paramsPerFrame, frames, ps0)[k]| == paramsPerFrame
  {
  }

  /**
   * With every filter disabled the bank outputs 24 zeros, so every feature
   * vector is the DCT of zeros, whatever the recording.
   */
  lemma {:induction false} DisabledBankFeatures(m: Maths, options: TransformOptions, flags: seq<bool>, weights: seq<seq<real>>,
                                                 paramsPerFrame: nat, frames: seq<Frame>, ps0: PipelineState)
    requires FramesFit(frames, options.zeroPaddedLength) && IsPowerOfTwo(options.zeroPaddedLength)
    requires StateFits(ps0, options.zeroPaddedLength) && BankFits(flags, weights, options.zeroPaddedLength)
    requires forall i :: 0 <= i < MELFILTERS ==> !flags[i]
    ensures forall k :: 0 <= k < |frames| ==>
      CepstralFeatures(m, options, flags, weights, paramsPerFrame, frames, ps0)[k] ==
      DctSpec(m, seq(MELFILTERS, _ => 0.0), paramsPerFrame)
  {
    forall k | 0 <= k < |frames|
      ensures CepstralFeatures(m, options, flags, weights, paramsPerFrame, frames, ps0)[k] ==
              DctSpec(m, seq(MELFILTERS, _ => 0.0), paramsPerFrame)
    {
      DisabledBankFrame(m, options, flags, weights, paramsPerFrame, frames, ps0, k);
    }
  }

  /** DisabledBankFeatures for the feature vector of frame k. */
  lemma DisabledBankFrame(m: Maths, options: TransformOptions, flags: seq<bool>, weights: seq<seq<real>>,
                          paramsPerFrame: nat, frames: seq<Frame>, ps0: PipelineState, k: nat)
    requires FramesFit(frames, options.zeroPaddedLength) && IsPowerOfTwo(options.zeroPaddedLength)
    requires StateFits(ps0, options.zeroPaddedLength) && BankFits(flags, weights, options.zeroPaddedLength)
    requires forall i :: 0 <= i < MELFILTERS ==> !flags[i]
    requires k < |frames|
    ensures CepstralFeatures(m, options, flags, weights, paramsPerFrame, frames, ps0)[k] ==
      DctSpec(m, seq(MELFILTERS, _ => 0.0), paramsPerFrame)
  {
    var N := options.zeroPaddedLength;
    var s := StateAfter(m, options, frames, ps0, k + 1).spectrum;
    BankOutputsShape(m, flags, weights, s, N);
    assert BankOutputs(m, flags, weights, s, N) == seq(MELFILTERS, _ => 0.0);
  }

  /**
   * The shared window cache only grows along the frames: a table cached
   * after j frames is still cached, unchanged, after k >= j frames.
   */
  lemma {:induction false} StateAfterKeepsWindows(m: Maths, options: TransformOptions, frames: seq<Frame>, ps0: PipelineState, j: nat, k: nat)
    requires j <= k <= |frames| && FramesFit(frames, options.zeroPaddedLength)
    requires IsPowerOfTwo(options.zeroPaddedLength) && StateFits(ps0, options.zeroPaddedLength)
    ensures forall key :: key in StateAfter(m, options, frames, ps0, j).windows.windows ==>
      key in StateAfter(m, options, frames, ps0, k).windows.windows &&
      StateAfter(m, options, frames, ps0, k).windows.windows[key] == StateAfter(m, options, frames, ps0, j).windows.windows[key]
  {
    StateAfterWindows(m, options, frames, ps0, j);
    StateAfterWindows(m, options, frames, ps0, k);
    WindowsAfterKeeps(m, options, frames, ps0.windows, j, k);
  }

  /** One frame's window request keeps every table already cached. */
  lemma WindowAfterKeeps(m: Maths, st: WinState, t: WindowType, length: nat)
    requires IsU32(length)
    ensures forall key :: key in st.windows ==>
      key in WindowAfter(m, st, t, length).windows && WindowAfter(m, st, t, length).windows[key] == st.windows[key]
  {
  }

  /** WindowsAfter only adds tables: what is cached after j frames is cached, unchanged, after k >= j. */
  lemma {:induction false} WindowsAfterKeeps(m: Maths, options: TransformOptions, frames: seq<Frame>, w0: WinState, j: nat, k: nat)
    requires j <= k <= |frames| && FramesFit(frames, options.zeroPaddedLength)
    ensures forall key :: key in WindowsAfter(m, options, frames, w0, j).windows ==>
      key in WindowsAfter(m, options, frames, w0, k).windows &&
      WindowsAfter(m, options, frames, w0, k).windows[key] == WindowsAfter(m, options, frames, w0, j).windows[key]
    decreases k
  {
    if j < k {
      WindowsAfterKeeps(m, options, frames, w0, j, k - 1);
      WindowAfterKeeps(m, WindowsAfter(m, options, frames, w0, k - 1), options.windowType, frames[k - 1].Length());
    }
  }

  /**
   * After k frames the cache holds a table for each frame's (window type,
   * length) with length >= 2, of exactly that length.
   */
  lemma {:induction false} StateAfterHoldsTables(m: Maths, options: TransformOptions, frames: seq<Frame>, ps0: PipelineState, k: nat)
    requires k <= |frames| && FramesFit(frames, options.zeroPaddedLength)
    requires IsPowerOfTwo(options.zeroPaddedLength) && StateFits(ps0, options.zeroPaddedLength)
    ensures forall i :: 0 <= i < k && frames[i].Length() >= 2 ==>
      var key := (options.windowType, frames[i].Length());
      key in StateAfter(m, options, frames, ps0, k).windows.windows &&
      |StateAfter(m, options, frames, ps0, k).windows.windows[key]| == frames[i].Length()
  {
    forall i | 0 <= i < k && frames[i].Length() >= 2
      ensures var key := (options.windowType, frames[i].Length());
        key in StateAfter(m, options, frames, ps0, k).windows.windows &&
        |StateAfter(m, options, frames, ps0, k).windows.windows[key]| == frames[i].Length()
    {
      StateAfterKeepsWindows(m, options, frames, ps0, i + 1, k);
    }
  }

  /** The states after 0, 1, ..., |frames| frames. */
  function StateSeq(m: Maths, options: TransformOptions, frames: seq<Frame>, ps0: PipelineState): (r: seq<PipelineState>)
    requires FramesFit(frames, options.zeroPaddedLength) && IsPowerOfTwo(options.zeroPaddedLength)
    requires StateFits(ps0, options.zeroPaddedLength)
    ensures |r| == |frames| + 1
  {
    seq(|frames| + 1, k requires 0 <= k <= |frames| => StateAfter(m, options, frames, ps0, k))
  }

  /**
   * A run of the pipeline over the frames: one state more than frames, each
   * state after the first the FrameStep of the one before it.
   */
  ghost predicate IsRun(m: Maths, options: TransformOptions, frames: seq<Frame>, states: seq<PipelineState>)
    requires FramesFit(frames, options.zeroPaddedLength) && IsPowerOfTwo(options.zeroPaddedLength)
  {
    && |states| == |frames| + 1
    && (forall k :: 0 <= k < |states| ==> StateFits(states[k], options.zeroPaddedLength))
    && forall k {:trigger FrameStep(m, options, frames[k], states[k])} :: 0 <= k < |frames| ==>
         states[k + 1] == FrameStep(m, options, frames[k], states[k])
  }

  /** The feature vectors of a run: vector k - 1 is the cepstrum of state k's spectrum. */
  ghost predicate IsFeatureRun(m: Maths, flags: seq<bool>, weights: seq<seq<real>>, N: nat, paramsPerFrame: nat,
                               states: seq<PipelineState>, features: FeatureArray)
    requires BankFits(flags, weights, N) && forall k :: 0 <= k < |states| ==> |states[k].spectrum| == N
  {
    && |features| + 1 == |states|
    && forall k {:trigger FrameCepstrum(m, flags, weights, states[k].spectrum, N, paramsPerFrame)} :: 1 <= k < |states| ==>
         features[k - 1] == FrameCepstrum(m, flags, weights, states[k].spectrum, N, paramsPerFrame)
  }

  /** The states StateAfter gives form a run, and the features CepstralFeatures gives are its features. */
  lemma StateSeqIsRun(m: Maths, options: TransformOptions, flags: seq<bool>, weights: seq<seq<real>>,
                      paramsPerFrame: nat, frames: seq<Frame>, ps0: PipelineState)
    requires FramesFit(frames, options.zeroPaddedLength) && IsPowerOfTwo(options.zeroPaddedLength)
    requires StateFits(ps0, options.zeroPaddedLength) && BankFits(flags, weights, options.zeroPaddedLength)
    ensures var states := StateSeq(m, options, frames, ps0);
      && states[0] == ps0
      && states[|frames|].windows == WindowsAfter(m, options, frames, ps0.windows, |frames|)
      && IsRun(m, options, frames, states)
      && IsFeatureRun(m, flags, weights, options.zeroPaddedLength, paramsPerFrame, states,
                      CepstralFeatures(m, options, flags, weights, paramsPerFrame, frames, ps0))
  {
    var states := StateSeq(m, options, frames, ps0);
    StateAfterWindows(m, options, frames, ps0, |frames|);
    forall k | 0 <= k < |frames|
      ensures states[k + 1] == FrameStep(m, options, frames[k], states[k])
    {
      assert states[k + 1] == StateAfter(m, options, frames, ps0, k + 1);
    }
    var features := CepstralFeatures(m, options, flags, weights, paramsPerFrame, frames, ps0);
    forall k | 1 <= k < |states|
      ensures features[k - 1] == FrameCepstrum(m, flags, weights, states[k].spectrum, options.zeroPaddedLength, paramsPerFrame)
    {
      CepstralFeaturesAt(m, options, flags, weights, paramsPerFrame, frames, ps0, k - 1);
    }
  }

  /** A spectrum buffer of N complex zeros, as spectrumType frameSpectrum(N) starts. */
  function ZeroSpectrum(N: nat): (s: seq<Complex>)
    ensures |s| == N && forall i :: 0 <= i < N ==> s[i] == Zero()
  {
    seq(N, _ => Zero())
  }

  /**
   * The first part of process(): the file name, the feature array resized
   * to the frame count, and start(0, framesCount - 1) on the indicator.
   */
  method BeginProcess(core: Extractor, wav: Recording)
    modifies core`wavFilename, core`featureArray, core.indicator
    ensures core.wavFilename == wav.filename && core.featureArray == Resize(old(core.featureArray), |wav.frames|)
    ensures core.indicator != null ==> core.indicator.trace == old(core.indicator.trace) + [IndicatorCall.Start(0, |wav.frames| - 1)]
  {
    core.wavFilename := wav.filename;
    var framesCount := |wav.frames|;
    core.featureArray := Resize(core.featureArray, framesCount);
    if core.indicator != null {
      core.indicator.Start(0, framesCount - 1);
    }
  }

  /**
   * One iteration of the frame loop, frame k: fft into the reused spectrum
   * buffer, applyAll into the filter outputs, dct into the coefficients.
   */
  method ProcessFrame(m: Maths, options: TransformOptions, transform: Transform, win: Window.Window, bank: MelFiltersBank,
                      frameSpectrum: array<Complex>, filtersOutput: array<real>, frameMfcc: array<real>,
                      frames: seq<Frame>, k: nat, ghost states: seq<PipelineState>, ghost flags: seq<bool>, ghost weights: seq<seq<real>>)
    requires transform.Valid() && transform.maths == m && transform.zeroPaddedLength == options.zeroPaddedLength
    requires transform.winType == options.windowType && transform.preemphasisFactor == options.preemphasisFactor
    requires frameSpectrum.Length == options.zeroPaddedLength && filtersOutput.Length == MELFILTERS && filtersOutput != frameMfcc
    requires win.Valid() && win.maths == m
    requires |bank.filters| == MELFILTERS && IsPowerOfTwo(options.zeroPaddedLength)
    requires FramesFit(frames, options.zeroPaddedLength) && IsRun(m, options, frames, states) && k < |frames|
    requires PipelineState(win.State(), frameSpectrum[..]) == states[k]
    requires flags == bank.Flags() && weights == bank.Weights() && BankFits(flags, weights, options.zeroPaddedLength)
    modifies transform, win, frameSpectrum, filtersOutput, frameMfcc
    ensures transform.Valid() && win.Valid()
    ensures PipelineState(win.State(), frameSpectrum[..]) == states[k + 1]
    ensures frameMfcc[..] == FrameCepstrum(m, flags, weights, states[k + 1].spectrum, options.zeroPaddedLength, frameMfcc.Length)
  {
    var N := options.zeroPaddedLength;
    var _ := transform.FftFrame(frames[k], frameSpectrum, win);
    assert PipelineState(win.State(), frameSpectrum[..]) == FrameStep(m, options, frames[k], states[k]);
    var spectrum := frameSpectrum[..];
    bank.ApplyAll(m, spectrum, N, filtersOutput);
    assert filtersOutput[..] == BankOutputs(m, flags, weights, spectrum, N);
    transform.Dct(filtersOutput[..], frameMfcc);
  }

  /**
   * One iteration of the frame loop of process(): ProcessFrame on frame k,
   * the coefficients stored as feature vector k, and progress(k).
   */
  method FrameIteration(m: Maths, options: TransformOptions, transform: Transform, win: Window.Window, bank: MelFiltersBank,
                        core: Extractor, indicator: TraceIndicator?, frames: seq<Frame>, k: nat,
                        frameSpectrum: array<Complex>, filtersOutput: array<real>, frameMfcc: array<real>,
                        ghost states: seq<PipelineState>, ghost flags: seq<bool>, ghost weights: seq<seq<real>>, ghost expected: FeatureArray)
    requires transform.Valid() && transform.maths == m && transform.zeroPaddedLength == options.zeroPaddedLength
    requires transform.winType == options.windowType && transform.preemphasisFactor == options.preemphasisFactor
    requires frameSpectrum.Length == options.zeroPaddedLength && filtersOutput.Length == MELFILTERS && filtersOutput != frameMfcc
    requires frameMfcc.Length == core.paramsPerFrame
    requires win.Valid() && win.maths == m
    requires |bank.filters| == MELFILTERS && IsPowerOfTwo(options.zeroPaddedLength)
    requires FramesFit(frames, options.zeroPaddedLength) && IsRun(m, options, frames, states) && k < |frames|
    requires flags == bank.Flags() && weights == bank.Weights() && BankFits(flags, weights, options.zeroPaddedLength)
    requires IsFeatureRun(m, flags, weights, options.zeroPaddedLength, core.paramsPerFrame, states, expected)
    requires PipelineState(win.State(), frameSpectrum[..]) == states[k]
    requires |core.featureArray| == |frames| && forall j :: 0 <= j < k ==> core.featureArray[j] == expected[j]
    modifies transform, win, frameSpectrum, filtersOutput, frameMfcc, core`featureArray, indicator
    ensures transform.Valid() && win.Valid()
    ensures PipelineState(win.State(), frameSpectrum[..]) == states[k + 1]
    ensures |core.featureArray| == |frames| && forall j :: 0 <= j < k + 1 ==> core.featureArray[j] == expected[j]
    ensures indicator != null ==> indicator.trace == old(indicator.trace) + [IndicatorCall.Progress(k)]
  {
    ProcessFrame(m, options, transform, win, bank, frameSpectrum, filtersOutput, frameMfcc, frames, k, states, flags, weights);
    core.featureArray := core.featureArray[k := frameMfcc[..]];
    if indicator != null {
      indicator.Progress(k);
    }
  }

  /**
   * The frame loop of process(): one FrameIteration per frame.
   */
  method FrameLoop(m: Maths, options: TransformOptions, transform: Transform, win: Window.Window, bank: MelFiltersBank,
                   core: Extractor, frames: seq<Frame>,
                   frameSpectrum: array<Complex>, filtersOutput: array<real>, frameMfcc: array<real>,
                   ghost states: seq<PipelineState>, ghost flags: seq<bool>, ghost weights: seq<seq<real>>, ghost expected: FeatureArray)
    requires transform.Valid() && transform.maths == m && transform.zeroPaddedLength == options.zeroPaddedLength
    requires transform.winType == options.windowType && transform.preemphasisFactor == options.preemphasisFactor
    requires frameSpectrum.Length == options.zeroPaddedLength && filtersOutput.Length == MELFILTERS && filtersOutput != frameMfcc
    requires frameMfcc.Length == core.paramsPerFrame
    requires win.Valid() && win.maths == m
    requires |bank.filters| == MELFILTERS && IsPowerOfTwo(options.zeroPaddedLength)
    requires FramesFit(frames, options.zeroPaddedLength) && IsRun(m, options, frames, states)
    requires flags == bank.Flags() && weights == bank.Weights() && BankFits(flags, weights, options.zeroPaddedLength)
    requires IsFeatureRun(m, flags, weights, options.zeroPaddedLength, core.paramsPerFrame, states, expected)
    requires PipelineState(win.State(), frameSpectrum[..]) == states[0] && |core.featureArray| == |frames|
    modifies transform, win, frameSpectrum, filtersOutput, frameMfcc, core`featureArray, core.indicator
    ensures win.Valid()
    ensures core.featureArray == expected
    ensures win.State() == states[|frames|].windows
    ensures core.indicator != null ==> core.indicator.trace == old(core.indicator.trace) + ProgressCalls(|frames|)
  {
    var indicator := core.indicator;
    ghost var started := if indicator != null then indicator.trace else [];
    var i := 0;
    while i < |frames|
      invariant 0 <= i <= |frames|
      invariant transform.Valid() && win.Valid()
      invariant PipelineState(win.State(), frameSpectrum[..]) == states[i]
      invariant |core.featureArray| == |frames|
      invariant forall j :: 0 <= j < i ==> core.featureArray[j] == expected[j]
      invariant indicator != null ==> indicator.trace == started + ProgressCalls(i)
    {
      FrameIteration(m, options, transform, win, bank, core, indicator, frames, i,
                     frameSpectrum, filtersOutput, frameMfcc, states, flags, weights, expected);
      ProgressCallsStep(started, i);
      i := i + 1;
    }
    assert core.featureArray == expected;
  }

  /**
   * The frame loop and the closing stop() over buffers already allocated:
   * the spectrum buffer starts out zero.
   */
  method RunFrames(m: Maths, options: TransformOptions, transform: Transform, win: Window.Window, bank: MelFiltersBank,
                   core: Extractor, frames: seq<Frame>,
                   frameSpectrum: array<Complex>, filtersOutput: array<real>, frameMfcc: array<real>,
                   ghost flags: seq<bool>, ghost weights: seq<seq<real>>)
    requires transform.Valid() && transform.maths == m && transform.zeroPaddedLength == options.zeroPaddedLength
    requires transform.winType == options.windowType && transform.preemphasisFactor == options.preemphasisFactor
    requires frameSpectrum.Length == options.zeroPaddedLength && filtersOutput.Length == MELFILTERS && filtersOutput != frameMfcc
    requires frameMfcc.Length == core.paramsPerFrame
    requires win.Valid() && win.maths == m
    requires |bank.filters| == MELFILTERS && IsPowerOfTwo(options.zeroPaddedLength)
    requires flags == bank.Flags() && weights == bank.Weights() && BankFits(flags, weights, options.zeroPaddedLength)
    requires FramesFit(frames, options.zeroPaddedLength) && |core.featureArray| == |frames|
    requires frameSpectrum[..] == ZeroSpectrum(options.zeroPaddedLength)
    modifies transform, win, frameSpectrum, filtersOutput, frameMfcc, core`featureArray, core.indicator
    ensures win.Valid()
    ensures core.featureArray == CepstralFeatures(m, options, flags, weights, core.paramsPerFrame, frames,
                                                  PipelineState(old(win.State()), ZeroSpectrum(options.zeroPaddedLength)))
    ensures win.State() == WindowsAfter(m, options, frames, old(win.State()), |frames|)
    ensures core.indicator != null ==>
      core.indicator.trace == old(core.indicator.trace) + ProgressCalls(|frames|) + [IndicatorCall.Stop]
  {
    ghost var ps0 := PipelineState(win.State(), ZeroSpectrum(options.zeroPaddedLength));
    ghost var states := StateSeq(m, options, frames, ps0);
    ghost var expected := CepstralFeatures(m, options, flags, weights, core.paramsPerFrame, frames, ps0);
    StateSeqIsRun(m, options, flags, weights, core.paramsPerFrame, frames, ps0);
    FrameLoop(m, options, transform, win, bank, core, frames, frameSpectrum, filtersOutput, frameMfcc, states, flags, weights, expected);
    if core.indicator != null {
      core.indicator.Stop();
    }
  }

  /**
   * The part of process() after updateFilters: the buffers and the one
   * transform are allocated, then every frame goes through the pipeline.
   */
  method ExtractFrames(m: Maths, options: TransformOptions, win: Window.Window, bank: MelFiltersBank, core: Extractor, frames: seq<Frame>,
                       ghost flags: seq<bool>, ghost weights: seq<seq<real>>)
    requires win.Valid() && win.maths == m
    requires |bank.filters| == MELFILTERS && IsPowerOfTwo(options.zeroPaddedLength)
    requires flags == bank.Flags() && weights == bank.Weights() && BankFits(flags, weights, options.zeroPaddedLength)
    requires FramesFit(frames, options.zeroPaddedLength) && |core.featureArray| == |frames|
    modifies win, core`featureArray, core.indicator
    ensures win.Valid()
    ensures core.featureArray == CepstralFeatures(m, options, flags, weights, core.paramsPerFrame, frames,
                                                  PipelineState(old(win.State()), ZeroSpectrum(options.zeroPaddedLength)))
    ensures win.State() == WindowsAfter(m, options, frames, old(win.State()), |frames|)
    ensures core.indicator != null ==>
      core.indicator.trace == old(core.indicator.trace) + ProgressCalls(|frames|) + [IndicatorCall.Stop]
  {
    var N := options.zeroPaddedLength;
    var frameSpectrum := new Complex[N](_ => Zero());
    var filtersOutput := new real[MELFILTERS];
    var frameMfcc := new real[core.paramsPerFrame];
    var transform := new Transform(m, N, options.windowType, options.preemphasisFactor);
    assert frameSpectrum[..] == ZeroSpectrum(N);
    RunFrames(m, options, transform, win, bank, core, frames, frameSpectrum, filtersOutput, frameMfcc, flags, weights);
  }

  /**
   * ExtractFrames with the bank the slot holds; the slot and the bank are
   * left as they are.
   */
  method ExtractWithSlot(m: Maths, options: TransformOptions, win: Window.Window, slot: BankSlot, core: Extractor, frames: seq<Frame>)
    requires win.Valid() && win.maths == m && slot.Valid() && slot.filters != null
    requires slot.filters.N_ == options.zeroPaddedLength && IsPowerOfTwo(options.zeroPaddedLength) && options.zeroPaddedLength >= 2
    requires FramesFit(frames, options.zeroPaddedLength) && |core.featureArray| == |frames|
    modifies win, core`featureArray, core.indicator
    ensures win.Valid() && slot.Valid() && slot.filters.Flags() == old(slot.filters.Flags())
    ensures BankFits(slot.filters.Flags(), slot.filters.Weights(), options.zeroPaddedLength)
    ensures core.featureArray == CepstralFeatures(m, options, slot.filters.Flags(), slot.filters.Weights(), core.paramsPerFrame, frames,
                                                  PipelineState(old(win.State()), ZeroSpectrum(options.zeroPaddedLength)))
    ensures win.State() == WindowsAfter(m, options, frames, old(win.State()), |frames|)
    ensures core.indicator != null ==>
      core.indicator.trace == old(core.indicator.trace) + ProgressCalls(|frames|) + [IndicatorCall.Stop]
  {
    var bank := slot.filters;
    ghost var flags := bank.Flags();
    ghost var weights := bank.Weights();
    assert BankFits(flags, weights, options.zeroPaddedLength);
    ExtractFrames(m, options, win, bank, core, frames, flags, weights);
    assert bank.Flags() == flags && bank.Weights() == weights;
  }

  // ------------------------------------------------------ the extractor

  class MfccExtractor {
    /** The Extractor base-class part. */
    const core: Extractor
    /** The selection set by setEnabledMelFilters (null until then). */
    var enabledFilters: Option<seq<bool>>

    /** A stored selection has one flag per Mel filter. */
    ghost predicate Valid()
      reads this
    {
      enabledFilters.Some? ==> |enabledFilters.value| == MELFILTERS
    }

    /** MfccExtractor(frameLength, paramsPerFrame): type "MFCC", no selection. */
    constructor(frameLength: nat, paramsPerFrame: nat)
      ensures fresh(core) && Valid()
      ensures core.featureType == "MFCC" && core.frameLength == frameLength && core.paramsPerFrame == paramsPerFrame
      ensures core.indicator == null && core.featureArray == [] && enabledFilters == None
    {
      core := new Extractor(frameLength, paramsPerFrame);
      enabledFilters := None;
      new;
      core.featureType := "MFCC";
    }

    /**
     * setEnabledMelFilters: a private copy of the first 24 flags replaces
     * any earlier selection.
     */
    method SetEnabledMelFilters(enabled: seq<bool>)
      requires MELFILTERS <= |enabled|
      modifies this`enabledFilters
      ensures Valid() && enabledFilters == Some(enabled[..MELFILTERS])
    {
      var copy := new bool[MELFILTERS];
      var i := 0;
      while i < MELFILTERS
        invariant 0 <= i <= MELFILTERS
        invariant forall j :: 0 <= j < i ==> copy[j] == enabled[j]
      {
        copy[i] := enabled[i];
        i := i + 1;
      }
      assert copy[..] == enabled[..MELFILTERS];
      enabledFilters := Some(copy[..]);
    }

    /**
     * updateFilters(frequency, N): a uniform bank of width 200 is built when
     * the slot is empty or holds a bank for another (frequency, N); otherwise
     * the same bank is kept. A stored selection is then applied to it.
     */
    method UpdateFilters(m: Maths, slot: BankSlot, frequency: nat, N: nat)
      requires Valid() && slot.Valid() && ExpIncreasing(m) && frequency > 0
      modifies slot, slot.Footprint()
      ensures slot.Valid() && slot.filters != null
      ensures slot.filters.sampleFreq == frequency as real && slot.filters.N_ == N
      ensures old(NeedsRebuild(slot.filters, frequency, N)) ==>
        && fresh(slot.filters) && fresh(slot.filters.filters)
        && forall i :: 0 <= i < MELFILTERS ==>
             slot.filters.Weights()[i] == FilterWeights(m, i, MEL_FILTER_WIDTH, N, frequency as real)
      ensures !old(NeedsRebuild(slot.filters, frequency, N)) ==>
        slot.filters == old(slot.filters) && slot.filters.Weights() == old(slot.filters.Weights())
      ensures enabledFilters.Some? ==> slot.filters.Flags() == enabledFilters.value
      ensures enabledFilters.None? && old(NeedsRebuild(slot.filters, frequency, N)) ==>
        forall i :: 0 <= i < MELFILTERS ==> slot.filters.Flags()[i]
      ensures enabledFilters.None? && !old(NeedsRebuild(slot.filters, frequency, N)) ==>
        slot.filters.Flags() == old(slot.filters.Flags())
    {
      RebuildIfNeeded(m, slot, frequency, N);
      if enabledFilters.Some? {
        slot.filters.SetEnabledFilters(enabledFilters.value);
        assert enabledFilters.value[..MELFILTERS] == enabledFilters.value;
      }
    }

    /**
     * process(wav, options): the file name, the feature array resized to the
     * frame count, start; the bank brought up to date for the recording's
     * sample frequency and zero-padded frame length; then one feature vector
     * per frame computed with one Transform and the shared bank; stop.
     */
    method Process(m: Maths, slot: BankSlot, win: Window.Window, wav: Recording, options: TransformOptions)
      requires Valid() && slot.Valid() && win.Valid() && win.maths == m && ExpIncreasing(m)
      requires wav.sampleFrequency > 0 && options.zeroPaddedLength == wav.samplesPerFrameZP
      requires IsPowerOfTwo(wav.samplesPerFrameZP) && wav.samplesPerFrameZP >= 2
      requires FramesFit(wav.frames, wav.samplesPerFrameZP)
      modifies core`wavFilename, core`featureArray, core.indicator, slot, slot.Footprint(), win
      ensures slot.Valid() && slot.filters != null && win.Valid()
      ensures slot.filters.sampleFreq == wav.sampleFrequency as real && slot.filters.N_ == wav.samplesPerFrameZP
      ensures core.wavFilename == wav.filename
      ensures enabledFilters.Some? ==> slot.filters.Flags() == enabledFilters.value
      ensures BankFits(slot.filters.Flags(), slot.filters.Weights(), wav.samplesPerFrameZP)
      ensures core.featureArray == CepstralFeatures(m, options, slot.filters.Flags(), slot.filters.Weights(), core.paramsPerFrame, wav.frames,
                                                    PipelineState(old(win.State()), ZeroSpectrum(wav.samplesPerFrameZP)))
      ensures win.State() == WindowsAfter(m, options, wav.frames, old(win.State()), |wav.frames|)
      ensures core.indicator != null ==> core.indicator.trace == old(core.indicator.trace) + ProcessTrace(|wav.frames|)
    {
      BeginProcess(core, wav);
      UpdateFilters(m, slot, wav.sampleFrequency, wav.samplesPerFrameZP);
      ExtractWithSlot(m, options, win, slot, core, wav.frames);
      if core.indicator != null {
        ProcessTraceAppend(old(core.indicator.trace), |wav.frames|);
      }
    }
  }
}
