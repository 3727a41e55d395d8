/**
 * Aquila::Tools of branches/cache/src/Tools.cpp and Tools.h: the window-name
 * mapping and two unit conversions.
 */
module Tools {
  import opened WindowFunctions

  /** The six names windowTypeToString produces for the six enumerators. */
  predicate IsWindowName(s: string)
  {
    s == "Rectangular" || s == "Hamming" || s == "Hann"
    || s == "Blackman" || s == "Barlett" || s == "Flat-top"
  }

  /**
   * Tools::windowTypeToString: the name of each enumerator, and "Unknown"
   * exactly for the values outside the enumeration.
   */
  function WindowTypeToString(t: WindowType): (s: string)
    ensures IsEnumerated(t) <==> IsWindowName(s)
    ensures !IsEnumerated(t) <==> s == "Unknown"
  {
    if t == WinRect then "Rectangular"
    else if t == WinHamming then "Hamming"
    else if t == WinHann then "Hann"
    else if t == WinBlackman then "Blackman"
    else if t == WinBarlett then "Barlett"
    else if t == WinFlattop then "Flat-top"
    else "Unknown"
  }

  /**
   * Tools::stringToWindowType: exact (case-sensitive) comparison against the
   * six names in turn, WIN_HAMMING for anything else. It inverts
   * windowTypeToString on the six names.
   */
  function StringToWindowType(name: string): (t: WindowType)
    ensures IsEnumerated(t)
    ensures IsWindowName(name) ==> WindowTypeToString(t) == name
    ensures !IsWindowName(name) ==> t == WinHamming
  {
    if "Rectangular" == name then WinRect
    else if "Hamming" == name then WinHamming
    else if "Hann" == name then WinHann
    else if "Blackman" == name then WinBlackman
    else if "Barlett" == name then WinBarlett
    else if "Flat-top" == name then WinFlattop
    else WinHamming
  }

  /**
   * Both round trips at once: names survive name -> type -> name, and every
   * other string comes back as "Hamming"; the enumerators survive
   * type -> name -> type.
   */
  lemma RoundTrips(t: WindowType, s: string)
    ensures IsEnumerated(t) ==> StringToWindowType(WindowTypeToString(t)) == t
    ensures WindowTypeToString(StringToWindowType(s)) == if IsWindowName(s) then s else "Hamming"
  {
  }

  /**
   * Tools::spectrumPeakToHz: sampleFrequency * peakNum / spectrumSize, a
   * linear map sending peak 0 to 0 Hz and peak `size` to the sample
   * frequency.
   */
  function SpectrumPeakToHz(peakNum: real, sampleFrequency: real, spectrumSize: nat): (hz: real)
    requires spectrumSize > 0
    ensures hz * spectrumSize as real == sampleFrequency * peakNum
    ensures peakNum == 0.0 ==> hz == 0.0
    ensures peakNum == spectrumSize as real ==> hz == sampleFrequency
  {
    sampleFrequency * peakNum / spectrumSize as real
  }

  /** Tools::frameNumToMs: (1 - overlap) * frameLength * frameNum. */
  function FrameNumToMs(frameNum: real, frameLength: int, frameOverlap: real): (ms: real)
    ensures frameNum == 0.0 ==> ms == 0.0
    ensures frameOverlap == 0.0 ==> ms == frameLength as real * frameNum
    ensures frameOverlap == 1.0 ==> ms == 0.0
  {
    (1.0 - frameOverlap) * frameLength as real * frameNum
  }

  /** With overlap in [0, 1] and a non-negative frame length, later frames start no earlier. */
  lemma FrameNumToMsMonotone(f1: real, f2: real, frameLength: int, frameOverlap: real)
    requires f1 <= f2 && frameLength >= 0 && 0.0 <= frameOverlap <= 1.0
    ensures FrameNumToMs(f1, frameLength, frameOverlap) <= FrameNumToMs(f2, frameLength, frameOverlap)
  {
    var k := (1.0 - frameOverlap) * frameLength as real;
    assert k >= 0.0;
    assert FrameNumToMs(f2, frameLength, frameOverlap) - FrameNumToMs(f1, frameLength, frameOverlap) == k * (f2 - f1);
  }
}
