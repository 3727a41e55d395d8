/**
 * Aquila::Extractor (trunk/src/feature/Extractor.cpp): the state every
 * feature extractor shares (header fields and the feature array), saving to
 * a writer, reading from a reader and the compatibility test.
 *
 * Also the pieces of the pipeline's environment that the extractors only
 * call into: the processing indicator (a recorder of start/progress/stop
 * calls, after the ProcessingIndicator interface), the feature reader and
 * writer interfaces, the transform options and the parts of a wave file the
 * extractors read. WaveFile itself is not part of this model.
 */
module Extractors {
  import opened Maths
  import opened WindowFunctions
  import opened Frames

  datatype Option<T> = None | Some(value: T)

  /** One feature vector per frame. */
  type FeatureArray = seq<seq<real>>

  /** FeatureHeader: what readers and writers exchange besides the features. */
  datatype FeatureHeader = FeatureHeader(
    featureType: string,
    frameLength: nat,
    paramsPerFrame: nat,
    wavFilename: string,
    timestamp: int)

  /** TransformOptions: zero-padded frame length, window type, pre-emphasis factor. */
  datatype TransformOptions = TransformOptions(zeroPaddedLength: nat, windowType: WindowType, preemphasisFactor: real)

  /**
   * What the extractors read from a WaveFile: its name, sample frequency,
   * zero-padded frame length and frames.
   */
  datatype Recording = Recording(filename: string, sampleFrequency: nat, samplesPerFrameZP: nat, frames: seq<Frame>)

  /** Every frame of the recording is a valid view of its channel. */
  predicate FramesValid(frames: seq<Frame>)
  {
    forall i :: 0 <= i < |frames| ==> frames[i].Valid()
  }

  // ------------------------------------------------------------ indicator

  /** A call a processing indicator receives. */
  datatype IndicatorCall = Start(min: int, max: int) | Progress(value: int) | Stop

  /** A ProcessingIndicator that records the calls it receives. */
  class TraceIndicator {
    var trace: seq<IndicatorCall>

    constructor()
      ensures trace == []
    {
      trace := [];
    }

    method Start(min: int, max: int)
      modifies this
      ensures trace == old(trace) + [IndicatorCall.Start(min, max)]
    {
      trace := trace + [IndicatorCall.Start(min, max)];
    }

    method Progress(value: int)
      modifies this
      ensures trace == old(trace) + [IndicatorCall.Progress(value)]
    {
      trace := trace + [IndicatorCall.Progress(value)];
    }

    method Stop()
      modifies this
      ensures trace == old(trace) + [IndicatorCall.Stop]
    {
      trace := trace + [IndicatorCall.Stop];
    }
  }

  /** progress(0), ..., progress(count - 1). */
  function ProgressCalls(count: nat): (t: seq<IndicatorCall>)
    ensures |t| == count && forall i :: 0 <= i < count ==> t[i] == Progress(i)
  {
    seq(count, i requires 0 <= i => Progress(i))
  }

  /**
   * The calls a process() of framesCount frames makes on its indicator:
   * start(0, framesCount - 1), one progress per frame, stop(). The unsigned
   * framesCount - 1 passed to the int parameter reads -1 for no frames.
   */
  function ProcessTrace(framesCount: nat): seq<IndicatorCall>
  {
    [Start(0, framesCount - 1)] + ProgressCalls(framesCount) + [Stop]
  }

  /**
   * The trace opens with the one start, closes with the one stop, and has
   * exactly the progress calls 0, 1, ..., framesCount - 1 in between, in
   * increasing order.
   */
  lemma ProcessTraceShape(framesCount: nat)
    ensures var t := ProcessTrace(framesCount);
      && |t| == framesCount + 2
      && t[0] == Start(0, framesCount - 1) && t[|t| - 1] == Stop
      && (forall j :: 1 <= j <= framesCount ==> t[j] == Progress(j - 1))
      && (forall j :: 0 <= j < |t| && t[j].Start? ==> j == 0)
      && (forall j :: 0 <= j < |t| && t[j].Stop? ==> j == |t| - 1)
      && (forall j, k :: 1 <= j < k <= framesCount ==> t[j].value < t[k].value)
  {
    var t := ProcessTrace(framesCount);
    assert forall j :: 1 <= j <= framesCount ==> t[j] == ProgressCalls(framesCount)[j - 1];
  }

  /** One more progress call extends the progress calls by one. */
  lemma ProgressCallsStep(before: seq<IndicatorCall>, count: nat)
    ensures before + ProgressCalls(count) + [Progress(count)] == before + ProgressCalls(count + 1)
  {
    assert ProgressCalls(count) + [Progress(count)] == ProgressCalls(count + 1);
  }

  /** A start call, then the progress calls and the stop, make up the process trace. */
  lemma ProcessTraceAppend(before: seq<IndicatorCall>, framesCount: nat)
    ensures before + [Start(0, framesCount - 1)] + ProgressCalls(framesCount) + [Stop] == before + ProcessTrace(framesCount)
  {
  }

  // -------------------------------------------------- readers and writers

  /**
   * A FeatureWriter: it records every write it receives and answers with a
   * fixed outcome (the file writing itself is not part of this model).
   */
  class FeatureWriter {
    const succeeds: bool
    var written: seq<(FeatureHeader, FeatureArray)>

    constructor(outcome: bool)
      ensures succeeds == outcome && written == []
    {
      succeeds := outcome;
      written := [];
    }

    method Write(hdr: FeatureHeader, featureArray: FeatureArray) returns (ok: bool)
      modifies this
      ensures written == old(written) + [(hdr, featureArray)] && ok == succeeds
    {
      written := written + [(hdr, featureArray)];
      ok := succeeds;
    }
  }

  /**
   * A FeatureReader over fixed contents: read fills in the header on success
   * and appends its feature vectors to the array it is given.
   */
  class FeatureReader {
    const succeeds: bool
    const header: FeatureHeader
    const vectors: FeatureArray

    constructor(outcome: bool, hdr: FeatureHeader, data: FeatureArray)
      ensures succeeds == outcome && header == hdr && vectors == data
    {
      succeeds := outcome;
      header := hdr;
      vectors := data;
    }

    method Read(hdr: FeatureHeader, featureArray: FeatureArray) returns (ok: bool, hdrOut: FeatureHeader, arrayOut: FeatureArray)
      ensures ok == succeeds && arrayOut == featureArray + vectors
      ensures hdrOut == if succeeds then header else hdr
    {
      ok := succeeds;
      hdrOut := if succeeds then header else hdr;
      arrayOut := featureArray + vectors;
    }
  }

  /**
   * std::vector::resize on the feature array: the first n entries are kept,
   * missing ones are empty vectors.
   */
  function Resize(a: FeatureArray, n: nat): (r: FeatureArray)
    ensures |r| == n
    ensures forall i :: 0 <= i < n && i < |a| ==> r[i] == a[i]
    ensures forall i :: |a| <= i < n ==> r[i] == []
  {
    if n <= |a| then a[..n] else a + seq(n - |a|, _ => [])
  }

  // ------------------------------------------------------------ extractor

  class Extractor {
    var frameLength: nat
    var paramsPerFrame: nat
    var featureArray: FeatureArray
    var featureType: string
    var wavFilename: string
    var timestamp: int
    var indicator: TraceIndicator?

    /** Extractor(frameLength, paramsPerFrame): type "", no indicator, no features. */
    constructor(frameLength: nat, paramsPerFrame: nat)
      ensures this.frameLength == frameLength && this.paramsPerFrame == paramsPerFrame
      ensures featureType == "" && indicator == null && featureArray == [] && wavFilename == ""
    {
      this.frameLength := frameLength;
      this.paramsPerFrame := paramsPerFrame;
      featureType := "";
      indicator := null;
      featureArray := [];
      wavFilename := "";
    }

    /** setProcessingIndicator. */
    method SetProcessingIndicator(ind: TraceIndicator?)
      modifies this`indicator
      ensures indicator == ind
    {
      indicator := ind;
    }

    /**
     * save: the writer receives a header of the type, frame length, params
     * per frame, file name and the current time (a parameter here), along
     * with the features; its answer is returned. The extractor is unchanged.
     */
    method Save(writer: FeatureWriter, now: int) returns (ok: bool)
      modifies writer
      ensures writer.written == old(writer.written) +
        [(FeatureHeader(featureType, frameLength, paramsPerFrame, wavFilename, now), featureArray)]
      ensures ok == writer.succeeds
    {
      var hdr := FeatureHeader(featureType, frameLength, paramsPerFrame, wavFilename, now);
      ok := writer.Write(hdr, featureArray);
    }

    /**
     * read: the features are cleared and refilled by the reader; only when
     * it succeeds are the five header fields copied in.
     */
    method Read(reader: FeatureReader) returns (ok: bool)
      modifies this`featureArray, this`featureType, this`frameLength, this`paramsPerFrame,
        this`wavFilename, this`timestamp
      ensures ok == reader.succeeds && featureArray == reader.vectors
      ensures ok ==> FeatureHeader(featureType, frameLength, paramsPerFrame, wavFilename, timestamp) == reader.header
      ensures !ok ==> (featureType == old(featureType) && frameLength == old(frameLength) &&
                       paramsPerFrame == old(paramsPerFrame) && wavFilename == old(wavFilename) &&
                       timestamp == old(timestamp))
    {
      var hdr := FeatureHeader("", 0, 0, "", 0);
      featureArray := [];
      var success, hdrOut, arrayOut := reader.Read(hdr, featureArray);
      featureArray := arrayOut;
      if success {
        featureType := hdrOut.featureType;
        frameLength := hdrOut.frameLength;
        paramsPerFrame := hdrOut.paramsPerFrame;
        wavFilename := hdrOut.wavFilename;
        timestamp := hdrOut.timestamp;
        ok := true;
      } else {
        ok := false;
      }
    }

    /** isCompatible: same type, same params per frame, same frame length. */
    predicate IsCompatible(other: Extractor)
      reads this, other
    {
      featureType == other.featureType && paramsPerFrame == other.paramsPerFrame && frameLength == other.frameLength
    }
  }

  /** Compatibility is an equivalence: reflexive, symmetric and transitive. */
  lemma CompatibilityIsEquivalence(a: Extractor, b: Extractor, c: Extractor)
    ensures a.IsCompatible(a)
    ensures a.IsCompatible(b) <==> b.IsCompatible(a)
    ensures a.IsCompatible(b) && b.IsCompatible(c) ==> a.IsCompatible(c)
  {
  }
}
