/**
 * Aquila::EnergyExtractor (tags/AQUILA_2_5_3/src/feature/EnergyExtractor.cpp):
 * one feature per frame, the frame's log energy.
 */
module EnergyExtractors {
  import opened Maths
  import opened Frames
  import opened Transform
  import opened Extractors

  class EnergyExtractor {
    /** The Extractor base-class part. */
    const core: Extractor

    /** EnergyExtractor(frameLength): paramsPerFrame 1, type "Energy". */
    constructor(frameLength: nat)
      ensures fresh(core)
      ensures core.featureType == "Energy" && core.frameLength == frameLength && core.paramsPerFrame == 1
      ensures core.indicator == null && core.featureArray == []
    {
      core := new Extractor(frameLength, 1);
      new;
      core.featureType := "Energy";
    }

    /**
     * process: the file name is taken from the recording, the feature array
     * is resized to the frame count and entry i becomes [frameLogEnergy(frame
     * i)]; an indicator, when set, sees start, one progress per frame, stop.
     * The transform options play no part in the energy.
     */
    method Process(m: Maths, wav: Recording, options: TransformOptions)
      requires FramesValid(wav.frames)
      modifies core`wavFilename, core`featureArray, core.indicator
      ensures core.wavFilename == wav.filename
      ensures |core.featureArray| == |wav.frames|
      ensures forall i :: 0 <= i < |wav.frames| ==> core.featureArray[i] == [FrameLogEnergy(m, wav.frames[i])]
      ensures core.indicator != null ==> core.indicator.trace == old(core.indicator.trace) + ProcessTrace(|wav.frames|)
    {
      core.wavFilename := wav.filename;
      var framesCount := |wav.frames|;
      core.featureArray := Resize(core.featureArray, framesCount);
      var indicator := core.indicator;
      if indicator != null {
        indicator.Start(0, framesCount - 1);
      }
      ghost var started := if indicator != null then indicator.trace else [];
      var i := 0;
      while i < framesCount
        invariant 0 <= i <= framesCount
        invariant core.wavFilename == wav.filename && |core.featureArray| == framesCount
        invariant forall j :: 0 <= j < i ==> core.featureArray[j] == [FrameLogEnergy(m, wav.frames[j])]
        invariant indicator != null ==> indicator.trace == started + ProgressCalls(i)
      {
        var params := [FrameLogEnergy(m, wav.frames[i])];
        core.featureArray := core.featureArray[i := params];
        if indicator != null {
          indicator.Progress(i);
          ProgressCallsStep(started, i);
        }
        i := i + 1;
      }
      if indicator != null {
        indicator.Stop();
        ProcessTraceAppend(old(indicator.trace), framesCount);
      }
    }
  }
}
