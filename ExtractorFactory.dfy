/**
 * Aquila::ExtractorFactory (src/feature/ExtractorFactory.cpp): builds an
 * extractor from its feature-type name. "MFCC", "Energy" and "Power" are
 * known, matched by exact string equality in that order; any other name,
 * "HFCC" included, throws an Exception with the message
 * "Unknown feature type: " followed by the name. The exception is the
 * Failure case of a Result.
 */
module ExtractorFactory {
  import opened Extractors
  import opened MfccExtractors
  import opened EnergyExtractors
  import opened PowerExtractors

  datatype Result<T> = Success(value: T) | Failure(message: string)

  /** The extractor classes the factory can build. */
  datatype Kind = Mfcc | Energy | Power

  /** What the factory is to build: the class, its frame length and its parameters per frame. */
  datatype Plan = Plan(kind: Kind, frameLength: nat, paramsPerFrame: nat)

  /** The type name each class gives its extractor. */
  function KindName(k: Kind): (s: string)
  {
    match k
    case Mfcc => "MFCC"
    case Energy => "Energy"
    case Power => "Power"
  }

  /** The exception message for an unknown name. */
  function UnknownMessage(featureType: string): (s: string)
    ensures |s| == |"Unknown feature type: "| + |featureType|
    ensures s[|"Unknown feature type: "|..] == featureType
  {
    "Unknown feature type: " + featureType
  }

  /**
   * The factory's decision: an unknown name fails with its message; Energy
   * and Power are built with one parameter per frame, whatever was asked.
   */
  function PlanFor(featureType: string, frameLength: nat, paramsPerFrame: nat): (r: Result<Plan>)
    ensures r.Success? <==> featureType in {"MFCC", "Energy", "Power"}
    ensures r.Failure? ==> r.message == UnknownMessage(featureType)
    ensures r.Success? ==> KindName(r.value.kind) == featureType && r.value.frameLength == frameLength
    ensures r.Success? ==> r.value.paramsPerFrame == if featureType == "MFCC" then paramsPerFrame else 1
  {
    if "MFCC" == featureType then Success(Plan(Mfcc, frameLength, paramsPerFrame))
    else if "Energy" == featureType then Success(Plan(Energy, frameLength, 1))
    else if "Power" == featureType then Success(Plan(Power, frameLength, 1))
    else Failure(UnknownMessage(featureType))
  }

  /** HFCC is not among the factory's names. */
  lemma HfccIsUnknown(frameLength: nat, paramsPerFrame: nat)
    ensures PlanFor("HFCC", frameLength, paramsPerFrame) == Failure("Unknown feature type: HFCC")
  {
  }

  /**
   * The factory undoes the type name: for every class, its own name leads
   * back to it with the frame length given.
   */
  lemma PlanForKindName(k: Kind, frameLength: nat, paramsPerFrame: nat)
    ensures PlanFor(KindName(k), frameLength, paramsPerFrame).Success?
    ensures PlanFor(KindName(k), frameLength, paramsPerFrame).value.kind == k
    ensures PlanFor(KindName(k), frameLength, paramsPerFrame).value.frameLength == frameLength
  {
  }

  /** The object getExtractor returns, by class. */
  datatype Made =
    | MadeMfcc(mfcc: MfccExtractor)
    | MadeEnergy(energy: EnergyExtractor)
    | MadePower(power: PowerExtractor)
  {
    /** The Extractor base-class part of the object. */
    function Core(): Extractor
    {
      match this
      case MadeMfcc(e) => e.core
      case MadeEnergy(e) => e.core
      case MadePower(e) => e.core
    }

    /** The class of the object. */
    function KindOf(): Kind
    {
      match this
      case MadeMfcc(_) => Mfcc
      case MadeEnergy(_) => Energy
      case MadePower(_) => Power
    }
  }

  /**
   * getExtractor(featureType, frameLength, paramsPerFrame): a new
   * extractor of the class PlanFor names, with the type, frame length and
   * parameters per frame it names, or the exception PlanFor gives.
   */
  method GetExtractor(featureType: string, frameLength: nat, paramsPerFrame: nat) returns (r: Result<Made>)
    ensures r.Failure? <==> PlanFor(featureType, frameLength, paramsPerFrame).Failure?
    ensures r.Failure? ==> r.message == UnknownMessage(featureType)
    ensures r.Success? ==>
      var plan := PlanFor(featureType, frameLength, paramsPerFrame).value;
      && fresh(r.value.Core())
      && r.value.KindOf() == plan.kind
      && r.value.Core().featureType == featureType
      && r.value.Core().frameLength == plan.frameLength
      && r.value.Core().paramsPerFrame == plan.paramsPerFrame
      && r.value.Core().indicator == null && r.value.Core().featureArray == []
  {
    if "MFCC" == featureType {
      var e := new MfccExtractor(frameLength, paramsPerFrame);
      r := Success(MadeMfcc(e));
    } else if "Energy" == featureType {
      var e := new EnergyExtractor(frameLength);
      r := Success(MadeEnergy(e));
    } else if "Power" == featureType {
      var e := new PowerExtractor(frameLength);
      r := Success(MadePower(e));
    } else {
      r := Failure("Unknown feature type: " + featureType);
    }
  }

  /** getExtractor(hdr): getExtractor on the header's type, frame length and parameters per frame. */
  method GetExtractorFor(hdr: FeatureHeader) returns (r: Result<Made>)
    ensures r.Failure? <==> PlanFor(hdr.featureType, hdr.frameLength, hdr.paramsPerFrame).Failure?
    ensures r.Failure? ==> r.message == UnknownMessage(hdr.featureType)
    ensures r.Success? ==>
      var plan := PlanFor(hdr.featureType, hdr.frameLength, hdr.paramsPerFrame).value;
      && fresh(r.value.Core())
      && r.value.KindOf() == plan.kind
      && r.value.Core().featureType == hdr.featureType
      && r.value.Core().frameLength == plan.frameLength
      && r.value.Core().paramsPerFrame == plan.paramsPerFrame
      && r.value.Core().indicator == null && r.value.Core().featureArray == []
  {
    r := GetExtractor(hdr.featureType, hdr.frameLength, hdr.paramsPerFrame);
  }
}
