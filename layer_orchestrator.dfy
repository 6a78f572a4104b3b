/**
 * The report agent's accept/reject decision: Layer 0 (image quality) first, and only
 * if it passes, Layer 1 (classification and GPS verification). Acceptance depends on
 * nothing but the two validity verdicts; the final score and the spoofing penalty
 * are reported, never used to reject.
 */
module LayerOrchestrator {
  import opened Wrappers
  import opened Geo
  import InputValidator
  import Geocoding
  import LandmarkFinder
  import ExifExtractor
  import GpsVerifier
  import AiEngine

  datatype AgentDecision = Accepted | Rejected

  /** The `errors` entries: Layer 0's messages, or the single no-civic-issue error. */
  datatype ReportError =
    | ValidationError(message: InputValidator.Message)
    | NoValidIssue(predictedClass: string, confidencePct: real)

  /** The `agent_reason` texts; an accepted report carries the AI's user message. */
  datatype AgentReason =
    | QualityValidationFailed
    | LowConfidenceOrNotCivic
    | AiMessage(message: AiEngine.UserMessage)

  datatype Decision = Decision(
    passed: bool,
    errors: seq<ReportError>,
    warnings: seq<InputValidator.Message>,
    layer0: InputValidator.ValidationResult,
    layer1: Option<AiEngine.Prediction>,
    finalScore: real,
    agentDecision: AgentDecision,
    agentReason: AgentReason)

  function AsErrors(ms: seq<InputValidator.Message>): (es: seq<ReportError>)
    ensures |es| == |ms|
    ensures forall i :: 0 <= i < |ms| ==> es[i] == ValidationError(ms[i])
  {
    if ms == [] then [] else [ValidationError(ms[0])] + AsErrors(ms[1..])
  }

  /** The rejection returned when Layer 0 fails. */
  function Layer0Rejection(v: InputValidator.ValidationResult): (d: Decision)
    ensures !d.passed && d.layer1.None? && d.finalScore == 0.0 && d.agentDecision == Rejected
    ensures |d.errors| == |v.errors| && d.warnings == v.warnings && d.layer0 == v
  {
    Decision(false, AsErrors(v.errors), v.warnings, v, None, 0.0, Rejected, QualityValidationFailed)
  }

  /** The decision once Layer 0 has passed and Layer 1 has produced `ai`. */
  function Layer1Decision(v: InputValidator.ValidationResult, ai: AiEngine.Prediction): (d: Decision)
    ensures d.passed <==> ai.isValidIssue
    ensures d.passed <==> d.errors == []
    ensures d.agentDecision == (if ai.isValidIssue then Accepted else Rejected)
    ensures d.layer1 == Some(ai) && d.finalScore == ai.finalScore && d.warnings == v.warnings
  {
    if !ai.isValidIssue then
      Decision(false, [NoValidIssue(ai.predictedClass, ai.confidencePct)], v.warnings, v, Some(ai),
        ai.finalScore, Rejected, LowConfidenceOrNotCivic)
    else
      Decision(true, [], v.warnings, v, Some(ai), ai.finalScore, Accepted, AiMessage(ai.message))
  }

  /**
   * `process_report` given the Layer 0 result and, when Layer 0 passes, what Layer 1
   * does; an exception from Layer 1 propagates.
   */
  function Decide(v: InputValidator.ValidationResult, ai: AiEngine.Outcome<AiEngine.Prediction>): (r: AiEngine.Outcome<Decision>)
    ensures !v.isValid ==> r.Ok? && !r.value.passed && r.value.layer1.None?
    ensures v.isValid && ai.Raised? ==> r == AiEngine.Raised(ai.error)
    ensures v.isValid && ai.Ok? ==> r.Ok? && (r.value.passed <==> ai.value.isValidIssue) && r.value.layer1 == Some(ai.value)
  {
    if !v.isValid then AiEngine.Ok(Layer0Rejection(v))
    else
      match ai
      case Raised(e) => AiEngine.Raised(e)
      case Ok(p) => AiEngine.Ok(Layer1Decision(v, p))
  }

  /** A failed Layer 0 rejects with its own errors, no Layer 1 result and a zero score, whatever Layer 1 would say. */
  lemma Layer0FailureShortCircuits(v: InputValidator.ValidationResult, ai: AiEngine.Outcome<AiEngine.Prediction>)
    requires !v.isValid
    ensures Decide(v, ai).Ok?
    ensures var d := Decide(v, ai).value;
      !d.passed && d.errors == AsErrors(v.errors) && d.layer1.None? && d.finalScore == 0.0 &&
      d.agentDecision == Rejected && d.agentReason == QualityValidationFailed
  {
  }

  /** A passed Layer 0 with an invalid issue rejects with exactly one error and keeps the AI's score. */
  lemma InvalidIssueRejects(v: InputValidator.ValidationResult, p: AiEngine.Prediction)
    requires v.isValid && !p.isValidIssue
    ensures var d := Decide(v, AiEngine.Ok(p)).value;
      !d.passed && |d.errors| == 1 && d.errors[0].NoValidIssue? && d.finalScore == p.finalScore && d.layer1 == Some(p)
  {
  }

  /** The report passes exactly when both layers judge it valid; an accepted report has no errors. */
  lemma PassedIff(v: InputValidator.ValidationResult, ai: AiEngine.Outcome<AiEngine.Prediction>)
    requires Decide(v, ai).Ok?
    ensures var d := Decide(v, ai).value;
      (d.passed <==> v.isValid && ai.Ok? && ai.value.isValidIssue) &&
      (d.agentDecision == Rejected <==> !d.passed) &&
      (d.passed ==> d.errors == [] && d.agentDecision == Accepted) &&
      d.warnings == v.warnings && d.layer0 == v
  {
  }

  /**
   * Neither a GPS penalty nor a low final score rejects by itself: two predictions
   * that agree on validity get the same verdict, whatever their scores and GPS results.
   */
  lemma ScoreNeverDecides(v: InputValidator.ValidationResult, p: AiEngine.Prediction, q: AiEngine.Prediction)
    requires p.isValidIssue == q.isValidIssue
    ensures Decide(v, AiEngine.Ok(p)).value.passed == Decide(v, AiEngine.Ok(q)).value.passed
    ensures Decide(v, AiEngine.Ok(p)).value.agentDecision == Decide(v, AiEngine.Ok(q)).value.agentDecision
  {
  }

  /**
   * The end-to-end rule: with the orchestrator's threshold of 0.5, a report whose
   * prediction succeeds passes exactly when Layer 0's five critical checks pass and
   * the classifier is at least 50% sure of a class other than "other".
   */
  lemma AcceptanceRule(m: InputValidator.Measurements, img: AiEngine.ImageInput, gps: GpsVerifier.VerificationResult)
    requires AiEngine.PredictFailure(img).None?
    ensures var p := AiEngine.PredictionFrom(img, img.inference.value, AiEngine.ORCHESTRATOR_CONFIDENCE_THRESHOLD, gps);
      var d := Decide(InputValidator.Validate(m), AiEngine.Ok(p)).value;
      d.passed <==>
        (m.file == InputValidator.Decodable &&
         m.image.Some? && m.image.value.width >= InputValidator.MIN_WIDTH && m.image.value.height >= InputValidator.MIN_HEIGHT &&
         m.laplacianVariance.Some? && m.laplacianVariance.value >= InputValidator.MIN_BLUR_SCORE &&
         m.meanIntensity.Some? && InputValidator.MIN_BRIGHTNESS <= m.meanIntensity.value <= InputValidator.MAX_BRIGHTNESS &&
         m.latitude.Some? && m.longitude.Some? && InputValidator.InRegion(m.latitude.value, m.longitude.value) &&
         img.inference.value.predictedClass != "other" && img.inference.value.confidence >= 0.5)
  {
    InputValidator.ValidIff(m);
  }

  /**
   * The service region lies inside the verifier's coordinate range, so the
   * submitted coordinates of a report that passed Layer 0 are never rejected by
   * the verifier as invalid: its result is always about a measured distance
   * (or about the photo lacking GPS).
   */
  lemma PassedLayer0SubmitsValidGps(
    m: InputValidator.Measurements, exif: ExifExtractor.ImageExif, distanceKm: Distance,
    nominatim: Coord -> Geocoding.NominatimReply, landmarks: seq<LandmarkFinder.Landmark>)
    requires InputValidator.Validate(m).isValid
    ensures IsValidCoordinate(m.latitude.value, m.longitude.value)
    ensures var r := GpsVerifier.VerifySpec(exif, m.latitude, m.longitude, distanceKm, nominatim, landmarks);
      r.status != GpsVerifier.InvalidSubmittedGps &&
      (r.hasPhotoGps ==> r.distanceKm.Some? && r.submittedGps == Some(Coord(m.latitude.value, m.longitude.value)))
  {
    InputValidator.ValidIff(m);
  }

  class Orchestrator {
    const aiEngine: AiEngine.AiEngineInstance

    /** The orchestrator builds its engine with a confidence threshold of 0.5. */
    constructor()
      ensures aiEngine.confidenceThreshold == AiEngine.ORCHESTRATOR_CONFIDENCE_THRESHOLD
      ensures fresh(aiEngine) && fresh(aiEngine.gpsVerifier) && fresh(aiEngine.gpsVerifier.geocoder)
    {
      aiEngine := new AiEngine.AiEngineInstance(AiEngine.ORCHESTRATOR_CONFIDENCE_THRESHOLD);
    }

    /**
     * `process_report`: validate (the measurements carry the submitted latitude and
     * longitude), stop on failure without running Layer 1, otherwise predict and decide.
     */
    method ProcessReport(
      m: InputValidator.Measurements, img: AiEngine.ImageInput,
      distanceKm: Distance, distanceM: Distance,
      nominatim: Coord -> Geocoding.NominatimReply, overpass: Coord -> LandmarkFinder.OverpassReply,
      clock: Geocoding.Clock)
      returns (r: AiEngine.Outcome<Decision>)
      modifies aiEngine.gpsVerifier.geocoder, clock
      ensures !InputValidator.Validate(m).isValid ==>
        r == AiEngine.Ok(Layer0Rejection(InputValidator.Validate(m))) &&
        clock.now == old(clock.now) &&
        aiEngine.gpsVerifier.geocoder.lastRequestTime == old(aiEngine.gpsVerifier.geocoder.lastRequestTime)
      ensures InputValidator.Validate(m).isValid && AiEngine.PredictFailure(img).Some? ==>
        r == AiEngine.Raised(AiEngine.PredictFailure(img).value)
      ensures InputValidator.Validate(m).isValid && AiEngine.PredictFailure(img).None? ==>
        r.Ok? && r.value.layer1.Some? &&
        r.value == Layer1Decision(InputValidator.Validate(m), r.value.layer1.value) &&
        r.value.layer1.value == AiEngine.PredictionFrom(img, img.inference.value, aiEngine.confidenceThreshold, r.value.layer1.value.gps) &&
        GpsVerifier.LocationResult(r.value.layer1.value.gps, img.exif, m.latitude, m.longitude, distanceKm, distanceM, nominatim, overpass)
    {
      var validation := InputValidator.ValidateAll(m);
      if !validation.isValid {
        return AiEngine.Ok(Layer0Rejection(validation));
      }
      r := RunLayer1(validation, img, m.latitude, m.longitude, distanceKm, distanceM, nominatim, overpass, clock);
    }

    /** The Layer 1 half of `process_report`, once Layer 0 has produced `validation`. */
    method RunLayer1(
      validation: InputValidator.ValidationResult, img: AiEngine.ImageInput,
      submittedLat: Option<real>, submittedLon: Option<real>,
      distanceKm: Distance, distanceM: Distance,
      nominatim: Coord -> Geocoding.NominatimReply, overpass: Coord -> LandmarkFinder.OverpassReply,
      clock: Geocoding.Clock)
      returns (r: AiEngine.Outcome<Decision>)
      modifies aiEngine.gpsVerifier.geocoder, clock
      ensures AiEngine.PredictFailure(img).Some? ==> r == AiEngine.Raised(AiEngine.PredictFailure(img).value)
      ensures AiEngine.PredictFailure(img).None? ==>
        r.Ok? && r.value.layer1.Some? &&
        r.value == Layer1Decision(validation, r.value.layer1.value) &&
        r.value.layer1.value == AiEngine.PredictionFrom(img, img.inference.value, aiEngine.confidenceThreshold, r.value.layer1.value.gps) &&
        GpsVerifier.LocationResult(r.value.layer1.value.gps, img.exif, submittedLat, submittedLon, distanceKm, distanceM, nominatim, overpass)
    {
      var ai := aiEngine.Predict(img, submittedLat, submittedLon, distanceKm, distanceM, nominatim, overpass, clock);
      match ai {
        case Raised(e) =>
          r := AiEngine.Raised(e);
        case Ok(p) =>
          r := AiEngine.Ok(Layer1Decision(validation, p));
      }
    }
  }
}
