/**
 * Layer 1 after the classifier: the validity rule, the severity estimate, the final
 * score (classifier confidence plus the GPS adjustment, clamped to 0..100), the
 * user message, and the batch loop. The network's class and confidence, and every
 * pixel measurement the severity heuristics use, are inputs.
 */
module AiEngine {
  import opened Wrappers
  import opened Geo
  import ExifExtractor
  import Geocoding
  import LandmarkFinder
  import GpsVerifier

  /** The `confidence_threshold` the orchestrator constructs the engine with. */
  const ORCHESTRATOR_CONFIDENCE_THRESHOLD: real := 0.5

  /** Side of the square the severity heuristics resize the image to, and its area. */
  const ANALYSIS_SIZE: nat := 224
  const ANALYSIS_AREA: real := 50176.0

  // ---------------------------------------------------------------------------
  // Validity
  // ---------------------------------------------------------------------------

  /** A prediction is a civic issue when its class is not "other" and it is confident enough. */
  predicate IsValidIssue(predictedClass: string, confidence: real, threshold: real)
  {
    predictedClass != "other" && confidence >= threshold
  }

  // ---------------------------------------------------------------------------
  // Severity
  // ---------------------------------------------------------------------------

  datatype Severity = Small | Medium | Large
  {
    function Level(): (l: nat)
      ensures l <= 2
    {
      match this
      case Small => 0
      case Medium => 1
      case Large => 2
    }
  }

  /** The severity of a level, the inverse of `Level`. */
  function FromLevel(l: nat): (s: Severity)
    requires l <= 2
    ensures s.Level() == l
  {
    if l == 0 then Small else if l == 1 then Medium else Large
  }

  lemma FromLevelInvertsLevel(s: Severity)
    ensures FromLevel(s.Level()) == s
  {
  }

  /** The largest contour after thresholding: none, one with its area and bounding box, or the measurement raised. */
  datatype ContourMeasure = NoContours | Contour(area: real, width: nat, height: nat) | ContourFailed

  /**
   * `_estimate_severity_by_size`: averages the contour's and its bounding box's
   * share of the 224x224 image. Potholes are large above 25% or a side over 150
   * pixels, medium above 12% or a side over 80; garbage is large above 30% or a box
   * over 40%, medium above 15% or a box over 20%. No contour is small, an error medium.
   */
  function SeverityBySize(issueType: string, m: ContourMeasure): (s: Severity)
    ensures m.NoContours? ==> s == Small
    ensures m.ContourFailed? ==> s == Medium
    ensures issueType == "pothole" && m.Contour? && (m.width > 150 || m.height > 150) ==> s == Large
    ensures issueType != "pothole" && m.Contour? && (m.width * m.height) as real > 0.40 * ANALYSIS_AREA ==> s == Large
  {
    match m
    case NoContours => Small
    case ContourFailed => Medium
    case Contour(area, w, h) =>
      var coverage := area / ANALYSIS_AREA;
      var bboxCoverage := (w * h) as real / ANALYSIS_AREA;
      var avgCoverage := (coverage + bboxCoverage) / 2.0;
      if issueType == "pothole" then
        if avgCoverage > 0.25 || w > 150 || h > 150 then Large
        else if avgCoverage > 0.12 || w > 80 || h > 80 then Medium
        else Small
      else
        if avgCoverage > 0.30 || bboxCoverage > 0.40 then Large
        else if avgCoverage > 0.15 || bboxCoverage > 0.20 then Medium
        else Small
  }

  /** The pothole size rule, stated on the averaged coverage. */
  lemma PotholeSizeRule(area: real, w: nat, h: nat)
    ensures var avg := (area / ANALYSIS_AREA + (w * h) as real / ANALYSIS_AREA) / 2.0;
      var s := SeverityBySize("pothole", Contour(area, w, h));
      (s == Large <==> avg > 0.25 || w > 150 || h > 150) &&
      (s == Medium <==> !(avg > 0.25 || w > 150 || h > 150) && (avg > 0.12 || w > 80 || h > 80))
  {
  }

  /** The garbage size rule, stated on the averaged and the bounding-box coverage. */
  lemma GarbageSizeRule(area: real, w: nat, h: nat)
    ensures var bbox := (w * h) as real / ANALYSIS_AREA;
      var avg := (area / ANALYSIS_AREA + bbox) / 2.0;
      var s := SeverityBySize("garbage", Contour(area, w, h));
      (s == Large <==> avg > 0.30 || bbox > 0.40) &&
      (s == Medium <==> !(avg > 0.30 || bbox > 0.40) && (avg > 0.15 || bbox > 0.20)) &&
      (s == Small <==> !(avg > 0.15 || bbox > 0.20))
  {
  }

  lemma MultiplyMonotone(w1: nat, h1: nat, w2: nat, h2: nat)
    requires w1 <= w2 && h1 <= h2
    ensures w1 * h1 <= w2 * h2
  {
    assert w1 * h1 <= w2 * h1;
    assert w2 * h1 <= w2 * h2;
  }

  /** A bigger contour (larger area and bounding box) is never judged less severe. */
  lemma SeverityBySizeMonotone(t: string, a1: real, w1: nat, h1: nat, a2: real, w2: nat, h2: nat)
    requires a1 <= a2 && w1 <= w2 && h1 <= h2
    ensures SeverityBySize(t, Contour(a1, w1, h1)).Level() <= SeverityBySize(t, Contour(a2, w2, h2)).Level()
  {
    MultiplyMonotone(w1, h1, w2, h2);
    assert (w1 * h1) as real <= (w2 * h2) as real;
  }

  /** The pixel statistics of the feature heuristic, or the measurement raised. */
  datatype FeatureMeasure =
    | Features(darkRatio: real, edgeDensity: real, textureVariance: real, coverage: real)
    | FeaturesFailed

  /** The pothole feature score: dark-pixel share and edge density, weighted 0.6 / 0.4, in percent. */
  function PotholeFeatureScore(f: FeatureMeasure): real
    requires f.Features?
  {
    (f.darkRatio * 0.6 + f.edgeDensity * 0.4) * 100.0
  }

  /** The garbage feature score: texture variance over 100 and dark coverage, half each, in percent. */
  function GarbageFeatureScore(f: FeatureMeasure): real
    requires f.Features?
  {
    (f.textureVariance / 100.0 * 0.5 + f.coverage * 0.5) * 100.0
  }

  /**
   * `_estimate_severity_by_features`: pothole score above 15 is large, above 7
   * medium; garbage score above 20 large, above 10 medium; any other class, or an
   * error, medium.
   */
  function SeverityByFeatures(issueType: string, f: FeatureMeasure): (s: Severity)
    ensures issueType != "pothole" && issueType != "garbage" ==> s == Medium
    ensures f.FeaturesFailed? ==> s == Medium
    ensures issueType == "pothole" && f.Features? ==>
      (s == Large <==> PotholeFeatureScore(f) > 15.0) &&
      (s == Small <==> PotholeFeatureScore(f) <= 7.0)
    ensures issueType == "garbage" && f.Features? ==>
      (s == Large <==> GarbageFeatureScore(f) > 20.0) &&
      (s == Small <==> GarbageFeatureScore(f) <= 10.0)
  {
    match f
    case FeaturesFailed => Medium
    case Features(_, _, _, _) =>
      if issueType == "pothole" then
        var score := PotholeFeatureScore(f);
        if score > 15.0 then Large else if score > 7.0 then Medium else Small
      else if issueType == "garbage" then
        var score := GarbageFeatureScore(f);
        if score > 20.0 then Large else if score > 10.0 then Medium else Small
      else Medium
  }

  /**
   * `_estimate_severity`: the more severe of the two estimates. (Both estimators
   * catch their own errors, so the "medium" fallbacks of this function cannot be reached.)
   */
  function EstimateSeverity(issueType: string, size: ContourMeasure, features: FeatureMeasure): (s: Severity)
    ensures s.Level() >= SeverityBySize(issueType, size).Level()
    ensures s.Level() >= SeverityByFeatures(issueType, features).Level()
    ensures s == SeverityBySize(issueType, size) || s == SeverityByFeatures(issueType, features)
  {
    var sizeLevel := SeverityBySize(issueType, size).Level();
    var featureLevel := SeverityByFeatures(issueType, features).Level();
    FromLevel(if sizeLevel >= featureLevel then sizeLevel else featureLevel)
  }

  // ---------------------------------------------------------------------------
  // Final score
  // ---------------------------------------------------------------------------

  /** `max(0, min(100, ai_score + score_adjustment))`. */
  function FinalScore(aiScore: real, adjustment: int): (f: real)
    ensures 0.0 <= f <= 100.0
    ensures 0.0 <= aiScore + adjustment as real <= 100.0 ==> f == aiScore + adjustment as real
    ensures aiScore + adjustment as real < 0.0 ==> f == 0.0
    ensures aiScore + adjustment as real > 100.0 ==> f == 100.0
  {
    var raw := aiScore + adjustment as real;
    if raw < 0.0 then 0.0 else if raw > 100.0 then 100.0 else raw
  }

  /** A larger GPS adjustment never lowers the final score. */
  lemma FinalScoreMonotone(aiScore: real, a1: int, a2: int)
    requires a1 <= a2
    ensures FinalScore(aiScore, a1) <= FinalScore(aiScore, a2)
  {
  }

  // ---------------------------------------------------------------------------
  // User message
  // ---------------------------------------------------------------------------

  datatype Quality = Clear | Good | Acceptable

  /** A sentence appended to the detection message about the GPS verification. */
  datatype GpsNote = LocationVerified | LocationMatches | MinorMismatchNote(distanceKm: real)

  /** The message kinds of `_generate_message`, with the values they format. */
  datatype UserMessage =
    | SpoofingWarning(distanceKm: real, penalty: int)
    | NotCivicIssue
    | LowConfidence(confidencePct: real, predictedClass: string)
    | Detected(quality: Quality, predictedClass: string, confidencePct: real, notes: seq<GpsNote>)

  /** The quality word of a confident detection: at least 90% Clear, at least 70% Good, else Acceptable. */
  function QualityTier(confidencePct: real): (q: Quality)
    ensures q == Clear <==> confidencePct >= 90.0
    ensures q == Good <==> 70.0 <= confidencePct < 90.0
    ensures q == Acceptable <==> confidencePct < 70.0
  {
    if confidencePct >= 90.0 then Clear
    else if confidencePct >= 70.0 then Good
    else Acceptable
  }

  /** The note the verification status adds to a detection message, if any. */
  function NoteFor(gps: GpsVerifier.VerificationResult): seq<GpsNote>
  {
    match gps.status
    case Verified => [LocationVerified]
    case GoodMatch => [LocationMatches]
    case MinorMismatch => [MinorMismatchNote(gps.distanceKm.GetOr(0.0))]
    case _ => []
  }

  /** The message `_generate_message` chooses. */
  function MessageFor(predictedClass: string, confidence: real, isValid: bool, gps: GpsVerifier.VerificationResult): (m: UserMessage)
    ensures m.SpoofingWarning? <==> gps.isSpoofed
    ensures m.Detected? <==> !gps.isSpoofed && isValid
    ensures m.Detected? ==> m.predictedClass == predictedClass && m.confidencePct == confidence * 100.0
  {
    var pct := confidence * 100.0;
    if gps.isSpoofed then SpoofingWarning(gps.distanceKm.GetOr(0.0), gps.scoreAdjustment)
    else if !isValid then
      if predictedClass == "other" then NotCivicIssue else LowConfidence(pct, predictedClass)
    else Detected(QualityTier(pct), predictedClass, pct, NoteFor(gps))
  }

  /**
   * `_generate_message`: spoofing first, then the two refusals, then the detection
   * sentence extended by the verification note.
   */
  method GenerateMessage(predictedClass: string, confidence: real, isValid: bool, gps: GpsVerifier.VerificationResult)
    returns (m: UserMessage)
    ensures m == MessageFor(predictedClass, confidence, isValid, gps)
  {
    var confidencePct := confidence * 100.0;
    if gps.isSpoofed {
      return SpoofingWarning(gps.distanceKm.GetOr(0.0), gps.scoreAdjustment);
    }
    if !isValid {
      if predictedClass == "other" {
        return NotCivicIssue;
      }
      return LowConfidence(confidencePct, predictedClass);
    }
    var baseMessage := Detected(QualityTier(confidencePct), predictedClass, confidencePct, []);
    if gps.status == GpsVerifier.Verified {
      baseMessage := baseMessage.(notes := baseMessage.notes + [LocationVerified]);
    } else if gps.status == GpsVerifier.GoodMatch {
      baseMessage := baseMessage.(notes := baseMessage.notes + [LocationMatches]);
    } else if gps.status == GpsVerifier.MinorMismatch {
      baseMessage := baseMessage.(notes := baseMessage.notes + [MinorMismatchNote(gps.distanceKm.GetOr(0.0))]);
    }
    m := baseMessage;
  }

  /**
   * Message priority: a spoofing warning overrides everything; then an "other" class
   * is not a civic issue, any other invalid prediction is low confidence; a valid one
   * is a detection with at most one GPS note, matching the verification status.
   */
  lemma MessagePriority(predictedClass: string, confidence: real, isValid: bool, gps: GpsVerifier.VerificationResult)
    ensures var m := MessageFor(predictedClass, confidence, isValid, gps);
      (m.SpoofingWarning? <==> gps.isSpoofed) &&
      (m == NotCivicIssue <==> !gps.isSpoofed && !isValid && predictedClass == "other") &&
      (m.LowConfidence? <==> !gps.isSpoofed && !isValid && predictedClass != "other") &&
      (m.Detected? <==> !gps.isSpoofed && isValid) &&
      (m.Detected? ==>
        |m.notes| <= 1 && m.quality == QualityTier(confidence * 100.0) &&
        (m.notes == [] <==> gps.status !in {GpsVerifier.Verified, GpsVerifier.GoodMatch, GpsVerifier.MinorMismatch}))
  {
  }

  // ---------------------------------------------------------------------------
  // predict
  // ---------------------------------------------------------------------------

  /** What the classifier gives for an image: its top class and that class's probability. */
  datatype Inference = Inference(predictedClass: string, confidence: real)

  /**
   * One image as `predict` sees it: whether the path exists, the classifier's output
   * (None: opening, preprocessing or inference raised), the severity measurements and
   * the EXIF block.
   */
  datatype ImageInput = ImageInput(
    path: string,
    exists_: bool,
    inference: Option<Inference>,
    contour: ContourMeasure,
    features: FeatureMeasure,
    exif: ExifExtractor.ImageExif)

  /** The exceptions `predict` lets escape. */
  datatype PredictError = ImageNotFound | InferenceFailed

  datatype Outcome<T> = Ok(value: T) | Raised(error: PredictError)

  datatype Prediction = Prediction(
    predictedClass: string,
    confidencePct: real,
    aiScore: real,
    severity: Option<Severity>,
    isValidIssue: bool,
    gps: GpsVerifier.VerificationResult,
    finalScore: real,
    message: UserMessage)

  /** The prediction record for classifier output `inf`, given the GPS verification result. */
  function PredictionFrom(img: ImageInput, inf: Inference, threshold: real, gps: GpsVerifier.VerificationResult): (p: Prediction)
    ensures p.isValidIssue <==> inf.predictedClass != "other" && inf.confidence >= threshold
    ensures p.severity.Some? <==> p.isValidIssue
    ensures 0.0 <= p.finalScore <= 100.0
    ensures p.gps == gps
  {
    var valid := IsValidIssue(inf.predictedClass, inf.confidence, threshold);
    var severity := if valid then Some(EstimateSeverity(inf.predictedClass, img.contour, img.features)) else None;
    var aiScore := inf.confidence * 100.0;
    Prediction(inf.predictedClass, aiScore, aiScore, severity, valid, gps,
      FinalScore(aiScore, gps.scoreAdjustment),
      MessageFor(inf.predictedClass, inf.confidence, valid, gps))
  }

  /**
   * The end of `predict`, once validity, severity and the GPS verification are known:
   * the clamped final score, the message and the result record.
   */
  method BuildPrediction(
    img: ImageInput, inf: Inference, threshold: real,
    isValidIssue: bool, severity: Option<Severity>, gps: GpsVerifier.VerificationResult)
    returns (p: Prediction)
    requires isValidIssue == IsValidIssue(inf.predictedClass, inf.confidence, threshold)
    requires severity == if isValidIssue then Some(EstimateSeverity(inf.predictedClass, img.contour, img.features)) else None
    ensures p == PredictionFrom(img, inf, threshold, gps)
  {
    var aiScore := inf.confidence * 100.0;
    var finalScore := FinalScore(aiScore, gps.scoreAdjustment);
    var message := GenerateMessage(inf.predictedClass, inf.confidence, isValidIssue, gps);
    p := Prediction(inf.predictedClass, aiScore, aiScore, severity, isValidIssue, gps, finalScore, message);
  }

  /** Whether `predict` raises for an image, and with which error. */
  function PredictFailure(img: ImageInput): Option<PredictError>
  {
    if !img.exists_ then Some(ImageNotFound)
    else if img.inference.None? then Some(InferenceFailed)
    else None
  }

  /** The error entry of the batch output, or a full prediction. */
  datatype BatchEntry = Predicted(prediction: Prediction) | ErrorEntry(error: PredictError, imagePath: string)

  /**
   * What a batch entry says about its image: an error entry exactly when the
   * prediction raises, carrying that error and the image's path; otherwise the
   * prediction `predict` makes without submitted coordinates.
   */
  predicate EntryDescribes(
    entry: BatchEntry, img: ImageInput, threshold: real, distanceKm: Distance, distanceM: Distance,
    nominatim: Coord -> Geocoding.NominatimReply, overpass: Coord -> LandmarkFinder.OverpassReply)
  {
    (entry.ErrorEntry? <==> PredictFailure(img).Some?) &&
    (entry.ErrorEntry? ==> entry == ErrorEntry(PredictFailure(img).value, img.path)) &&
    (entry.Predicted? && img.inference.Some? ==>
      entry.prediction == PredictionFrom(img, img.inference.value, threshold, entry.prediction.gps) &&
      GpsVerifier.LocationResult(entry.prediction.gps, img.exif, None, None, distanceKm, distanceM, nominatim, overpass))
  }

  class AiEngineInstance {
    const confidenceThreshold: real
    const gpsVerifier: GpsVerifier.GpsVerifier

    constructor(threshold: real)
      ensures confidenceThreshold == threshold
      ensures fresh(gpsVerifier) && fresh(gpsVerifier.geocoder)
    {
      confidenceThreshold := threshold;
      gpsVerifier := new GpsVerifier.GpsVerifier();
    }

    /**
     * `predict`: a missing file raises before anything else; a failure while loading
     * or classifying is re-raised; otherwise severity is estimated for valid issues
     * only, the location is verified, and the prediction record is built.
     */
    method Predict(
      img: ImageInput, submittedLat: Option<real>, submittedLon: Option<real>,
      distanceKm: Distance, distanceM: Distance,
      nominatim: Coord -> Geocoding.NominatimReply, overpass: Coord -> LandmarkFinder.OverpassReply,
      clock: Geocoding.Clock)
      returns (r: Outcome<Prediction>)
      modifies gpsVerifier.geocoder, clock
      ensures PredictFailure(img).Some? ==> r == Raised(PredictFailure(img).value)
      ensures PredictFailure(img).Some? ==>
        clock.now == old(clock.now) && gpsVerifier.geocoder.lastRequestTime == old(gpsVerifier.geocoder.lastRequestTime)
      ensures PredictFailure(img).None? ==>
        r.Ok? &&
        r.value == PredictionFrom(img, img.inference.value, confidenceThreshold, r.value.gps) &&
        GpsVerifier.LocationResult(r.value.gps, img.exif, submittedLat, submittedLon, distanceKm, distanceM, nominatim, overpass)
    {
      if !img.exists_ {
        return Raised(ImageNotFound);
      }
      if img.inference.None? {
        return Raised(InferenceFailed);
      }
      var inf := img.inference.value;
      var isValidIssue := IsValidIssue(inf.predictedClass, inf.confidence, confidenceThreshold);
      var severity: Option<Severity> := None;
      if isValidIssue {
        severity := Some(EstimateSeverity(inf.predictedClass, img.contour, img.features));
      }
      var gps := gpsVerifier.VerifyLocation(img.exif, submittedLat, submittedLon, distanceKm, distanceM, nominatim, overpass, clock);
      var p := BuildPrediction(img, inf, confidenceThreshold, isValidIssue, severity, gps);
      r := Ok(p);
    }

    /**
     * `predict_batch`: one entry per image, in order, each predicted without submitted
     * coordinates; an image whose prediction raises becomes an error entry and the
     * batch goes on.
     */
    method PredictBatch(
      images: seq<ImageInput>, distanceKm: Distance, distanceM: Distance,
      nominatim: Coord -> Geocoding.NominatimReply, overpass: Coord -> LandmarkFinder.OverpassReply,
      clock: Geocoding.Clock)
      returns (results: seq<BatchEntry>)
      modifies gpsVerifier.geocoder, clock
      ensures |results| == |images|
      ensures forall i :: 0 <= i < |images| ==>
        EntryDescribes(results[i], images[i], confidenceThreshold, distanceKm, distanceM, nominatim, overpass)
    {
      results := [];
      var k := 0;
      while k < |images|
        invariant 0 <= k <= |images|
        invariant |results| == k
        invariant forall i :: 0 <= i < k ==>
          EntryDescribes(results[i], images[i], confidenceThreshold, distanceKm, distanceM, nominatim, overpass)
      {
        var outcome := Predict(images[k], None, None, distanceKm, distanceM, nominatim, overpass, clock);
        var entry;
        match outcome {
          case Ok(p) =>
            entry := Predicted(p);
          case Raised(e) =>
            entry := ErrorEntry(e, images[k].path);
        }
        assert EntryDescribes(entry, images[k], confidenceThreshold, distanceKm, distanceM, nominatim, overpass);
        results := results + [entry];
        k := k + 1;
      }
    }
  }
}
