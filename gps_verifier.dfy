/**
 * GPS spoofing detection: compare the position in the photo's EXIF with the position
 * the user submitted, look up addresses and nearby landmarks, and turn the distance
 * and the landmark count into a score adjustment.
 */
module GpsVerifier {
  import opened Wrappers
  import opened Geo
  import opened LandmarkConfig
  import ExifExtractor
  import Geocoding
  import LandmarkFinder

  datatype Status =
    | Unknown | NoGpsInPhoto | InvalidSubmittedGps
    | SpoofingDetected | Verified | GoodMatch | MinorMismatch

  /** The `penalty_reason` texts, with the numbers they format. */
  datatype Reason =
    | NoReason
    | ErrorNoGps
    | ErrorInvalidSubmittedGps
    | WarningSpoofing(distanceKm: real)
    | SuccessVerified(landmarks: nat)
    | SuccessMatch(distanceKm: real)
    | WarningMismatch(distanceKm: real)

  datatype Adjustment = Adjustment(score: int, isSpoofed: bool, status: Status, reason: Reason)

  /**
   * `_calculate_score_adjustment`: spoofing above 5 km; verified below 0.5 km with at
   * least two landmarks; a good match below 0.5 km otherwise; a penalty truncated
   * from -10 * d / 5 between 0.5 km and 5 km; and at exactly 5 km nothing.
   */
  function ScoreAdjustment(distanceKm: real, landmarks: nat): (a: Adjustment)
    ensures a.isSpoofed <==> a.status == SpoofingDetected
  {
    if distanceKm > SPOOFING_THRESHOLD_KM then
      Adjustment(SPOOFING_PENALTY, true, SpoofingDetected, WarningSpoofing(distanceKm))
    else if distanceKm < VERIFIED_THRESHOLD_KM && landmarks >= 2 then
      Adjustment(VERIFIED_BONUS, false, Verified, SuccessVerified(landmarks))
    else if distanceKm < VERIFIED_THRESHOLD_KM then
      Adjustment(0, false, GoodMatch, SuccessMatch(distanceKm))
    else if distanceKm < SPOOFING_THRESHOLD_KM then
      Adjustment(TruncateTowardZero(-10.0 * (distanceKm / SPOOFING_THRESHOLD_KM)), false, MinorMismatch, WarningMismatch(distanceKm))
    else
      Adjustment(0, false, Unknown, NoReason)
  }

  /** `int(x)` keeps order. */
  lemma TruncateMonotone(x: real, y: real)
    requires x <= y
    ensures TruncateTowardZero(x) <= TruncateTowardZero(y)
  {
  }

  /** Which band a distance falls in, for any landmark count. */
  lemma ScoreAdjustmentBands(d: real, n: nat)
    ensures ScoreAdjustment(d, n).status == SpoofingDetected <==> d > 5.0
    ensures ScoreAdjustment(d, n).status == Verified <==> d < 0.5 && n >= 2
    ensures ScoreAdjustment(d, n).status == GoodMatch <==> d < 0.5 && n < 2
    ensures ScoreAdjustment(d, n).status == MinorMismatch <==> 0.5 <= d < 5.0
    ensures ScoreAdjustment(d, n).status == Unknown <==> d == 5.0
    ensures ScoreAdjustment(d, n).status == Unknown ==> ScoreAdjustment(d, n) == Adjustment(0, false, Unknown, NoReason)
  {
  }

  /** The minor-mismatch penalty is between -9 and -1: -10 itself is never reached. */
  lemma MinorMismatchPenaltyRange(d: real, n: nat)
    requires 0.5 <= d < 5.0
    ensures -9 <= ScoreAdjustment(d, n).score <= -1
  {
    var x := -10.0 * (d / SPOOFING_THRESHOLD_KM);
    assert x == -2.0 * d;
    var r := TruncateTowardZero(x);
    assert r as real - 1.0 < x <= r as real;
  }

  /** Every adjustment lies between the spoofing penalty and the verified bonus. */
  lemma ScoreAdjustmentBounds(d: real, n: nat)
    ensures SPOOFING_PENALTY <= ScoreAdjustment(d, n).score <= VERIFIED_BONUS
    ensures ScoreAdjustment(d, n).score < 0 <==> d > 5.0 || 0.5 <= d < 5.0
  {
    if 0.5 <= d < 5.0 {
      MinorMismatchPenaltyRange(d, n);
    }
  }

  /** Within the minor-mismatch band a larger distance never earns a smaller penalty. */
  lemma MinorMismatchMonotone(d1: real, d2: real, n: nat)
    requires 0.5 <= d1 <= d2 < 5.0
    ensures ScoreAdjustment(d2, n).score <= ScoreAdjustment(d1, n).score
  {
    TruncateMonotone(-10.0 * (d2 / SPOOFING_THRESHOLD_KM), -10.0 * (d1 / SPOOFING_THRESHOLD_KM));
  }

  /**
   * The adjustment is not monotone at the spoofing threshold: just under 5 km costs
   * points, exactly 5 km costs none, and just over costs 50.
   */
  lemma GapAtSpoofingThreshold(n: nat)
    ensures ScoreAdjustment(4.9, n).score == -9
    ensures ScoreAdjustment(5.0, n).score == 0
    ensures ScoreAdjustment(5.1, n).score == -50
  {
    assert -10.0 * (4.9 / SPOOFING_THRESHOLD_KM) == -9.8;
    assert (9.8).Floor == 9;
  }

  /** The `result` dictionary of `verify_location`. */
  datatype VerificationResult = VerificationResult(
    hasPhotoGps: bool,
    photoGps: Option<Coord>,
    submittedGps: Option<Coord>,
    photoAddress: Option<string>,
    submittedAddress: Option<string>,
    distanceKm: Option<real>,
    nearbyLandmarks: seq<LandmarkFinder.Landmark>,
    isSpoofed: bool,
    scoreAdjustment: int,
    penaltyReason: Reason,
    status: Status)

  /** The result as it stands before anything is known. */
  const Initial: VerificationResult :=
    VerificationResult(false, None, None, None, None, None, [], false, NO_GPS_PENALTY, NoReason, Unknown)

  /** The short address as stored: only a non-empty one. */
  function Stored(address: Option<string>): Option<string>
  {
    if address.Some? && address.value != "" then address else None
  }

  /** The short address the geocoder returns for `c`. */
  function ShortAddressFor(c: Coord, nominatim: Coord -> Geocoding.NominatimReply): Option<string>
  {
    match Geocoding.ReverseGeocodeSpec(c, nominatim(c))
    case None => None
    case Some(a) => Some(Geocoding.ShortAddress(a))
  }

  /**
   * The value of `verify_location` for a photo whose EXIF is `exif`, the submitted
   * coordinates, the distance in km, the geocoder's replies and the landmarks found
   * around the photo's position.
   */
  function VerifySpec(
    exif: ExifExtractor.ImageExif, submittedLat: Option<real>, submittedLon: Option<real>,
    distanceKm: Distance, nominatim: Coord -> Geocoding.NominatimReply,
    landmarks: seq<LandmarkFinder.Landmark>): (r: VerificationResult)
    ensures r.hasPhotoGps <==> ExifExtractor.ExtractGpsSpec(exif).Some?
    ensures r.hasPhotoGps ==> r.photoGps == Some(Coord(ExifExtractor.ExtractGpsSpec(exif).value.latitude, ExifExtractor.ExtractGpsSpec(exif).value.longitude))
    ensures r.distanceKm.Some? ==> r.nearbyLandmarks == landmarks && r.submittedGps.Some?
  {
    match ExifExtractor.ExtractGpsSpec(exif)
    case None => Initial.(status := NoGpsInPhoto, penaltyReason := ErrorNoGps)
    case Some(gps) =>
      var photo := Coord(gps.latitude, gps.longitude);
      var withPhoto := Initial.(photoGps := Some(photo), hasPhotoGps := true);
      if submittedLat.Some? && submittedLon.Some? && !IsValidCoordinate(submittedLat.value, submittedLon.value) then
        withPhoto.(status := InvalidSubmittedGps, penaltyReason := ErrorInvalidSubmittedGps)
      else
        var target := if submittedLat.Some? && submittedLon.Some? then Coord(submittedLat.value, submittedLon.value) else photo;
        var d := distanceKm(photo, target);
        var photoAddress := Stored(ShortAddressFor(photo, nominatim));
        var submittedAddress := if d > 0.1 then Stored(ShortAddressFor(target, nominatim)) else photoAddress;
        var adj := ScoreAdjustment(d, |landmarks|);
        VerificationResult(true, Some(photo), Some(target), photoAddress, submittedAddress, Some(d),
          landmarks, adj.isSpoofed, adj.score, adj.reason, adj.status)
  }

  /**
   * What `verify_location` promises of its result `r`: it is `VerifySpec` of its
   * inputs for the landmarks it found, and once a distance has been measured those
   * landmarks are the nearest of the ones parsed around the photo's position: at
   * most five, sorted by distance, drawn from the Overpass reply, and none of the
   * parsed landmarks left out is nearer than one kept.
   */
  predicate LocationResult(
    r: VerificationResult,
    exif: ExifExtractor.ImageExif, submittedLat: Option<real>, submittedLon: Option<real>,
    distanceKm: Distance, distanceM: Distance,
    nominatim: Coord -> Geocoding.NominatimReply, overpass: Coord -> LandmarkFinder.OverpassReply)
  {
    r == VerifySpec(exif, submittedLat, submittedLon, distanceKm, nominatim, r.nearbyLandmarks) &&
    (r.distanceKm.Some? ==>
      r.photoGps.Some? &&
      var found := LandmarkFinder.ParsedFrom(overpass(r.photoGps.value), r.photoGps.value, distanceM);
      |r.nearbyLandmarks| == LandmarkFinder.MinNat(MAX_LANDMARKS_RETURN, |found|) &&
      LandmarkFinder.SortedByDistance(r.nearbyLandmarks) &&
      multiset(r.nearbyLandmarks) <= multiset(found) &&
      forall y, x :: y in r.nearbyLandmarks && x in multiset(found) - multiset(r.nearbyLandmarks) ==>
        y.distanceM <= x.distanceM)
  }

  /**
   * Within 0.5 km the location is verified (10 points) exactly when the landmark
   * search around the photo found at least two landmarks, and otherwise a good
   * match (no points).
   */
  lemma VerifiedIffTwoLandmarksFound(
    r: VerificationResult,
    exif: ExifExtractor.ImageExif, sLat: Option<real>, sLon: Option<real>,
    distanceKm: Distance, distanceM: Distance,
    nominatim: Coord -> Geocoding.NominatimReply, overpass: Coord -> LandmarkFinder.OverpassReply)
    requires LocationResult(r, exif, sLat, sLon, distanceKm, distanceM, nominatim, overpass)
    requires r.distanceKm.Some? && r.distanceKm.value < VERIFIED_THRESHOLD_KM
    ensures var found := LandmarkFinder.ParsedFrom(overpass(r.photoGps.value), r.photoGps.value, distanceM);
      (r.status == Verified <==> |found| >= 2) &&
      (r.status == GoodMatch <==> |found| < 2) &&
      r.scoreAdjustment == (if |found| >= 2 then VERIFIED_BONUS else 0)
  {
    var gps := ExifExtractor.ExtractGpsSpec(exif).value;
    var photo := Coord(gps.latitude, gps.longitude);
    var target := if sLat.Some? && sLon.Some? then Coord(sLat.value, sLon.value) else photo;
    assert r.distanceKm == Some(distanceKm(photo, target));
    ScoreAdjustmentBands(r.distanceKm.value, |r.nearbyLandmarks|);
  }

  /** Without a GPS position in the photo, nothing else is looked at and nothing is adjusted. */
  lemma NoPhotoGpsSkipsVerification(
    exif: ExifExtractor.ImageExif, sLat: Option<real>, sLon: Option<real>,
    distanceKm: Distance, nominatim: Coord -> Geocoding.NominatimReply, landmarks: seq<LandmarkFinder.Landmark>)
    requires ExifExtractor.ExtractGpsSpec(exif).None?
    ensures var r := VerifySpec(exif, sLat, sLon, distanceKm, nominatim, landmarks);
      r.status == NoGpsInPhoto && r.scoreAdjustment == 0 && !r.hasPhotoGps && !r.isSpoofed &&
      r.distanceKm.None? && r.nearbyLandmarks == [] && r.penaltyReason == ErrorNoGps
  {
  }

  /** Submitted coordinates out of range stop the verification before any distance is measured. */
  lemma InvalidSubmittedStopsEarly(
    exif: ExifExtractor.ImageExif, sLat: real, sLon: real,
    distanceKm: Distance, nominatim: Coord -> Geocoding.NominatimReply, landmarks: seq<LandmarkFinder.Landmark>)
    requires ExifExtractor.ExtractGpsSpec(exif).Some?
    requires !IsValidCoordinate(sLat, sLon)
    ensures var r := VerifySpec(exif, Some(sLat), Some(sLon), distanceKm, nominatim, landmarks);
      r.status == InvalidSubmittedGps && r.scoreAdjustment == 0 && r.hasPhotoGps &&
      r.distanceKm.None? && r.submittedGps.None? && r.nearbyLandmarks == []
  {
  }

  /** Without (both) submitted coordinates the photo is compared with itself. */
  lemma MissingSubmittedUsesPhoto(
    exif: ExifExtractor.ImageExif, sLat: Option<real>, sLon: Option<real>,
    distanceKm: Distance, nominatim: Coord -> Geocoding.NominatimReply, landmarks: seq<LandmarkFinder.Landmark>)
    requires ExifExtractor.ExtractGpsSpec(exif).Some?
    requires sLat.None? || sLon.None?
    ensures var r := VerifySpec(exif, sLat, sLon, distanceKm, nominatim, landmarks);
      r.submittedGps == r.photoGps &&
      r.distanceKm == Some(distanceKm(r.photoGps.value, r.photoGps.value))
  {
  }

  /** Spoofing is reported exactly when the distance exceeds 5 km, and then costs 50 points. */
  lemma SpoofedIffFar(
    exif: ExifExtractor.ImageExif, sLat: Option<real>, sLon: Option<real>,
    distanceKm: Distance, nominatim: Coord -> Geocoding.NominatimReply, landmarks: seq<LandmarkFinder.Landmark>)
    ensures var r := VerifySpec(exif, sLat, sLon, distanceKm, nominatim, landmarks);
      (r.isSpoofed <==> r.status == SpoofingDetected) &&
      (r.isSpoofed <==> r.distanceKm.Some? && r.distanceKm.value > SPOOFING_THRESHOLD_KM) &&
      (r.isSpoofed ==> r.scoreAdjustment == SPOOFING_PENALTY)
  {
  }

  /** The verifier's adjustment always lies in [-50, 10]. */
  lemma VerifyAdjustmentBounds(
    exif: ExifExtractor.ImageExif, sLat: Option<real>, sLon: Option<real>,
    distanceKm: Distance, nominatim: Coord -> Geocoding.NominatimReply, landmarks: seq<LandmarkFinder.Landmark>)
    ensures SPOOFING_PENALTY <= VerifySpec(exif, sLat, sLon, distanceKm, nominatim, landmarks).scoreAdjustment <= VERIFIED_BONUS
  {
    match ExifExtractor.ExtractGpsSpec(exif)
    case None =>
    case Some(gps) =>
      var photo := Coord(gps.latitude, gps.longitude);
      if !(sLat.Some? && sLon.Some? && !IsValidCoordinate(sLat.value, sLon.value)) {
        var target := if sLat.Some? && sLon.Some? then Coord(sLat.value, sLon.value) else photo;
        ScoreAdjustmentBounds(distanceKm(photo, target), |landmarks|);
      }
  }

  class GpsVerifier {
    const geocoder: Geocoding.Geocoder

    constructor()
      ensures fresh(geocoder) && geocoder.lastRequestTime == 0.0
    {
      geocoder := new Geocoding.Geocoder();
    }

    /**
     * `verify_location`: extract the photo's position, check the submitted one, measure
     * the distance, geocode, search landmarks around the photo, and score. The two
     * early exits make no geocoder request (the clock and the rate-limit state are
     * untouched).
     */
    method VerifyLocation(
      exif: ExifExtractor.ImageExif, submittedLat: Option<real>, submittedLon: Option<real>,
      distanceKm: Distance, distanceM: Distance,
      nominatim: Coord -> Geocoding.NominatimReply, overpass: Coord -> LandmarkFinder.OverpassReply,
      clock: Geocoding.Clock)
      returns (r: VerificationResult)
      modifies geocoder, clock
      ensures LocationResult(r, exif, submittedLat, submittedLon, distanceKm, distanceM, nominatim, overpass)
      ensures r.hasPhotoGps ==> r.photoGps.Some?
      ensures r.distanceKm.None? ==> clock.now == old(clock.now) && geocoder.lastRequestTime == old(geocoder.lastRequestTime)
    {
      r := Initial;
      var photoGpsData := ExifExtractor.ExtractGps(exif);
      if photoGpsData.None? {
        r := r.(status := NoGpsInPhoto, penaltyReason := ErrorNoGps);
        return;
      }
      var photo := Coord(photoGpsData.value.latitude, photoGpsData.value.longitude);
      r := r.(photoGps := Some(photo), hasPhotoGps := true);

      var target: Coord;
      if submittedLat.Some? && submittedLon.Some? {
        if !IsValidCoordinate(submittedLat.value, submittedLon.value) {
          r := r.(status := InvalidSubmittedGps, penaltyReason := ErrorInvalidSubmittedGps);
          return;
        }
        target := Coord(submittedLat.value, submittedLon.value);
        r := r.(submittedGps := Some(target));
      } else {
        target := photo;
        r := r.(submittedGps := r.photoGps);
      }

      var d := distanceKm(photo, target);
      r := r.(distanceKm := Some(d));

      var photoAddress, submittedAddress := GeocodeBoth(photo, target, d, nominatim, clock);
      r := r.(photoAddress := photoAddress, submittedAddress := submittedAddress);

      var landmarks := LandmarkFinder.FindNearbyLandmarks(photo, overpass(photo), distanceM);
      r := r.(nearbyLandmarks := landmarks);

      var adj := ScoreAdjustment(d, |r.nearbyLandmarks|);
      r := r.(scoreAdjustment := adj.score, isSpoofed := adj.isSpoofed, status := adj.status, penaltyReason := adj.reason);
    }

    /**
     * The geocoding step of `verify_location`: the photo's short address, and the
     * submitted point's only when it lies more than 100 m away (otherwise the photo's
     * is reused); an empty or missing address is not stored.
     */
    method GeocodeBoth(photo: Coord, target: Coord, d: real, nominatim: Coord -> Geocoding.NominatimReply, clock: Geocoding.Clock)
      returns (photoAddress: Option<string>, submittedAddress: Option<string>)
      modifies geocoder, clock
      ensures photoAddress == Stored(ShortAddressFor(photo, nominatim))
      ensures submittedAddress == if d > 0.1 then Stored(ShortAddressFor(target, nominatim)) else photoAddress
    {
      photoAddress := None;
      var found := geocoder.GetShortAddress(photo, nominatim, clock);
      if found.Some? && found.value != "" {
        photoAddress := found;
      }
      if d > 0.1 {
        submittedAddress := None;
        var other := geocoder.GetShortAddress(target, nominatim, clock);
        if other.Some? && other.value != "" {
          submittedAddress := other;
        }
      } else {
        submittedAddress := photoAddress;
      }
    }
  }
}
