/** Thresholds and scoring rules of the landmark-detection package. */
module LandmarkConfig {

  /** Minimum delay between two Nominatim requests, in seconds. */
  const NOMINATIM_DELAY: real := 1.0

  /** A photo/submitted distance above this is treated as spoofing (km). */
  const SPOOFING_THRESHOLD_KM: real := 5.0
  /** A distance below this is a verified location or a good match (km). */
  const VERIFIED_THRESHOLD_KM: real := 0.5
  /** Radius of the landmark search (m). */
  const LANDMARK_SEARCH_RADIUS_M: nat := 500

  const SPOOFING_PENALTY: int := -50
  const VERIFIED_BONUS: int := 10
  const NO_GPS_PENALTY: int := 0

  /** Tag keys looked up, in priority order, to classify a landmark. */
  const LANDMARK_CATEGORIES: seq<string> :=
    ["amenity", "building", "shop", "highway", "leisure", "natural", "historic"]

  /** At most this many landmarks are returned by a search. */
  const MAX_LANDMARKS_RETURN: nat := 5
}
