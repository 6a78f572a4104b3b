/** Geographic coordinates shared by the GPS verifier, the geocoder and the landmark finder. */
module Geo {

  /** A point in decimal degrees. */
  datatype Coord = Coord(lat: real, lon: real)

  /**
   * The great-circle distance between two points. The Haversine formula itself is
   * floating-point trigonometry and is not modelled: every component that needs a
   * distance receives one of these as a parameter.
   */
  type Distance = (Coord, Coord) -> real

  /** The coordinate range check of the verifier and of the geocoder (both inclusive). */
  predicate IsValidCoordinate(lat: real, lon: real)
  {
    -90.0 <= lat <= 90.0 && -180.0 <= lon <= 180.0
  }

  /** Python's `int(x)` on a float: truncation toward zero (Dafny's `Floor` rounds down). */
  function TruncateTowardZero(x: real): (r: int)
    ensures 0.0 <= x ==> r as real <= x < r as real + 1.0
    ensures x < 0.0 ==> r as real - 1.0 < x <= r as real
  {
    if x >= 0.0 then x.Floor else -((-x).Floor)
  }
}
