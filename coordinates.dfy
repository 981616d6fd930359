/**
 * `CLLocationCoordinate2D` and `CLLocationCoordinate2DIsValid`. Degrees are
 * reals: the core only compares them, it never computes with them.
 */
module Coordinates {

  datatype Coordinate = Coordinate(latitude: real, longitude: real)

  /** A coordinate is valid when the latitude is within [-90, 90] and the longitude within [-180, 180]. */
  predicate IsValid(c: Coordinate) {
    -90.0 <= c.latitude <= 90.0 && -180.0 <= c.longitude <= 180.0
  }
}
