/**
 * Value types that the app receives from MapKit and CoreLocation, reduced to
 * the parts the app's own logic reads. Coordinates are whole numbers; the
 * floating-point values of the platform are not modelled.
 */
module Platform {

  /** CLLocationCoordinate2D with whole-number latitude and longitude. */
  datatype Coordinate = Coordinate(latitude: int, longitude: int)

  /** `CLLocationCoordinate2D()`: the zero coordinate used as a fallback. */
  const DefaultCoordinate := Coordinate(0, 0)

  /** `kCLLocationCoordinate2DInvalid`, the filler of a fresh coordinate buffer. */
  const InvalidCoordinate := Coordinate(-180, -180)

  /** CLLocation, of which the app reads only the coordinate. */
  datatype Location = Location(coordinate: Coordinate)

  /** `CLLocation()`: a location at the zero coordinate. */
  const DefaultLocation := Location(DefaultCoordinate)

  /** MKPolyline: the ordered points of a route's path. */
  datatype Polyline = Polyline(points: seq<Coordinate>)
  {
    /** MKPolyline.pointCount */
    function PointCount(): nat
    {
      |points|
    }
  }

  /** MKRoute: a candidate route as returned by the directions service. */
  datatype Route = Route(name: string, expectedTravelTime: nat, polyline: Polyline)

  /** CLPlacemark / MKPlacemark: a geocoded address. */
  datatype Placemark = Placemark(name: string, coordinate: Coordinate)

  /** MKPointAnnotation: a titled marker on the map. */
  datatype Annotation = Annotation(coordinate: Coordinate, title: string)
}
