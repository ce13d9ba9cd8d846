/**
 * The two MapKit extensions of the app: `MKPolyline.coordinates` and
 * `MKMapRect.forAnnotations`, over whole-number map points.
 */
module MapGeometry {

  import opened Platform

  /** MKMapPoint: x grows eastward, y grows southward. */
  datatype MapPoint = MapPoint(x: int, y: int)

  /** MKMapRect; `NullRect` is `MKMapRect.null`, the rectangle that holds nothing. */
  datatype MapRect = NullRect | MapRect(x: int, y: int, width: nat, height: nat)

  /** `MKMapPoint(coordinate)`, with the projection reduced to an orientation-preserving integer map. */
  function MapPointOf(c: Coordinate): MapPoint
  {
    MapPoint(c.longitude, -c.latitude)
  }

  /** `MKMapRect(origin: p, size: MKMapSize(width: 0, height: 0))` */
  function PointRect(p: MapPoint): MapRect
  {
    MapRect(p.x, p.y, 0, 0)
  }

  /** `outer` contains all of `inner`; every rectangle contains the null one. */
  predicate Covers(outer: MapRect, inner: MapRect)
  {
    inner.NullRect? ||
    (outer.MapRect? &&
     outer.x <= inner.x && inner.x + inner.width <= outer.x + outer.width &&
     outer.y <= inner.y && inner.y + inner.height <= outer.y + outer.height)
  }

  predicate ContainsPoint(r: MapRect, p: MapPoint)
  {
    Covers(r, PointRect(p))
  }

  function Min(a: int, b: int): int { if a <= b then a else b }
  function Max(a: int, b: int): int { if a <= b then b else a }

  /** `MKMapRect.union`: the null rectangle is the identity. */
  function Union(a: MapRect, b: MapRect): (r: MapRect)
    ensures Covers(r, a) && Covers(r, b)
    ensures r.NullRect? <==> a.NullRect? && b.NullRect?
  {
    if a.NullRect? then b
    else if b.NullRect? then a
    else
      var x, y := Min(a.x, b.x), Min(a.y, b.y);
      MapRect(x, y, Max(a.x + a.width, b.x + b.width) - x, Max(a.y + a.height, b.y + b.height) - y)
  }

  /** The union is the smallest rectangle covering both arguments. */
  lemma UnionIsLeast(a: MapRect, b: MapRect, bound: MapRect)
    requires Covers(bound, a) && Covers(bound, b)
    ensures Covers(bound, Union(a, b))
  {
  }

  /** `rects.reduce(acc) { $0.union($1) }` */
  function UnionAll(acc: MapRect, rects: seq<MapRect>): (r: MapRect)
    ensures r.NullRect? <==> acc.NullRect? && forall i :: 0 <= i < |rects| ==> rects[i].NullRect?
    decreases |rects|
  {
    assert forall i :: 1 <= i < |rects| ==> rects[i] == rects[1..][i - 1];
    if rects == [] then acc else UnionAll(Union(acc, rects[0]), rects[1..])
  }

  lemma CoversTransitive(a: MapRect, b: MapRect, c: MapRect)
    requires Covers(a, b) && Covers(b, c)
    ensures Covers(a, c)
  {
  }

  /** The fold covers its start value and every rectangle it folds in. */
  lemma {:induction false} UnionAllCovers(acc: MapRect, rects: seq<MapRect>)
    ensures Covers(UnionAll(acc, rects), acc)
    ensures forall i :: 0 <= i < |rects| ==> Covers(UnionAll(acc, rects), rects[i])
    decreases |rects|
  {
    if rects != [] {
      var next := Union(acc, rects[0]);
      var r := UnionAll(next, rects[1..]);
      UnionAllCovers(next, rects[1..]);
      CoversTransitive(r, next, acc);
      CoversTransitive(r, next, rects[0]);
      forall i | 1 <= i < |rects|
        ensures Covers(r, rects[i])
      {
        assert rects[i] == rects[1..][i - 1];
      }
    }
  }

  /** Any rectangle covering the start value and every folded rectangle covers the fold. */
  lemma {:induction false} UnionAllIsLeast(acc: MapRect, rects: seq<MapRect>, bound: MapRect)
    requires Covers(bound, acc)
    requires forall i :: 0 <= i < |rects| ==> Covers(bound, rects[i])
    ensures Covers(bound, UnionAll(acc, rects))
    decreases |rects|
  {
    if rects != [] {
      UnionIsLeast(acc, rects[0], bound);
      forall i | 0 <= i < |rects| - 1
        ensures Covers(bound, rects[1..][i])
      {
        assert rects[1..][i] == rects[i + 1];
      }
      UnionAllIsLeast(Union(acc, rects[0]), rects[1..], bound);
    }
  }

  /** The bounding rectangle of a list of map points: degenerate rectangles folded by union from the null one. */
  function BoundingRect(points: seq<MapPoint>): (r: MapRect)
    ensures points == [] ==> r == NullRect
    ensures forall i :: 0 <= i < |points| ==> ContainsPoint(r, points[i])
    ensures points != [] ==> r.MapRect?
  {
    var rects := seq(|points|, i requires 0 <= i < |points| => PointRect(points[i]));
    UnionAllCovers(NullRect, rects);
    assert forall i :: 0 <= i < |points| ==> rects[i] == PointRect(points[i]);
    UnionAll(NullRect, rects)
  }

  /** The bounding rectangle is the smallest one holding every point. */
  lemma BoundingRectIsLeast(points: seq<MapPoint>, bound: MapRect)
    requires forall i :: 0 <= i < |points| ==> ContainsPoint(bound, points[i])
    ensures Covers(bound, BoundingRect(points))
  {
    var rects := seq(|points|, i requires 0 <= i < |points| => PointRect(points[i]));
    UnionAllIsLeast(NullRect, rects, bound);
  }

  function AnnotationPoints(annotations: seq<Annotation>): seq<MapPoint>
  {
    seq(|annotations|, i requires 0 <= i < |annotations| => MapPointOf(annotations[i].coordinate))
  }

  /** `MKMapRect.forAnnotations`: the rectangle spanned by the annotations' points. */
  function ForAnnotations(annotations: seq<Annotation>): (r: MapRect)
    ensures annotations == [] ==> r == NullRect
    ensures forall i :: 0 <= i < |annotations| ==> ContainsPoint(r, MapPointOf(annotations[i].coordinate))
  {
    var mapPoints := AnnotationPoints(annotations);
    assert forall i :: 0 <= i < |annotations| ==> mapPoints[i] == MapPointOf(annotations[i].coordinate);
    BoundingRect(mapPoints)
  }

  /** No smaller rectangle holds every annotation. */
  lemma ForAnnotationsIsLeast(annotations: seq<Annotation>, bound: MapRect)
    requires forall i :: 0 <= i < |annotations| ==> ContainsPoint(bound, MapPointOf(annotations[i].coordinate))
    ensures Covers(bound, ForAnnotations(annotations))
  {
    BoundingRectIsLeast(AnnotationPoints(annotations), bound);
  }

  /** `MKPolyline.boundingMapRect`: the rectangle spanned by the path's points. */
  function BoundingMapRect(polyline: Polyline): (r: MapRect)
    ensures polyline.points == [] ==> r == NullRect
    ensures forall i :: 0 <= i < |polyline.points| ==> ContainsPoint(r, MapPointOf(polyline.points[i]))
  {
    var mapPoints := seq(|polyline.points|, i requires 0 <= i < |polyline.points| => MapPointOf(polyline.points[i]));
    assert forall i :: 0 <= i < |polyline.points| ==> mapPoints[i] == MapPointOf(polyline.points[i]);
    BoundingRect(mapPoints)
  }

  /**
   * `MKPolyline.coordinates`: a buffer of `pointCount` invalid coordinates,
   * filled by `getCoordinates` over the range `0 ..< pointCount`.
   */
  method Coordinates(polyline: Polyline) returns (coords: seq<Coordinate>)
    ensures |coords| == polyline.PointCount()
    ensures forall i :: 0 <= i < |coords| ==> coords[i] == polyline.points[i]
  {
    var buffer := new Coordinate[polyline.PointCount()](_ => InvalidCoordinate);
    var k := 0;
    while k < buffer.Length
      invariant 0 <= k <= buffer.Length
      invariant forall i :: 0 <= i < k ==> buffer[i] == polyline.points[i]
    {
      buffer[k] := polyline.points[k];
      k := k + 1;
    }
    coords := buffer[..];
  }
}
