/**
 * `MapView.updateMap`: a full clear-then-redraw of the platform map view from
 * the tracking state, the last known location and the selected route.
 *
 * The platform map view (MKMapView) is reduced to what `updateMap` touches:
 * its overlay and annotation lists, its `showsUserLocation` flag, and the log
 * of camera requests (`setRegion`, `setVisibleMapRect`) made of it.
 */
module MapPresenter {

  import opened Wrappers
  import opened Platform
  import opened MapGeometry
  import opened LocationTracking

  /** MKOverlay; the app only ever adds route polylines. */
  datatype Overlay = RouteLine(polyline: Polyline)

  /** UIEdgeInsets */
  datatype EdgeInsets = EdgeInsets(top: int, left: int, bottom: int, right: int)

  /** The padding around a fitted route. */
  const RouteFitPadding := EdgeInsets(50, 50, 50, 50)

  /**
   * MKCoordinateRegion. The span is kept in kilometres; its conversion to
   * degrees of latitude and longitude is floating point and not modelled.
   */
  datatype CoordinateRegion = CoordinateRegion(center: Coordinate, spanKm: nat)

  datatype CameraRequest =
    | SetRegion(region: CoordinateRegion, animated: bool)
    | SetVisibleMapRect(rect: MapRect, padding: EdgeInsets, animated: bool)

  /** What a map view shows, and the camera requests made of it so far. */
  datatype MapContent = MapContent(
    overlays: seq<Overlay>,
    annotations: seq<Annotation>,
    showsUserLocation: bool,
    cameraRequests: seq<CameraRequest>)

  /** The elements of `s` not in `xs`, in order: what `removeOverlays(xs)` and `removeAnnotations(xs)` leave. */
  function Without<T(==, !new)>(s: seq<T>, xs: seq<T>): (r: seq<T>)
    ensures forall x :: x in r <==> x in s && x !in xs
    ensures |r| <= |s|
  {
    if s == [] then []
    else (if s[0] in xs then [] else [s[0]]) + Without(s[1..], xs)
  }

  /** Removing a list that holds every element leaves nothing. */
  lemma {:induction false} WithoutAll<T(!new)>(s: seq<T>, xs: seq<T>)
    requires forall x :: x in s ==> x in xs
    ensures Without(s, xs) == []
  {
    if s != [] {
      assert s[0] in xs;
      forall x | x in s[1..]
        ensures x in xs
      {
        assert x in s;
      }
      WithoutAll(s[1..], xs);
    }
  }

  function FirstOr(s: seq<Coordinate>, default: Coordinate): Coordinate
  {
    if |s| > 0 then s[0] else default
  }

  function LastOr(s: seq<Coordinate>, default: Coordinate): Coordinate
  {
    if |s| > 0 then s[|s| - 1] else default
  }

  /** The "Start" marker: the route's first coordinate, or the zero coordinate for an empty path. */
  function StartAnnotation(route: Route): Annotation
  {
    Annotation(FirstOr(route.polyline.points, DefaultCoordinate), "Start")
  }

  /** The "End" marker: the route's last coordinate, or the zero coordinate for an empty path. */
  function EndAnnotation(route: Route): Annotation
  {
    Annotation(LastOr(route.polyline.points, DefaultCoordinate), "End")
  }

  /** The camera requests one redraw makes, in order. */
  function CameraRequestsFor(tracking: bool, location: Location, selected: Option<Route>, spanKm: nat): seq<CameraRequest>
  {
    (if tracking then [SetRegion(CoordinateRegion(location.coordinate, spanKm), true)] else []) +
    match selected
    case Some(route) => [SetVisibleMapRect(BoundingMapRect(route.polyline), RouteFitPadding, true)]
    case None => []
  }

  /** The map content after one `updateMap`. */
  function Redrawn(m: MapContent, tracking: bool, location: Location, selected: Option<Route>, spanKm: nat): MapContent
  {
    var requests := m.cameraRequests + CameraRequestsFor(tracking, location, selected, spanKm);
    match selected
    case None => MapContent([], [], m.showsUserLocation, requests)
    case Some(route) =>
      MapContent([RouteLine(route.polyline), RouteLine(route.polyline)],
                 [StartAnnotation(route), EndAnnotation(route)], false, requests)
  }

  /** The platform map view (MKMapView), as far as `updateMap` uses it. */
  class MapSurface {
    var overlays: seq<Overlay>
    var annotations: seq<Annotation>
    var showsUserLocation: bool
    var cameraRequests: seq<CameraRequest>

    function Content(): MapContent
      reads this
    {
      MapContent(overlays, annotations, showsUserLocation, cameraRequests)
    }

    /** `makeUIView`: an empty map that shows the user's location. */
    constructor ()
      ensures Content() == MapContent([], [], true, [])
    {
      overlays := [];
      annotations := [];
      showsUserLocation := true;
      cameraRequests := [];
    }

    method RemoveOverlays(xs: seq<Overlay>)
      modifies this
      ensures overlays == Without(old(overlays), xs)
      ensures annotations == old(annotations) && showsUserLocation == old(showsUserLocation)
      ensures cameraRequests == old(cameraRequests)
    {
      overlays := Without(overlays, xs);
    }

    method RemoveAnnotations(xs: seq<Annotation>)
      modifies this
      ensures annotations == Without(old(annotations), xs)
      ensures overlays == old(overlays) && showsUserLocation == old(showsUserLocation)
      ensures cameraRequests == old(cameraRequests)
    {
      annotations := Without(annotations, xs);
    }

    method AddOverlay(overlay: Overlay)
      modifies this
      ensures overlays == old(overlays) + [overlay]
      ensures annotations == old(annotations) && showsUserLocation == old(showsUserLocation)
      ensures cameraRequests == old(cameraRequests)
    {
      overlays := overlays + [overlay];
    }

    method AddAnnotations(xs: seq<Annotation>)
      modifies this
      ensures annotations == old(annotations) + xs
      ensures overlays == old(overlays) && showsUserLocation == old(showsUserLocation)
      ensures cameraRequests == old(cameraRequests)
    {
      annotations := annotations + xs;
    }

    method SetRegion(region: CoordinateRegion, animated: bool)
      modifies this
      ensures cameraRequests == old(cameraRequests) + [CameraRequest.SetRegion(region, animated)]
      ensures overlays == old(overlays) && annotations == old(annotations)
      ensures showsUserLocation == old(showsUserLocation)
    {
      cameraRequests := cameraRequests + [CameraRequest.SetRegion(region, animated)];
    }

    method SetVisibleMapRect(rect: MapRect, padding: EdgeInsets, animated: bool)
      modifies this
      ensures cameraRequests == old(cameraRequests) + [CameraRequest.SetVisibleMapRect(rect, padding, animated)]
      ensures overlays == old(overlays) && annotations == old(annotations)
      ensures showsUserLocation == old(showsUserLocation)
    {
      cameraRequests := cameraRequests + [CameraRequest.SetVisibleMapRect(rect, padding, animated)];
    }
  }

  /**
   * The two markers of `updateMap`, each built from a fresh copy of the
   * polyline's coordinates, falling back to `CLLocationCoordinate2D()`.
   */
  method RouteMarkers(route: Route) returns (start: Annotation, end: Annotation)
    ensures start.title == "Start" && end.title == "End"
    ensures |route.polyline.points| > 0 ==>
      start.coordinate == route.polyline.points[0] &&
      end.coordinate == route.polyline.points[|route.polyline.points| - 1]
    ensures route.polyline.points == [] ==> start.coordinate == end.coordinate == DefaultCoordinate
    ensures start == StartAnnotation(route) && end == EndAnnotation(route)
  {
    var startCoords := Coordinates(route.polyline);
    start := Annotation(FirstOr(startCoords, DefaultCoordinate), "Start");
    var endCoords := Coordinates(route.polyline);
    end := Annotation(LastOr(endCoords, DefaultCoordinate), "End");
  }

  /** "Remove existing overlays and annotations" */
  method ClearMap(uiView: MapSurface)
    modifies uiView
    ensures uiView.overlays == [] && uiView.annotations == []
    ensures uiView.showsUserLocation == old(uiView.showsUserLocation)
    ensures uiView.cameraRequests == old(uiView.cameraRequests)
  {
    uiView.RemoveOverlays(uiView.overlays);
    WithoutAll(old(uiView.overlays), old(uiView.overlays));
    uiView.RemoveAnnotations(uiView.annotations);
    WithoutAll(old(uiView.annotations), old(uiView.annotations));
  }

  /** "display the current user location": centre on it when tracking. */
  method CenterOnUser(uiView: MapSurface, locationManager: LocationManager, spanKm: nat)
    modifies uiView
    ensures uiView.cameraRequests ==
      old(uiView.cameraRequests) + CameraRequestsFor(locationManager.userTracking, locationManager.location, None, spanKm)
    ensures uiView.overlays == old(uiView.overlays) && uiView.annotations == old(uiView.annotations)
    ensures uiView.showsUserLocation == old(uiView.showsUserLocation)
  {
    if locationManager.userTracking {
      var center := locationManager.location.coordinate;
      uiView.SetRegion(CoordinateRegion(center, spanKm), true);
    }
  }

  /** "display the route": line, markers, line again, then fit the camera to it. */
  method ShowRoute(uiView: MapSurface, route: Route)
    modifies uiView
    ensures uiView.overlays == old(uiView.overlays) + [RouteLine(route.polyline), RouteLine(route.polyline)]
    ensures uiView.annotations == old(uiView.annotations) + [StartAnnotation(route), EndAnnotation(route)]
    ensures !uiView.showsUserLocation
    ensures uiView.cameraRequests ==
      old(uiView.cameraRequests) + [SetVisibleMapRect(BoundingMapRect(route.polyline), RouteFitPadding, true)]
  {
    uiView.showsUserLocation := false;
    var polyline := route.polyline;
    uiView.AddOverlay(RouteLine(polyline));
    var startAnnotation, endAnnotation := RouteMarkers(route);
    uiView.AddAnnotations([startAnnotation, endAnnotation]);
    uiView.AddOverlay(RouteLine(route.polyline));
    uiView.SetVisibleMapRect(BoundingMapRect(route.polyline), EdgeInsets(50, 50, 50, 50), true);
  }

  /** `updateMap(_:)` */
  method UpdateMap(uiView: MapSurface, locationManager: LocationManager, selectedRoute: Option<Route>, spanKm: nat)
    modifies uiView
    ensures uiView.Content() ==
      Redrawn(old(uiView.Content()), locationManager.userTracking, locationManager.location, selectedRoute, spanKm)
  {
    ClearMap(uiView);
    CenterOnUser(uiView, locationManager, spanKm);
    if selectedRoute.Some? {
      ShowRoute(uiView, selectedRoute.value);
    }
  }

  /** Nothing drawn before a redraw survives it: the result does not depend on the earlier overlays and annotations. */
  lemma RedrawForgetsEarlierContent(m1: MapContent, m2: MapContent, tracking: bool, location: Location, selected: Option<Route>, spanKm: nat)
    ensures Redrawn(m1, tracking, location, selected, spanKm).overlays == Redrawn(m2, tracking, location, selected, spanKm).overlays
    ensures Redrawn(m1, tracking, location, selected, spanKm).annotations == Redrawn(m2, tracking, location, selected, spanKm).annotations
  {
  }

  /** Without a selected route the map is left empty and the user-location flag as it was. */
  lemma RedrawWithoutRoute(m: MapContent, tracking: bool, location: Location, spanKm: nat)
    ensures var r := Redrawn(m, tracking, location, None, spanKm);
      r.overlays == [] && r.annotations == [] && r.showsUserLocation == m.showsUserLocation
  {
  }

  /**
   * With a selected route: the polyline is drawn twice, the markers are exactly
   * Start then End at the path's first and last points (the zero coordinate
   * for an empty path), and the user-location indicator is switched off.
   */
  lemma RedrawWithRoute(m: MapContent, tracking: bool, location: Location, route: Route, spanKm: nat)
    ensures var r := Redrawn(m, tracking, location, Some(route), spanKm);
      var path := route.polyline.points;
      r.overlays == [RouteLine(route.polyline), RouteLine(route.polyline)] &&
      |r.annotations| == 2 && r.annotations[0].title == "Start" && r.annotations[1].title == "End" &&
      (|path| > 0 ==> r.annotations[0].coordinate == path[0] && r.annotations[1].coordinate == path[|path| - 1]) &&
      (path == [] ==> r.annotations[0].coordinate == r.annotations[1].coordinate == Coordinate(0, 0)) &&
      !r.showsUserLocation
  {
  }

  /**
   * The camera requests of one redraw: a centring on the location exactly when
   * tracking, a fit to the route's bounding rectangle with padding 50 on every
   * side exactly when a route is selected, and the fit after the centring.
   */
  lemma CameraRequestPolicy(tracking: bool, location: Location, selected: Option<Route>, spanKm: nat)
    ensures var reqs := CameraRequestsFor(tracking, location, selected, spanKm);
      (exists i :: 0 <= i < |reqs| && reqs[i].SetRegion?) <==> tracking
    ensures var reqs := CameraRequestsFor(tracking, location, selected, spanKm);
      (exists i :: 0 <= i < |reqs| && reqs[i].SetVisibleMapRect?) <==> selected.Some?
    ensures var reqs := CameraRequestsFor(tracking, location, selected, spanKm);
      forall i, j :: 0 <= i < |reqs| && 0 <= j < |reqs| && reqs[i].SetRegion? && reqs[j].SetVisibleMapRect? ==> i < j
    ensures var reqs := CameraRequestsFor(tracking, location, selected, spanKm);
      forall i :: 0 <= i < |reqs| && reqs[i].SetRegion? ==>
        reqs[i].region == CoordinateRegion(location.coordinate, spanKm)
    ensures var reqs := CameraRequestsFor(tracking, location, selected, spanKm);
      forall i :: 0 <= i < |reqs| && reqs[i].SetVisibleMapRect? ==>
        selected.Some? && reqs[i].rect == BoundingMapRect(selected.value.polyline) &&
        reqs[i].padding == EdgeInsets(50, 50, 50, 50)
  {
    var reqs := CameraRequestsFor(tracking, location, selected, spanKm);
    if tracking {
      assert reqs[0].SetRegion?;
    }
    if selected.Some? {
      assert reqs[|reqs| - 1].SetVisibleMapRect?;
    }
  }

  /** A selected route always gets the last word on the camera, whatever the tracking state. */
  lemma RouteFitIsLastRequest(m: MapContent, tracking: bool, location: Location, route: Route, spanKm: nat)
    ensures var reqs := Redrawn(m, tracking, location, Some(route), spanKm).cameraRequests;
      |reqs| > 0 && reqs[|reqs| - 1] == SetVisibleMapRect(BoundingMapRect(route.polyline), RouteFitPadding, true)
  {
  }

  /** Redrawing twice with the same inputs shows the same thing as redrawing once; only the camera log grows. */
  lemma RedrawIdempotent(m: MapContent, tracking: bool, location: Location, selected: Option<Route>, spanKm: nat)
    ensures var once := Redrawn(m, tracking, location, selected, spanKm);
      var twice := Redrawn(once, tracking, location, selected, spanKm);
      twice.overlays == once.overlays && twice.annotations == once.annotations &&
      twice.showsUserLocation == once.showsUserLocation &&
      twice.cameraRequests == once.cameraRequests + CameraRequestsFor(tracking, location, selected, spanKm)
  {
  }
}
