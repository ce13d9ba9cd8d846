# MyNavi route pipeline and map redraw, in Dafny

This project models the app logic of MyNavi, a small iOS navigation app. The app
shows the user's location, takes a "from" and a "to" address, asks the platform
geocoder and directions service for driving routes, lists them, and draws the
selected route on a map. MapKit and CoreLocation do the real work. The model
covers the app's own logic around them:

- **LocationTracking** (`LocationManager.swift`): the `LocationManager` class.
  Its two published fields, `location` and `userTracking`, are driven by
  `init`, `startTracking`, `stopTracking`, the authorization callback and the
  location-update callback. A third field, `updating`, records whether the
  manager last asked CoreLocation to start or to stop delivering updates. Each
  method's postcondition ties the new state to a pure transition function
  (`Started`, `Stopped`, `AuthorizationChanged`, `LocationsUpdated`). The lemmas
  are stated over those functions.
- **RouteSelection** (`RouteSelectionView.swift`): `geocode` and `fetchRoutes`
  as functions from a platform reply to the value passed to the completion
  handler. The screen's bound state (`routes`, `selectedRoute`) is a class
  whose two handlers are the "Fetch Routes" button and the row tap. The
  platform replies are parameters. The calls made to the platform are kept in
  a log (`calls`), so that their order can be stated.
- **TravelTime** (`RouteSelectionView.swift`): `formattedExpectedTravelTime`,
  which turns whole seconds into `%02d:%02d:%02d`. A reference parser reads the
  text back. The round trip is proved, so the text is shown to lose nothing.
- **MapGeometry** (`MapView.swift`): the two MapKit extensions,
  `MKPolyline.coordinates` and `MKMapRect.forAnnotations`. Map points are whole
  numbers, and rectangles are built from them with a null rectangle.
- **MapPresenter** (`MapView.swift`): `updateMap`. It works step by step on a
  `MapSurface` class that stands for MKMapView: removing and adding overlays and
  annotations, setting `showsUserLocation`, and logging camera requests. Its
  postcondition ties the new content to the function `Redrawn`, and the redraw
  policy is proved about that function.
- **Platform** and **Wrappers**: the value types shared by the modules
  (coordinates, locations, polylines, routes, placemarks, annotations) and an
  `Option` type.

### A failed geocode keeps the old route list

A failed geocode leaves the route list as it was: the guard at
`RouteSelectionView.swift:42-46` returns before `routes` is assigned, and
`RouteSelection.GeocodeFailureKeepsRoutes` states it.

## Model

| member | source | states |
|---|---|---|
| TravelTime.TravelTimeParts | Assignment1HizirOzcelik/RouteSelectionView.swift:123-125 | hours·3600 + minutes·60 + seconds gives back the input; minutes and seconds are below 60; hours has no bound |
| TravelTime.TravelTimePartsUnique | Assignment1HizirOzcelik/RouteSelectionView.swift:123-125 | any hours/minutes/seconds with minutes and seconds below 60 that add up to t are exactly the parts the source computes |
| TravelTime.DecimalDigits | Assignment1HizirOzcelik/RouteSelectionView.swift:126 | `%d` of a natural number is a non-empty string of digits with no leading zero; it has one digit exactly below 10, and two digits from 10 to 99 |
| TravelTime.DecimalDigitsRoundTrip | Assignment1HizirOzcelik/RouteSelectionView.swift:126 | reading the printed digits of n gives back n |
| TravelTime.ZeroPadded2 | Assignment1HizirOzcelik/RouteSelectionView.swift:126 | `%02d` gives at least two digits, exactly two below 100, no padding zero from 10 on, and its digits read back to the number |
| TravelTime.FormattedExpectedTravelTime | Assignment1HizirOzcelik/RouteSelectionView.swift:122-127 | the text is three digit fields separated by ':'; the last two fields are two characters each, and the hours field takes the rest |
| TravelTime.FormattedTravelTimeFields | Assignment1HizirOzcelik/RouteSelectionView.swift:126 | the text is exactly eight characters (`HH:MM:SS`) below 100 hours; from 100 hours on it is longer and its hours field starts with a non-zero digit |
| TravelTime.FormattedTravelTimeRoundTrip | Assignment1HizirOzcelik/RouteSelectionView.swift:122-127 | parsing the formatted text gives back the number of seconds |
| TravelTime.FormattedTravelTimeInjective | Assignment1HizirOzcelik/RouteSelectionView.swift:122-127 | two different travel times never give the same text |
| RouteSelection.Geocode | Assignment1HizirOzcelik/RouteSelectionView.swift:100-114 | an error gives nil; with no error, a non-empty placemark list gives its first element; an empty or missing list gives nil |
| RouteSelection.FetchRoutes | Assignment1HizirOzcelik/RouteSelectionView.swift:82-98 | an error gives []; with no error, the response's routes come back unchanged and in order; a missing response gives [] |
| RouteSelection.RouteSelectionView.constructor | Assignment1HizirOzcelik/RouteSelectionView.swift:13-18 | the screen starts with the bound addresses, route list and selection it is given, and an empty call log |
| RouteSelection.RouteSelectionView.FetchRoutesTapped | Assignment1HizirOzcelik/RouteSelectionView.swift:37-52 | tracking is stopped; the calls made are the ones listed by FetchCalls; `routes` becomes FetchedRouteList of the old list; `selectedRoute` and the addresses do not change |
| RouteSelection.RouteSelectionView.RowTapped | Assignment1HizirOzcelik/RouteSelectionView.swift:61-64 | a tap on a row selects that row's route; the route list and the call log do not change |
| RouteSelection.FetchCallsPrefix | Assignment1HizirOzcelik/RouteSelectionView.swift:39-41 | a fetch first stops tracking, then geocodes the "from" address, then the "to" address |
| RouteSelection.DirectionsOnlyAfterBothGeocodes | Assignment1HizirOzcelik/RouteSelectionView.swift:40-49 | a directions request is made exactly when both geocodes give a placemark; it comes only after both geocodes; it goes from source to destination by car |
| RouteSelection.GeocodeFailureKeepsRoutes | Assignment1HizirOzcelik/RouteSelectionView.swift:42-46 | if either placemark is nil, the route list stays as it was and is not emptied |
| RouteSelection.SuccessfulFetchReplacesRoutes | Assignment1HizirOzcelik/RouteSelectionView.swift:47-49 | once both addresses resolve, the list is replaced as a whole by the `fetchRoutes` completion value: [] after a directions error or a missing response, otherwise the service's routes |
| LocationTracking.LocationManager.constructor | Assignment1HizirOzcelik/LocationManager.swift:15-26 | after init, `userTracking` is true, updates are started, and the location is the default one |
| LocationTracking.LocationManager.StartTracking | Assignment1HizirOzcelik/LocationManager.swift:28-31 | starts updates and sets `userTracking`; the location does not change |
| LocationTracking.LocationManager.StopTracking | Assignment1HizirOzcelik/LocationManager.swift:33-36 | stops updates and clears `userTracking`; the location does not change |
| LocationTracking.LocationManager.DidChangeAuthorization | Assignment1HizirOzcelik/LocationManager.swift:39-46 | `.denied` clears `userTracking` only; any other status starts updates and sets `userTracking` |
| LocationTracking.LocationManager.DidUpdateLocations | Assignment1HizirOzcelik/LocationManager.swift:47-52 | a non-empty batch sets `location` to its last sample; an empty batch changes nothing |
| LocationTracking.StartTrackingIdempotent | Assignment1HizirOzcelik/LocationManager.swift:28-31 | `startTracking` leaves tracking on, and a second call changes nothing |
| LocationTracking.StopTrackingIdempotent | Assignment1HizirOzcelik/LocationManager.swift:33-36 | `stopTracking` leaves tracking off, and a second call changes nothing |
| LocationTracking.DeniedKeepsUpdates | Assignment1HizirOzcelik/LocationManager.swift:40-41 | denial turns tracking off and leaves the update subscription as it was |
| LocationTracking.GrantedActsLikeStart | Assignment1HizirOzcelik/LocationManager.swift:42-45 | every status other than `.denied` has exactly the effect of `startTracking` |
| LocationTracking.LastSampleWins | Assignment1HizirOzcelik/LocationManager.swift:49-51 | the last sample of a batch becomes the location; an empty batch changes nothing |
| LocationTracking.TrackingAndLocationIndependent | Assignment1HizirOzcelik/LocationManager.swift:28-52 | tracking operations never change `location`; location updates never change `userTracking` or the subscription |
| MapGeometry.Union | Assignment1HizirOzcelik/MapView.swift:111 | the union covers both rectangles, and it is null only when both are null |
| MapGeometry.UnionIsLeast | Assignment1HizirOzcelik/MapView.swift:111 | any rectangle covering both arguments covers their union |
| MapGeometry.UnionAll | Assignment1HizirOzcelik/MapView.swift:111 | the fold of unions is the null rectangle exactly when its start value and every folded rectangle are null |
| MapGeometry.UnionAllCovers | Assignment1HizirOzcelik/MapView.swift:111 | the union fold covers its starting value and every rectangle folded in |
| MapGeometry.UnionAllIsLeast | Assignment1HizirOzcelik/MapView.swift:111 | any rectangle covering the starting value and every folded rectangle covers the fold |
| MapGeometry.BoundingRect | Assignment1HizirOzcelik/MapView.swift:109-111 | no points give the null rectangle; otherwise the result is a real rectangle holding every point |
| MapGeometry.BoundingRectIsLeast | Assignment1HizirOzcelik/MapView.swift:109-111 | every rectangle that holds all the points covers the bounding rectangle |
| MapGeometry.ForAnnotations | Assignment1HizirOzcelik/MapView.swift:108-112 | no annotations give the null rectangle; otherwise the result holds every annotation's map point |
| MapGeometry.ForAnnotationsIsLeast | Assignment1HizirOzcelik/MapView.swift:108-112 | every rectangle that holds all the annotations' points covers the result |
| MapGeometry.BoundingMapRect | Assignment1HizirOzcelik/MapView.swift:74 | the rectangle a route fit asks for holds every point of the path, and it is null for an empty path |
| MapGeometry.Coordinates | Assignment1HizirOzcelik/MapView.swift:118-122 | the result has `pointCount` entries, and each is the polyline's point at the same index |
| MapPresenter.Without | Assignment1HizirOzcelik/MapView.swift:38-39 | removing a list keeps exactly the elements not in it, and never adds any |
| MapPresenter.WithoutAll | Assignment1HizirOzcelik/MapView.swift:38-39 | removing the view's own overlays or annotations leaves the list empty |
| MapPresenter.MapSurface.constructor | Assignment1HizirOzcelik/MapView.swift:17-25 | a new map view has no overlays, annotations or camera requests, and shows the user's location |
| MapPresenter.ClearMap | Assignment1HizirOzcelik/MapView.swift:38-39 | removing the view's own overlays and annotations leaves both lists empty; the location flag and the camera log do not change |
| MapPresenter.CenterOnUser | Assignment1HizirOzcelik/MapView.swift:42-50 | when tracking, one animated region request centred on the manager's location with the view's span is logged; otherwise nothing is; the content does not change |
| MapPresenter.RouteMarkers | Assignment1HizirOzcelik/MapView.swift:61-67 | the markers are titled "Start" and "End"; they sit at the path's first and last points, or both at (0,0) when the path is empty |
| MapPresenter.ShowRoute | Assignment1HizirOzcelik/MapView.swift:53-75 | appends the route line twice and the markers [Start, End]; turns `showsUserLocation` off; logs one animated fit to the route's bounding rectangle with padding 50 |
| MapPresenter.UpdateMap | Assignment1HizirOzcelik/MapView.swift:33-76 | after the step-by-step clear and redraw, the map view's content is exactly `Redrawn` of its old content and of the tracking flag, location and selected route |
| MapPresenter.RedrawForgetsEarlierContent | Assignment1HizirOzcelik/MapView.swift:38-39 | the overlays and annotations after a redraw do not depend on what was drawn before |
| MapPresenter.RedrawWithoutRoute | Assignment1HizirOzcelik/MapView.swift:38-53 | with no selected route, the overlay and annotation lists end up empty |
| MapPresenter.RedrawWithRoute | Assignment1HizirOzcelik/MapView.swift:53-70 | with a route: the polyline is drawn twice; the markers are exactly [Start, End], at the path's first and last points, or both at (0,0) for an empty path; `showsUserLocation` becomes false |
| MapPresenter.CameraRequestPolicy | Assignment1HizirOzcelik/MapView.swift:42-74 | a centring on the location is requested exactly when tracking; a fit to the route's bounding rectangle with padding 50 on all four sides exactly when a route is selected; the fit comes after the centring |
| MapPresenter.RouteFitIsLastRequest | Assignment1HizirOzcelik/MapView.swift:73-74 | when a route is selected, the last camera request is the route fit, whatever the tracking state |
| MapPresenter.RedrawIdempotent | Assignment1HizirOzcelik/MapView.swift:38-75 | a second redraw with the same inputs leaves the same overlays, annotations and location flag; it only repeats the camera requests |

## Left out

- CoreLocation, MapKit geocoding and directions: these are platform calls. Their replies are parameters (`GeocodeReply`, `DirectionsReply`). The location callbacks are methods called with their arguments. `requestWhenInUseAuthorization` and `desiredAccuracy` in `init` are platform configuration, and no app state depends on them.
- Asynchrony: the geocode → geocode → directions chain is modelled as running to completion in order. Overlapping fetches and last-writer-wins between them are not modelled. The "to" address is read when the fetch starts.
- Floating point: `formattedDistance` (`distance / 1000`, `%.1f`) is not modelled, and a route has no distance field. The span conversion `spanKm / 111.111` is not modelled either: the region keeps the span in kilometres.
- TravelTime.FormattedExpectedTravelTime: takes a whole, non-negative number of seconds. The `Int(expectedTravelTime)` truncation of a floating-point value is not modelled, and neither is its trap for values above the 64-bit `Int.max`.
- TravelTime.FormattedExpectedTravelTime: the model prints the hours as an unbounded number. The source passes a 64-bit `Int` to `%d`, which reads a 32-bit C `int` on Apple platforms, so at 2^31 hours or more the source prints a wrapped value. The field layout, the round trip and injectivity hold for the source only below 2^31 hours.
- TravelTime.TravelTimeParts: hours has no bound in the model; in the source it is a 64-bit `Int`.
- TravelTime.FormattedTravelTimeInjective: holds for the source only below 2^31 hours, because of the 32-bit `%d` wrap described above.
- MapGeometry.MapPointOf: the Mercator projection of `MKMapPoint(coordinate)` is replaced by an integer map that keeps the orientation (x eastward, y southward). Coordinates are whole numbers.
- MapGeometry.BoundingMapRect: MapKit computes `boundingMapRect` itself. The model takes it to be the bounding rectangle of the path's projected points.
- MKMapView's automatic user-location annotation, and overlay and annotation identity, are not modelled: overlays and annotations are values, and removal goes by equality.
- SwiftUI: `body` layout, text-field bindings, `presentationMode` dismissal after a row tap, previews, `ContentView.swift` wiring, the unused `pins`/`annotations` bindings, and the row text are not modelled. So are renderer colour and width in `MapViewCoordinator`, and `print` logging.
