/**
 * The route selection screen: the free functions `geocode` and `fetchRoutes`,
 * which turn a platform reply into a completion value, and the two handlers
 * that change the screen's bound state (`routes`, `selectedRoute`): the
 * "Fetch Routes" button and the tap on a route row.
 *
 * The geocoder and the directions service are outside the model: their replies
 * are parameters. The fetch action's calls (the stop of tracking on the
 * location manager, the geocode requests, the directions request) are recorded
 * in a log, in order. The callback chain is taken to run to completion before
 * anything else happens.
 */
module RouteSelection {

  import opened Wrappers
  import opened Platform
  import opened LocationTracking

  /** The `error` argument of a platform completion handler. */
  datatype ServiceError = ServiceError(description: string)

  /** The `(placemarks, error)` pair CLGeocoder passes to its completion handler. */
  datatype GeocodeReply = GeocodeReply(placemarks: Option<seq<Placemark>>, error: Option<ServiceError>)

  /** MKDirections.Response */
  datatype DirectionsResponse = DirectionsResponse(routes: seq<Route>)

  /** The `(response, error)` pair MKDirections passes to its completion handler. */
  datatype DirectionsReply = DirectionsReply(response: Option<DirectionsResponse>, error: Option<ServiceError>)

  /** MKDirectionsTransportType */
  datatype TransportType = Automobile | Walking | Transit

  /** MKDirections.Request */
  datatype DirectionsRequest = DirectionsRequest(source: Placemark, destination: Placemark, transportType: TransportType)

  /** One step of the fetch action: the app's own `stopTracking`, or a request to the geocoder or the directions service. */
  datatype FetchStep =
    | StopTrackingCall
    | GeocodeCall(address: string)
    | DirectionsCall(request: DirectionsRequest)

  /** `geocode(address:completion:)`: the value passed to the completion. */
  function Geocode(reply: GeocodeReply): (placemark: Option<Placemark>)
    ensures reply.error.Some? ==> placemark == None
    ensures reply.error.None? && reply.placemarks.Some? && |reply.placemarks.value| > 0 ==>
      placemark == Some(reply.placemarks.value[0])
    ensures placemark.Some? <==>
      reply.error.None? && reply.placemarks.Some? && |reply.placemarks.value| > 0
  {
    if reply.error.Some? then None
    else if reply.placemarks.Some? && |reply.placemarks.value| > 0 then Some(reply.placemarks.value[0])
    else None
  }

  /** `fetchRoutes(from:to:completion:)`: the value passed to the completion. */
  function FetchRoutes(reply: DirectionsReply): (routes: seq<Route>)
    ensures reply.error.Some? ==> routes == []
    ensures reply.error.None? && reply.response.Some? ==> routes == reply.response.value.routes
    ensures reply.response.None? ==> routes == []
  {
    if reply.error.Some? then []
    else if reply.response.Some? then reply.response.value.routes
    else []
  }

  /** The directions request the fetch action makes, if both geocodes succeeded. */
  function DirectionsRequestFor(fromReply: GeocodeReply, toReply: GeocodeReply): Option<DirectionsRequest>
  {
    match (Geocode(fromReply), Geocode(toReply))
    case (Some(source), Some(destination)) => Some(DirectionsRequest(source, destination, Automobile))
    case _ => None
  }

  /** The calls one press of "Fetch Routes" makes, in order. */
  function FetchCalls(fromAddress: string, toAddress: string, fromReply: GeocodeReply, toReply: GeocodeReply): seq<FetchStep>
  {
    [StopTrackingCall, GeocodeCall(fromAddress), GeocodeCall(toAddress)] +
    match DirectionsRequestFor(fromReply, toReply)
    case Some(request) => [DirectionsCall(request)]
    case None => []
  }

  /** The route list after one press of "Fetch Routes". */
  function FetchedRouteList(routes: seq<Route>, fromReply: GeocodeReply, toReply: GeocodeReply, directionsReply: DirectionsReply): seq<Route>
  {
    if DirectionsRequestFor(fromReply, toReply).Some? then FetchRoutes(directionsReply) else routes
  }

  class RouteSelectionView {
    const locationManager: LocationManager
    var fromAddress: string
    var toAddress: string
    var routes: seq<Route>
    var selectedRoute: Option<Route>
    /** The calls the fetch action has made so far, oldest first: stopping tracking on the location manager, and the geocoder and directions requests. */
    var calls: seq<FetchStep>

    constructor (locationManager: LocationManager, fromAddress: string, toAddress: string,
                 routes: seq<Route>, selectedRoute: Option<Route>)
      ensures this.locationManager == locationManager
      ensures this.fromAddress == fromAddress && this.toAddress == toAddress
      ensures this.routes == routes && this.selectedRoute == selectedRoute && calls == []
    {
      this.locationManager := locationManager;
      this.fromAddress := fromAddress;
      this.toAddress := toAddress;
      this.routes := routes;
      this.selectedRoute := selectedRoute;
      calls := [];
    }

    /**
     * The "Fetch Routes" button: stop tracking, geocode both addresses, and
     * only when both resolve ask for directions and replace `routes` with them.
     */
    method FetchRoutesTapped(fromReply: GeocodeReply, toReply: GeocodeReply, directionsReply: DirectionsReply)
      modifies this, locationManager
      ensures locationManager.State() == Stopped(old(locationManager.State()))
      ensures calls == old(calls) + FetchCalls(fromAddress, toAddress, fromReply, toReply)
      ensures routes == FetchedRouteList(old(routes), fromReply, toReply, directionsReply)
      ensures selectedRoute == old(selectedRoute)
      ensures fromAddress == old(fromAddress) && toAddress == old(toAddress)
    {
      locationManager.StopTracking();
      calls := calls + [StopTrackingCall];
      calls := calls + [GeocodeCall(fromAddress)];
      var sourcePlacemark := Geocode(fromReply);
      calls := calls + [GeocodeCall(toAddress)];
      var destinationPlacemark := Geocode(toReply);
      if sourcePlacemark.None? || destinationPlacemark.None? {
        return;
      }
      var request := DirectionsRequest(sourcePlacemark.value, destinationPlacemark.value, Automobile);
      calls := calls + [DirectionsCall(request)];
      routes := FetchRoutes(directionsReply);
    }

    /** A tap on row `row` of the list selects that route. */
    method RowTapped(row: nat)
      requires row < |routes|
      modifies this
      ensures selectedRoute == Some(old(routes)[row])
      ensures routes == old(routes) && calls == old(calls)
      ensures fromAddress == old(fromAddress) && toAddress == old(toAddress)
    {
      selectedRoute := Some(routes[row]);
    }
  }

  /** Tracking is stopped before anything else, and both geocodes are always asked for, in order. */
  lemma FetchCallsPrefix(fromAddress: string, toAddress: string, fromReply: GeocodeReply, toReply: GeocodeReply)
    ensures var calls := FetchCalls(fromAddress, toAddress, fromReply, toReply);
      3 <= |calls| && calls[0] == StopTrackingCall &&
      calls[1] == GeocodeCall(fromAddress) && calls[2] == GeocodeCall(toAddress)
  {
  }

  /**
   * Directions are requested at most once, only after both geocodes, and
   * exactly when both geocodes produced a placemark; the request goes from
   * the first address's placemark to the second's, by car.
   */
  lemma DirectionsOnlyAfterBothGeocodes(fromAddress: string, toAddress: string, fromReply: GeocodeReply, toReply: GeocodeReply)
    ensures var calls := FetchCalls(fromAddress, toAddress, fromReply, toReply);
      forall i :: 0 <= i < |calls| && calls[i].DirectionsCall? ==>
        (i == 3 &&
         calls[i].request == DirectionsRequest(Geocode(fromReply).value, Geocode(toReply).value, Automobile))
    ensures var calls := FetchCalls(fromAddress, toAddress, fromReply, toReply);
      (exists i :: 0 <= i < |calls| && calls[i].DirectionsCall?) <==>
        Geocode(fromReply).Some? && Geocode(toReply).Some?
  {
    var calls := FetchCalls(fromAddress, toAddress, fromReply, toReply);
    if Geocode(fromReply).Some? && Geocode(toReply).Some? {
      assert calls[3].DirectionsCall?;
    }
  }

  /** When either address does not resolve, the route list is left as it was, not emptied. */
  lemma GeocodeFailureKeepsRoutes(routes: seq<Route>, fromReply: GeocodeReply, toReply: GeocodeReply, directionsReply: DirectionsReply)
    requires Geocode(fromReply).None? || Geocode(toReply).None?
    ensures FetchedRouteList(routes, fromReply, toReply, directionsReply) == routes
  {
  }

  /** When both addresses resolve, the list is replaced wholesale by what the service returned. */
  lemma SuccessfulFetchReplacesRoutes(routes: seq<Route>, fromReply: GeocodeReply, toReply: GeocodeReply, directionsReply: DirectionsReply)
    requires Geocode(fromReply).Some? && Geocode(toReply).Some?
    ensures FetchedRouteList(routes, fromReply, toReply, directionsReply) == FetchRoutes(directionsReply)
    ensures directionsReply.error.Some? ==> FetchedRouteList(routes, fromReply, toReply, directionsReply) == []
    ensures directionsReply.error.None? && directionsReply.response.Some? ==>
      FetchedRouteList(routes, fromReply, toReply, directionsReply) == directionsReply.response.value.routes
  {
  }
}
