/**
 * The LocationManager of the app: it owns the last known location and the
 * `userTracking` flag, and drives CoreLocation's update subscription.
 * CoreLocation itself is outside the model; `updating` records whether the
 * manager last asked it to start (true) or to stop (false) delivering updates.
 */
module LocationTracking {

  import opened Platform

  /** CLAuthorizationStatus */
  datatype AuthorizationStatus =
    | NotDetermined
    | Restricted
    | Denied
    | AuthorizedAlways
    | AuthorizedWhenInUse

  /** The observable state of a LocationManager. */
  datatype Tracker = Tracker(location: Location, userTracking: bool, updating: bool)

  /** `startTracking`: start the platform updates and set `userTracking`. */
  function Started(t: Tracker): Tracker
  {
    t.(userTracking := true, updating := true)
  }

  /** `stopTracking`: stop the platform updates and clear `userTracking`. */
  function Stopped(t: Tracker): Tracker
  {
    t.(userTracking := false, updating := false)
  }

  /** `locationManagerDidChangeAuthorization` */
  function AuthorizationChanged(t: Tracker, status: AuthorizationStatus): Tracker
  {
    if status == Denied then t.(userTracking := false)
    else t.(userTracking := true, updating := true)
  }

  /** `locationManager(_:didUpdateLocations:)`: keep the most recent sample, if any. */
  function LocationsUpdated(t: Tracker, locations: seq<Location>): Tracker
  {
    if |locations| > 0 then t.(location := locations[|locations| - 1]) else t
  }

  /** The state `init` leaves: the default location, tracking on, updates started. */
  const Initial := Started(Tracker(DefaultLocation, true, false))

  class LocationManager {
    var location: Location
    var userTracking: bool
    var updating: bool

    function State(): Tracker
      reads this
    {
      Tracker(location, userTracking, updating)
    }

    /** `init`: both published properties take their initial values, then `startTracking` runs. */
    constructor ()
      ensures State() == Initial
      ensures userTracking && location == DefaultLocation
    {
      location := DefaultLocation;
      userTracking := true;
      updating := false;
      new;
      StartTracking();
    }

    method StartTracking()
      modifies this
      ensures State() == Started(old(State()))
    {
      updating := true;
      userTracking := true;
    }

    method StopTracking()
      modifies this
      ensures State() == Stopped(old(State()))
    {
      updating := false;
      userTracking := false;
    }

    method DidChangeAuthorization(status: AuthorizationStatus)
      modifies this
      ensures State() == AuthorizationChanged(old(State()), status)
    {
      if status == Denied {
        userTracking := false;
      } else {
        updating := true;
        userTracking := true;
      }
    }

    method DidUpdateLocations(locations: seq<Location>)
      modifies this
      ensures State() == LocationsUpdated(old(State()), locations)
    {
      if |locations| > 0 {
        location := locations[|locations| - 1];
      }
    }
  }

  lemma StartTrackingIdempotent(t: Tracker)
    ensures Started(t).userTracking
    ensures Started(Started(t)) == Started(t)
  {
  }

  lemma StopTrackingIdempotent(t: Tracker)
    ensures !Stopped(t).userTracking
    ensures Stopped(Stopped(t)) == Stopped(t)
  {
  }

  /** Denial turns tracking off but leaves the update subscription as it was. */
  lemma DeniedKeepsUpdates(t: Tracker)
    ensures !AuthorizationChanged(t, Denied).userTracking
    ensures AuthorizationChanged(t, Denied).updating == t.updating
  {
  }

  /** Every status other than `.denied` acts exactly like `startTracking`. */
  lemma GrantedActsLikeStart(t: Tracker, status: AuthorizationStatus)
    requires status != Denied
    ensures AuthorizationChanged(t, status) == Started(t)
  {
  }

  /** A non-empty batch leaves its last sample; an empty batch changes nothing. */
  lemma LastSampleWins(t: Tracker, locations: seq<Location>, last: Location)
    ensures LocationsUpdated(t, locations + [last]).location == last
    ensures LocationsUpdated(t, []) == t
  {
  }

  /** Tracking operations never touch `location`; location updates never touch `userTracking`. */
  lemma TrackingAndLocationIndependent(t: Tracker, status: AuthorizationStatus, locations: seq<Location>)
    ensures Started(t).location == t.location && Stopped(t).location == t.location
    ensures AuthorizationChanged(t, status).location == t.location
    ensures LocationsUpdated(t, locations).userTracking == t.userTracking
    ensures LocationsUpdated(t, locations).updating == t.updating
  {
  }
}
