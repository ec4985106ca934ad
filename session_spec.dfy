/** The tracking session as a value: the five fields of `LocationService`, the
    platform resources it holds (live watch subscriptions and interval timers,
    named by handles) and the key-value store, with one function per
    operation giving the state after it. The class in module Tracking is
    proved against these functions. */
module SessionSpec {
  import opened Wrappers
  import opened Fix
  import opened Transmission

  /** An opaque handle for a watch subscription or an interval timer. */
  type Handle = nat

  /** The storage key under which the delivery id is persisted. */
  const DELIVERY_ID_KEY := "deliveryId"

  /** What the foreground-permission request yields: a status, or an error. */
  datatype PermissionResponse = Responded(status: string) | Threw

  /** The platform side: live watches and timers, the next unused handle, and
      the persistent key-value store. */
  datatype Env = Env(
    watches: set<Handle>,
    timers: set<Handle>,
    nextHandle: Handle,
    store: map<string, string>)

  /** The service's own fields. */
  datatype State = State(
    isTracking: bool,
    watchId: Option<Handle>,
    intervalId: Option<Handle>,
    currentLocation: Option<LocationData>,
    deliveryId: Option<string>)

  datatype Sys = Sys(s: State, env: Env)

  /** A newly constructed service. */
  const FRESH: State := State(false, None, None, None, None)

  /** The handles a nullable handle field holds. */
  function Live(h: Option<Handle>): set<Handle> {
    if h.Some? then {h.value} else {}
  }

  /** Every live handle was issued before `nextHandle`, so `nextHandle` is unused. */
  predicate HandlesIssued(watches: set<Handle>, timers: set<Handle>, nextHandle: Handle) {
    (forall h | h in watches :: h < nextHandle) && (forall h | h in timers :: h < nextHandle)
  }

  /** The session invariant: `isTracking` holds exactly when a watch and an
      interval are held, both are live on the platform, no fix is cached
      while not tracking, and a cached fix holds no zero optional reading. */
  predicate Inv(sys: Sys) {
    var s := sys.s;
    && HandlesIssued(sys.env.watches, sys.env.timers, sys.env.nextHandle)
    && (s.isTracking <==> s.watchId.Some?)
    && (s.isTracking <==> s.intervalId.Some?)
    && Live(s.watchId) <= sys.env.watches
    && Live(s.intervalId) <= sys.env.timers
    && (!s.isTracking ==> s.currentLocation.None?)
    && (s.currentLocation.Some? ==> Normalized(s.currentLocation.value))
  }

  /** The session owns every live watch and timer on the platform. */
  predicate Exclusive(sys: Sys) {
    Inv(sys) && sys.env.watches == Live(sys.s.watchId) && sys.env.timers == Live(sys.s.intervalId)
  }

  /** `requestLocationPermission`: true only for the status "granted"; an
      error from the request reads as a refusal. */
  function RequestLocationPermission(r: PermissionResponse): (granted: bool)
    ensures granted <==> r == Responded("granted")
  {
    match r
    case Responded(status) => status == "granted"
    case Threw => false
  }

  /** `startLocationTracking`, given the permission response and whether the
      watch registration succeeds. Every failure is caught inside start and
      leaves the state as it was (`isTracking` is raised and rolled back). */
  function Started(sys: Sys, permission: PermissionResponse, watchOk: bool): (r: Sys)
    ensures sys.s.isTracking ==> r == sys
    ensures !RequestLocationPermission(permission) || !watchOk ==> r == sys
    ensures !sys.s.isTracking && RequestLocationPermission(permission) && watchOk ==>
      && r.s.isTracking && r.s.watchId.Some? && r.s.intervalId.Some?
      && r.env.watches == sys.env.watches + Live(r.s.watchId)
      && r.env.timers == sys.env.timers + Live(r.s.intervalId)
      && r.s.currentLocation == sys.s.currentLocation
      && r.s.deliveryId == sys.s.deliveryId
      && r.env.store == sys.env.store
    ensures Inv(sys) && r != sys ==>
      r.s.watchId.value !in sys.env.watches && r.s.intervalId.value !in sys.env.timers
    ensures Inv(sys) ==> Inv(r)
  {
    if sys.s.isTracking then sys
    else if !RequestLocationPermission(permission) then sys
    else if !watchOk then sys
    else
      var w := sys.env.nextHandle;
      var t := w + 1;
      Sys(sys.s.(isTracking := true, watchId := Some(w), intervalId := Some(t)),
          sys.env.(watches := sys.env.watches + {w}, timers := sys.env.timers + {t}, nextHandle := t + 1))
  }

  /** `stopLocationTracking`: a no-op when not tracking; otherwise releases the
      watch and the interval and forgets the cached fix, keeping the delivery id. */
  function Stopped(sys: Sys): (r: Sys)
    ensures !sys.s.isTracking ==> r == sys
    ensures sys.s.isTracking ==>
      && !r.s.isTracking && r.s.watchId.None? && r.s.intervalId.None? && r.s.currentLocation.None?
      && r.env.watches == sys.env.watches - Live(sys.s.watchId)
      && r.env.timers == sys.env.timers - Live(sys.s.intervalId)
    ensures r.s.deliveryId == sys.s.deliveryId && r.env.store == sys.env.store
    ensures r.env.nextHandle == sys.env.nextHandle
    ensures Inv(sys) ==> Inv(r)
  {
    if !sys.s.isTracking then sys
    else
      var watches := if sys.s.watchId.Some? then sys.env.watches - {sys.s.watchId.value} else sys.env.watches;
      var timers := if sys.s.intervalId.Some? then sys.env.timers - {sys.s.intervalId.value} else sys.env.timers;
      Sys(sys.s.(isTracking := false, watchId := None, intervalId := None, currentLocation := None),
          sys.env.(watches := watches, timers := timers))
  }

  /** The watch callback: the cached fix is replaced by the new reading. */
  function WithFix(sys: Sys, position: Position): (r: Sys)
    ensures r.s.currentLocation.Some? && r.s.currentLocation.value == ToLocationData(position)
    ensures r.s.(currentLocation := sys.s.currentLocation) == sys.s && r.env == sys.env
    ensures Inv(sys) && sys.s.isTracking ==> Inv(r)
  {
    sys.(s := sys.s.(currentLocation := Some(ToLocationData(position))))
  }

  /** JavaScript truthiness of the delivery id: null and the empty string are falsy. */
  predicate KnownId(d: Option<string>) {
    d.Some? && d.value != ""
  }

  /** The payload one interval tick hands to the API, if any; a tick never
      changes the state, whether the send succeeds or not. */
  function TickPayload(s: State): (p: Option<Payload>)
    ensures p.Some? <==> s.currentLocation.Some? && KnownId(s.deliveryId)
    ensures s.deliveryId == Some("") ==> p.None?
    ensures p.Some? ==> IsLocationUpdate(p.value) && LocationOf(p.value) == s.currentLocation.value
  {
    if s.currentLocation.Some? && KnownId(s.deliveryId) then Some(BuildPayload(s.currentLocation.value)) else None
  }

  /** `setDeliveryId`: the in-memory id is set first, then persisted; a failed
      write leaves the store as it was (the error reaches the caller). */
  function WithDeliveryId(sys: Sys, id: string, writeOk: bool): (r: Sys)
    ensures r.s.deliveryId == Some(id)
    ensures r.s.(deliveryId := sys.s.deliveryId) == sys.s
    ensures writeOk ==> DELIVERY_ID_KEY in r.env.store && r.env.store[DELIVERY_ID_KEY] == id
    ensures writeOk ==> forall k | k in sys.env.store && k != DELIVERY_ID_KEY :: k in r.env.store && r.env.store[k] == sys.env.store[k]
    ensures !writeOk ==> r.env == sys.env
    ensures r.env.(store := sys.env.store) == sys.env
    ensures Inv(sys) ==> Inv(r)
  {
    var s := sys.s.(deliveryId := Some(id));
    if writeOk then Sys(s, sys.env.(store := sys.env.store[DELIVERY_ID_KEY := id])) else Sys(s, sys.env)
  }

  /** `initialize`: the in-memory id is overwritten with what the store holds
      under "deliveryId" (absent when nothing is stored); a failed read is
      caught and changes nothing. */
  function Initialized(sys: Sys, readOk: bool): (r: Sys)
    ensures !readOk ==> r == sys
    ensures readOk ==> (r.s.deliveryId.Some? <==> DELIVERY_ID_KEY in sys.env.store)
    ensures readOk && r.s.deliveryId.Some? ==> r.s.deliveryId.value == sys.env.store[DELIVERY_ID_KEY]
    ensures r.s.(deliveryId := sys.s.deliveryId) == sys.s && r.env == sys.env
    ensures Inv(sys) ==> Inv(r)
  {
    if !readOk then sys
    else
      var stored := if DELIVERY_ID_KEY in sys.env.store then Some(sys.env.store[DELIVERY_ID_KEY]) else None;
      sys.(s := sys.s.(deliveryId := stored))
  }

  /** Starting twice in a row registers at most one watch and one interval:
      once a start has succeeded, a second start, whatever its inputs,
      changes nothing. */
  lemma StartIdempotent(sys: Sys, p1: PermissionResponse, ok1: bool, p2: PermissionResponse, ok2: bool)
    requires Inv(sys)
    ensures var once := Started(sys, p1, ok1);
      var twice := Started(once, p2, ok2);
      && (once.s.isTracking ==> twice == once)
      && |twice.env.watches| <= |sys.env.watches| + 1
      && |twice.env.timers| <= |sys.env.timers| + 1
  {
  }

  /** A denied or failing start leaves nothing behind: no watch, no interval,
      not tracking. */
  lemma FailedStartLeavesIdle(sys: Sys, permission: PermissionResponse, watchOk: bool)
    requires Inv(sys) && !sys.s.isTracking
    requires !RequestLocationPermission(permission) || !watchOk
    ensures var r := Started(sys, permission, watchOk);
      !r.s.isTracking && r.s.watchId.None? && r.s.intervalId.None?
      && r.env.watches == sys.env.watches && r.env.timers == sys.env.timers
  {
  }

  /** Stopping twice is stopping once. */
  lemma StopIdempotent(sys: Sys)
    ensures Stopped(Stopped(sys)) == Stopped(sys)
  {
  }

  /** Start then stop returns the platform's watches and timers to what they
      were, and keeps the delivery id. */
  lemma StartStopReleasesAll(sys: Sys, permission: PermissionResponse, watchOk: bool)
    requires Inv(sys) && !sys.s.isTracking
    ensures var r := Stopped(Started(sys, permission, watchOk));
      r.env.watches == sys.env.watches && r.env.timers == sys.env.timers
      && r.s.deliveryId == sys.s.deliveryId && !r.s.isTracking
  {
  }

  /** Only the latest reading counts: a second callback overwrites the first. */
  lemma LastFixWins(sys: Sys, a: Position, b: Position)
    ensures WithFix(WithFix(sys, a), b) == WithFix(sys, b)
  {
  }

  /** The delivery id survives a reload: a fresh service that initializes from
      the store written by `setDeliveryId` recovers the same id. */
  lemma DeliveryIdRoundTrip(sys: Sys, id: string, reloaded: Env)
    requires reloaded.store == WithDeliveryId(sys, id, true).env.store
    ensures Initialized(Sys(FRESH, reloaded), true).s.deliveryId == Some(id)
  {
  }
}
