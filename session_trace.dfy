/** Runs of the session: any sequence of calls, watch callbacks and interval
    ticks, each taken as one atomic step. A watch callback or an interval tick
    happens only while the service holds that watch or interval. */
module SessionTrace {
  import opened Wrappers
  import opened Fix
  import opened Transmission
  import opened SessionSpec

  datatype Event =
    | StartTracking(permission: PermissionResponse, watchOk: bool)
    | StopTracking
    | WatchFires(position: Position)
    | IntervalFires(sendOk: bool)
    | SetDeliveryId(id: string, writeOk: bool)
    | Initialize(readOk: bool)

  /** One step: the new system and the payload handed to the API, if any. */
  function Step(sys: Sys, e: Event): (Sys, Option<Payload>) {
    match e
    case StartTracking(permission, watchOk) => (Started(sys, permission, watchOk), None)
    case StopTracking => (Stopped(sys), None)
    case WatchFires(position) =>
      if sys.s.watchId.Some? then (WithFix(sys, position), None) else (sys, None)
    case IntervalFires(_) =>
      if sys.s.intervalId.Some? then (sys, TickPayload(sys.s)) else (sys, None)
    case SetDeliveryId(id, writeOk) => (WithDeliveryId(sys, id, writeOk), None)
    case Initialize(readOk) => (Initialized(sys, readOk), None)
  }

  function AsSeq<T>(o: Option<T>): seq<T> {
    if o.Some? then [o.value] else []
  }

  /** The system after the events, and every payload handed to the API, in order. */
  function Run(sys: Sys, es: seq<Event>): (Sys, seq<Payload>)
    decreases |es|
  {
    if es == [] then (sys, [])
    else
      var (next, out) := Step(sys, es[0]);
      var (last, outs) := Run(next, es[1..]);
      (last, AsSeq(out) + outs)
  }

  /** The fix cached in a system, as a set. */
  function Cached(sys: Sys): set<LocationData> {
    if sys.s.currentLocation.Some? then {sys.s.currentLocation.value} else {}
  }

  /** The fixes made from every reading the events deliver to the watch callback. */
  function Delivered(es: seq<Event>): set<LocationData>
    decreases |es|
  {
    if es == [] then {}
    else (if es[0].WatchFires? then {ToLocationData(es[0].position)} else {}) + Delivered(es[1..])
  }

  lemma {:induction false} RunPreservesInv(sys: Sys, es: seq<Event>)
    requires Inv(sys)
    ensures Inv(Run(sys, es).0)
    decreases |es|
  {
    if es != [] {
      RunPreservesInv(Step(sys, es[0]).0, es[1..]);
    }
  }

  /** A service that is the platform's only client keeps owning every live
      watch and timer: at any point at most one of each is live, and none
      while the service is not tracking. */
  lemma {:induction false} RunPreservesExclusive(sys: Sys, es: seq<Event>)
    requires Exclusive(sys)
    ensures var last := Run(sys, es).0;
      && Exclusive(last)
      && |last.env.watches| <= 1 && |last.env.timers| <= 1
      && (!last.s.isTracking ==> last.env.watches == {} && last.env.timers == {})
    decreases |es|
  {
    if es == [] {
      ExclusiveBounds(sys);
    } else {
      StepPreservesExclusive(sys, es[0]);
      RunPreservesExclusive(Step(sys, es[0]).0, es[1..]);
    }
  }

  lemma StepPreservesExclusive(sys: Sys, e: Event)
    requires Exclusive(sys)
    ensures Exclusive(Step(sys, e).0)
  {
  }

  lemma ExclusiveBounds(sys: Sys)
    requires Exclusive(sys)
    ensures |sys.env.watches| <= 1 && |sys.env.timers| <= 1
    ensures !sys.s.isTracking ==> sys.env.watches == {} && sys.env.timers == {}
  {
  }

  /** Every payload a run sends has the fixed channel and event and carries one fix. */
  lemma {:induction false} RunSendsLocationUpdates(sys: Sys, es: seq<Event>)
    ensures forall p | p in Run(sys, es).1 :: IsLocationUpdate(p)
    decreases |es|
  {
    if es != [] {
      RunSendsLocationUpdates(Step(sys, es[0]).0, es[1..]);
    }
  }

  /** Nothing is sent while the session is stopped: from a stopped state, a run
      with no start sends no payload, however often its events fire. */
  lemma {:induction false} StoppedSendsNothing(sys: Sys, es: seq<Event>)
    requires Inv(sys) && !sys.s.isTracking
    requires forall i | 0 <= i < |es| :: !es[i].StartTracking?
    ensures Run(sys, es).1 == []
    ensures !Run(sys, es).0.s.isTracking
    decreases |es|
  {
    if es != [] {
      StoppedSendsNothing(Step(sys, es[0]).0, es[1..]);
    }
  }

  /** Only fixes the watch delivered (or the one cached at the start) are ever
      sent: no payload carries a fix the platform did not report. */
  lemma {:induction false} RunSendsOnlyDeliveredFixes(sys: Sys, es: seq<Event>)
    ensures forall p | p in Run(sys, es).1 :: forall l | l in p.data :: l in Cached(sys) + Delivered(es)
    decreases |es|
  {
    if es != [] {
      var (next, out) := Step(sys, es[0]);
      RunSendsOnlyDeliveredFixes(next, es[1..]);
      assert Cached(next) <= Cached(sys) + Delivered(es);
    }
  }

  /** A failed send changes nothing, so the next tick hands the API the same
      payload again. */
  lemma FailedSendRetried(sys: Sys, ok: bool)
    requires sys.s.intervalId.Some?
    ensures Step(sys, IntervalFires(false)).0 == sys
    ensures Run(sys, [IntervalFires(false), IntervalFires(ok)]).1 == AsSeq(TickPayload(sys.s)) + AsSeq(TickPayload(sys.s))
  {
    var tick := AsSeq(TickPayload(sys.s));
    assert Run(sys, []) == (sys, []);
    assert Run(sys, [IntervalFires(ok)]) == (sys, tick + []) by {
      assert [IntervalFires(ok)][1..] == [];
    }
    assert [IntervalFires(false), IntervalFires(ok)][1..] == [IntervalFires(ok)];
  }
}
