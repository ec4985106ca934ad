# Location-tracking session of swiftDelivery-mobile, in Dafny

This project models `LocationService`, the delivery app's location-tracking
session (src/services/location/locationService.ts). The service asks for
foreground location permission. It then subscribes to the device's position
watch, caching each reading as the current fix, and starts a 10-second interval
whose every tick posts the cached fix to the backend, wrapped as
`{channel: "private-delivery-realtime", event: "update_localization", data: [fix]}`.
A tick posts only when a fix is cached and the delivery id is neither null
nor the empty string (JavaScript truthiness). Stopping releases the watch and
the interval and forgets the fix. The delivery id is kept in the device's
key-value storage under `"deliveryId"`.

The model has three layers:

- `Fix` and `Transmission` (fix.dfy, transmission.dfy) hold the two pure pieces
  of the service. The first maps a platform reading to `LocationData`, where a
  falsy (null or zero) accuracy, heading or speed becomes absent. The second
  builds the payload literal, with its inverse `LocationOf`.
- `SessionSpec` (session_spec.dfy) is the session as a value. It holds the five
  fields, the platform's live watch and timer handles and the store. Each
  operation is a function whose contract states what the operation guarantees.
  `Inv` is the session invariant: tracking holds exactly when a watch and an
  interval are held, and no fix is cached while stopped.
  `SessionTrace` (session_trace.dfy) runs arbitrary sequences of calls, watch
  callbacks and ticks, and proves by induction what holds over whole runs.
- `Tracking.LocationService` (tracking.dfy) is the class itself, with the
  source's fields updated in place. Its methods follow the source's
  guard-then-mutate steps. Each is proved to move its abstraction `Abs()`
  exactly as the matching `SessionSpec` function does and to keep `Valid()`.
  The platform is reached through `Effects.Device` and `Effects.Storage`
  (effects.dfy). The device issues watch subscriptions and interval timers and
  records which are live. The storage is a `map<string, string>` that outlives
  any one service instance. `Scenarios` (scenarios.dfy) drives the class
  through whole scenarios.

Platform outcomes are inputs. These are the permission response (a status
string, or `Threw`), whether the watch registration succeeds, whether a
storage read or write succeeds, and whether the API call succeeds.

Behaviour worth noting:
- A refused permission does not reach the caller of `startLocationTracking`.
  The error is thrown and caught inside the method (lines 45-48 and 75-78).
- There is no broker transport and no readiness wait (line 81).
- A tick does not test `isTracking`. It runs only because the interval exists
  only while tracking.

## Model

| member | source | states |
|---|---|---|
| `Fix.OrUndefined` | src/services/location/locationService.ts:64-66 | falsy-to-undefined fallback: the result is present exactly when the reading is non-null and non-zero, and is then the reading; it is never zero |
| `Fix.ToLocationData` | src/services/location/locationService.ts:59-67 | the fix copies latitude, longitude and timestamp; each optional field is present iff the reading is truthy and then equals it; the fix holds no zero optional field |
| `Fix.FixRoundTrip` | src/services/location/locationService.ts:165-172 | every normalized fix is what the mapping makes of the reading with the same fields: only zeros are lost |
| `Fix.ToLocationDataIdempotent` | src/services/location/locationService.ts:60-67 | re-mapping a fix's own reading gives the same fix |
| `Transmission.BuildPayload` | src/services/location/locationService.ts:135-139 | the payload has channel `private-delivery-realtime`, event `update_localization` and a one-element `data` holding the fix |
| `Transmission.PayloadRoundTrip` | src/services/location/locationService.ts:135-139 | every well-shaped location update is the payload built from the fix it carries |
| `Transmission.BuildPayloadInjective` | src/services/location/locationService.ts:135-139 | two fixes give the same payload iff they are equal |
| `SessionSpec.RequestLocationPermission` | src/services/location/locationService.ts:181-193 | permission is granted iff the request returned the status `granted`; another status or a thrown request is a refusal |
| `SessionSpec.Started` | src/services/location/locationService.ts:37-79 | while tracking, start changes nothing; a refusal or failed watch registration leaves the state as it was; otherwise tracking, with one fresh watch and one fresh interval added and fix, id and store untouched; keeps `Inv` |
| `SessionSpec.Stopped` | src/services/location/locationService.ts:84-105 | when not tracking, nothing changes; otherwise not tracking, both handles null and released on the platform, fix cleared; the delivery id and store are kept; keeps `Inv` |
| `SessionSpec.WithFix` | src/services/location/locationService.ts:59-68 | the cached fix becomes the mapped reading, whatever it was; nothing else changes; keeps `Inv` while tracking |
| `SessionSpec.TickPayload` | src/services/location/locationService.ts:110-119 | a tick sends iff a fix is cached and the delivery id is truthy (non-null and non-empty), and then a location update carrying the cached fix; an empty id never sends |
| `SessionSpec.WithDeliveryId` | src/services/location/locationService.ts:31-34 | the in-memory id becomes `id` even when the write fails; a successful write stores `id` under `deliveryId` and keeps every other key; a failed one leaves the store alone |
| `SessionSpec.Initialized` | src/services/location/locationService.ts:23-29 | after a successful read the id is present iff the store holds `deliveryId`, and equals it; a failed read changes nothing |
| `SessionSpec.StartIdempotent` | src/services/location/locationService.ts:37-41 | after a successful start a second start changes nothing; two starts add at most one watch and one interval |
| `SessionSpec.FailedStartLeavesIdle` | src/services/location/locationService.ts:43-78 | a refused or failing start leaves the session idle with both handles null and the platform's watches and timers unchanged |
| `SessionSpec.StopIdempotent` | src/services/location/locationService.ts:84-87 | stopping twice is stopping once |
| `SessionSpec.StartStopReleasesAll` | src/services/location/locationService.ts:50-105 | start then stop returns the platform's watches and timers to what they were and keeps the delivery id |
| `SessionSpec.LastFixWins` | src/services/location/locationService.ts:59-67 | two callbacks in a row leave only the second reading cached |
| `SessionSpec.DeliveryIdRoundTrip` | src/services/location/locationService.ts:23-34 | a fresh service initializing from the store that `setDeliveryId(id)` wrote recovers `id` |
| `SessionTrace.RunPreservesInv` | src/services/location/locationService.ts:37-121 | every run of calls, callbacks and ticks keeps the session invariant |
| `SessionTrace.RunPreservesExclusive` | src/services/location/locationService.ts:37-105 | when the service owns the platform's watches and timers, it keeps owning them: at most one of each is ever live, and none while not tracking |
| `SessionTrace.RunSendsLocationUpdates` | src/services/location/locationService.ts:109-139 | every payload a run sends has the fixed channel and event and exactly one fix |
| `SessionTrace.StoppedSendsNothing` | src/services/location/locationService.ts:84-120 | from a stopped session, a run without a start sends nothing and stays stopped |
| `SessionTrace.RunSendsOnlyDeliveredFixes` | src/services/location/locationService.ts:59-113 | every fix in every payload a run sends was cached at its start or made from a reading the watch delivered (the payloads' shape is `RunSendsLocationUpdates`) |
| `SessionTrace.FailedSendRetried` | src/services/location/locationService.ts:109-120 | a tick whose send fails leaves the system unchanged, so a failed tick followed by another tick hands the API the same payload twice |
| `Tracking.LocationService.constructor` | src/services/location/locationService.ts:14-21 | a new service is not tracking, holds no handle, no fix and no delivery id, and is valid |
| `Tracking.LocationService.Initialize` | src/services/location/locationService.ts:23-29 | moves the session as `Initialized` does |
| `Tracking.LocationService.SetDeliveryId` | src/services/location/locationService.ts:31-34 | moves the session as `WithDeliveryId` does; reports an error exactly when the write fails |
| `Tracking.LocationService.StartLocationTracking` | src/services/location/locationService.ts:37-79 | moves the session and the device as `Started` does, raising nothing |
| `Tracking.LocationService.StartPeriodicLocationSend` | src/services/location/locationService.ts:108-121 | starts one fresh interval and records its handle, changing no other field |
| `Tracking.LocationService.StopLocationTracking` | src/services/location/locationService.ts:84-105 | moves the session and the device as `Stopped` does |
| `Tracking.LocationService.OnPosition` | src/services/location/locationService.ts:59-68 | moves the session as `WithFix` does |
| `Tracking.LocationService.Tick` | src/services/location/locationService.ts:109-120 | hands the API exactly `TickPayload` of the current fields, changes no field, and counts as delivered only if the send succeeds |
| `Tracking.LocationService.SendLocationToApi` | src/services/location/locationService.ts:124-155 | a location update is sent iff the delivery id is truthy (non-null and non-empty), and it carries the given fix; a failed send is caught |
| `Tracking.LocationService.GetCurrentLocation` | src/services/location/locationService.ts:158-178 | reads no field of the service; succeeds iff the fetch does, with the mapped fix; otherwise rethrows the fetch's error |
| `Tracking.LocationService.IsCurrentlyTracking` | src/services/location/locationService.ts:196-198 | tracking iff a watch and an interval are held, both live on the device |
| `Tracking.LocationService.LastKnownLocation` | src/services/location/locationService.ts:200-202 | no fix while not tracking; a fix held has no zero optional reading |
| `Scenarios.LatestFixIsSentAndRetried` | src/services/location/locationService.ts:109-154 | the reading (10, 20, t=1000) with id `d1` is sent as the single-fix location update; zero speed is dropped; after a failed send the next tick sends the same payload |
| `Scenarios.StartTwiceThenStop` | src/services/location/locationService.ts:37-105 | two starts hold one watch and one interval when permitted and none when refused; stopping leaves none, keeps the id, and a tick then sends nothing |
| `Scenarios.ReloadRecoversDeliveryId` | src/services/location/locationService.ts:23-34 | a new service sharing only the store recovers the id set before |

## Left out

- The broker transport and its readiness wait (10 polls, 1000 ms apart): the code has no such wait (line 81 notes its removal), and src/services/pusher/pusherService.ts only warns.
- The HTTP client (src/services/api/apiService.ts): bearer token, URL and status check are reduced to the input `sendOk`, success or a caught failure.
- The React hook and screen (src/hooks/useLocation.ts, src/screens/MapScreen/index.tsx) and env.d.ts: UI state and type declarations.
- Timing and platform configuration (the 10000 ms interval, 10 m and 5000 ms watch thresholds, the one-shot 15000 ms timeout and 10000 ms maximum age): these are passed to the platform, and no logic depends on them.
- Interleavings of asynchronous steps: each operation is one atomic step. A stop that lands while start awaits the watch registration is not modelled. Neither is a callback between raising `isTracking` and holding the watch. So at value level a failed start is simply "no change".
- Callbacks and ticks run only while their watch or interval is live. `OnPosition` requires a held watch. In `SessionTrace`, a callback or tick with no live watch or interval does nothing.
- `Fix.OrUndefined`: NaN is also falsy in JavaScript but has no counterpart among Dafny reals, so it is not modelled. Coordinates are opaque reals without float rounding.
- All console logging, and the `toFixed`/ISO formatting of the success log.
- The tick's own catch (lines 114-116) is unreachable, because `sendLocationToApi` catches its own failures. The model keeps only the inner catch.
