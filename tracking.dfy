/** `LocationService`: the location-tracking session as an object whose methods
    update its fields in place. Platform outcomes that the source awaits
    (permission, watch registration, storage, the API call) are inputs. Each
    method is proved to move the abstract system `Abs()` exactly as the
    corresponding function of SessionSpec does. */
module Tracking {
  import opened Wrappers
  import opened Fix
  import opened Transmission
  import opened SessionSpec
  import opened Effects

  /** The error a failed storage write raises to the caller of `SetDeliveryId`. */
  datatype StorageError = WriteFailed

  /** An error from the one-shot position fetch (a timeout, a missing permission). */
  datatype LocationError = LocationError(reason: string)

  class LocationService {
    const device: Device
    const storage: Storage

    var watchId: Option<Handle>
    var intervalId: Option<Handle>
    var isTracking: bool
    var currentLocation: Option<LocationData>
    var deliveryId: Option<string>

    /** The service's fields as a value. */
    ghost function Session(): State
      reads this
    {
      State(isTracking, watchId, intervalId, currentLocation, deliveryId)
    }

    /** The service together with the platform state it acts on. */
    ghost function Abs(): Sys
      reads this, device, storage
    {
      Sys(Session(), Env(device.watches, device.timers, device.nextHandle, storage.items))
    }

    ghost predicate Valid()
      reads this, device, storage
    {
      Inv(Abs())
    }

    constructor (device: Device, storage: Storage)
      requires device.Valid()
      ensures Valid()
      ensures this.device == device && this.storage == storage
      ensures Session() == FRESH
    {
      this.device := device;
      this.storage := storage;
      watchId, intervalId := None, None;
      isTracking := false;
      currentLocation := None;
      deliveryId := None;
    }

    /** `initialize`: reloads the delivery id from storage; a failed read
        (`readOk` false) is logged and swallowed. */
    method Initialize(readOk: bool)
      requires Valid()
      modifies this
      ensures Valid()
      ensures Abs() == Initialized(old(Abs()), readOk)
    {
      if readOk {
        deliveryId := storage.GetItem(DELIVERY_ID_KEY);
      }
    }

    /** `setDeliveryId`: sets the id in memory, then persists it; a failed
        write is raised to the caller after the in-memory id has changed. */
    method SetDeliveryId(id: string, writeOk: bool) returns (r: Outcome<StorageError>)
      requires Valid()
      modifies this, storage
      ensures Valid()
      ensures Abs() == WithDeliveryId(old(Abs()), id, writeOk)
      ensures r.Pass? <==> writeOk
    {
      deliveryId := Some(id);
      if writeOk {
        storage.SetItem(DELIVERY_ID_KEY, id);
        r := Pass;
      } else {
        r := Fail(WriteFailed);
      }
    }

    /** `startLocationTracking`: a no-op while tracking; otherwise asks for
        permission, raises `isTracking`, registers the watch and starts the
        interval. A refusal or a failed registration is caught, `isTracking`
        is lowered again and nothing is raised to the caller. */
    method StartLocationTracking(permission: PermissionResponse, watchOk: bool)
      requires Valid()
      modifies this, device
      ensures Valid()
      ensures Abs() == Started(old(Abs()), permission, watchOk)
    {
      if isTracking {
        return;
      }
      var hasPermission := RequestLocationPermission(permission);
      if !hasPermission {
        // the refusal is thrown and caught by the handler below it
        isTracking := false;
        return;
      }
      isTracking := true;
      var w := device.WatchPosition(watchOk);
      if w.None? {
        // the registration threw: the handler lowers the flag again
        isTracking := false;
        return;
      }
      watchId := w;
      StartPeriodicLocationSend();
    }

    /** `startPeriodicLocationSend`: starts the interval whose ticks run `Tick`. */
    method StartPeriodicLocationSend()
      requires device.Valid()
      modifies this, device
      ensures device.Valid()
      ensures intervalId == Some(old(device.nextHandle))
      ensures device.timers == old(device.timers) + {old(device.nextHandle)}
      ensures device.watches == old(device.watches) && device.nextHandle == old(device.nextHandle) + 1
      ensures Session() == old(Session()).(intervalId := intervalId)
    {
      var t := device.SetInterval();
      intervalId := Some(t);
    }

    /** `stopLocationTracking`: a no-op when not tracking; otherwise removes the
        watch, clears the interval and forgets the cached fix. */
    method StopLocationTracking()
      requires Valid()
      modifies this, device
      ensures Valid()
      ensures Abs() == Stopped(old(Abs()))
    {
      if !isTracking {
        return;
      }
      if watchId.Some? {
        device.RemoveWatch(watchId.value);
        watchId := None;
      }
      if intervalId.Some? {
        device.ClearInterval(intervalId.value);
        intervalId := None;
      }
      isTracking := false;
      currentLocation := None;
    }

    /** The watch callback; the platform calls it only while the watch is live. */
    method OnPosition(position: Position)
      requires Valid() && watchId.Some?
      modifies this
      ensures Valid()
      ensures Abs() == WithFix(old(Abs()), position)
    {
      currentLocation := Some(ToLocationData(position));
    }

    /** The body of the interval: sends the cached fix when a fix is cached
        and the delivery id is neither null nor empty, and otherwise only warns. `sendOk` is the API
        call's outcome; a failure is logged and no state changes. Returns the
        payload handed to the API and whether it was accepted. */
    method Tick(sendOk: bool) returns (attempt: Option<Payload>, delivered: bool)
      ensures attempt == TickPayload(Session())
      ensures delivered <==> attempt.Some? && sendOk
    {
      if currentLocation.Some? && KnownId(deliveryId) {
        attempt, delivered := SendLocationToApi(currentLocation.value, sendOk);
        PayloadRoundTrip(attempt.value);
      } else {
        attempt, delivered := None, false;
      }
    }

    /** `sendLocationToApi`: without a delivery id (null or empty) it only warns; otherwise it
        posts the location update for `location`, catching a failed post. */
    method SendLocationToApi(location: LocationData, sendOk: bool) returns (attempt: Option<Payload>, delivered: bool)
      ensures attempt.Some? <==> KnownId(deliveryId)
      ensures attempt.Some? ==> IsLocationUpdate(attempt.value) && LocationOf(attempt.value) == location
      ensures delivered <==> attempt.Some? && sendOk
    {
      if !KnownId(deliveryId) {
        return None, false;
      }
      var payload := BuildPayload(location);
      attempt := Some(payload);
      delivered := sendOk;
    }

    /** `getCurrentLocation`: the one-shot fetch. It reads and writes no field
        of the service (no reads clause); the platform's error is rethrown. */
    function GetCurrentLocation(fetched: Result<Position, LocationError>): (r: Result<LocationData, LocationError>)
      ensures r.Success? <==> fetched.Success?
      ensures r.Success? ==> r.value == ToLocationData(fetched.value) && Normalized(r.value)
      ensures r.Failure? ==> r.error == fetched.error
    {
      match fetched
      case Success(position) => Success(ToLocationData(position))
      case Failure(e) => Failure(e)
    }

    /** `isCurrentlyTracking`: tracking means a watch and an interval are held. */
    function IsCurrentlyTracking(): (r: bool)
      reads this, device, storage
      requires Valid()
      ensures r <==> watchId.Some? && intervalId.Some?
      ensures r ==> watchId.value in device.watches && intervalId.value in device.timers
    {
      isTracking
    }

    /** `lastKnownLocation`: no fix once tracking has stopped, and never one
        holding a zero optional reading. */
    function LastKnownLocation(): (r: Option<LocationData>)
      reads this, device, storage
      requires Valid()
      ensures !isTracking ==> r.None?
      ensures r.Some? ==> isTracking && Normalized(r.value)
    {
      currentLocation
    }
  }
}
