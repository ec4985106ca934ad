/** Clients of `LocationService` that drive it through whole scenarios and
    state, from the methods' contracts alone, what the caller observes. */
module Scenarios {
  import opened Wrappers
  import opened Fix
  import opened Transmission
  import opened SessionSpec
  import opened Effects
  import opened Tracking

  const GRANTED := Responded("granted")

  /** A watch reading arrives, then two ticks fire: the first send fails, the
      second is attempted with the same fix. Zero-valued speed is dropped. */
  method LatestFixIsSentAndRetried() returns (first: Option<Payload>, firstDelivered: bool, second: Option<Payload>)
    ensures first == second
    ensures first == Some(Payload(CHANNEL, EVENT, [LocationData(10.0, 20.0, 1000, None, None, None)]))
    ensures !firstDelivered
  {
    var device := new Device();
    var storage := new Storage(map[]);
    var service := new LocationService(device, storage);
    var _ := service.SetDeliveryId("d1", true);
    service.StartLocationTracking(GRANTED, true);
    service.OnPosition(Position(Coords(10.0, 20.0, None, None, Some(0.0)), 1000));
    first, firstDelivered := service.Tick(false);
    var secondDelivered;
    second, secondDelivered := service.Tick(true);
  }

  /** Starting twice registers one watch and one interval when permitted, none
      when refused; stopping releases
      both, clears the fix and keeps the delivery id; a tick then sends nothing. */
  method StartTwiceThenStop(permission: PermissionResponse)
    returns (watchesWhileTracking: nat, timersWhileTracking: nat, watchesAfterStop: nat,
             idAfterStop: Option<string>, attemptAfterStop: Option<Payload>)
    ensures permission == GRANTED ==> watchesWhileTracking == 1 && timersWhileTracking == 1
    ensures permission != GRANTED ==> watchesWhileTracking == 0 && timersWhileTracking == 0
    ensures watchesAfterStop == 0
    ensures idAfterStop == Some("d1")
    ensures attemptAfterStop == None
  {
    var device := new Device();
    var storage := new Storage(map[]);
    var service := new LocationService(device, storage);
    var _ := service.SetDeliveryId("d1", false);
    service.StartLocationTracking(permission, true);
    service.StartLocationTracking(permission, true);
    if permission == GRANTED {
      assert device.watches == {service.watchId.value} && device.timers == {service.intervalId.value};
    }
    watchesWhileTracking, timersWhileTracking := |device.watches|, |device.timers|;
    service.StopLocationTracking();
    service.StopLocationTracking();
    watchesAfterStop := |device.watches|;
    idAfterStop := service.deliveryId;
    var delivered;
    attemptAfterStop, delivered := service.Tick(true);
  }

  /** The delivery id survives a reload: a new service on a new device, sharing
      only the store, recovers it in `initialize`. */
  method ReloadRecoversDeliveryId(id: string, stored: map<string, string>) returns (recovered: Option<string>)
    ensures recovered == Some(id)
  {
    var storage := new Storage(stored);
    var oldDevice := new Device();
    var before := new LocationService(oldDevice, storage);
    var _ := before.SetDeliveryId(id, true);
    var newDevice := new Device();
    var after := new LocationService(newDevice, storage);
    after.Initialize(true);
    recovered := after.deliveryId;
  }
}
