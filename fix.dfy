/** A position fix: the platform's raw reading and the `LocationData` record the
    service caches and transmits. Coordinates are opaque numbers: nothing is
    computed on them, so they are modelled as `real` and only compared with zero. */
module Fix {
  import opened Wrappers

  /** The platform's coordinate reading; an optional quality field the
      platform leaves null is `None`. */
  datatype Coords = Coords(
    latitude: real,
    longitude: real,
    accuracy: Option<real>,
    heading: Option<real>,
    speed: Option<real>)

  /** One reading delivered by the platform, with its epoch-millisecond timestamp. */
  datatype Position = Position(coords: Coords, timestamp: int)

  /** The fix the service keeps and sends (`LocationData`). */
  datatype LocationData = LocationData(
    latitude: real,
    longitude: real,
    timestamp: int,
    accuracy: Option<real>,
    heading: Option<real>,
    speed: Option<real>)

  /** JavaScript truthiness of an optional number: null and 0 are falsy. */
  predicate Truthy(v: Option<real>) {
    v.Some? && v.value != 0.0
  }

  /** `v || undefined`: a falsy reading becomes absent, any other is kept. */
  function OrUndefined(v: Option<real>): (r: Option<real>)
    ensures r.Some? <==> Truthy(v)
    ensures r.Some? ==> r == v
    ensures r != Some(0.0)
  {
    if Truthy(v) then v else None
  }

  /** A fix whose optional fields never hold a zero. */
  predicate Normalized(l: LocationData) {
    l.accuracy != Some(0.0) && l.heading != Some(0.0) && l.speed != Some(0.0)
  }

  /** The mapping the watch callback and the one-shot fetch both apply to a reading. */
  function ToLocationData(p: Position): (l: LocationData)
    ensures l.latitude == p.coords.latitude && l.longitude == p.coords.longitude
    ensures l.timestamp == p.timestamp
    ensures l.accuracy.Some? <==> Truthy(p.coords.accuracy)
    ensures l.heading.Some? <==> Truthy(p.coords.heading)
    ensures l.speed.Some? <==> Truthy(p.coords.speed)
    ensures l.accuracy.Some? ==> l.accuracy == p.coords.accuracy
    ensures l.heading.Some? ==> l.heading == p.coords.heading
    ensures l.speed.Some? ==> l.speed == p.coords.speed
    ensures Normalized(l)
  {
    LocationData(
      p.coords.latitude,
      p.coords.longitude,
      p.timestamp,
      OrUndefined(p.coords.accuracy),
      OrUndefined(p.coords.heading),
      OrUndefined(p.coords.speed))
  }

  /** The reading that carries exactly the fields of `l`. */
  function ToPosition(l: LocationData): Position {
    Position(Coords(l.latitude, l.longitude, l.accuracy, l.heading, l.speed), l.timestamp)
  }

  /** Every normalized fix is what the mapping makes of some reading, namely
      the reading with the same fields; so the mapping loses nothing but zeros. */
  lemma FixRoundTrip(l: LocationData)
    requires Normalized(l)
    ensures ToLocationData(ToPosition(l)) == l
  {
  }

  /** Mapping a reading twice is mapping it once: a fix is already normalized. */
  lemma ToLocationDataIdempotent(p: Position)
    ensures ToLocationData(ToPosition(ToLocationData(p))) == ToLocationData(p)
  {
  }
}
