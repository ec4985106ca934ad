/** The request body the tracking session hands to the API on each tick. */
module Transmission {
  import opened Fix

  const CHANNEL := "private-delivery-realtime"
  const EVENT := "update_localization"

  /** `{channel, event, data}` as posted to the backend. */
  datatype Payload = Payload(channel: string, event: string, data: seq<LocationData>)

  /** A payload of the shape the session sends: the fixed channel and event,
      and exactly one fix. */
  predicate IsLocationUpdate(p: Payload) {
    p.channel == CHANNEL && p.event == EVENT && |p.data| == 1
  }

  /** Wraps the current fix as a location update. */
  function BuildPayload(l: LocationData): (p: Payload)
    ensures IsLocationUpdate(p)
    ensures p.data[0] == l
  {
    Payload(CHANNEL, EVENT, [l])
  }

  /** The fix a location update carries. */
  function LocationOf(p: Payload): (l: LocationData)
    requires IsLocationUpdate(p)
    ensures l in p.data
  {
    p.data[0]
  }

  /** Building and reading back are inverse: every location update is the
      payload built from the fix it carries. */
  lemma PayloadRoundTrip(p: Payload)
    requires IsLocationUpdate(p)
    ensures BuildPayload(LocationOf(p)) == p
  {
  }

  /** Distinct fixes give distinct payloads. */
  lemma BuildPayloadInjective(a: LocationData, b: LocationData)
    ensures BuildPayload(a) == BuildPayload(b) <==> a == b
  {
  }
}
