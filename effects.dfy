/** The platform services the tracking session uses, with their effects made
    visible: a device that issues watch subscriptions and interval timers
    (live ones are named by handle), and a persistent key-value store. */
module Effects {
  import opened Wrappers
  import opened SessionSpec

  class Device {
    var watches: set<Handle>
    var timers: set<Handle>
    var nextHandle: Handle

    ghost predicate Valid()
      reads this
    {
      HandlesIssued(watches, timers, nextHandle)
    }

    constructor ()
      ensures Valid()
      ensures watches == {} && timers == {}
    {
      watches, timers, nextHandle := {}, {}, 0;
    }

    /** Registers a position watch; `ok` is false when the registration throws,
        and then nothing is registered. */
    method WatchPosition(ok: bool) returns (h: Option<Handle>)
      requires Valid()
      modifies this
      ensures Valid()
      ensures ok ==> h == Some(old(nextHandle)) && watches == old(watches) + {old(nextHandle)}
      ensures ok ==> nextHandle == old(nextHandle) + 1
      ensures !ok ==> h == None && watches == old(watches) && nextHandle == old(nextHandle)
      ensures timers == old(timers)
    {
      if ok {
        h := Some(nextHandle);
        watches := watches + {nextHandle};
        nextHandle := nextHandle + 1;
      } else {
        h := None;
      }
    }

    /** Starts a repeating timer and returns its handle. */
    method SetInterval() returns (h: Handle)
      requires Valid()
      modifies this
      ensures Valid()
      ensures h == old(nextHandle) && nextHandle == old(nextHandle) + 1
      ensures timers == old(timers) + {h} && watches == old(watches)
    {
      h := nextHandle;
      timers := timers + {h};
      nextHandle := nextHandle + 1;
    }

    /** Removes a watch subscription. */
    method RemoveWatch(h: Handle)
      requires Valid()
      modifies this
      ensures Valid()
      ensures watches == old(watches) - {h} && timers == old(timers) && nextHandle == old(nextHandle)
    {
      watches := watches - {h};
    }

    /** Cancels an interval timer. */
    method ClearInterval(h: Handle)
      requires Valid()
      modifies this
      ensures Valid()
      ensures timers == old(timers) - {h} && watches == old(watches) && nextHandle == old(nextHandle)
    {
      timers := timers - {h};
    }
  }

  /** The persistent key-value store; it outlives any one service instance. */
  class Storage {
    var items: map<string, string>

    constructor (items: map<string, string>)
      ensures this.items == items
    {
      this.items := items;
    }

    /** `getItem`: the stored value, or null when the key is absent. */
    function GetItem(key: string): (r: Option<string>)
      reads this
      ensures r.Some? <==> key in items
      ensures r.Some? ==> r.value == items[key]
    {
      if key in items then Some(items[key]) else None
    }

    /** `setItem`: stores `value` under `key`, replacing any previous value. */
    method SetItem(key: string, value: string)
      modifies this
      ensures items == old(items)[key := value]
    {
      items := items[key := value];
    }
  }
}
