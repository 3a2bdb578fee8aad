/** The park registry as the daemon keeps it (daemon/parks.go): one waiter per
    agent, one-slot channels, and the time of each agent's last drain. */
module Parks {
  import opened Records
  import opened Signals

  class ParkRegistry {
    var waiters: map<Key, Signal>
    var drains: map<Key, int>

    /** No channel waits for two agents. */
    ghost predicate Valid()
      reads this
    {
      forall j, k :: j in waiters && k in waiters && waiters[j] == waiters[k] ==> j == k
    }

    constructor ()
      ensures Valid() && waiters == map[] && drains == map[]
    {
      waiters, drains := map[], map[];
    }

    /** The new waiter takes the slot; the one it displaces is signalled, and no
        other waiter is touched. */
    method Wait(k: Key) returns (ch: Signal)
      requires Valid()
      modifies this`waiters, waiters.Values
      ensures Valid() && fresh(ch) && !ch.full
      ensures waiters == old(waiters)[k := ch]
      ensures k in old(waiters) ==> old(waiters)[k].full
      ensures forall j :: j in old(waiters) && j != k ==> old(waiters)[j].full == old(waiters[j].full)
    {
      if k in waiters {
        waiters[k].Send();
      }
      ch := new Signal();
      waiters := waiters[k := ch];
    }

    /** Exactly the registered waiter of `k`, if any, is woken. */
    method Release(k: Key)
      requires Valid()
      modifies waiters.Values
      ensures k in waiters ==> waiters[k].full
      ensures forall j :: j in waiters && j != k ==> waiters[j].full == old(waiters[j].full)
    {
      if k in waiters {
        waiters[k].Send();
      }
    }

    /** A displaced await deregisters nothing. */
    method Done(k: Key, ch: Signal)
      requires Valid()
      modifies this`waiters
      ensures Valid()
      ensures waiters == if k in old(waiters) && old(waiters)[k] == ch then old(waiters) - {k} else old(waiters)
    {
      if k in waiters && waiters[k] == ch {
        waiters := waiters - {k};
      }
    }

    method NoteDrain(k: Key, now: int)
      modifies this`drains
      ensures drains == old(drains)[k := now]
    {
      drains := drains[k := now];
    }

    /** Present: parked now, or drained within the window. */
    method Present(k: Key, now: int, window: int) returns (present: bool)
      ensures present <==> k in waiters || (k in drains && now - drains[k] <= window)
    {
      if k in waiters {
        return true;
      }
      present := k in drains && now - drains[k] <= window;
    }
  }

  /** The registry through one schedule of two awaits of an agent: the displaced
      one wakes, its deregistration leaves the newer one in place, and a Direct
      after it reaches the newer one. */
  method DisplacedAwaitLeavesTheNewer(r: ParkRegistry, k: Key) returns (first: Signal, second: Signal)
    requires r.Valid()
    modifies r`waiters, r.waiters.Values
    ensures fresh(first) && fresh(second)
    ensures first.full && second.full
    ensures r.waiters == old(r.waiters)[k := second]
  {
    first := r.Wait(k);
    second := r.Wait(k);
    r.Done(k, first);
    r.Release(k);
  }
}
