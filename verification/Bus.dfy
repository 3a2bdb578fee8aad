/** The event bus (event/bus.go): a publish wakes every current subscriber of its
    subject, and nobody else. */
module Bus {
  import opened Signals

  class Bus {
    var subs: map<string, set<Signal>>

    /** No subject is kept without a subscriber, and no channel serves two. */
    ghost predicate Valid()
      reads this
    {
      && (forall s :: s in subs ==> subs[s] != {})
      && (forall s, t :: s in subs && t in subs && s != t ==> subs[s] !! subs[t])
    }

    function SubscribersOf(subject: string): set<Signal>
      reads this
    {
      if subject in subs then subs[subject] else {}
    }

    constructor ()
      ensures Valid() && subs == map[]
    {
      subs := map[];
    }

    method Subscribe(subject: string) returns (c: Signal)
      requires Valid()
      modifies this
      ensures Valid() && fresh(c) && !c.full
      ensures SubscribersOf(subject) == old(SubscribersOf(subject)) + {c}
      ensures forall s :: s != subject ==> SubscribersOf(s) == old(SubscribersOf(s))
    {
      c := new Signal();
      subs := subs[subject := SubscribersOf(subject) + {c}];
    }

    method Cancel(subject: string, c: Signal)
      requires Valid()
      modifies this
      ensures Valid()
      ensures SubscribersOf(subject) == old(SubscribersOf(subject)) - {c}
      ensures forall s :: s != subject ==> SubscribersOf(s) == old(SubscribersOf(s))
    {
      var left := SubscribersOf(subject) - {c};
      subs := if left == {} then subs - {subject} else subs[subject := left];
    }

    /** Snapshots the subscribers, then sends to each without blocking. */
    method Publish(subject: string)
      requires Valid()
      modifies SubscribersOf(subject)
      ensures forall c :: c in SubscribersOf(subject) ==> c.full
    {
      var snapshot := SubscribersOf(subject);
      var rest := snapshot;
      while rest != {}
        invariant rest <= snapshot
        invariant forall c :: c in snapshot - rest ==> c.full
      {
        var c :| c in rest;
        c.Send();
        rest := rest - {c};
      }
    }
  }
}
