/** The subscription registry as the daemon keeps it: subject -> agent -> event
    types, with no empty level, updated in place (daemon/subscriptions.go). */
module Registry {
  import opened Records
  import Agents
  import Subscriptions

  class SubscriptionRegistry {
    var subs: map<string, map<string, set<string>>>

    ghost predicate Valid()
      reads this
    {
      forall s :: s in subs ==> subs[s] != map[] && forall a :: a in subs[s] ==> subs[s][a] != {}
    }

    ghost predicate Holds(k: Key)
      reads this
    {
      k.subject in subs && k.agent in subs[k.subject]
    }

    /** The nested maps read as one. */
    ghost function View(): (view: Subscriptions.Registry)
      reads this
      ensures forall k :: k in view <==> Holds(k)
      ensures forall k :: k in view ==> Holds(k) && view[k] == subs[k.subject][k.agent]
    {
      var keys := set s, a | s in subs && a in subs[s] :: Key(s, a);
      assert forall k :: Holds(k) ==> k == Key(k.subject, k.agent) && k in keys;

      map k | k in keys :: subs[k.subject][k.agent]
    }

    constructor ()
      ensures Valid() && View() == map[]
    {
      subs := map[];
    }

    method Set(k: Key, types: set<string>)
      requires Valid()
      modifies this
      ensures Valid()
      ensures View() == Subscriptions.WithSubscription(old(View()), k, types)
    {
      if types == {} {
        Remove(k);
        return;
      }
      var byAgent := if k.subject in subs then subs[k.subject] else map[];
      subs := subs[k.subject := byAgent[k.agent := types]];
      assert k.agent in subs[k.subject];
      assert forall j :: Holds(j) <==> j == k || old(Holds(j));
    }

    method Remove(k: Key)
      requires Valid()
      modifies this
      ensures Valid()
      ensures View() == old(View()) - {k}
    {
      if k.subject !in subs {
        assert k !in View();
        return;
      }
      var byAgent := subs[k.subject] - {k.agent};
      subs := if byAgent == map[] then subs - {k.subject} else subs[k.subject := byAgent];
      forall j ensures Holds(j) <==> old(Holds(j)) && j != k {
        if j.subject == k.subject && j.agent != k.agent && old(Holds(j)) {
          assert j.agent in byAgent;
        }
      }
    }

    /** The subscribers of one event type, each once, in map order. */
    method Subscribers(subject: string, eventType: string) returns (out: seq<string>)
      requires Valid()
      ensures Distinct(out)
      ensures forall a :: a in out <==> Key(subject, a) in View() && eventType in View()[Key(subject, a)]
    {
      out := [];
      var byAgent := if subject in subs then subs[subject] else map[];
      assert forall a :: Key(subject, a) in View() <==> a in byAgent;
      var rest := byAgent.Keys;
      while rest != {}
        invariant rest <= byAgent.Keys
        invariant Distinct(out)
        invariant forall a :: a in out <==> a in byAgent.Keys - rest && eventType in byAgent[a]
      {
        var a :| a in rest;
        rest := rest - {a};
        if eventType in byAgent[a] {
          out := out + [a];
        }
      }
    }

    /** The boot loop, over the running agents in rowid order. */
    method Reconcile(f: Subscriptions.SubscribeFunc, singleton: bool, t: Agents.Table, running: seq<Key>)
      requires Valid() && View() == map[]
      requires forall k :: k in running ==> k in t.rows
      modifies this
      ensures Valid()
      ensures View() == Subscriptions.Rebuilt(f, singleton, t, running).subs
    {
      var winners: map<Subscriptions.Group, Key> := map[];
      for i := 0 to |running|
        invariant Valid()
        invariant Subscriptions.Rebuild(View(), winners) == Subscriptions.Rebuilt(f, singleton, t, running[..i])
      {
        var k := running[i];
        assert running[..i + 1][..i] == running[..i];
        var types := f(t.rows[k].agentType);
        Set(k, types);
        if singleton && types != {} {
          var g := Subscriptions.GroupOf(t, k);
          if g in winners {
            Remove(winners[g]);
          }
          winners := winners[g := k];
        }
      }
      assert running[..|running|] == running;
    }
  }
}
