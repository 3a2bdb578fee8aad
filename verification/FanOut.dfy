/** Append, tee and Direct call one another (daemon/events.go, daemon/agents.go,
    daemon/subscriptions.go): the recursion ends, and one append enqueues exactly
    one directive per subscriber. Errors other than a missing row do not occur
    here. */
module FanOut {
  import opened Records
  import Directives
  import EventLog
  import Agents
  import Subscriptions
  import Database
  import Registry

  const LIFECYCLE := {
    "agent.started", "agent.stopped", "agent.directed", "agent.delivered", "agent.relay", "agent.gate.forced_allow",
    "agent.launched", "agent.result"
  }

  function TypeName(b: Body): string {
    match b
    case Started(_) => "agent.started"
    case Stopped(_, _) => "agent.stopped"
    case Directed(_, _) => "agent.directed"
    case Delivered(_, _) => "agent.delivered"
    case Relay(_) => "agent.relay"
    case ForcedAllow(_) => "agent.gate.forced_allow"
    case Domain(t, _) => t
  }

  /** What Config.Subscribe promises: no lifecycle type is ever subscribed to. */
  ghost predicate ExcludesLifecycle(subs: Subscriptions.Registry) {
    forall k :: k in subs ==> subs[k] !! LIFECYCLE
  }

  function Subscribers(subs: Subscriptions.Registry, e: Event): set<Key> {
    if e.origin == OriginAgent then {}
    else set k | k in subs && k.subject == e.subject && TypeName(e.body) in subs[k]
  }

  function PayloadOf(b: Body): string {
    if b.Domain? then b.payload else ""
  }

  datatype Tables = Tables(directives: seq<Directive>, events: seq<EventRow>)

  predicate Reachable(t: Agents.Table, k: Key) {
    k.agent == TopLevel || k in t.rows
  }

  /** What one Direct leaves in the tables. */
  function AfterDirect(t: Agents.Table, db: Tables, k: Key, origin: Origin, text: string, now: int): Tables {
    if !Reachable(t, k) then db
    else
      var d := Directives.Enqueued(db.directives, k, origin, text, now, |db.events|);
      var directed := EventLog.Appended(db.events, DirectedEvent(d));
      Tables(db.directives + [d],
             if k.agent != TopLevel && Agents.IsDone(t, k) then EventLog.Appended(directed, RelayEvent(k)) else directed)
  }

  function AfterTee(t: Agents.Table, db: Tables, order: seq<Key>, text: string, now: int): Tables {
    if order == [] then db
    else AfterDirect(t, AfterTee(t, db, order[..|order| - 1], text, now), order[|order| - 1], OriginEvent, text, now)
  }

  ghost predicate IsAppend(t: Agents.Table, subs: Subscriptions.Registry, db: Tables, e: Event, now: int, db': Tables) {
    exists order :: Enumerates(order, Subscribers(subs, e))
      && db' == AfterTee(t, db.(events := EventLog.Appended(db.events, e)), order, PayloadOf(e.body), now)
  }

  function Rank(e: Event): nat {
    if TypeName(e.body) in LIFECYCLE then 0 else 1
  }

  class Server {
    const store: Database.Store
    const registry: Registry.SubscriptionRegistry

    constructor (store: Database.Store, registry: Registry.SubscriptionRegistry)
      ensures this.store == store && this.registry == registry
    {
      this.store, this.registry := store, registry;
    }

    function Db(): Tables
      reads this, store
    {
      Tables(store.directives, store.events)
    }

    ghost predicate Valid()
      reads this, registry
    {
      registry.Valid() && ExcludesLifecycle(registry.View())
    }

    method Direct(k: Key, origin: Origin, text: string, now: int) returns (r: Database.Result<Directive>)
      requires Valid()
      modifies store`directives, store`events
      ensures Db() == AfterDirect(store.agents, old(Db()), k, origin, text, now)
      ensures r.NotFound? <==> !Reachable(store.agents, k)
      ensures r.Ok? ==> r.value in store.directives && r.value.key == k
      decreases 0, 3
    {
      var enqueued := store.EnqueueDirective(k, origin, text, now);
      if enqueued.NotFound? {
        return Database.NotFound;
      }
      var (d, status) := enqueued.value;
      AppendLifecycle(DirectedEvent(d), now);
      if status == Done {
        AppendLifecycle(RelayEvent(k), now);
      }
      return Database.Ok(d);
    }

    /** An append that nobody can be subscribed to. */
    method AppendLifecycle(e: Event, now: int)
      requires Valid() && Rank(e) == 0
      modifies store`directives, store`events
      ensures store.directives == old(store.directives) && store.events == EventLog.Appended(old(store.events), e)
      decreases 0, 2
    {
      var _ := Append(e, now);
    }

    /** Best effort: a Direct that fails is only logged. */
    method TeeToSubscribers(e: Event, now: int)
      requires Valid()
      modifies store`directives, store`events
      ensures exists order :: Enumerates(order, Subscribers(registry.View(), e))
                && Db() == AfterTee(store.agents, old(Db()), order, PayloadOf(e.body), now)
      decreases Rank(e), 0
    {
      ghost var order: seq<Key> := [];
      if e.origin != OriginAgent {
        var agents := registry.Subscribers(e.subject, TypeName(e.body));
        for i := 0 to |agents|
          invariant |order| == i && forall j :: 0 <= j < i ==> order[j] == Key(e.subject, agents[j])
          invariant Db() == AfterTee(store.agents, old(Db()), order, PayloadOf(e.body), now)
        {
          var k := Key(e.subject, agents[i]);
          assert agents[i] in agents;
          assert TypeName(e.body) in registry.View()[k];
          var _ := Direct(k, OriginEvent, PayloadOf(e.body), now);
          order := order + [k];
          assert order[..|order| - 1] == order[..i];
        }
        ListsSubscribers(order, agents, registry.View(), e);
      }
      assert Enumerates(order, Subscribers(registry.View(), e));
    }

    method Append(e: Event, now: int) returns (seqNo: nat)
      requires Valid()
      modifies store`directives, store`events
      ensures IsAppend(store.agents, registry.View(), old(Db()), e, now, Db())
      ensures seqNo == EventLog.AppendedSeq(old(store.events), e)
      ensures Rank(e) == 0 ==>
        store.directives == old(store.directives) && store.events == EventLog.Appended(old(store.events), e)
      decreases Rank(e), 1
    {
      seqNo := store.AppendEvent(e);
      ghost var appended := Db();
      TeeToSubscribers(e, now);
      ghost var order :| Enumerates(order, Subscribers(registry.View(), e))
        && Db() == AfterTee(store.agents, appended, order, PayloadOf(e.body), now);
      if Rank(e) == 0 {
        assert Subscribers(registry.View(), e) == {};
        FirstIsMember(order, Subscribers(registry.View(), e));
      }
    }
  }

  lemma ListsSubscribers(order: seq<Key>, agents: seq<string>, subs: Subscriptions.Registry, e: Event)
    requires e.origin != OriginAgent && Distinct(agents)
    requires forall a :: a in agents <==> Key(e.subject, a) in subs && TypeName(e.body) in subs[Key(e.subject, a)]
    requires |order| == |agents| && forall j :: 0 <= j < |agents| ==> order[j] == Key(e.subject, agents[j])
    ensures Enumerates(order, Subscribers(subs, e))
  {
    forall k | k in Subscribers(subs, e) ensures k in order {
      assert k == Key(e.subject, k.agent) && k.agent in agents;
      var j :| 0 <= j < |agents| && agents[j] == k.agent;
      assert order[j] == k;
    }
    forall k | k in order ensures k in Subscribers(subs, e) {
      assert k.agent in agents;
    }
  }

  // ---- What one append fans out to ----

  function KeysOf(ds: seq<Directive>): (keys: seq<Key>)
    ensures |keys| == |ds|
    ensures forall i :: 0 <= i < |ds| ==> keys[i] == ds[i].key
  {
    seq(|ds|, i requires 0 <= i < |ds| => ds[i].key)
  }

  function Existing(t: Agents.Table, order: seq<Key>): seq<Key> {
    if order == [] then [] else
      var last := order[|order| - 1];
      Existing(t, order[..|order| - 1]) + if Reachable(t, last) then [last] else []
  }

  lemma {:induction false} ExistingMember(t: Agents.Table, order: seq<Key>, k: Key)
    requires Distinct(order)
    ensures Distinct(Existing(t, order))
    ensures k in Existing(t, order) <==> k in order && Reachable(t, k)
  {
    if order != [] {
      var init, last := order[..|order| - 1], order[|order| - 1];
      ExistingMember(t, init, k);
      ExistingMember(t, init, last);
      assert order == init + [last];
      var early := Existing(t, init);
      assert forall i :: 0 <= i < |early| ==> early[i] in early;
    }
  }

  lemma {:induction false} TeeEnqueues(t: Agents.Table, db: Tables, order: seq<Key>, text: string, now: int)
    ensures var after := AfterTee(t, db, order, text, now).directives;
      && |db.directives| <= |after|
      && after[..|db.directives|] == db.directives
      && KeysOf(after[|db.directives|..]) == Existing(t, order)
      && forall i :: |db.directives| <= i < |after| ==>
           after[i].origin == OriginEvent && after[i].text == text && !after[i].delivered
  {
    if order != [] {
      var init, last := order[..|order| - 1], order[|order| - 1];
      TeeEnqueues(t, db, init, text, now);
      if Reachable(t, last) {
        var before := AfterTee(t, db, init, text, now).directives;
        var after := AfterTee(t, db, order, text, now).directives;
        assert after == before + [after[|before|]];
        OneMoreKey(before, after[|before|], |db.directives|);
      }
    }
  }

  lemma OneMoreKey(before: seq<Directive>, d: Directive, n: nat)
    requires n <= |before|
    ensures (before + [d])[..n] == before[..n]
    ensures KeysOf((before + [d])[n..]) == KeysOf(before[n..]) + [d.key]
  {
  }

  /** One append enqueues exactly one directive, carrying the event's payload,
      for each current subscriber that can be addressed, none for anybody else,
      and none at all for an agent-origin event. */
  lemma AppendFansOutExactly(t: Agents.Table, subs: Subscriptions.Registry, db: Tables, e: Event, now: int, db': Tables, k: Key)
    requires IsAppend(t, subs, db, e, now, db')
    ensures |db.directives| <= |db'.directives| && db'.directives[..|db.directives|] == db.directives
    ensures var added := db'.directives[|db.directives|..];
      && multiset(KeysOf(added))[k] == (if k in Subscribers(subs, e) && Reachable(t, k) then 1 else 0)
      && (forall d :: d in added ==> d.origin == OriginEvent && d.text == PayloadOf(e.body) && !d.delivered)
      && (e.origin == OriginAgent ==> added == [])
  {
    var db0 := db.(events := EventLog.Appended(db.events, e));
    var order :| Enumerates(order, Subscribers(subs, e)) && db' == AfterTee(t, db0, order, PayloadOf(e.body), now);
    TeeEnqueues(t, db0, order, PayloadOf(e.body), now);
    ExistingMember(t, order, k);
    var added := db'.directives[|db.directives|..];
    DistinctCount(KeysOf(added), k);
    FirstIsMember(order, Subscribers(subs, e));
  }

  lemma FirstIsMember(order: seq<Key>, members: set<Key>)
    requires Enumerates(order, members)
    ensures order == [] || order[0] in members
  {
    if order != [] { assert order[0] in order; }
  }

  lemma {:induction false} DistinctCount(s: seq<Key>, k: Key)
    requires Distinct(s)
    ensures multiset(s)[k] == if k in s then 1 else 0
  {
    if s != [] {
      assert s == [s[0]] + s[1..];
      DistinctCount(s[1..], k);
    }
  }
}
