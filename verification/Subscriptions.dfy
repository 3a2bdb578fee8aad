/** Event subscriptions (daemon/subscriptions.go): the boot-time rebuild as a
    function, its meaning, and the registry as the nested map the daemon keeps. */
module Subscriptions {
  import opened Records
  import Agents

  type Registry = map<Key, set<string>>

  /** Config.Subscribe: a pure function of the agent's type. It answers with
      domain event types only, never with `agent.*` types. A daemon without the
      hook behaves like the function that always answers {}. */
  type SubscribeFunc = string -> set<string>

  datatype Group = Group(subject: string, agentType: string)

  function GroupOf(t: Agents.Table, k: Key): Group
    requires k in t.rows
  {
    Group(k.subject, t.rows[k].agentType)
  }

  /** set: an empty type set removes the entry. */
  function WithSubscription(subs: Registry, k: Key, types: set<string>): Registry {
    if types == {} then subs - {k} else subs[k := types]
  }

  datatype Rebuild = Rebuild(subs: Registry, winners: map<Group, Key>)

  /** One iteration of the boot loop. */
  function RebuildOne(f: SubscribeFunc, singleton: bool, t: Agents.Table, r: Rebuild, k: Key): Rebuild
    requires k in t.rows
  {
    var types := f(t.rows[k].agentType);
    var subs := WithSubscription(r.subs, k, types);
    if !singleton || types == {} then r.(subs := subs)
    else
      var g := GroupOf(t, k);
      Rebuild(if g in r.winners then subs - {r.winners[g]} else subs, r.winners[g := k])
  }

  function Rebuilt(f: SubscribeFunc, singleton: bool, t: Agents.Table, keys: seq<Key>): Rebuild
    requires forall k :: k in keys ==> k in t.rows
  {
    if keys == [] then Rebuild(map[], map[]) else
      var n := |keys| - 1;
      RebuildOne(f, singleton, t, Rebuilt(f, singleton, t, keys[..n]), keys[n])
  }

  /** The last of `keys` that belongs to group `g`. */
  function LastOfGroup(t: Agents.Table, keys: seq<Key>, g: Group): Option<Key>
    requires forall k :: k in keys ==> k in t.rows
  {
    if keys == [] then None else
      var n := |keys| - 1;
      if GroupOf(t, keys[n]) == g then Some(keys[n]) else LastOfGroup(t, keys[..n], g)
  }

  /** The agents that ought to hold a subscription. */
  predicate Deserves(f: SubscribeFunc, singleton: bool, t: Agents.Table, keys: seq<Key>, k: Key)
    requires forall j :: j in keys ==> j in t.rows
  {
    && k in keys
    && f(t.rows[k].agentType) != {}
    && (singleton ==> LastOfGroup(t, keys, GroupOf(t, k)) == Some(k))
  }

  ghost predicate IsWinner(f: SubscribeFunc, t: Agents.Table, keys: seq<Key>, winners: map<Group, Key>, g: Group)
    requires forall k :: k in keys ==> k in t.rows
  {
    if f(g.agentType) != {} && LastOfGroup(t, keys, g).Some?
    then g in winners && winners[g] == LastOfGroup(t, keys, g).value
    else g !in winners
  }

  lemma {:induction false} LastOfGroupBelongs(t: Agents.Table, keys: seq<Key>, g: Group)
    requires forall k :: k in keys ==> k in t.rows
    ensures var last := LastOfGroup(t, keys, g);
      last.Some? ==> last.value in keys && GroupOf(t, last.value) == g
    ensures LastOfGroup(t, keys, g).None? ==> forall k :: k in keys ==> GroupOf(t, k) != g
  {
    if keys != [] {
      LastOfGroupBelongs(t, keys[..|keys| - 1], g);
      assert keys == keys[..|keys| - 1] + [keys[|keys| - 1]];
    }
  }

  /** The loop's `winners` map holds each subscribed group's last member. */
  lemma {:induction false} WinnersAreLast(f: SubscribeFunc, t: Agents.Table, keys: seq<Key>, g: Group)
    requires forall k :: k in keys ==> k in t.rows
    ensures IsWinner(f, t, keys, Rebuilt(f, true, t, keys).winners, g)
  {
    if keys != [] {
      WinnersAreLast(f, t, keys[..|keys| - 1], g);
    }
  }

  /** What the boot loop is for, said without the loop: an agent holds its
      subscription exactly when it has one to hold and, with the singleton knob
      on, is the last-inserted of its group. */
  lemma {:induction false} RebuiltMeaning(f: SubscribeFunc, singleton: bool, t: Agents.Table, keys: seq<Key>, k: Key)
    requires Distinct(keys) && forall j :: j in keys ==> j in t.rows
    ensures var subs := Rebuilt(f, singleton, t, keys).subs;
      && (k in subs <==> Deserves(f, singleton, t, keys, k))
      && (k in subs ==> subs[k] == f(t.rows[k].agentType))
  {
    if keys != [] {
      var init, last := keys[..|keys| - 1], keys[|keys| - 1];
      assert keys == init + [last] && last !in init;
      RebuiltMeaning(f, singleton, t, init, k);
      RebuildStep(f, singleton, t, init, last, k);
    }
  }

  lemma RebuildStep(f: SubscribeFunc, singleton: bool, t: Agents.Table, init: seq<Key>, last: Key, k: Key)
    requires last in t.rows && last !in init && forall j :: j in init ==> j in t.rows
    requires var subs := Rebuilt(f, singleton, t, init).subs;
      (k in subs <==> Deserves(f, singleton, t, init, k)) && (k in subs ==> subs[k] == f(t.rows[k].agentType))
    ensures var r := RebuildOne(f, singleton, t, Rebuilt(f, singleton, t, init), last);
      && (k in r.subs <==> Deserves(f, singleton, t, init + [last], k))
      && (k in r.subs ==> r.subs[k] == f(t.rows[k].agentType))
  {
    var keys := init + [last];
    assert keys[..|init|] == init;
    var g := GroupOf(t, last);
    var types := f(t.rows[last].agentType);
    if singleton {
      WinnersAreLast(f, t, init, g);
      LastOfGroupBelongs(t, init, g);
    }
    var before := Rebuilt(f, singleton, t, init);
    if k == last {
      assert LastOfGroup(t, keys, g) == Some(last);
    } else if k in init {
      assert LastOfGroup(t, keys, GroupOf(t, k)) ==
        if GroupOf(t, k) == g then Some(last) else LastOfGroup(t, init, GroupOf(t, k));
    }
  }
}
