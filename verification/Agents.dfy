/** The agents table (store/agents.go). `order` is the rowid order: the order in
    which keys were first inserted. */
module Agents {
  import opened Records
  import opened Directives

  datatype Table = Table(rows: map<Key, Agent>, order: seq<Key>)

  const EmptyTable := Table(map[], [])

  ghost predicate WellOrdered(t: Table) {
    Enumerates(t.order, t.rows.Keys)
  }

  predicate IsRunning(t: Table, k: Key) {
    k in t.rows && t.rows[k].status.Running?
  }

  predicate IsDone(t: Table, k: Key) {
    k in t.rows && t.rows[k].status.Done?
  }

  /** RegisterAgent: insert, or refresh the row and make it running again. */
  function Registered(t: Table, k: Key, agentType: string): Table {
    Table(t.rows[k := Agent(agentType, Running)], if k in t.rows then t.order else t.order + [k])
  }

  /** CloseAgent's guarded running-to-done update. */
  function Closed(t: Table, k: Key): Table {
    if IsRunning(t, k) then t.(rows := t.rows[k := t.rows[k].(status := Done)]) else t
  }

  predicate InGroup(t: Table, k: Key, subject: string, agentType: string) {
    IsRunning(t, k) && k.subject == subject && t.rows[k].agentType == agentType
  }

  /** ListRunningAgentsByType, in rowid order. */
  function RunningOfType(t: Table, keys: seq<Key>, subject: string, agentType: string): seq<Key> {
    if keys == [] then [] else
      var n := |keys| - 1;
      RunningOfType(t, keys[..n], subject, agentType) +
      if InGroup(t, keys[n], subject, agentType) then [keys[n]] else []
  }

  lemma {:induction false} RunningOfTypeMember(t: Table, keys: seq<Key>, subject: string, agentType: string, k: Key)
    ensures k in RunningOfType(t, keys, subject, agentType) <==> k in keys && InGroup(t, k, subject, agentType)
  {
    if keys != [] {
      assert keys == keys[..|keys| - 1] + [keys[|keys| - 1]];
      RunningOfTypeMember(t, keys[..|keys| - 1], subject, agentType, k);
    }
  }

  /** ListRunningAgents, in rowid order. */
  function RunningKeys(t: Table, keys: seq<Key>): seq<Key> {
    if keys == [] then [] else
      var n := |keys| - 1;
      RunningKeys(t, keys[..n]) + if IsRunning(t, keys[n]) then [keys[n]] else []
  }

  lemma {:induction false} RunningKeysMember(t: Table, keys: seq<Key>, k: Key)
    ensures k in RunningKeys(t, keys) <==> k in keys && IsRunning(t, k)
  {
    if keys != [] {
      assert keys == keys[..|keys| - 1] + [keys[|keys| - 1]];
      RunningKeysMember(t, keys[..|keys| - 1], k);
    }
  }

  /** ListPendingDirectiveAgents with supersede signals excluded. */
  predicate IsStranded(t: Table, rows: seq<Directive>, k: Key) {
    IsDone(t, k) && HasPending(rows, k, Some(OriginSupersede))
  }
}
