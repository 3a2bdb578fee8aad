/** Runs of the steering machine, one step at a time, that show why the conditions
    of its theorems are there. */
module SteeringRuns {
  import opened Records
  import opened Steering
  import D = Directives
  import L = EventLog
  import A = Agents
  import S = Subscriptions

  // ---- Extending a run ----

  ghost predicate Reached(cfg: Config, s: State) {
    exists run :: IsRun(cfg, run) && run[|run| - 1] == s
  }

  lemma Start(cfg: Config)
    ensures Reached(cfg, INIT)
  {
    var run := [INIT];
    assert IsRun(cfg, run) && run[|run| - 1] == INIT;
  }

  lemma Extend(cfg: Config, s: State, s': State)
    requires Reached(cfg, s) && Next(cfg, s, s')
    ensures Reached(cfg, s')
  {
    var run :| IsRun(cfg, run) && run[|run| - 1] == s;
    var longer := run + [s'];
    forall i | 0 <= i < |longer| - 1 ensures Next(cfg, longer[i], longer[i + 1]) {
      if i < |run| - 1 { assert Next(cfg, run[i], run[i + 1]); }
    }
    assert IsRun(cfg, longer) && longer[|longer| - 1] == s';
  }

  /** A step that goes well, and one that does not. */
  const WELL := Choice(0, false, true, TimedOut, [])
  const BADLY := Choice(0, true, true, TimedOut, [])

  predicate Facing(s: State, pid: Pid, op: Op, rest: seq<Op>) {
    pid in s.conts && s.conts[pid] == [op] + rest
  }

  lemma Take(cfg: Config, s: State, pid: Pid, op: Op, rest: seq<Op>) returns (s': State)
    requires Reached(cfg, s) && Facing(s, pid, op, rest) && Enabled(s, pid, WELL) && !NotFound(s.store, op)
    ensures Reached(cfg, s')
    ensures s'.store == StoreAfter(s.store, op, WELL) && s'.mem == MemoryAfter(cfg, s.store, s.mem, pid, op, WELL)
    ensures s'.hist == HistoryAfter(cfg, s, op, WELL)
    ensures s'.conts == s.conts[pid := Front(cfg, s, op, WELL) + rest + Greeting(cfg, s.store, op)]
  {
    s' := Stepped(cfg, s, pid, WELL);
    assert s.conts[pid][1..] == rest;
    Extend(cfg, s, s');
  }

  lemma TakeBadly(cfg: Config, s: State, pid: Pid, op: Op, rest: seq<Op>) returns (s': State)
    requires Reached(cfg, s) && Facing(s, pid, op, rest) && Enabled(s, pid, BADLY) && Fallible(op)
    ensures Reached(cfg, s')
    ensures s'.store == s.store && s'.mem == s.mem
    ensures s'.hist == Losing(s.hist, Abandoned(s.conts[pid]), |s.store.directives|)
    ensures s'.conts == s.conts[pid := Unwind(s.conts[pid])]
  {
    s' := Stepped(cfg, s, pid, BADLY);
    Extend(cfg, s, s');
  }

  lemma Spawn(cfg: Config, s: State, pid: Pid, call: Call) returns (s': State)
    requires Reached(cfg, s) && CanSpawn(s, pid, call)
    ensures Reached(cfg, s') && s' == s.(conts := s.conts[pid := Program(call)])
  {
    s' := Spawned(s, pid, call);
    Extend(cfg, s, s');
  }

  lemma Crash(cfg: Config, s: State) returns (s': State)
    requires Reached(cfg, s)
    ensures Reached(cfg, s') && s' == Crashed(s)
  {
    s' := Crashed(s);
    Extend(cfg, s, s');
  }

  // ---- What the registry theorem looks at ----

  datatype Core = Core(
    agents: A.Table,
    directives: seq<Directive>,
    log: seq<EventRow>,
    subs: S.Registry,
    lock: Option<Pid>,
    serving: bool,
    pruned: set<Key>,
    unset: set<Key>,
    cut: set<Key>,
    late: set<Key>,
    dropped: set<Op>,
    closes: seq<Transition>,
    conts: map<Pid, seq<Op>>)

  function CoreOf(s: State): Core {
    Core(s.store.agents, s.store.directives, s.store.log, s.mem.subs, s.mem.lock, s.mem.serving,
         s.hist.pruned, s.hist.unset, s.hist.cut, s.hist.late, s.hist.dropped, s.hist.closes, s.conts)
  }

  predicate Plain(cfg: Config, t: string, singleton: bool) {
    cfg.singleton == singleton && cfg.subscribe(t) != {}
  }

  /** Who is unset once k has registered with type t. */
  function UnsetBy(cfg: Config, s: State, k: Key, t: string): set<Key> {
    if Fits(s.mem.subs, k, cfg.subscribe(t)) then s.hist.unset - {k} else s.hist.unset + {k}
  }

  /** Who is unset once k's entry has been removed. */
  function UnsetWithout(cfg: Config, s: State, k: Key): set<Key> {
    if Fits(s.mem.subs - {k}, k, Asked(cfg, s.store.agents, k)) then s.hist.unset - {k} else s.hist.unset
  }

  ghost predicate Quiet(cfg: Config) { forall k :: cfg.greeting(k) == "" }

  // ---- One step each ----

  lemma Lock(cfg: Config, s: State, pid: Pid, rest: seq<Op>) returns (s': State)
    requires Reached(cfg, s) && Facing(s, pid, LockRegister, rest) && s.mem.lock == None
    ensures Reached(cfg, s') && CoreOf(s') == CoreOf(s).(lock := Some(pid), conts := s.conts[pid := rest])
  {
    s' := Take(cfg, s, pid, LockRegister, rest);
    assert [] + rest + [] == rest;
  }

  lemma Unlock(cfg: Config, s: State, pid: Pid, rest: seq<Op>) returns (s': State)
    requires Reached(cfg, s) && Facing(s, pid, UnlockRegister, rest)
    ensures Reached(cfg, s') && CoreOf(s') == CoreOf(s).(lock := None, conts := s.conts[pid := rest])
  {
    s' := Take(cfg, s, pid, UnlockRegister, rest);
    assert [] + rest + [] == rest;
  }

  lemma InsertRow(cfg: Config, s: State, pid: Pid, k: Key, t: string, rest: seq<Op>) returns (s': State)
    requires Reached(cfg, s) && Facing(s, pid, RegisterRow(k, t), rest) && Quiet(cfg)
    ensures Reached(cfg, s')
    ensures CoreOf(s') == CoreOf(s).(agents := A.Registered(s.store.agents, k, t),
                                     pruned := s.hist.pruned - {k}, cut := s.hist.cut - {k},
                                     unset := UnsetBy(cfg, s, k, t),
                                     conts := s.conts[pid := rest])
  {
    s' := Take(cfg, s, pid, RegisterRow(k, t), rest);
    assert cfg.greeting(k) == "";
    assert [] + rest + [] == rest;
  }

  /** Append, for a lifecycle event: nobody subscribes to it. */
  lemma Append(cfg: Config, s: State, pid: Pid, e: Event, rest: seq<Op>) returns (s': State)
    requires Reached(cfg, s) && Facing(s, pid, Persist(e), rest) && !e.body.Domain?
    ensures Reached(cfg, s')
    ensures CoreOf(s') == CoreOf(s).(log := L.Appended(s.store.log, e), conts := s.conts[pid := rest])
  {
    var s1 := Logs(cfg, s, pid, e, rest);
    s' := TeesNothing(cfg, s1, pid, e, rest);
    assert s'.conts == s.conts[pid := rest];
  }

  lemma Logs(cfg: Config, s: State, pid: Pid, e: Event, rest: seq<Op>) returns (s': State)
    requires Reached(cfg, s) && Facing(s, pid, Persist(e), rest)
    ensures Reached(cfg, s')
    ensures CoreOf(s') == CoreOf(s).(log := L.Appended(s.store.log, e), conts := s.conts[pid := [Tee(e)] + rest])
  {
    s' := Take(cfg, s, pid, Persist(e), rest);
    assert [Tee(e)] + rest + [] == [Tee(e)] + rest;
  }

  lemma TeesNothing(cfg: Config, s: State, pid: Pid, e: Event, rest: seq<Op>) returns (s': State)
    requires Reached(cfg, s) && Facing(s, pid, Tee(e), rest) && !e.body.Domain?
    ensures Reached(cfg, s') && CoreOf(s') == CoreOf(s).(conts := s.conts[pid := rest])
  {
    assert Enumerates<Key>([], {});
    s' := Take(cfg, s, pid, Tee(e), rest);
    assert [] + rest + [] == rest;
  }

  lemma SubscribeAlone(cfg: Config, s: State, pid: Pid, k: Key, t: string, rest: seq<Op>) returns (s': State)
    requires Reached(cfg, s) && Facing(s, pid, Subscribe(k, t), rest) && Plain(cfg, t, false)
    ensures Reached(cfg, s')
    ensures CoreOf(s') == CoreOf(s).(subs := s.mem.subs[k := cfg.subscribe(t)],
                                     cut := s.hist.cut - {k}, unset := s.hist.unset - {k},
                                     late := if A.IsRunning(s.store.agents, k) then s.hist.late - {k} else s.hist.late + {k},
                                     conts := s.conts[pid := rest])
  {
    s' := Take(cfg, s, pid, Subscribe(k, t), rest);
    assert [] + rest + [] == rest;
  }

  lemma Unsubscribes(cfg: Config, s: State, pid: Pid, k: Key, rest: seq<Op>) returns (s': State)
    requires Reached(cfg, s) && Facing(s, pid, Unsubscribe(k), rest)
    ensures Reached(cfg, s')
    ensures CoreOf(s') == CoreOf(s).(subs := s.mem.subs - {k},
                                     cut := if Subscribed(cfg, s.store.agents, k) then s.hist.cut + {k} else s.hist.cut,
                                     late := s.hist.late - {k}, unset := UnsetWithout(cfg, s, k),
                                     conts := s.conts[pid := rest])
  {
    s' := Take(cfg, s, pid, Unsubscribe(k), rest);
    assert [] + rest + [] == rest;
  }

  lemma Peek(cfg: Config, s: State, pid: Pid, k: Key, rest: seq<Op>) returns (s': State)
    requires Reached(cfg, s) && Facing(s, pid, PeekStranded(k), rest) && s.store.directives == []
    ensures Reached(cfg, s') && CoreOf(s') == CoreOf(s).(conts := s.conts[pid := rest])
  {
    s' := Take(cfg, s, pid, PeekStranded(k), rest);
    assert [] + rest + [] == rest;
  }

  /** A stop's step on an agent that runs. */
  lemma Closes(cfg: Config, s: State, pid: Pid, k: Key, swept: bool, rest: seq<Op>) returns (s': State)
    requires Reached(cfg, s) && Facing(s, pid, Close(k, swept), rest) && A.IsRunning(s.store.agents, k)
    ensures Reached(cfg, s')
    ensures var stop := [Persist(StoppedEvent(k, |s.hist.closes|)), PeekStranded(k)];
      CoreOf(s') == CoreOf(s).(agents := A.Closed(s.store.agents, k), cut := s.hist.cut - {k},
                               closes := s.hist.closes + [Transition(k, swept, IsLogged(s.store.log, StartedEvent(k)))],
                               conts := s.conts[pid := (if swept then [] else [Unsubscribe(k)]) + stop + rest])
  {
    s' := Take(cfg, s, pid, Close(k, swept), rest);
    var front := Front(cfg, s, Close(k, swept), WELL);
    assert front + rest + [] == front + rest;
  }

  /** The steps of a stop up to its close: an empty mailbox and a willing gate. */
  lemma StopsUpToClose(cfg: Config, s: State, pid: Pid, k: Key) returns (s': State)
    requires Reached(cfg, s) && CanSpawn(s, pid, StopCall(k)) && s.store.directives == []
    requires A.IsRunning(s.store.agents, k)
    ensures Reached(cfg, s')
    ensures CoreOf(s') == CoreOf(s).(agents := A.Closed(s.store.agents, k), cut := s.hist.cut - {k},
                                     closes := s.hist.closes + [Transition(k, false, IsLogged(s.store.log, StartedEvent(k)))],
                                     conts := s.conts[pid := [Unsubscribe(k), Persist(StoppedEvent(k, |s.hist.closes|)), PeekStranded(k)]])
  {
    var s1 := Spawn(cfg, s, pid, StopCall(k));
    var s2 := DrainsNothing(cfg, s1, pid, k);
    var s3 := PassesGate(cfg, s2, pid, k);
    assert [Close(k, false)] == [Close(k, false)] + [];
    s' := Closes(cfg, s3, pid, k, false, []);
    var front := [Unsubscribe(k)] + [Persist(StoppedEvent(k, |s.hist.closes|)), PeekStranded(k)];
    assert front + [] == [Unsubscribe(k), Persist(StoppedEvent(k, |s.hist.closes|)), PeekStranded(k)];
    assert s'.conts == s.conts[pid := [Unsubscribe(k), Persist(StoppedEvent(k, |s.hist.closes|)), PeekStranded(k)]];
  }

  lemma DrainsNothing(cfg: Config, s: State, pid: Pid, k: Key) returns (s': State)
    requires Reached(cfg, s) && pid in s.conts && s.conts[pid] == [Drain(k, StopGate)] && s.store.directives == []
    ensures Reached(cfg, s') && CoreOf(s') == CoreOf(s).(conts := s.conts[pid := [Lookup(k)]])
  {
    assert [Drain(k, StopGate)] == [Drain(k, StopGate)] + [];
    s' := Take(cfg, s, pid, Drain(k, StopGate), []);
    assert D.Drained([], k) == [] && D.Ids([]) == [];
    assert [Lookup(k)] + [] + [] == [Lookup(k)];
  }

  lemma PassesGate(cfg: Config, s: State, pid: Pid, k: Key) returns (s': State)
    requires Reached(cfg, s) && pid in s.conts && s.conts[pid] == [Lookup(k)] && k in s.store.agents.rows
    ensures Reached(cfg, s') && CoreOf(s') == CoreOf(s).(conts := s.conts[pid := [Close(k, false)]])
  {
    var s1 := LooksUp(cfg, s, pid, k);
    var s2 := GateAllows(cfg, s1, pid, k);
    s' := Resets(cfg, s2, pid, k);
    assert s'.conts == s.conts[pid := [Close(k, false)]];
  }

  lemma LooksUp(cfg: Config, s: State, pid: Pid, k: Key) returns (s': State)
    requires Reached(cfg, s) && pid in s.conts && s.conts[pid] == [Lookup(k)] && k in s.store.agents.rows
    ensures Reached(cfg, s') && CoreOf(s') == CoreOf(s).(conts := s.conts[pid := [Gate(k)]])
  {
    assert [Lookup(k)] == [Lookup(k)] + [];
    s' := Take(cfg, s, pid, Lookup(k), []);
    assert [Gate(k)] + [] + [] == [Gate(k)];
  }

  lemma GateAllows(cfg: Config, s: State, pid: Pid, k: Key) returns (s': State)
    requires Reached(cfg, s) && pid in s.conts && s.conts[pid] == [Gate(k)]
    ensures Reached(cfg, s') && CoreOf(s') == CoreOf(s).(conts := s.conts[pid := [ResetGate(k, false), Close(k, false)]])
  {
    assert [Gate(k)] == [Gate(k)] + [];
    s' := Take(cfg, s, pid, Gate(k), []);
    assert [ResetGate(k, false), Close(k, false)] + [] + [] == [ResetGate(k, false), Close(k, false)];
  }

  lemma Resets(cfg: Config, s: State, pid: Pid, k: Key) returns (s': State)
    requires Reached(cfg, s) && pid in s.conts && s.conts[pid] == [ResetGate(k, false), Close(k, false)]
    ensures Reached(cfg, s') && CoreOf(s') == CoreOf(s).(conts := s.conts[pid := [Close(k, false)]])
  {
    assert s.conts[pid] == [ResetGate(k, false)] + [Close(k, false)];
    s' := Take(cfg, s, pid, ResetGate(k, false), [Close(k, false)]);
    assert [] + [Close(k, false)] + [] == [Close(k, false)];
  }

  /** A stop after its close. */
  lemma StopEnds(cfg: Config, s: State, pid: Pid, k: Key, n: nat) returns (s': State)
    requires Reached(cfg, s) && pid in s.conts && s.store.directives == []
    requires s.conts[pid] == [Unsubscribe(k), Persist(StoppedEvent(k, n)), PeekStranded(k)]
    ensures Reached(cfg, s')
    ensures CoreOf(s') == CoreOf(s).(subs := s.mem.subs - {k},
                                     cut := if Subscribed(cfg, s.store.agents, k) then s.hist.cut + {k} else s.hist.cut,
                                     late := s.hist.late - {k}, unset := UnsetWithout(cfg, s, k),
                                     log := L.Appended(s.store.log, StoppedEvent(k, n)),
                                     conts := s.conts[pid := []])
  {
    var tail := [Persist(StoppedEvent(k, n)), PeekStranded(k)];
    assert s.conts[pid] == [Unsubscribe(k)] + tail;
    var s1 := Unsubscribes(cfg, s, pid, k, tail);
    assert tail == [Persist(StoppedEvent(k, n))] + [PeekStranded(k)];
    var s2 := Append(cfg, s1, pid, StoppedEvent(k, n), [PeekStranded(k)]);
    assert [PeekStranded(k)] == [PeekStranded(k)] + [];
    s' := Peek(cfg, s2, pid, k, []);
    assert s'.conts == s.conts[pid := []];
  }

  /** A registration up to its row. */
  lemma Inserts(cfg: Config, s: State, pid: Pid, k: Key, t: string) returns (s': State)
    requires Reached(cfg, s) && CanSpawn(s, pid, StartCall(k, t)) && s.mem.lock == None && Quiet(cfg)
    ensures Reached(cfg, s')
    ensures CoreOf(s') == CoreOf(s).(agents := A.Registered(s.store.agents, k, t), lock := Some(pid),
                                     pruned := s.hist.pruned - {k}, cut := s.hist.cut - {k},
                                     unset := UnsetBy(cfg, s, k, t),
                                     conts := s.conts[pid := [Persist(StartedEvent(k)), Subscribe(k, t), UnlockRegister]])
  {
    var tail := [Persist(StartedEvent(k)), Subscribe(k, t), UnlockRegister];
    var s1 := Begins(cfg, s, pid, k, t);
    s' := InsertRow(cfg, s1, pid, k, t, tail);
    assert s'.conts == s.conts[pid := tail];
  }

  /** A registration that has the lock. */
  lemma Begins(cfg: Config, s: State, pid: Pid, k: Key, t: string) returns (s': State)
    requires Reached(cfg, s) && CanSpawn(s, pid, StartCall(k, t)) && s.mem.lock == None
    ensures Reached(cfg, s')
    ensures var tail := [Persist(StartedEvent(k)), Subscribe(k, t), UnlockRegister];
      CoreOf(s') == CoreOf(s).(lock := Some(pid), conts := s.conts[pid := [RegisterRow(k, t)] + tail])
  {
    var tail := [RegisterRow(k, t)] + [Persist(StartedEvent(k)), Subscribe(k, t), UnlockRegister];
    var s1 := Spawn(cfg, s, pid, StartCall(k, t));
    assert s1.conts[pid] == [LockRegister] + tail;
    s' := Lock(cfg, s1, pid, tail);
    assert s'.conts == s.conts[pid := tail];
  }

  /** The rest of it, with no other agent to supersede. */
  lemma Completes(cfg: Config, s: State, pid: Pid, k: Key, t: string) returns (s': State)
    requires Reached(cfg, s) && pid in s.conts && Plain(cfg, t, false)
    requires s.conts[pid] == [Persist(StartedEvent(k)), Subscribe(k, t), UnlockRegister]
    ensures Reached(cfg, s')
    ensures CoreOf(s') == CoreOf(s).(log := L.Appended(s.store.log, StartedEvent(k)), lock := None,
                                     subs := s.mem.subs[k := cfg.subscribe(t)],
                                     cut := s.hist.cut - {k}, unset := s.hist.unset - {k},
                                     late := if A.IsRunning(s.store.agents, k) then s.hist.late - {k} else s.hist.late + {k},
                                     conts := s.conts[pid := []])
  {
    var tail := [Subscribe(k, t), UnlockRegister];
    assert s.conts[pid] == [Persist(StartedEvent(k))] + tail;
    var s1 := Append(cfg, s, pid, StartedEvent(k), tail);
    assert tail == [Subscribe(k, t)] + [UnlockRegister];
    var s2 := SubscribeAlone(cfg, s1, pid, k, t, [UnlockRegister]);
    assert [UnlockRegister] == [UnlockRegister] + [];
    s' := Unlock(cfg, s2, pid, []);
    assert s'.conts == s.conts[pid := []];
  }

  /** A boot over empty mailboxes. */
  lemma Boots(cfg: Config, s: State) returns (s': State)
    requires Reached(cfg, s) && s.conts == map[0 := BOOT] && s.store.directives == []
    ensures Reached(cfg, s')
    ensures CoreOf(s') == CoreOf(s).(subs := Rebuilt(cfg, s.store.agents), serving := true,
                                     pruned := Pruned(cfg, s.store.agents), unset := {}, cut := {}, late := {},
                                     dropped := (set o | o in s.hist.dropped && !o.Subscribe?),
                                     conts := map[0 := []])
  {
    var s1 := NobodyStranded(cfg, s, [RebuildSubscriptions, Serve]);
    assert [RebuildSubscriptions, Serve] == [RebuildSubscriptions] + [Serve];
    var s2 := Rebuilds(cfg, s1, [Serve]);
    s' := Serves(cfg, s2);
    assert s'.conts == map[0 := []];
  }

  lemma Serves(cfg: Config, s: State) returns (s': State)
    requires Reached(cfg, s) && 0 in s.conts && s.conts[0] == [Serve]
    ensures Reached(cfg, s') && CoreOf(s') == CoreOf(s).(serving := true, conts := s.conts[0 := []])
    ensures s'.mem == s.mem.(serving := true)
  {
    assert [Serve] == [Serve] + [];
    s' := Take(cfg, s, 0, Serve, []);
  }

  lemma NobodyStranded(cfg: Config, s: State, rest: seq<Op>) returns (s': State)
    requires Reached(cfg, s) && 0 in s.conts && s.conts[0] == [Reconcile] + rest && s.store.directives == []
    ensures Reached(cfg, s') && CoreOf(s') == CoreOf(s).(conts := s.conts[0 := rest])
  {
    assert Stranded(s.store) == {};
    assert Enumerates<Key>([], {});
    s' := Take(cfg, s, 0, Reconcile, rest);
    assert [] + rest + [] == rest;
  }

  lemma Rebuilds(cfg: Config, s: State, rest: seq<Op>) returns (s': State)
    requires Reached(cfg, s) && 0 in s.conts && s.conts[0] == [RebuildSubscriptions] + rest
    ensures Reached(cfg, s')
    ensures CoreOf(s') == CoreOf(s).(subs := Rebuilt(cfg, s.store.agents),
                                     pruned := Pruned(cfg, s.store.agents), unset := {}, cut := {}, late := {},
                                     dropped := (set o | o in s.hist.dropped && !o.Subscribe?),
                                     conts := s.conts[0 := rest])
  {
    s' := Take(cfg, s, 0, RebuildSubscriptions, rest);
    assert [] + rest + [] == rest;
  }

  lemma FirstBoot(cfg: Config) returns (s: State)
    ensures Reached(cfg, s)
    ensures CoreOf(s) == Core(A.EmptyTable, [], [], map[], None, true, {}, {}, {}, {}, {}, [], map[0 := []])
  {
    Start(cfg);
    s := Boots(cfg, INIT);
    assert Rebuilt(cfg, A.EmptyTable) == map[];
    assert Pruned(cfg, A.EmptyTable) == {};
  }

  lemma UnwindsToUnlock(a: Op, b: Op)
    requires !a.EndTry? && !b.EndTry? && !IsDeferred(a) && !IsDeferred(b)
    ensures Unwind([a, b, UnlockRegister]) == [UnlockRegister]
  {
    assert [a, b, UnlockRegister][1..] == [b, UnlockRegister];
    assert [b, UnlockRegister][1..] == [UnlockRegister];
    assert [UnlockRegister][1..] == [];
    assert Unwind([UnlockRegister]) == [UnlockRegister] + [];
    assert Unwind([b, UnlockRegister]) == [UnlockRegister];
  }

  /** A registration whose agent.started cannot be appended. */
  lemma CannotRecord(cfg: Config, s: State, pid: Pid, k: Key, t: string) returns (s': State)
    requires Reached(cfg, s) && pid in s.conts
    requires s.conts[pid] == [Persist(StartedEvent(k)), Subscribe(k, t), UnlockRegister]
    ensures Reached(cfg, s')
    ensures CoreOf(s') == CoreOf(s).(lock := None, dropped := s.hist.dropped + Abandoned(s.conts[pid]),
                                     conts := s.conts[pid := []])
  {
    var tail := [Subscribe(k, t), UnlockRegister];
    assert s.conts[pid] == [Persist(StartedEvent(k))] + tail;
    var s1 := TakeBadly(cfg, s, pid, Persist(StartedEvent(k)), tail);
    UnwindsToUnlock(Persist(StartedEvent(k)), Subscribe(k, t));
    assert [UnlockRegister] == [UnlockRegister] + [];
    s' := Unlock(cfg, s1, pid, []);
    assert s'.conts == s.conts[pid := []];
  }

  lemma SubscribeAndSweep(cfg: Config, s: State, pid: Pid, k: Key, t: string, rest: seq<Op>) returns (s': State)
    requires Reached(cfg, s) && Facing(s, pid, Subscribe(k, t), rest) && Plain(cfg, t, true) && A.IsRunning(s.store.agents, k)
    ensures Reached(cfg, s')
    ensures CoreOf(s') == CoreOf(s).(subs := s.mem.subs[k := cfg.subscribe(t)],
                                     cut := s.hist.cut - {k}, unset := s.hist.unset - {k}, late := s.hist.late - {k},
                                     conts := s.conts[pid := [Sweep(k, t), Settle(k, t)] + rest])
  {
    s' := Take(cfg, s, pid, Subscribe(k, t), rest);
    assert [Sweep(k, t), Settle(k, t)] + rest + [] == [Sweep(k, t), Settle(k, t)] + rest;
  }

  /** A sweep that finds the agent j beside its own k. */
  lemma SweepsOne(cfg: Config, s: State, pid: Pid, j: Key, k: Key, t: string, rest: seq<Op>) returns (s': State)
    requires Reached(cfg, s) && Facing(s, pid, Sweep(k, t), rest) && j != k
    requires A.RunningOfType(s.store.agents, s.store.agents.order, k.subject, t) == [j, k]
    ensures Reached(cfg, s') && CoreOf(s') == CoreOf(s).(conts := s.conts[pid := SweepOne(j) + rest])
  {
    OneLoser(j, k);
    s' := Take(cfg, s, pid, Sweep(k, t), rest);
    assert SweepOne(j) + rest + [] == SweepOne(j) + rest;
  }

  lemma OneLoser(j: Key, k: Key)
    requires j != k
    ensures SweepAll([j, k], k) == SweepOne(j)
  {
    assert [j, k][1..] == [k] && [k][1..] == [];
    assert SweepAll([k], k) == [] + SweepAll([], k);
    assert SweepAll([j, k], k) == SweepOne(j) + [];
  }

  /** A Direct to a running agent, all of it. */
  lemma Directs(cfg: Config, s: State, pid: Pid, k: Key, o: Origin, text: string, rest: seq<Op>) returns (s': State)
    requires Reached(cfg, s) && Facing(s, pid, Enqueue(k, o, text), rest) && A.IsRunning(s.store.agents, k)
    ensures Reached(cfg, s')
    ensures var d := D.Enqueued(s.store.directives, k, o, text, 0, |s.store.log|);
      CoreOf(s') == CoreOf(s).(directives := s.store.directives + [d],
                               log := L.Appended(s.store.log, DirectedEvent(d)), conts := s.conts[pid := rest])
  {
    var d := D.Enqueued(s.store.directives, k, o, text, 0, |s.store.log|);
    var tail := [Release(k, d.id)] + rest;
    var s1 := EnqueuesForRunning(cfg, s, pid, k, o, text, rest);
    var s2 := Append(cfg, s1, pid, DirectedEvent(d), tail);
    s' := Releases(cfg, s2, pid, k, d.id, rest);
    assert s'.conts == s.conts[pid := rest];
  }

  lemma EnqueuesForRunning(cfg: Config, s: State, pid: Pid, k: Key, o: Origin, text: string, rest: seq<Op>) returns (s': State)
    requires Reached(cfg, s) && Facing(s, pid, Enqueue(k, o, text), rest) && A.IsRunning(s.store.agents, k)
    ensures Reached(cfg, s')
    ensures var d := D.Enqueued(s.store.directives, k, o, text, 0, |s.store.log|);
      CoreOf(s') == CoreOf(s).(directives := s.store.directives + [d],
                               conts := s.conts[pid := [Persist(DirectedEvent(d))] + ([Release(k, d.id)] + rest)])
  {
    EnqueuePushes(cfg, s, k, o, text, rest);
    s' := Take(cfg, s, pid, Enqueue(k, o, text), rest);
  }

  lemma EnqueuePushes(cfg: Config, s: State, k: Key, o: Origin, text: string, rest: seq<Op>)
    requires A.IsRunning(s.store.agents, k)
    ensures var d := D.Enqueued(s.store.directives, k, o, text, 0, |s.store.log|);
      Front(cfg, s, Enqueue(k, o, text), WELL) + rest + [] == [Persist(DirectedEvent(d))] + ([Release(k, d.id)] + rest)
  {
    assert !A.IsDone(s.store.agents, k);
    var d := D.Enqueued(s.store.directives, k, o, text, 0, |s.store.log|);
    var pushed := [Persist(DirectedEvent(d)), Release(k, d.id)];
    assert Front(cfg, s, Enqueue(k, o, text), WELL) == pushed + [];
    assert pushed + [] + rest + [] == [pushed[0]] + ([pushed[1]] + rest);
  }

  lemma Releases(cfg: Config, s: State, pid: Pid, k: Key, id: nat, rest: seq<Op>) returns (s': State)
    requires Reached(cfg, s) && Facing(s, pid, Release(k, id), rest)
    ensures Reached(cfg, s') && CoreOf(s') == CoreOf(s).(conts := s.conts[pid := rest])
  {
    s' := Take(cfg, s, pid, Release(k, id), rest);
    assert [] + rest + [] == rest;
  }
}
