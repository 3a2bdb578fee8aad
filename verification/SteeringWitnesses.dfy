/** Inputs on which the steering plane does not do what one would hope: each is a
    run that reaches the failing side of a theorem's condition. */
module SteeringWitnesses {
  import opened Records
  import opened Steering
  import opened SteeringRuns
  import D = Directives
  import L = EventLog
  import A = Agents
  import S = Subscriptions
  import SteeringRegistry
  import SteeringAwait

  /** At rest, with one running agent per group, and yet the next boot would
      rebuild another registry. */
  ghost predicate Differs(cfg: Config, s: State) {
    && SteeringRegistry.AtRest(s)
    && SteeringRegistry.OnePerGroup(cfg, s.store.agents)
    && s.mem.subs != Rebuilt(cfg, s.store.agents)
  }

  lemma DiffersByTheorem(cfg: Config, s: State)
    requires Reached(cfg, s) && SteeringRegistry.AtRest(s) && SteeringRegistry.OnePerGroup(cfg, s.store.agents)
    requires !SteeringRegistry.NoOddOnes(s)
    ensures Differs(cfg, s)
  {
    var run :| IsRun(cfg, run) && run[|run| - 1] == s;
    SteeringRegistry.RestartTransparent(cfg, run, |run| - 1);
  }

  lemma LoneDiffers(cfg: Config, s: State, k: Key, t: string, status: Status)
    requires Reached(cfg, s) && SteeringRegistry.AtRest(s) && s.store.agents == Lone(k, t, status) && !SteeringRegistry.NoOddOnes(s)
    ensures Differs(cfg, s)
  {
    DiffersByTheorem(cfg, s);
  }

  lemma PairDiffers(cfg: Config, s: State, j: Key, k: Key, t: string)
    requires Reached(cfg, s) && SteeringRegistry.AtRest(s) && s.store.agents == Both(j, k, t, Done) && j != k
    requires !SteeringRegistry.NoOddOnes(s)
    ensures Differs(cfg, s)
  {
    DiffersByTheorem(cfg, s);
  }

  function Lone(k: Key, t: string, status: Status): A.Table {
    A.Table(map[k := Agent(t, status)], [k])
  }

  /** One agent that has registered and been subscribed. */
  lemma RegistersOnce(cfg: Config, k: Key, t: string) returns (s: State)
    requires Plain(cfg, t, false) && Quiet(cfg) && k.agent != TopLevel
    ensures Reached(cfg, s)
    ensures var c := CoreOf(s);
      && c.agents == Lone(k, t, Running) && c.directives == [] && c.serving && c.lock == None && c.closes == []
      && c.pruned == c.unset == c.cut == c.late == {} && c.subs == map[k := cfg.subscribe(t)]
      && c.conts == map[0 := [], 1 := []]
  {
    var s1 := InsertsFirst(cfg, k, t);
    s := Completes(cfg, s1, 1, k, t);
    assert s.conts == map[0 := [], 1 := []];
  }

  function StopTail(k: Key): seq<Op> { [Unsubscribe(k), Persist(StoppedEvent(k, 0)), PeekStranded(k)] }

  /** Its stop has closed it, and its removal is still to come. */
  lemma StopsHalfway(cfg: Config, k: Key, t: string) returns (s: State)
    requires Plain(cfg, t, false) && Quiet(cfg) && k.agent != TopLevel
    ensures Reached(cfg, s)
    ensures var c := CoreOf(s);
      && c.agents == Lone(k, t, Done) && c.directives == [] && c.lock == None && c.serving
      && c.pruned == c.unset == c.cut == c.late == {}
      && c.conts == map[0 := [], 1 := [], 2 := StopTail(k)]
  {
    var s1 := RegistersOnce(cfg, k, t);
    s := StopsUpToClose(cfg, s1, 2, k);
    assert s.store.agents.rows == map[k := Agent(t, Done)];
    assert s.conts == map[0 := [], 1 := [], 2 := StopTail(k)];
  }

  /** Before the removal, the agent registers again. */
  lemma RegistersAgain(cfg: Config, k: Key, t: string) returns (s: State)
    requires Plain(cfg, t, false) && Quiet(cfg) && k.agent != TopLevel
    ensures Reached(cfg, s)
    ensures var c := CoreOf(s);
      && c.agents == Lone(k, t, Running) && c.directives == [] && c.serving
      && c.pruned == c.unset == c.cut == c.late == {}
      && c.conts == map[0 := [], 1 := [], 2 := StopTail(k), 3 := []]
  {
    var s1 := InsertsAgain(cfg, k, t);
    s := Completes(cfg, s1, 3, k, t);
    assert s.conts == s1.conts[3 := []];
  }

  lemma InsertsAgain(cfg: Config, k: Key, t: string) returns (s: State)
    requires Plain(cfg, t, false) && Quiet(cfg) && k.agent != TopLevel
    ensures Reached(cfg, s)
    ensures var c := CoreOf(s);
      && c.agents == Lone(k, t, Running) && c.directives == [] && c.serving
      && c.pruned == c.cut == c.late == {} && c.unset <= {k}
      && c.conts == map[0 := [], 1 := [], 2 := StopTail(k), 3 := [Persist(StartedEvent(k)), Subscribe(k, t), UnlockRegister]]
  {
    var s1 := StopsHalfway(cfg, k, t);
    s := Inserts(cfg, s1, 3, k, t);
    assert s.store.agents.rows == map[k := Agent(t, Running)];
    assert s.conts == s1.conts[3 := [Persist(StartedEvent(k)), Subscribe(k, t), UnlockRegister]];
  }

  lemma LosesItsEntry(cfg: Config, k: Key, t: string) returns (s: State)
    requires Plain(cfg, t, false) && Quiet(cfg) && k.agent != TopLevel
    ensures Reached(cfg, s) && s.store.agents == Lone(k, t, Running) && SteeringRegistry.AtRest(s)
    ensures s.hist.cut == {k} && s.hist.pruned == s.hist.unset == s.hist.late == {}
  {
    var s1 := RegistersAgain(cfg, k, t);
    s := StopEnds(cfg, s1, 2, k, 0);
    assert s.conts == map[0 := [], 1 := [], 2 := [], 3 := []];
  }

  /** A start that overtakes the stop before it: the stop closes the agent, the
      agent registers again, and then the old stop's removal takes the new entry. */
  lemma StartOvertakesStop(cfg: Config, k: Key, t: string) returns (s: State)
    requires Plain(cfg, t, false) && Quiet(cfg) && k.agent != TopLevel
    ensures Reached(cfg, s) && Differs(cfg, s)
    ensures A.IsRunning(s.store.agents, k) && s.hist.cut == {k} && s.hist.pruned == s.hist.unset == s.hist.late == {}
  {
    s := LosesItsEntry(cfg, k, t);
    LoneDiffers(cfg, s, k, t, Running);
  }

  /** A registration has inserted its row, and a stop has closed it. */
  lemma StopsAfterRow(cfg: Config, k: Key, t: string) returns (s: State)
    requires Plain(cfg, t, false) && Quiet(cfg) && k.agent != TopLevel
    ensures Reached(cfg, s)
    ensures var c := CoreOf(s);
      && c.agents == Lone(k, t, Done) && c.directives == [] && c.serving
      && c.pruned == c.cut == c.late == {} && c.unset == {k}
      && c.conts == map[0 := [], 1 := [Persist(StartedEvent(k)), Subscribe(k, t), UnlockRegister], 2 := StopTail(k)]
  {
    var s1 := InsertsFirst(cfg, k, t);
    s := StopsUpToClose(cfg, s1, 2, k);
    assert s.store.agents.rows == map[k := Agent(t, Done)];
    assert s.conts == s1.conts[2 := StopTail(k)];
  }

  /** And the stop has removed what entry there was. */
  lemma StopsFirst(cfg: Config, k: Key, t: string) returns (s: State)
    requires Plain(cfg, t, false) && Quiet(cfg) && k.agent != TopLevel
    ensures Reached(cfg, s)
    ensures var c := CoreOf(s);
      && c.agents == Lone(k, t, Done) && c.directives == [] && c.serving
      && c.pruned == c.cut == c.late == {} && c.unset == {k}
      && c.conts == map[0 := [], 1 := [Persist(StartedEvent(k)), Subscribe(k, t), UnlockRegister], 2 := []]
  {
    var s1 := StopsAfterRow(cfg, k, t);
    s := StopEnds(cfg, s1, 2, k, 0);
    assert s.conts == s1.conts[2 := []];
  }

  lemma SubscribesLate(cfg: Config, k: Key, t: string) returns (s: State)
    requires Plain(cfg, t, false) && Quiet(cfg) && k.agent != TopLevel
    ensures Reached(cfg, s) && s.store.agents == Lone(k, t, Done) && SteeringRegistry.AtRest(s)
    ensures s.hist.late == {k} && s.hist.pruned == s.hist.unset == s.hist.cut == {}
  {
    var s1 := StopsFirst(cfg, k, t);
    s := Completes(cfg, s1, 1, k, t);
    assert s.conts == map[0 := [], 1 := [], 2 := []];
  }

  /** A stop that overtakes its own agent's start: the registration subscribes an
      agent that has been closed. */
  lemma StopOvertakesStart(cfg: Config, k: Key, t: string) returns (s: State)
    requires Plain(cfg, t, false) && Quiet(cfg) && k.agent != TopLevel
    ensures Reached(cfg, s) && Differs(cfg, s)
    ensures A.IsDone(s.store.agents, k) && s.hist.late == {k} && s.hist.pruned == s.hist.unset == s.hist.cut == {}
  {
    s := SubscribesLate(cfg, k, t);
    LoneDiffers(cfg, s, k, t, Done);
  }

  lemma ReturnsUnsubscribed(cfg: Config, k: Key, t: string) returns (s: State)
    requires cfg.subscribe(t) != {} && Quiet(cfg) && k.agent != TopLevel
    ensures Reached(cfg, s) && s.store.agents == Lone(k, t, Running) && SteeringRegistry.AtRest(s)
    ensures s.hist.unset == {k} && s.hist.pruned == s.hist.cut == s.hist.late == {}
  {
    var s1 := InsertsFirst(cfg, k, t);
    s := CannotRecord(cfg, s1, 1, k, t);
    assert s.conts == map[0 := [], 1 := []];
  }

  /** A registration that cannot append agent.started: it returns before it sets the
      subscription, and its row runs. */
  lemma RegistrationLosesSubscription(cfg: Config, k: Key, t: string) returns (s: State)
    requires cfg.subscribe(t) != {} && Quiet(cfg) && k.agent != TopLevel
    ensures Reached(cfg, s) && Differs(cfg, s)
    ensures A.IsRunning(s.store.agents, k) && s.hist.unset == {k} && s.hist.pruned == s.hist.cut == s.hist.late == {}
  {
    s := ReturnsUnsubscribed(cfg, k, t);
    LoneDiffers(cfg, s, k, t, Running);
  }

  predicate Pair(cfg: Config, j: Key, k: Key, t: string) {
    Plain(cfg, t, true) && j.agent != TopLevel && k.agent != TopLevel && j != k && j.subject == k.subject
  }

  function Both(j: Key, k: Key, t: string, status: Status): A.Table {
    A.Table(map[j := Agent(t, Running), k := Agent(t, status)], [j, k])
  }

  /** A registration that crashes after its row, over other rows. */
  lemma CrashesAfterRow(cfg: Config, s: State, k: Key, t: string) returns (s': State)
    requires Reached(cfg, s) && CanSpawn(s, 1, StartCall(k, t)) && s.mem.lock == None && Quiet(cfg)
    requires s.store.directives == []
    ensures Reached(cfg, s')
    ensures var c := CoreOf(s');
      var table := A.Registered(s.store.agents, k, t);
      && c.agents == table && c.directives == [] && c.subs == Rebuilt(cfg, table)
      && c.lock == None && c.serving && c.pruned == Pruned(cfg, table) && c.unset == c.cut == c.late == {}
      && c.conts == map[0 := []] && c.closes == s.hist.closes
  {
    var s1 := Inserts(cfg, s, 1, k, t);
    var s2 := Crash(cfg, s1);
    s' := Boots(cfg, s2);
  }

  lemma OlderAlone(cfg: Config, j: Key, t: string) returns (s: State)
    requires Plain(cfg, t, true) && Quiet(cfg) && j.agent != TopLevel
    ensures Reached(cfg, s)
    ensures var c := CoreOf(s);
      c.agents == Lone(j, t, Running) && c.directives == [] && c.serving && c.lock == None && c.closes == [] && c.conts == map[0 := []]
  {
    var s0 := FirstBoot(cfg);
    s := CrashesAfterRow(cfg, s0, j, t);
    assert s.store.agents == Lone(j, t, Running);
  }

  lemma BootPrunesOlder(cfg: Config, j: Key, k: Key, t: string) returns (s: State)
    requires Pair(cfg, j, k, t) && Quiet(cfg)
    ensures Reached(cfg, s)
    ensures var c := CoreOf(s);
      && c.agents == Both(j, k, t, Running) && c.directives == [] && c.serving && c.subs.Keys == {k}
      && c.pruned == {j} && c.unset == c.cut == c.late == {} && c.closes == []
      && c.conts == map[0 := []]
  {
    var s1 := OlderAlone(cfg, j, t);
    s := CrashesAfterRow(cfg, s1, k, t);
    assert A.Registered(Lone(j, t, Running), k, t) == Both(j, k, t, Running);
    TwoRunning(cfg, s.store.agents, j, k, t);
  }

  /** Two agents of a group survive crashed registrations; the boot prunes the
      older, and the newer stops. */
  lemma PrunedAgentOutlivesWinner(cfg: Config, j: Key, k: Key, t: string) returns (s: State)
    requires Pair(cfg, j, k, t) && Quiet(cfg)
    ensures Reached(cfg, s) && Differs(cfg, s)
    ensures A.IsRunning(s.store.agents, j) && s.hist.pruned == {j} && s.hist.unset == s.hist.cut == s.hist.late == {}
  {
    var s1 := WinnerStops(cfg, j, k, t);
    s := StopEnds(cfg, s1, 1, k, 0);
    assert s.conts == map[0 := [], 1 := []];
    PairDiffers(cfg, s, j, k, t);
  }

  lemma WinnerStops(cfg: Config, j: Key, k: Key, t: string) returns (s: State)
    requires Pair(cfg, j, k, t) && Quiet(cfg)
    ensures Reached(cfg, s)
    ensures var c := CoreOf(s);
      && c.agents == Both(j, k, t, Done) && c.directives == [] && c.serving
      && c.pruned == {j} && c.unset == c.cut == c.late == {}
      && c.conts == map[0 := [], 1 := StopTail(k)]
  {
    var s1 := BootPrunesOlder(cfg, j, k, t);
    s := StopsUpToClose(cfg, s1, 1, k);
    assert s.store.agents.rows == Both(j, k, t, Done).rows;
    assert s.conts == map[0 := [], 1 := StopTail(k)];
  }

  lemma TwoRunning(cfg: Config, table: A.Table, j: Key, k: Key, t: string)
    requires Plain(cfg, t, true) && j != k && j.subject == k.subject
    requires table == A.Table(map[j := Agent(t, Running), k := Agent(t, Running)], [j, k])
    ensures Pruned(cfg, table) == {j}
    ensures Rebuilt(cfg, table).Keys == {k}
  {
    assert table.order[0] == j && table.order[1] == k;
    forall x ensures x in Rebuilt(cfg, table) <==> x == k {
      SteeringRegistry.RebuiltEntry(cfg, table, x);
      A.RunningKeysMember(table, table.order, x);
      RunningInTable(table, table.order);
      if x in table.rows { SteeringRegistry.LastMeansLast(table, table.order, x); }
    }
  }

  // ---- A swept agent without its started event ----

  /** The registration of j cannot append agent.started, and leaves a running row. */
  lemma RegistersUnrecorded(cfg: Config, j: Key, t: string) returns (s: State)
    requires Plain(cfg, t, true) && Quiet(cfg) && j.agent != TopLevel
    ensures Reached(cfg, s)
    ensures var c := CoreOf(s);
      && c.agents == Lone(j, t, Running) && c.directives == [] && c.log == [] && c.serving && c.lock == None && c.closes == []
      && c.conts == map[0 := [], 1 := []]
  {
    var s1 := InsertsFirst(cfg, j, t);
    s := CannotRecord(cfg, s1, 1, j, t);
    assert s.conts == map[0 := [], 1 := []];
  }

  lemma InsertsFirst(cfg: Config, j: Key, t: string) returns (s: State)
    requires Quiet(cfg) && j.agent != TopLevel
    ensures Reached(cfg, s)
    ensures var c := CoreOf(s);
      && c.agents == Lone(j, t, Running) && c.directives == [] && c.log == [] && c.serving && c.closes == [] && c.subs == map[]
      && c.pruned == c.cut == c.late == {} && c.unset == (if cfg.subscribe(t) == {} then {} else {j})
      && c.conts == map[0 := [], 1 := [Persist(StartedEvent(j)), Subscribe(j, t), UnlockRegister]]
  {
    var s0 := FirstBoot(cfg);
    s := Inserts(cfg, s0, 1, j, t);
    assert s.store.agents == Lone(j, t, Running);
  }

  function SweepAhead(j: Key, k: Key, t: string): seq<Op> {
    SweepOne(j) + [Settle(k, t), UnlockRegister]
  }

  /** A registration of k has listed j to be superseded. */
  lemma ListsLoser(cfg: Config, j: Key, k: Key, t: string) returns (s: State)
    requires Pair(cfg, j, k, t) && Quiet(cfg)
    ensures Reached(cfg, s)
    ensures var c := CoreOf(s);
      && c.agents == Both(j, k, t, Running) && c.directives == [] && c.log == L.Appended([], StartedEvent(k)) && c.closes == []
      && c.conts == map[0 := [], 1 := [], 2 := SweepAhead(j, k, t)]
  {
    var s0 := RegistersUnrecorded(cfg, j, t);
    var s1 := Inserts(cfg, s0, 2, k, t);
    assert s1.store.agents == Both(j, k, t, Running);
    s := RecordsAndLists(cfg, s1, j, k, t);
    assert s.conts == map[0 := [], 1 := [], 2 := SweepAhead(j, k, t)];
  }

  lemma RecordsAndLists(cfg: Config, s: State, j: Key, k: Key, t: string) returns (s': State)
    requires Pair(cfg, j, k, t) && Reached(cfg, s) && s.store.agents == Both(j, k, t, Running) && 2 in s.conts
    requires s.conts[2] == [Persist(StartedEvent(k)), Subscribe(k, t), UnlockRegister]
    ensures Reached(cfg, s')
    ensures s'.store == s.store.(log := L.Appended(s.store.log, StartedEvent(k))) && s'.hist.closes == s.hist.closes
    ensures s'.conts == s.conts[2 := SweepAhead(j, k, t)]
  {
    var tail := [Subscribe(k, t), UnlockRegister];
    assert s.conts[2] == [Persist(StartedEvent(k))] + tail;
    var s1 := Append(cfg, s, 2, StartedEvent(k), tail);
    s' := SubscribesAndLists(cfg, s1, j, k, t);
    assert s'.conts == s.conts[2 := SweepAhead(j, k, t)];
  }

  lemma SubscribesAndLists(cfg: Config, s: State, j: Key, k: Key, t: string) returns (s': State)
    requires Pair(cfg, j, k, t) && Reached(cfg, s) && s.store.agents == Both(j, k, t, Running) && 2 in s.conts
    requires s.conts[2] == [Subscribe(k, t), UnlockRegister]
    ensures Reached(cfg, s') && s'.store == s.store && s'.hist.closes == s.hist.closes
    ensures s'.conts == s.conts[2 := SweepAhead(j, k, t)]
  {
    assert s.conts[2] == [Subscribe(k, t)] + [UnlockRegister];
    var s1 := SubscribeAndSweep(cfg, s, 2, k, t, [UnlockRegister]);
    assert [Sweep(k, t), Settle(k, t)] + [UnlockRegister] == [Sweep(k, t)] + [Settle(k, t), UnlockRegister];
    BothRun(j, k, t);
    s' := SweepsOne(cfg, s1, 2, j, k, t, [Settle(k, t), UnlockRegister]);
    assert s'.conts == s.conts[2 := SweepAhead(j, k, t)];
  }

  lemma BothRun(j: Key, k: Key, t: string)
    requires j != k && j.subject == k.subject
    ensures A.RunningOfType(Both(j, k, t, Running), [j, k], k.subject, t) == [j, k]
  {
    var table := Both(j, k, t, Running);
    assert [j, k][..1] == [j] && [j][..0] == [];
    assert A.RunningOfType(table, [j], k.subject, t) == [] + [j];
    assert A.RunningOfType(table, [j, k], k.subject, t) == [j] + [k];
  }

  /** A stop that no start precedes: j's agent.started was lost, and a later sweep
      reports its agent.stopped. */
  lemma SweptWithoutStart(cfg: Config, j: Key, k: Key, t: string) returns (s: State)
    requires Pair(cfg, j, k, t) && Quiet(cfg)
    ensures Reached(cfg, s)
    ensures s.hist.closes == [Transition(j, true, false)]
    ensures exists i :: 0 <= i < |s.store.log| && s.store.log[i].event == StoppedEvent(j, 0)
    ensures !IsLogged(s.store.log, StartedEvent(j))
  {
    var s1 := ListsLoser(cfg, j, k, t);
    var tail := [Settle(k, t), UnlockRegister];
    var s2 := TellsLoser(cfg, s1, j, k, t, tail);
    s := ClosesAndReports(cfg, s2, j, k, t, tail);
  }

  /** The sweep unsubscribes j and enqueues the supersede signal. */
  lemma TellsLoser(cfg: Config, s: State, j: Key, k: Key, t: string, tail: seq<Op>) returns (s': State)
    requires Reached(cfg, s) && 2 in s.conts && s.conts[2] == SweepOne(j) + tail && A.IsRunning(s.store.agents, j)
    requires s.hist.closes == [] && !IsLogged(s.store.log, StartedEvent(j))
    ensures Reached(cfg, s') && Facing(s', 2, Close(j, true), tail) && A.IsRunning(s'.store.agents, j)
    ensures s'.hist.closes == [] && !IsLogged(s'.store.log, StartedEvent(j))
  {
    var direct := Enqueue(j, OriginSupersede, SUPERSEDED_DIRECTIVE);
    var closing := [Close(j, true)] + tail;
    assert s.conts[2] == [Unsubscribe(j)] + ([direct] + closing);
    var s1 := Unsubscribes(cfg, s, 2, j, [direct] + closing);
    s' := Directs(cfg, s1, 2, j, OriginSupersede, SUPERSEDED_DIRECTIVE, closing);
  }

  lemma ClosesAndReports(cfg: Config, s: State, j: Key, k: Key, t: string, tail: seq<Op>) returns (s': State)
    requires Reached(cfg, s) && Facing(s, 2, Close(j, true), tail) && A.IsRunning(s.store.agents, j)
    requires s.hist.closes == [] && !IsLogged(s.store.log, StartedEvent(j))
    ensures Reached(cfg, s')
    ensures s'.hist.closes == [Transition(j, true, false)]
    ensures exists i :: 0 <= i < |s'.store.log| && s'.store.log[i].event == StoppedEvent(j, 0)
    ensures !IsLogged(s'.store.log, StartedEvent(j))
  {
    var s1 := Closes(cfg, s, 2, j, true, tail);
    var e := StoppedEvent(j, 0);
    assert [] + [Persist(e), PeekStranded(j)] + tail == [Persist(e)] + ([PeekStranded(j)] + tail);
    s' := Append(cfg, s1, 2, e, [PeekStranded(j)] + tail);
    assert s'.store.log[|s.store.log|].event == e;
  }

  // ---- An await asleep on a directive ----

  /** An await falls asleep, and a Direct that cannot record agent.directed leaves
      its directive in the mailbox without waking it. */
  lemma AwaitSleepsOnFailedDirect(cfg: Config, subject: string, o: Origin, text: string) returns (s: State)
    ensures Reached(cfg, s)
    ensures var k := Key(subject, TopLevel);
      && SteeringAwait.Asleep(s, 1, k, 0) && 0 !in s.mem.signalled
      && (exists d :: d in s.store.directives && D.IsPending(d, k))
      && !InFlight(s, Release(k, 1)) && Release(k, 1) in s.hist.dropped
  {
    var k := Key(subject, TopLevel);
    var s1 := FallsAsleep(cfg, k);
    s := DirectFails(cfg, s1, k, o, text);
    assert s.store.directives[0] in s.store.directives;
  }

  lemma FallsAsleep(cfg: Config, k: Key) returns (s: State)
    ensures Reached(cfg, s)
    ensures s.store.directives == [] && s.mem.serving && s.mem.signalled == {}
    ensures s.conts == map[0 := [], 1 := [Await(k, 0), ParkDone(k, 0)]]
  {
    var s0 := FreshBoot(cfg);
    var s1 := Parks(cfg, s0, k);
    s := DrainsFirst(cfg, s1, k);
    assert s.conts == map[0 := [], 1 := [Await(k, 0), ParkDone(k, 0)]];
  }

  lemma Parks(cfg: Config, s: State, k: Key) returns (s': State)
    requires Reached(cfg, s) && s.store == INIT.store && s.mem == INIT.mem.(serving := true) && s.conts == map[0 := []]
    ensures Reached(cfg, s')
    ensures s'.store.directives == [] && s'.mem.serving && s'.mem.signalled == {}
    ensures s'.conts == s.conts[1 := [Drain(k, AwaitFirst(0)), ParkDone(k, 0)]]
  {
    var s1 := Spawn(cfg, s, 1, AwaitCall(k));
    s' := ParksFirst(cfg, s1, k);
    assert s'.conts == s.conts[1 := [Drain(k, AwaitFirst(0)), ParkDone(k, 0)]];
  }

  lemma ParksFirst(cfg: Config, s: State, k: Key) returns (s': State)
    requires Reached(cfg, s) && s.store.directives == [] && s.mem.serving
    requires s.mem.waiters == map[] && s.mem.signalled == {} && s.mem.nextChan == 0
    requires 1 in s.conts && s.conts[1] == [Park(k)]
    ensures Reached(cfg, s')
    ensures s'.store.directives == [] && s'.mem.serving && s'.mem.signalled == {}
    ensures s'.conts == s.conts[1 := [Drain(k, AwaitFirst(0)), ParkDone(k, 0)]]
  {
    assert [Park(k)] == [Park(k)] + [];
    s' := Take(cfg, s, 1, Park(k), []);
    assert [Drain(k, AwaitFirst(0)), ParkDone(k, 0)] + [] + [] == [Drain(k, AwaitFirst(0)), ParkDone(k, 0)];
  }

  lemma DrainsFirst(cfg: Config, s: State, k: Key) returns (s': State)
    requires Reached(cfg, s) && s.store.directives == [] && s.mem.serving && s.mem.signalled == {}
    requires 1 in s.conts && s.conts[1] == [Drain(k, AwaitFirst(0)), ParkDone(k, 0)]
    ensures Reached(cfg, s')
    ensures s'.store.directives == [] && s'.mem.serving && s'.mem.signalled == {}
    ensures s'.conts == s.conts[1 := [Await(k, 0), ParkDone(k, 0)]]
  {
    var parked := [ParkDone(k, 0)];
    assert s.conts[1] == [Drain(k, AwaitFirst(0))] + parked;
    DrainSleeps(cfg, s, k);
    s' := Take(cfg, s, 1, Drain(k, AwaitFirst(0)), parked);
    assert [Await(k, 0)] + parked + [] == [Await(k, 0), ParkDone(k, 0)];
  }

  lemma DrainSleeps(cfg: Config, s: State, k: Key)
    requires s.store.directives == []
    ensures Front(cfg, s, Drain(k, AwaitFirst(0)), WELL) == [Await(k, 0)]
    ensures D.MarkDelivered(s.store.directives, k) == []
  {
    assert D.Drained([], k) == [] && D.Ids([]) == [];
  }

  lemma FreshBoot(cfg: Config) returns (s: State)
    ensures Reached(cfg, s)
    ensures s.store == INIT.store && s.mem == INIT.mem.(serving := true) && s.conts == map[0 := []]
  {
    Start(cfg);
    assert BOOT == [Reconcile] + [RebuildSubscriptions, Serve];
    var s1 := FreshReconciles(cfg);
    var s2 := FreshRebuilds(cfg, s1);
    s := Serves(cfg, s2);
    assert s.conts == map[0 := []];
  }

  lemma FreshReconciles(cfg: Config) returns (s: State)
    requires Reached(cfg, INIT)
    ensures Reached(cfg, s)
    ensures s.store == INIT.store && s.mem == INIT.mem && s.conts == map[0 := [RebuildSubscriptions, Serve]]
  {
    assert BOOT == [Reconcile] + [RebuildSubscriptions, Serve];
    assert Stranded(INIT.store) == {} && Enumerates<Key>([], {});
    s := Take(cfg, INIT, 0, Reconcile, [RebuildSubscriptions, Serve]);
    assert [] + [RebuildSubscriptions, Serve] + [] == [RebuildSubscriptions, Serve];
    assert s.conts == INIT.conts[0 := [RebuildSubscriptions, Serve]];
  }

  lemma FreshRebuilds(cfg: Config, s: State) returns (s': State)
    requires Reached(cfg, s)
    requires s.store == INIT.store && s.mem == INIT.mem && s.conts == map[0 := [RebuildSubscriptions, Serve]]
    ensures Reached(cfg, s')
    ensures s'.store == INIT.store && s'.mem == INIT.mem && s'.conts == map[0 := [Serve]]
  {
    assert [RebuildSubscriptions, Serve] == [RebuildSubscriptions] + [Serve];
    assert Rebuilt(cfg, A.EmptyTable) == map[];
    s' := Take(cfg, s, 0, RebuildSubscriptions, [Serve]);
    assert [] + [Serve] + [] == [Serve];
    assert s'.conts == s.conts[0 := [Serve]];
  }

  lemma DirectFails(cfg: Config, s: State, k: Key, o: Origin, text: string) returns (s': State)
    requires Reached(cfg, s) && s.store.directives == [] && s.mem.serving && s.mem.signalled == {}
    requires s.conts == map[0 := [], 1 := [Await(k, 0), ParkDone(k, 0)]] && k.agent == TopLevel
    ensures Reached(cfg, s') && s'.mem.signalled == {}
    ensures s'.conts == map[0 := [], 1 := [Await(k, 0), ParkDone(k, 0)], 2 := []]
    ensures s'.store.directives == [D.Enqueued([], k, o, text, 0, |s.store.log|)]
    ensures Release(k, 1) in s'.hist.dropped
  {
    var d := D.Enqueued([], k, o, text, 0, |s.store.log|);
    var s1 := Enqueues(cfg, s, k, o, text);
    s' := FailsToRecord(cfg, s1, 2, DirectedEvent(d), Release(k, 1));
    assert s'.conts == map[0 := [], 1 := [Await(k, 0), ParkDone(k, 0)], 2 := []];
  }

  lemma FailsToRecord(cfg: Config, s: State, pid: Pid, e: Event, next: Op) returns (s': State)
    requires Reached(cfg, s) && pid in s.conts && s.conts[pid] == [Persist(e), next]
    requires !next.EndTry? && !IsDeferred(next)
    ensures Reached(cfg, s') && s'.store == s.store && s'.mem == s.mem
    ensures s'.conts == s.conts[pid := []] && next in s'.hist.dropped
  {
    assert [Persist(e), next] == [Persist(e)] + [next];
    s' := TakeBadly(cfg, s, pid, Persist(e), [next]);
    UnwindsAll(Persist(e), next);
  }

  lemma Enqueues(cfg: Config, s: State, k: Key, o: Origin, text: string) returns (s': State)
    requires Reached(cfg, s) && s.store.directives == [] && s.mem.serving && 2 !in s.conts && k.agent == TopLevel
    ensures Reached(cfg, s') && s'.mem == s.mem
    ensures var d := D.Enqueued([], k, o, text, 0, |s.store.log|);
      s'.store.directives == [d] && s'.conts == s.conts[2 := [Persist(DirectedEvent(d)), Release(k, 1)]]
  {
    var d := D.Enqueued([], k, o, text, 0, |s.store.log|);
    var s1 := Spawn(cfg, s, 2, DirectCall(k, o, text));
    s' := EnqueuesOnly(cfg, s1, k, o, text);
    assert s'.conts == s.conts[2 := [Persist(DirectedEvent(d)), Release(k, 1)]];
  }

  lemma EnqueuesOnly(cfg: Config, s: State, k: Key, o: Origin, text: string) returns (s': State)
    requires Reached(cfg, s) && s.store.directives == [] && k.agent == TopLevel
    requires 2 in s.conts && s.conts[2] == [Enqueue(k, o, text)]
    ensures Reached(cfg, s') && s'.mem == s.mem
    ensures var d := D.Enqueued([], k, o, text, 0, |s.store.log|);
      s'.store.directives == [d] && s'.conts == s.conts[2 := [Persist(DirectedEvent(d)), Release(k, 1)]]
  {
    var d := D.Enqueued([], k, o, text, 0, |s.store.log|);
    assert s.conts[2] == [Enqueue(k, o, text)] + [];
    s' := Take(cfg, s, 2, Enqueue(k, o, text), []);
    assert [Persist(DirectedEvent(d)), Release(k, 1)] + [] + [] + [] == [Persist(DirectedEvent(d)), Release(k, 1)];
  }

  lemma UnwindsAll(a: Op, b: Op)
    requires !a.EndTry? && !b.EndTry? && !IsDeferred(a) && !IsDeferred(b)
    ensures Unwind([a, b]) == [] && b in Abandoned([a, b])
  {
    assert [a, b][1..] == [b] && [b][1..] == [];
    assert Unwind([b]) == Unwind([]);
    assert Abandoned([b]) == {b} + Abandoned([]);
  }
}
