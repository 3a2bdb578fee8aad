/** What no interleaving of steering calls, errors and crashes can break about
    mailboxes: the tables keep their shape, every directive is delivered once or
    still pending, and none is silently stranded on a stopped agent. */
module SteeringMail {
  import opened Records
  import opened Steering
  import D = Directives
  import L = EventLog
  import A = Agents

  ghost predicate Shape(st: Store) {
    && D.WellNumbered(st.directives)
    && L.GapFree(st.log)
    && L.DedupUnique(st.log)
    && A.WellOrdered(st.agents)
    && (forall i :: 0 <= i < |st.directives| ==> st.directives[i].loggedBefore <= |st.log|)
  }

  ghost predicate TopLevelUnregistered(s: State) {
    && (forall k :: k in s.store.agents.rows ==> k.agent != TopLevel)
    && (forall p, op :: p in s.conts && op in s.conts[p] && op.RegisterRow? ==> op.key.agent != TopLevel)
  }

  ghost predicate Mailboxes(directives: seq<Directive>, drains: seq<D.Drain>) {
    && D.OwnMail(directives, drains)
    && forall k :: D.Conserved(directives, drains, k) && D.FirstInFirstOut(directives, drains, k)
  }

  /** An agent.relay for `k` was appended at or after log position n. */
  ghost predicate RelayedSince(log: seq<EventRow>, n: nat, k: Key) {
    exists i :: n <= i < |log| && log[i].event == RelayEvent(k)
  }

  /** A step that announces k's stranded directives is still to run. */
  ghost predicate RelayDue(s: State, k: Key) {
    InFlight(s, PeekStranded(k)) || InFlight(s, Persist(RelayEvent(k)))
  }

  /** A step that announces the agent's stranded directives was lost, to an error
      or a crash, when `d` had been enqueued already. */
  predicate RelayLost(s: State, d: Directive) {
    d.key in s.hist.lostRelays && d.id <= s.hist.lostRelays[d.key]
  }

  /** A directive that nobody acted on: undelivered, not a supersede signal, and
      addressed to an agent that is done. */
  predicate IsStranded(st: Store, d: Directive) {
    !d.delivered && d.origin != OriginSupersede && A.IsDone(st.agents, d.key)
  }

  ghost predicate Announced(s: State, d: Directive) {
    RelayedSince(s.store.log, d.loggedBefore, d.key) || RelayDue(s, d.key) || RelayLost(s, d)
  }

  ghost predicate StrandedAnnounced(s: State) {
    forall d :: d in s.store.directives && IsStranded(s.store, d) ==> Announced(s, d)
  }

  ghost predicate Inv(s: State) {
    && Shape(s.store)
    && TopLevelUnregistered(s)
    && Mailboxes(s.store.directives, s.hist.drains)
    && StrandedAnnounced(s)
  }

  // ---- Each part survives a step ----

  lemma ShapeAfter(st: Store, op: Op, c: Choice)
    requires Shape(st)
    ensures Shape(StoreAfter(st, op, c))
  {
    match op
    case Persist(e) => L.AppendKeepsShape(st.log, e);
    case RegisterRow(k, t) => assert A.WellOrdered(A.Registered(st.agents, k, t));
    case Close(k, _) => assert A.Closed(st.agents, k).rows.Keys == st.agents.rows.Keys;
    case _ =>
  }

  lemma {:induction false} TeeAllOps(order: seq<Key>, payload: string)
    ensures forall op :: op in TeeAll(order, payload) ==> op.Enqueue? || op.EndTry?
  {
    if order != [] { TeeAllOps(order[1..], payload); }
  }

  lemma {:induction false} SweepAllOps(losers: seq<Key>, keep: Key)
    ensures forall op :: op in SweepAll(losers, keep) ==> op.Unsubscribe? || op.Enqueue? || op.Close?
  {
    if losers != [] { SweepAllOps(losers[1..], keep); }
  }

  lemma {:induction false} RelayAllOps(order: seq<Key>)
    ensures forall op :: op in RelayAll(order) ==> op.Persist? && op.event.body.Relay?
  {
    if order != [] { RelayAllOps(order[1..]); }
  }

  /** No step schedules a registration: only agent-start does. */
  lemma FrontRegistersNothing(cfg: Config, s: State, op: Op, c: Choice)
    ensures forall o :: o in Front(cfg, s, op, c) ==> !o.RegisterRow?
  {
    match op
    case Tee(e) => TeeAllOps(c.order, if e.body.Domain? then e.body.payload else "");
    case Sweep(k, t) => SweepAllOps(A.RunningOfType(s.store.agents, s.store.agents.order, k.subject, t), k);
    case Reconcile => RelayAllOps(c.order);
    case _ =>
  }

  lemma TopLevelStep(cfg: Config, s: State, pid: Pid, c: Choice)
    requires TopLevelUnregistered(s) && Runnable(s, pid)
    ensures TopLevelUnregistered(Stepped(cfg, s, pid, c))
  {
    var s' := Stepped(cfg, s, pid, c);
    var cont := s.conts[pid];
    assert cont[0] in cont;
    FrontRegistersNothing(cfg, s, cont[0], c);
    forall p, op | p in s'.conts && op in s'.conts[p] && op.RegisterRow? ensures op.key.agent != TopLevel {
      if p == pid {
        if Fails(s, cont[0], c) { UnwindIsPart(cont, op); }
        assert op in cont;
      }
    }
  }

  lemma MailboxesAfter(cfg: Config, s: State, op: Op, c: Choice)
    requires Shape(s.store) && Mailboxes(s.store.directives, s.hist.drains)
    ensures Mailboxes(StoreAfter(s.store, op, c).directives, HistoryAfter(cfg, s, op, c).drains)
  {
    var rows, drains := s.store.directives, s.hist.drains;
    match op
    case Enqueue(j, o, t) =>
      var d := D.Enqueued(rows, j, o, t, c.now, |s.store.log|);
      forall k ensures D.Conserved(rows + [d], drains, k) && D.FirstInFirstOut(rows + [d], drains, k) {
        D.EnqueueConserves(rows, drains, d, k);
      }
      assert forall i, id :: 0 <= i < |drains| && id in drains[i].ids ==> (rows + [d])[id - 1] == rows[id - 1];
    case Drain(j, _) =>
      forall k ensures D.Conserved(D.MarkDelivered(rows, j), D.RecordDrain(drains, rows, j), k)
                    && D.FirstInFirstOut(D.MarkDelivered(rows, j), D.RecordDrain(drains, rows, j), k) {
        D.DrainConserves(rows, drains, j, k);
        D.DrainKeepsOrder(rows, drains, j, k);
      }
      D.DrainReturnsOwnMail(rows, drains, j);
    case _ =>
  }

  lemma LogGrows(st: Store, op: Op, c: Choice)
    ensures |st.log| <= |StoreAfter(st, op, c).log|
    ensures forall i :: 0 <= i < |st.log| ==> StoreAfter(st, op, c).log[i] == st.log[i]
  {
  }

  /** What was announced stays announced: a due relay is due, lost or logged. */
  lemma AnnouncedStep(cfg: Config, s: State, pid: Pid, c: Choice, d: Directive)
    requires Shape(s.store) && Runnable(s, pid) && Enabled(s, pid, c)
    requires d in s.store.directives && IsStranded(s.store, d) && Announced(s, d)
    ensures Announced(Stepped(cfg, s, pid, c), d)
  {
    var s' := Stepped(cfg, s, pid, c);
    var op := s.conts[pid][0];
    var k := d.key;
    var failed := Fails(s, op, c);
    LogGrows(s.store, op, c);
    if RelayedSince(s.store.log, d.loggedBefore, k) {
      var i :| d.loggedBefore <= i < |s.store.log| && s.store.log[i].event == RelayEvent(k);
      assert s'.store.log[i].event == RelayEvent(k);
    } else if op == Reconcile && !failed {
      ReconcileStep(cfg, s, pid, c, d);
    } else if RelayLost(s, d) {
      LossKept(cfg, s, pid, c, d);
    } else {
      RelayDueStep(cfg, s, pid, c, d);
    }
  }

  lemma LossKept(cfg: Config, s: State, pid: Pid, c: Choice, d: Directive)
    requires D.WellNumbered(s.store.directives) && d in s.store.directives && RelayLost(s, d)
    requires Runnable(s, pid) && (s.conts[pid][0] != Reconcile || Fails(s, Reconcile, c))
    ensures RelayLost(Stepped(cfg, s, pid, c), d)
  {
  }

  lemma DutyLost(cfg: Config, s: State, pid: Pid, c: Choice, d: Directive, duty: Op)
    requires D.WellNumbered(s.store.directives) && d in s.store.directives && Runnable(s, pid)
    requires Fails(s, s.conts[pid][0], c) && duty in Abandoned(s.conts[pid])
    requires IsRelayDuty(duty) && RelayKey(duty) == d.key
    ensures RelayLost(Stepped(cfg, s, pid, c), d)
  {
    assert d.key in RelayKeys(Abandoned(s.conts[pid]));
  }

  lemma ReconcileStep(cfg: Config, s: State, pid: Pid, c: Choice, d: Directive)
    requires Runnable(s, pid) && Enabled(s, pid, c) && s.conts[pid][0] == Reconcile && !Fails(s, Reconcile, c)
    requires d in s.store.directives && IsStranded(s.store, d)
    ensures InFlight(Stepped(cfg, s, pid, c), Persist(RelayEvent(d.key)))
  {
    assert D.IsPending(d, d.key);
    assert d.key in Stranded(s.store);
    RelayAllMember(c.order, d.key);
    PushedInFlight(cfg, s, pid, c, Persist(RelayEvent(d.key)));
  }

  lemma RelayDueStep(cfg: Config, s: State, pid: Pid, c: Choice, d: Directive)
    requires Shape(s.store) && Runnable(s, pid)
    requires d in s.store.directives && IsStranded(s.store, d) && RelayDue(s, d.key)
    ensures Announced(Stepped(cfg, s, pid, c), d)
  {
    var k := d.key;
    var op := s.conts[pid][0];
    var duty := if InFlight(s, PeekStranded(k)) then PeekStranded(k) else Persist(RelayEvent(k));
    StillInFlight(cfg, s, pid, c, duty);
    if Fails(s, op, c) {
      if duty in Abandoned(s.conts[pid]) { DutyLost(cfg, s, pid, c, d, duty); }
    } else if op == duty {
      if duty.PeekStranded? {
        assert D.IsPending(d, k);
        PushedInFlight(cfg, s, pid, c, Persist(RelayEvent(k)));
      } else {
        assert Stepped(cfg, s, pid, c).store.log[|s.store.log|].event == RelayEvent(k);
      }
    }
  }

  /** Where a newly stranded directive comes from: its agent was closed, or it
      was addressed to an agent already done. */
  lemma NewlyStranded(st: Store, op: Op, c: Choice, d: Directive)
    requires d in StoreAfter(st, op, c).directives && IsStranded(StoreAfter(st, op, c), d)
    requires !(d in st.directives && IsStranded(st, d))
    ensures (op.Close? && op.key == d.key && A.IsRunning(st.agents, op.key))
         || (op.Enqueue? && op.key == d.key && A.IsDone(st.agents, op.key))
  {
  }

  lemma StrandedStep(cfg: Config, s: State, pid: Pid, c: Choice)
    requires Shape(s.store) && TopLevelUnregistered(s) && StrandedAnnounced(s) && Runnable(s, pid) && Enabled(s, pid, c)
    ensures StrandedAnnounced(Stepped(cfg, s, pid, c))
  {
    var s' := Stepped(cfg, s, pid, c);
    var op := s.conts[pid][0];
    forall d | d in s'.store.directives && IsStranded(s'.store, d) ensures Announced(s', d) {
      if d in s.store.directives && IsStranded(s.store, d) {
        AnnouncedStep(cfg, s, pid, c, d);
      } else {
        NewlyStranded(s.store, op, c, d);
        PushedInFlight(cfg, s, pid, c, if op.Close? then PeekStranded(d.key) else Persist(RelayEvent(d.key)));
      }
    }
  }

  lemma StepKeepsInv(cfg: Config, s: State, pid: Pid, c: Choice)
    requires Inv(s) && Runnable(s, pid) && Enabled(s, pid, c)
    ensures Inv(Stepped(cfg, s, pid, c))
  {
    var op := s.conts[pid][0];
    ShapeAfter(s.store, op, c);
    MailboxesAfter(cfg, s, op, c);
    TopLevelStep(cfg, s, pid, c);
    StrandedStep(cfg, s, pid, c);
  }

  lemma SpawnKeepsInv(s: State, pid: Pid, call: Call)
    requires Inv(s) && CanSpawn(s, pid, call)
    ensures Inv(Spawned(s, pid, call))
  {
    var s' := Spawned(s, pid, call);
    forall d | d in s'.store.directives && IsStranded(s'.store, d) ensures Announced(s', d) {
      assert Announced(s, d);
      if InFlight(s, PeekStranded(d.key)) { SpawnKeeps(s, pid, call, PeekStranded(d.key)); }
      if InFlight(s, Persist(RelayEvent(d.key))) { SpawnKeeps(s, pid, call, Persist(RelayEvent(d.key))); }
    }
  }

  lemma CrashKeepsInv(s: State)
    requires Inv(s)
    ensures Inv(Crashed(s))
  {
    var s' := Crashed(s);
    forall d | d in s'.store.directives && IsStranded(s'.store, d) ensures Announced(s', d) {
      assert Announced(s, d);
      var lost := set p, o | p in s.conts && o in s.conts[p] :: o;
      if InFlight(s, PeekStranded(d.key)) { assert PeekStranded(d.key) in lost && d.key in RelayKeys(lost); }
      if InFlight(s, Persist(RelayEvent(d.key))) { assert Persist(RelayEvent(d.key)) in lost && d.key in RelayKeys(lost); }
    }
  }

  lemma InvNext(cfg: Config, s: State, s': State)
    requires Inv(s) && Next(cfg, s, s')
    ensures Inv(s')
  {
    if pid: Pid, c: Choice :| Runnable(s, pid) && Enabled(s, pid, c) && s' == Stepped(cfg, s, pid, c) {
      StepKeepsInv(cfg, s, pid, c);
    } else if pid: Pid, call: Call :| CanSpawn(s, pid, call) && s' == Spawned(s, pid, call) {
      SpawnKeepsInv(s, pid, call);
    } else {
      CrashKeepsInv(s);
    }
  }

  lemma InvInit()
    ensures Inv(INIT)
  {
    assert forall k :: D.Conserved([], [], k) && D.FirstInFirstOut([], [], k) by {
      forall k ensures D.Conserved([], [], k) && D.FirstInFirstOut([], [], k) {
        assert D.Pending([], k) == [] && D.Ids([]) == [];
      }
    }
  }

  lemma {:induction false} InvHolds(cfg: Config, run: seq<State>, i: nat)
    requires IsRun(cfg, run) && i < |run|
    ensures Inv(run[i])
  {
    if i == 0 {
      InvInit();
    } else {
      InvHolds(cfg, run, i - 1);
      assert Next(cfg, run[i - 1], run[i - 1 + 1]);
      InvNext(cfg, run[i - 1], run[i]);
    }
  }

  // ---- The theorems ----

  /** No directive is silently stranded. In any state of any run, a directive
      left on a done agent has an agent.relay logged after it was enqueued,
      unless a step that announces it has yet to run, or was lost to an error or
      a crash after the directive was enqueued. */
  lemma NoDirectiveStranded(cfg: Config, run: seq<State>, i: nat, d: Directive)
    requires IsRun(cfg, run) && i < |run|
    requires d in run[i].store.directives && IsStranded(run[i].store, d)
    requires !RelayDue(run[i], d.key) && !RelayLost(run[i], d)
    ensures RelayedSince(run[i].store.log, d.loggedBefore, d.key)
  {
    InvHolds(cfg, run, i);
  }

  /** Boot (or an on-demand sweep) makes up for everything lost before it: once
      its peek has run, no relay counts as lost. */
  lemma ReconcileRestores(cfg: Config, s: State, pid: Pid, c: Choice, k: Key)
    requires Runnable(s, pid) && Enabled(s, pid, c) && s.conts[pid][0] == Reconcile
    requires !Fails(s, Reconcile, c)
    ensures var s' := Stepped(cfg, s, pid, c);
      && (forall d :: !RelayLost(s', d))
      && (k in Stranded(s'.store) ==> InFlight(s', Persist(RelayEvent(k))))
  {
    var s' := Stepped(cfg, s, pid, c);
    if k in Stranded(s'.store) {
      assert k in Stranded(s.store);
      RelayAllMember(c.order, k);
      PushedInFlight(cfg, s, pid, c, Persist(RelayEvent(k)));
    }
  }

  /** Directive conservation, whichever of stop-gate, hook and await drains, and
      whosever mailbox. */
  lemma DirectivesConserved(cfg: Config, run: seq<State>, i: nat, id: nat)
    requires IsRun(cfg, run) && i < |run|
    requires 0 < id <= |run[i].store.directives|
    ensures var d := run[i].store.directives[id - 1];
      && d.id == id
      && multiset(D.AllDrainedIds(run[i].hist.drains))[id] == (if d.delivered then 1 else 0)
  {
    InvHolds(cfg, run, i);
    D.OnlyInOwnDrains(run[i].store.directives, run[i].hist.drains, id);
    D.DrainedExactlyOnce(run[i].store.directives, run[i].hist.drains, run[i].store.directives[id - 1].key, id);
  }

  /** With enqueue times that never run backwards, an agent receives its
      directives in enqueue order across all its drains. */
  lemma DeliveredInOrder(cfg: Config, run: seq<State>, i: nat, k: Key)
    requires IsRun(cfg, run) && i < |run|
    requires D.Chronological(run[i].store.directives, k)
    ensures D.DrainedIds(run[i].hist.drains, k) + D.Ids(D.Pending(run[i].store.directives, k))
         == D.Addressed(run[i].store.directives, k)
  {
    InvHolds(cfg, run, i);
    assert D.FirstInFirstOut(run[i].store.directives, run[i].hist.drains, k);
  }

  /** In every run the log has no gaps and never repeats a dedup key. */
  lemma LogKeepsShape(cfg: Config, run: seq<State>, i: nat)
    requires IsRun(cfg, run) && i < |run|
    ensures L.GapFree(run[i].store.log) && L.DedupUnique(run[i].store.log)
  {
    InvHolds(cfg, run, i);
  }
}
