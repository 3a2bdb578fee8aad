/** agent.stopped and agent.started over every interleaving: one stopped event
    per running-to-done transition, and a swept agent's started event first. */
module SteeringStops {
  import opened Records
  import opened Steering
  import A = Agents
  import L = EventLog
  import SteeringMail
  import Lock = SteeringLock

  predicate IsStop(op: Op) {
    op.Persist? && op.event.body.Stopped?
  }

  /** The event that reports transition n. */
  function StopEvent(closes: seq<Transition>, n: nat): Event
    requires n < |closes|
  {
    StoppedEvent(closes[n].key, n)
  }

  predicate Reports(closes: seq<Transition>, e: Event)
    requires e.body.Stopped?
  {
    e.body.close < |closes| && e == StopEvent(closes, e.body.close)
  }

  ghost predicate LoggedOnce(log: seq<EventRow>, e: Event) {
    && IsLogged(log, e)
    && forall i, j :: 0 <= i < j < |log| ==> !(log[i].event == e && log[j].event == e)
  }

  /** Stopped events and steps always report a transition that happened. */
  ghost predicate StopsReport(s: State) {
    && (forall i :: 0 <= i < |s.store.log| && s.store.log[i].event.body.Stopped?
          ==> Reports(s.hist.closes, s.store.log[i].event))
    && (forall p, op :: p in s.conts && op in s.conts[p] && IsStop(op) ==> Reports(s.hist.closes, op.event))
    && (forall op :: op in s.hist.dropped && IsStop(op) ==> Reports(s.hist.closes, op.event))
  }

  /** The step that is to log `e` is pending in one place only. */
  ghost predicate PendingOnce(s: State, op: Op) {
    && InFlight(s, op)
    && (forall p :: p in s.conts ==> multiset(s.conts[p])[op] <= 1)
    && (forall p, q :: p in s.conts && q in s.conts && op in s.conts[p] && op in s.conts[q] ==> p == q)
  }

  /** Transition n is reported once: logged once, about to be, or lost. */
  ghost predicate ReportedOnce(s: State, n: nat)
    requires n < |s.hist.closes|
  {
    var e := StopEvent(s.hist.closes, n);
    var op := Persist(e);
    || (LoggedOnce(s.store.log, e) && !InFlight(s, op) && op !in s.hist.dropped)
    || (!IsLogged(s.store.log, e) && PendingOnce(s, op) && op !in s.hist.dropped)
    || (!IsLogged(s.store.log, e) && !InFlight(s, op) && op in s.hist.dropped)
  }

  ghost predicate StopsOnce(s: State) {
    StopsReport(s) && forall n :: 0 <= n < |s.hist.closes| ==> ReportedOnce(s, n)
  }

  // ---- Errors and pushes, counted ----

  lemma {:induction false} UnwindCounts(cont: seq<Op>, op: Op)
    ensures multiset(Unwind(cont))[op] <= multiset(cont)[op]
    ensures op in Abandoned(cont) ==> multiset(Unwind(cont))[op] < multiset(cont)[op]
  {
    if cont != [] {
      UnwindCounts(cont[1..], op);
      assert cont == [cont[0]] + cont[1..];
    }
  }

  /** A stopped event is scheduled by the transition it reports, and only once. */
  lemma FrontStops(cfg: Config, s: State, op: Op, c: Choice, x: Op)
    requires IsStop(x) && x in Front(cfg, s, op, c)
    ensures op.Close? && A.IsRunning(s.store.agents, op.key) && x == Persist(StoppedEvent(op.key, |s.hist.closes|))
    ensures multiset(Front(cfg, s, op, c))[x] == 1
  {
    FrontStopsOrigin(cfg, s, op, c, x);
    assert Front(cfg, s, op, c) == CloseFront(op.key, op.swept, |s.hist.closes|);
  }

  function CloseFront(k: Key, swept: bool, n: nat): (front: seq<Op>)
    ensures multiset(front)[Persist(StoppedEvent(k, n))] == 1
  {
    (if swept then [] else [Unsubscribe(k)]) + [Persist(StoppedEvent(k, n)), PeekStranded(k)]
  }

  lemma FrontStopsOrigin(cfg: Config, s: State, op: Op, c: Choice, x: Op)
    requires IsStop(x) && x in Front(cfg, s, op, c)
    ensures op.Close? && A.IsRunning(s.store.agents, op.key) && x == Persist(StoppedEvent(op.key, |s.hist.closes|))
  {
    match op
    case Tee(e) => SteeringMail.TeeAllOps(c.order, if e.body.Domain? then e.body.payload else "");
    case Sweep(k, t) => SteeringMail.SweepAllOps(A.RunningOfType(s.store.agents, s.store.agents.order, k.subject, t), k);
    case Reconcile => SteeringMail.RelayAllOps(c.order);
    case _ =>
  }

  lemma TransitionsGrow(cfg: Config, s: State, pid: Pid, c: Choice)
    requires Runnable(s, pid)
    ensures var s' := Stepped(cfg, s, pid, c);
      var op := s.conts[pid][0];
      s'.hist.closes == s.hist.closes +
        if op.Close? && A.IsRunning(s.store.agents, op.key) && !Fails(s, op, c)
        then [Transition(op.key, op.swept, IsLogged(s.store.log, StartedEvent(op.key)))] else []
  {
  }

  /** Where a stop step after a step of `pid` comes from. */
  lemma StopsAfter(cfg: Config, s: State, pid: Pid, c: Choice, x: Op)
    requires Runnable(s, pid) && IsStop(x)
    ensures var count := multiset(Stepped(cfg, s, pid, c).conts[pid])[x];
      if Fails(s, s.conts[pid][0], c) then count <= multiset(s.conts[pid])[x]
      else count == multiset(Front(cfg, s, s.conts[pid][0], c))[x] + multiset(s.conts[pid][1..])[x]
    ensures multiset(s.conts[pid])[x] == multiset(s.conts[pid][1..])[x] + if s.conts[pid][0] == x then 1 else 0
  {
    var cont := s.conts[pid];
    UnwindCounts(cont, x);
    assert cont == [cont[0]] + cont[1..];
    assert x !in Greeting(cfg, s.store, cont[0]);
  }

  lemma {:induction false} AbandonedIsPart(cont: seq<Op>, op: Op)
    ensures op in Abandoned(cont) ==> op in cont
  {
    if cont != [] { AbandonedIsPart(cont[1..], op); }
  }

  /** A stop step after a step of `pid` was there before it, or reports the
      transition that this step made. */
  lemma StopOrigin(cfg: Config, s: State, pid: Pid, c: Choice, p: Pid, x: Op)
    requires Runnable(s, pid) && p in s.conts && IsStop(x) && x in Stepped(cfg, s, pid, c).conts[p]
    ensures x in s.conts[p]
         || (p == pid && !Fails(s, s.conts[pid][0], c) && s.conts[pid][0].Close?
             && A.IsRunning(s.store.agents, s.conts[pid][0].key)
             && x == Persist(StoppedEvent(s.conts[pid][0].key, |s.hist.closes|)))
  {
    var cont := s.conts[pid];
    var op := cont[0];
    if p == pid && x !in cont {
      if Fails(s, op, c) {
        UnwindIsPart(cont, x);
      } else {
        assert x in Front(cfg, s, op, c);
        FrontStopsOrigin(cfg, s, op, c, x);
      }
    }
  }

  lemma StopsReportStep(cfg: Config, s: State, pid: Pid, c: Choice)
    requires StopsReport(s) && Runnable(s, pid)
    ensures StopsReport(Stepped(cfg, s, pid, c))
  {
    var s' := Stepped(cfg, s, pid, c);
    var op := s.conts[pid][0];
    assert op in s.conts[pid];
    TransitionsGrow(cfg, s, pid, c);
    forall p, x | p in s'.conts && x in s'.conts[p] && IsStop(x) ensures Reports(s'.hist.closes, x.event) {
      StopOrigin(cfg, s, pid, c, p, x);
    }
    forall x | x in s'.hist.dropped && IsStop(x) ensures Reports(s'.hist.closes, x.event) {
      DroppedGrows(cfg, s, pid, c, x);
    }
    forall i | 0 <= i < |s'.store.log| && s'.store.log[i].event.body.Stopped?
      ensures Reports(s'.hist.closes, s'.store.log[i].event)
    {
      if i < |s.store.log| { assert s'.store.log[i] == s.store.log[i]; }
    }
  }

  /** A transition made by this very step is pending in the call that made it. */
  lemma NewTransition(cfg: Config, s: State, pid: Pid, c: Choice)
    requires StopsReport(s) && Runnable(s, pid)
    requires var op := s.conts[pid][0]; op.Close? && A.IsRunning(s.store.agents, op.key) && !Fails(s, op, c)
    ensures var s' := Stepped(cfg, s, pid, c);
      |s'.hist.closes| == |s.hist.closes| + 1 && ReportedOnce(s', |s.hist.closes|)
  {
    var s' := Stepped(cfg, s, pid, c);
    var op := s.conts[pid][0];
    var x := Persist(StoppedEvent(op.key, |s.hist.closes|));
    TransitionsGrow(cfg, s, pid, c);
    Unreported(s, op.key);
    StopsAfter(cfg, s, pid, c, x);
    assert x in Front(cfg, s, op, c);
    FrontStops(cfg, s, op, c, x);
    assert multiset(s'.conts[pid])[x] == 1;
    assert x in s'.conts[pid];
    assert s'.store.log == s.store.log;
    forall p | p in s'.conts && p != pid ensures multiset(s'.conts[p])[x] == 0 {
      assert x !in s'.conts[p];
    }
  }

  /** A transition that has not happened is not reported. */
  lemma Unreported(s: State, k: Key)
    requires StopsReport(s)
    ensures var x := Persist(StoppedEvent(k, |s.hist.closes|));
      && (forall p :: p in s.conts ==> x !in s.conts[p])
      && x !in s.hist.dropped && !IsLogged(s.store.log, x.event)
  {
  }

  lemma LogAfter(cfg: Config, s: State, pid: Pid, c: Choice, x: Op)
    requires Runnable(s, pid) && IsStop(x) && x.event.dedup == NoDedup
    ensures var s' := Stepped(cfg, s, pid, c);
      var op := s.conts[pid][0];
      if op == x && !Fails(s, op, c)
      then (!IsLogged(s.store.log, x.event) ==> LoggedOnce(s'.store.log, x.event))
      else (IsLogged(s'.store.log, x.event) <==> IsLogged(s.store.log, x.event))
           && (LoggedOnce(s.store.log, x.event) ==> LoggedOnce(s'.store.log, x.event))
  {
    var s' := Stepped(cfg, s, pid, c);
    var op := s.conts[pid][0];
    var n := |s.store.log|;
    SteeringMail.LogGrows(s.store, op, c);
    if op == x && !Fails(s, op, c) {
      assert s'.store.log[n].event == x.event;
      if !IsLogged(s.store.log, x.event) {
        assert forall i :: 0 <= i < n ==> s'.store.log[i].event != x.event;
      }
    } else {
      assert forall i :: n <= i < |s'.store.log| ==> s'.store.log[i].event != x.event;
      assert forall i :: 0 <= i < n ==> s'.store.log[i] == s.store.log[i];
      if IsLogged(s.store.log, x.event) {
        var i :| 0 <= i < n && s.store.log[i].event == x.event;
        assert s'.store.log[i].event == x.event;
      }
    }
  }

  lemma OldTransition(cfg: Config, s: State, pid: Pid, c: Choice, n: nat)
    requires StopsReport(s) && Runnable(s, pid) && n < |s.hist.closes| && ReportedOnce(s, n)
    ensures var s' := Stepped(cfg, s, pid, c); n < |s'.hist.closes| && ReportedOnce(s', n)
  {
    var s' := Stepped(cfg, s, pid, c);
    var op := s.conts[pid][0];
    assert op in s.conts[pid];
    TransitionsGrow(cfg, s, pid, c);
    var e := StopEvent(s.hist.closes, n);
    var x := Persist(e);
    assert e == StopEvent(s'.hist.closes, n);
    LogAfter(cfg, s, pid, c, x);
    StopsAfter(cfg, s, pid, c, x);
    if x in Front(cfg, s, op, c) { FrontStops(cfg, s, op, c, x); }
    DroppedExactly(cfg, s, pid, c, x);
    if !InFlight(s, x) {
      NowherePending(cfg, s, pid, c, x);
    } else if Takes(cfg, s, pid, c, x) {
      TakenIsGone(cfg, s, pid, c, x);
    } else {
      UntakenStays(cfg, s, pid, c, x);
    }
  }

  lemma DroppedGrows(cfg: Config, s: State, pid: Pid, c: Choice, x: Op)
    requires Runnable(s, pid) && IsStop(x)
    ensures x in s.hist.dropped ==> x in Stepped(cfg, s, pid, c).hist.dropped
    ensures x in Stepped(cfg, s, pid, c).hist.dropped ==> x in s.hist.dropped || x in s.conts[pid]
  {
    AbandonedIsPart(s.conts[pid], x);
  }

  /** A step pushes no second copy of a stop step, nor moves it to another call. */
  lemma CountShrinks(cfg: Config, s: State, pid: Pid, c: Choice, x: Op, p: Pid)
    requires Runnable(s, pid) && IsStop(x) && x !in Front(cfg, s, s.conts[pid][0], c) && p in s.conts
    ensures multiset(Stepped(cfg, s, pid, c).conts[p])[x] <= multiset(s.conts[p])[x]
    ensures x in Stepped(cfg, s, pid, c).conts[p] ==> x in s.conts[p]
  {
    if p == pid { StopsAfter(cfg, s, pid, c, x); }
    assert x in Stepped(cfg, s, pid, c).conts[p] <==> multiset(Stepped(cfg, s, pid, c).conts[p])[x] > 0;
  }

  /** A stop step that was pending nowhere still is not. */
  lemma NowherePending(cfg: Config, s: State, pid: Pid, c: Choice, x: Op)
    requires Runnable(s, pid) && IsStop(x) && x !in Front(cfg, s, s.conts[pid][0], c) && !InFlight(s, x)
    ensures var s' := Stepped(cfg, s, pid, c);
      !InFlight(s', x) && (x in s'.hist.dropped <==> x in s.hist.dropped)
  {
    DroppedGrows(cfg, s, pid, c, x);
    forall q | q in Stepped(cfg, s, pid, c).conts ensures x !in Stepped(cfg, s, pid, c).conts[q] {
      CountShrinks(cfg, s, pid, c, x, q);
    }
  }

  /** The step takes the stop step: it runs it, or an error abandons it. */
  predicate Takes(cfg: Config, s: State, pid: Pid, c: Choice, x: Op)
    requires Runnable(s, pid)
  {
    if Fails(s, s.conts[pid][0], c) then x in Abandoned(s.conts[pid]) else s.conts[pid][0] == x
  }

  lemma TakenIsGone(cfg: Config, s: State, pid: Pid, c: Choice, x: Op)
    requires Runnable(s, pid) && IsStop(x) && x !in Front(cfg, s, s.conts[pid][0], c)
    requires PendingOnce(s, x) && Takes(cfg, s, pid, c, x)
    ensures !InFlight(Stepped(cfg, s, pid, c), x)
  {
    var cont' := Stepped(cfg, s, pid, c).conts[pid];
    AbandonedIsPart(s.conts[pid], x);
    StopsAfter(cfg, s, pid, c, x);
    UnwindCounts(s.conts[pid], x);
    assert multiset(cont')[x] < multiset(s.conts[pid])[x] <= 1;
    assert x !in cont';
    forall q | q in Stepped(cfg, s, pid, c).conts ensures x !in Stepped(cfg, s, pid, c).conts[q] {
      if q != pid { assert Stepped(cfg, s, pid, c).conts[q] == s.conts[q]; }
    }
  }

  lemma UntakenStays(cfg: Config, s: State, pid: Pid, c: Choice, x: Op)
    requires Runnable(s, pid) && IsStop(x) && x !in Front(cfg, s, s.conts[pid][0], c)
    requires PendingOnce(s, x) && !Takes(cfg, s, pid, c, x) && x !in s.hist.dropped
    ensures PendingOnce(Stepped(cfg, s, pid, c), x)
  {
    StillInFlight(cfg, s, pid, c, x);
    forall q | q in s.conts ensures multiset(Stepped(cfg, s, pid, c).conts[q])[x] <= 1 {
      CountShrinks(cfg, s, pid, c, x, q);
    }
    forall q | q in s.conts && x in Stepped(cfg, s, pid, c).conts[q] ensures x in s.conts[q] {
      CountShrinks(cfg, s, pid, c, x, q);
    }
  }

  /** Where the step loses a stop step. */
  lemma DroppedExactly(cfg: Config, s: State, pid: Pid, c: Choice, x: Op)
    requires Runnable(s, pid) && IsStop(x)
    ensures x in Stepped(cfg, s, pid, c).hist.dropped <==>
      x in s.hist.dropped || (Fails(s, s.conts[pid][0], c) && x in Abandoned(s.conts[pid]))
  {
  }

  lemma StopsOnceStep(cfg: Config, s: State, pid: Pid, c: Choice)
    requires StopsOnce(s) && Runnable(s, pid)
    ensures StopsOnce(Stepped(cfg, s, pid, c))
  {
    var s' := Stepped(cfg, s, pid, c);
    StopsReportStep(cfg, s, pid, c);
    forall n | 0 <= n < |s'.hist.closes| ensures ReportedOnce(s', n) {
      ReportedStep(cfg, s, pid, c, n);
    }
  }

  lemma ReportedStep(cfg: Config, s: State, pid: Pid, c: Choice, n: nat)
    requires StopsOnce(s) && Runnable(s, pid) && n < |Stepped(cfg, s, pid, c).hist.closes|
    ensures ReportedOnce(Stepped(cfg, s, pid, c), n)
  {
    if n < |s.hist.closes| {
      OldTransition(cfg, s, pid, c, n);
    } else {
      IsNewTransition(cfg, s, pid, c, n);
      NewTransition(cfg, s, pid, c);
    }
  }

  lemma IsNewTransition(cfg: Config, s: State, pid: Pid, c: Choice, n: nat)
    requires Runnable(s, pid) && |s.hist.closes| <= n < |Stepped(cfg, s, pid, c).hist.closes|
    ensures n == |s.hist.closes|
    ensures var op := s.conts[pid][0]; op.Close? && A.IsRunning(s.store.agents, op.key) && !Fails(s, op, c)
  {
    TransitionsGrow(cfg, s, pid, c);
  }

  // ---- agent.started ----

  ghost predicate StartsNamed(s: State) {
    && (forall i :: 0 <= i < |s.store.log| && s.store.log[i].event.dedup.StartedOnce? ==>
          s.store.log[i].event == StartedEvent(Key(s.store.log[i].event.subject, s.store.log[i].event.dedup.agent)))
    && (forall p, op :: p in s.conts && op in s.conts[p] && op.Persist? && op.event.dedup.StartedOnce? ==>
          op.event == StartedEvent(Key(op.event.subject, op.event.dedup.agent)))
  }

  ghost predicate StartLost(s: State, k: Key) {
    Persist(StartedEvent(k)) in s.hist.dropped
  }

  /** Every row's agent.started is logged, lost, or the next step of the call
      that inserted the row. */
  ghost predicate StartsRecorded(s: State) {
    forall k :: k in s.store.agents.rows ==>
      IsLogged(s.store.log, StartedEvent(k)) || StartLost(s, k)
      || exists q :: q in s.conts && s.conts[q] != [] && s.conts[q][0] == Persist(StartedEvent(k))
  }

  /** An agent that was swept without its started event had lost the append. */
  ghost predicate SweptStarted(s: State) {
    forall n :: 0 <= n < |s.hist.closes| && s.hist.closes[n].swept ==>
      s.hist.closes[n].started || StartLost(s, s.hist.closes[n].key)
  }

  /** Row i of the log is preceded by `e`. */
  ghost predicate Precedes(log: seq<EventRow>, e: Event, i: nat) {
    exists j :: 0 <= j < i && j < |log| && log[j].event == e
  }

  predicate IsSwept(closes: seq<Transition>, n: nat) {
    n < |closes| && closes[n].swept
  }

  /** Whoever is about to log a swept agent's stop is still in the section. */
  ghost predicate SweepsLocked(s: State) {
    forall p, x :: p in s.conts && x in s.conts[p] && IsStop(x) && IsSwept(s.hist.closes, x.event.body.close) ==>
      UnlockRegister in s.conts[p] && s.conts[p][0] != LockRegister
  }

  /** Until the stop is logged, whether the started event is stays as it was. */
  ghost predicate StartsSettled(s: State) {
    forall x :: InFlight(s, x) && IsStop(x) && IsSwept(s.hist.closes, x.event.body.close) ==>
      var t := s.hist.closes[x.event.body.close];
      IsLogged(s.store.log, StartedEvent(t.key)) <==> t.started
  }

  ghost predicate StartsFirst(s: State) {
    forall i :: 0 <= i < |s.store.log| && s.store.log[i].event.body.Stopped?
        && IsSwept(s.hist.closes, s.store.log[i].event.body.close)
      ==> var t := s.hist.closes[s.store.log[i].event.body.close];
          Precedes(s.store.log, StartedEvent(t.key), i) <==> t.started
  }

  ghost predicate StartsInv(s: State) {
    StartsNamed(s) && StartsRecorded(s) && SweptStarted(s) && SweepsLocked(s) && StartsSettled(s) && StartsFirst(s)
  }

  lemma FrontStarts(cfg: Config, s: State, op: Op, c: Choice)
    ensures forall x :: x in Front(cfg, s, op, c) && x.Persist? ==> !x.event.dedup.StartedOnce?
  {
    match op
    case Tee(e) => SteeringMail.TeeAllOps(c.order, if e.body.Domain? then e.body.payload else "");
    case Sweep(k, t) => SteeringMail.SweepAllOps(A.RunningOfType(s.store.agents, s.store.agents.order, k.subject, t), k);
    case Reconcile =>
      SteeringMail.RelayAllOps(c.order);
      RelaysUndeduped(c.order);
    case _ =>
  }

  lemma {:induction false} RelaysUndeduped(order: seq<Key>)
    ensures forall x :: x in RelayAll(order) && x.Persist? ==> x.event.dedup == NoDedup
  {
    if order != [] { RelaysUndeduped(order[1..]); }
  }

  lemma StartsNamedStep(cfg: Config, s: State, pid: Pid, c: Choice)
    requires StartsNamed(s) && Runnable(s, pid)
    ensures StartsNamed(Stepped(cfg, s, pid, c))
  {
    var s' := Stepped(cfg, s, pid, c);
    var cont := s.conts[pid];
    var op := cont[0];
    assert op in cont;
    FrontStarts(cfg, s, op, c);
    forall p, x | p in s'.conts && x in s'.conts[p] && x.Persist? && x.event.dedup.StartedOnce?
      ensures x.event == StartedEvent(Key(x.event.subject, x.event.dedup.agent))
    {
      if p == pid {
        if Fails(s, op, c) { UnwindIsPart(cont, x); }
        assert x in cont;
      }
    }
    SteeringMail.LogGrows(s.store, op, c);
    forall i | 0 <= i < |s'.store.log| && s'.store.log[i].event.dedup.StartedOnce?
      ensures s'.store.log[i].event == StartedEvent(Key(s'.store.log[i].event.subject, s'.store.log[i].event.dedup.agent))
    {
      if i < |s.store.log| { assert s'.store.log[i] == s.store.log[i]; }
    }
  }

  lemma LoggedKept(cfg: Config, s: State, pid: Pid, c: Choice, e: Event)
    requires Runnable(s, pid) && IsLogged(s.store.log, e)
    ensures IsLogged(Stepped(cfg, s, pid, c).store.log, e)
  {
    SteeringMail.LogGrows(s.store, s.conts[pid][0], c);
    var i :| 0 <= i < |s.store.log| && s.store.log[i].event == e;
    assert Stepped(cfg, s, pid, c).store.log[i].event == e;
  }

  lemma StartLostKept(cfg: Config, s: State, pid: Pid, c: Choice, k: Key)
    requires Runnable(s, pid) && StartLost(s, k)
    ensures StartLost(Stepped(cfg, s, pid, c), k)
  {
  }

  /** Appending a started event leaves one logged, new or deduplicated. */
  lemma StartLogs(st: Store, k: Key, c: Choice)
    requires forall i :: 0 <= i < |st.log| && st.log[i].event.dedup.StartedOnce? ==>
      st.log[i].event == StartedEvent(Key(st.log[i].event.subject, st.log[i].event.dedup.agent))
    ensures IsLogged(StoreAfter(st, Persist(StartedEvent(k)), c).log, StartedEvent(k))
  {
    var e := StartedEvent(k);
    if L.Duplicated(st.log, e) {
      var i :| 0 <= i < |st.log| && L.SameDedup(st.log[i].event, e);
      assert st.log[i].event == e;
    } else {
      assert L.Appended(st.log, e)[|st.log|].event == e;
    }
  }

  lemma StartsRecordedStep(cfg: Config, s: State, pid: Pid, c: Choice)
    requires StartsNamed(s) && StartsRecorded(s) && Runnable(s, pid) && Lock.Sectioned(s.conts[pid])
    ensures StartsRecorded(Stepped(cfg, s, pid, c))
  {
    var s' := Stepped(cfg, s, pid, c);
    var op := s.conts[pid][0];
    forall k | k in s'.store.agents.rows
      ensures IsLogged(s'.store.log, StartedEvent(k)) || StartLost(s', k)
        || exists q :: q in s'.conts && s'.conts[q] != [] && s'.conts[q][0] == Persist(StartedEvent(k))
    {
      if op.RegisterRow? && op.key == k && !Fails(s, op, c) {
        assert s'.conts[pid][0] == Persist(StartedEvent(k));
      } else {
        assert k in s.store.agents.rows;
        if IsLogged(s.store.log, StartedEvent(k)) {
          LoggedKept(cfg, s, pid, c, StartedEvent(k));
        } else if StartLost(s, k) {
          StartLostKept(cfg, s, pid, c, k);
        } else {
          var q :| q in s.conts && s.conts[q] != [] && s.conts[q][0] == Persist(StartedEvent(k));
          if q == pid && !Fails(s, op, c) {
            StartLogs(s.store, k, c);
          } else if q != pid {
            assert s'.conts[q][0] == Persist(StartedEvent(k));
          }
        }
      }
    }
  }

  /** A sweep closes an agent only after that agent's own start was recorded. */
  lemma SweepAfterStart(s: State, pid: Pid)
    requires Lock.Inv(s) && StartsRecorded(s) && Runnable(s, pid)
    requires var op := s.conts[pid][0]; op.Close? && op.swept && op.key in s.store.agents.rows
    ensures var k := s.conts[pid][0].key; IsLogged(s.store.log, StartedEvent(k)) || StartLost(s, k)
  {
    var op := s.conts[pid][0];
    var k := op.key;
    if !IsLogged(s.store.log, StartedEvent(k)) && !StartLost(s, k) {
      var q :| q in s.conts && s.conts[q] != [] && s.conts[q][0] == Persist(StartedEvent(k));
      assert op in s.conts[pid] && s.conts[q][0] in s.conts[q];
      Lock.SectionsExclude(s, pid, op, q, s.conts[q][0]);
    }
  }

  lemma SweptStartedStep(cfg: Config, s: State, pid: Pid, c: Choice)
    requires StartsInv(s) && Lock.Inv(s) && Runnable(s, pid)
    ensures SweptStarted(Stepped(cfg, s, pid, c))
  {
    var s' := Stepped(cfg, s, pid, c);
    TransitionsGrow(cfg, s, pid, c);
    forall n | 0 <= n < |s'.hist.closes| && s'.hist.closes[n].swept
      ensures s'.hist.closes[n].started || StartLost(s', s'.hist.closes[n].key)
    {
      var k := s'.hist.closes[n].key;
      if n == |s.hist.closes| {
        SweepAfterStart(s, pid);
      } else {
        assert s.hist.closes[n] == s'.hist.closes[n];
      }
      if StartLost(s, k) { StartLostKept(cfg, s, pid, c, k); }
    }
  }

  /** An old stop step reports the transition that it reported. */
  lemma SameTransition(cfg: Config, s: State, pid: Pid, c: Choice, p: Pid, x: Op)
    requires StopsReport(s) && Runnable(s, pid) && p in s.conts && x in s.conts[p] && IsStop(x)
    ensures var n := x.event.body.close;
      n < |s.hist.closes| && n < |Stepped(cfg, s, pid, c).hist.closes|
      && Stepped(cfg, s, pid, c).hist.closes[n] == s.hist.closes[n]
  {
    TransitionsGrow(cfg, s, pid, c);
    assert Reports(s.hist.closes, x.event);
  }

  lemma {:induction false} UnlockSurvives(cont: seq<Op>)
    requires UnlockRegister in cont
    ensures UnlockRegister in Unwind(cont)
  {
    if cont[0] != UnlockRegister && !cont[0].EndTry? {
      UnlockSurvives(cont[1..]);
    }
  }

  lemma SweepsLockedStep(cfg: Config, s: State, pid: Pid, c: Choice)
    requires SweepsLocked(s) && StopsReport(s) && Lock.Inv(s) && Runnable(s, pid)
    ensures SweepsLocked(Stepped(cfg, s, pid, c))
  {
    var s' := Stepped(cfg, s, pid, c);
    forall p, x | p in s'.conts && x in s'.conts[p] && IsStop(x) && IsSwept(s'.hist.closes, x.event.body.close)
      ensures UnlockRegister in s'.conts[p] && s'.conts[p][0] != LockRegister
    {
      StopOrigin(cfg, s, pid, c, p, x);
      if p == pid {
        OwnSweepLocked(cfg, s, pid, c, x);
      } else {
        SameTransition(cfg, s, pid, c, p, x);
      }
    }
  }

  lemma OwnSweepLocked(cfg: Config, s: State, pid: Pid, c: Choice, x: Op)
    requires SweepsLocked(s) && StopsReport(s) && Lock.Inv(s) && Runnable(s, pid)
    requires x in Stepped(cfg, s, pid, c).conts[pid] && IsStop(x)
    requires IsSwept(Stepped(cfg, s, pid, c).hist.closes, x.event.body.close)
    ensures UnlockRegister in Stepped(cfg, s, pid, c).conts[pid]
    ensures Stepped(cfg, s, pid, c).conts[pid][0] != LockRegister
  {
    var s' := Stepped(cfg, s, pid, c);
    var cont := s.conts[pid];
    var op := cont[0];
    StopOrigin(cfg, s, pid, c, pid, x);
    Lock.SectionedStep(cfg, s, pid, c);
    if x in cont {
      SameTransition(cfg, s, pid, c, pid, x);
      assert UnlockRegister in cont;
      if Fails(s, op, c) {
        UnlockSurvives(cont);
      } else {
        StopNotPastUnlock(cfg, s, pid, c, x);
        assert UnlockRegister in cont[1..];
      }
    } else {
      TransitionsGrow(cfg, s, pid, c);
      assert op.swept && UnlockRegister in cont[1..];
    }
  }

  /** After the unlock only the greeting is left. */
  lemma StopNotPastUnlock(cfg: Config, s: State, pid: Pid, c: Choice, x: Op)
    requires Lock.Inv(s) && Runnable(s, pid) && IsStop(x) && x in s.conts[pid]
    ensures s.conts[pid][0] != UnlockRegister
  {
    var cont := s.conts[pid];
    assert Lock.SectionHead(cont[0], cont[1..]);
    assert x == cont[0] || x in cont[1..];
  }

  /** No step but the agent's own registration logs its started event. */
  lemma StartedUnchanged(cfg: Config, s: State, pid: Pid, c: Choice, k: Key)
    requires Runnable(s, pid)
    requires s.conts[pid][0] != Persist(StartedEvent(k)) || Fails(s, s.conts[pid][0], c)
    ensures IsLogged(Stepped(cfg, s, pid, c).store.log, StartedEvent(k)) <==> IsLogged(s.store.log, StartedEvent(k))
  {
    var s' := Stepped(cfg, s, pid, c);
    var op := s.conts[pid][0];
    var e := StartedEvent(k);
    SteeringMail.LogGrows(s.store, op, c);
    if IsLogged(s.store.log, e) { LoggedKept(cfg, s, pid, c, e); }
    if IsLogged(s'.store.log, e) {
      var i :| 0 <= i < |s'.store.log| && s'.store.log[i].event == e;
      if i < |s.store.log| { assert s.store.log[i].event == e; }
    }
  }

  lemma StartHasNoStop(cont: seq<Op>, k: Key, x: Op)
    requires Lock.Sectioned(cont) && cont != [] && cont[0] == Persist(StartedEvent(k)) && IsStop(x)
    ensures x !in cont
  {
    assert Lock.SectionHead(cont[0], cont[1..]);
    assert cont == [cont[0]] + cont[1..];
  }

  /** While a swept agent's stop is still to be logged, nobody logs a start: both
      are under the lock. */
  lemma NoStartMeanwhile(s: State, pid: Pid, p: Pid, x: Op, k: Key)
    requires Lock.Inv(s) && SweepsLocked(s) && Runnable(s, pid) && p in s.conts
    requires x in s.conts[p] && IsStop(x) && IsSwept(s.hist.closes, x.event.body.close)
    ensures s.conts[pid][0] != Persist(StartedEvent(k))
  {
    var op := s.conts[pid][0];
    if op == Persist(StartedEvent(k)) {
      StartHasNoStop(s.conts[pid], k, x);
      assert op in s.conts[pid];
      Lock.SectionNeedsUnlock(s.conts[pid], op);
      Lock.MutualExclusion(s, p, pid);
    }
  }

  lemma StartsSettledStep(cfg: Config, s: State, pid: Pid, c: Choice)
    requires StartsInv(s) && StopsReport(s) && Lock.Inv(s) && Runnable(s, pid)
    ensures StartsSettled(Stepped(cfg, s, pid, c))
  {
    var s' := Stepped(cfg, s, pid, c);
    forall x | InFlight(s', x) && IsStop(x) && IsSwept(s'.hist.closes, x.event.body.close)
      ensures var t := s'.hist.closes[x.event.body.close];
        IsLogged(s'.store.log, StartedEvent(t.key)) <==> t.started
    {
      StartSettled(cfg, s, pid, c, x);
    }
  }

  lemma StartSettled(cfg: Config, s: State, pid: Pid, c: Choice, x: Op)
    requires StartsInv(s) && StopsReport(s) && Lock.Inv(s) && Runnable(s, pid)
    requires InFlight(Stepped(cfg, s, pid, c), x) && IsStop(x)
    requires IsSwept(Stepped(cfg, s, pid, c).hist.closes, x.event.body.close)
    ensures var s' := Stepped(cfg, s, pid, c);
      var t := s'.hist.closes[x.event.body.close];
      IsLogged(s'.store.log, StartedEvent(t.key)) <==> t.started
  {
    var s' := Stepped(cfg, s, pid, c);
    var p :| p in s'.conts && x in s'.conts[p];
    StopOrigin(cfg, s, pid, c, p, x);
    if x in s.conts[p] {
      SameTransition(cfg, s, pid, c, p, x);
      var k := s.hist.closes[x.event.body.close].key;
      NoStartMeanwhile(s, pid, p, x, k);
      StartedUnchanged(cfg, s, pid, c, k);
      assert InFlight(s, x);
    } else {
      TransitionsGrow(cfg, s, pid, c);
      assert s'.store.log == s.store.log;
    }
  }

  lemma StartsFirstStep(cfg: Config, s: State, pid: Pid, c: Choice)
    requires StartsInv(s) && StopsReport(s) && Runnable(s, pid)
    ensures StartsFirst(Stepped(cfg, s, pid, c))
  {
    var s' := Stepped(cfg, s, pid, c);
    forall i | 0 <= i < |s'.store.log| && s'.store.log[i].event.body.Stopped?
        && IsSwept(s'.hist.closes, s'.store.log[i].event.body.close)
      ensures var t := s'.hist.closes[s'.store.log[i].event.body.close];
        Precedes(s'.store.log, StartedEvent(t.key), i) <==> t.started
    {
      StartFirst(cfg, s, pid, c, i);
    }
  }

  lemma StartFirst(cfg: Config, s: State, pid: Pid, c: Choice, i: nat)
    requires StartsInv(s) && StopsReport(s) && Runnable(s, pid)
    requires var s' := Stepped(cfg, s, pid, c);
      i < |s'.store.log| && s'.store.log[i].event.body.Stopped?
      && IsSwept(s'.hist.closes, s'.store.log[i].event.body.close)
    ensures var s' := Stepped(cfg, s, pid, c);
      var t := s'.hist.closes[s'.store.log[i].event.body.close];
      Precedes(s'.store.log, StartedEvent(t.key), i) <==> t.started
  {
    var s' := Stepped(cfg, s, pid, c);
    var op := s.conts[pid][0];
    assert op in s.conts[pid];
    TransitionsGrow(cfg, s, pid, c);
    SteeringMail.LogGrows(s.store, op, c);
    var e := s'.store.log[i].event;
    var n := e.body.close;
    if i < |s.store.log| {
      assert s.store.log[i].event == e;
      assert Reports(s.hist.closes, s.store.log[i].event);
      SamePrefix(s.store.log, s'.store.log, StartedEvent(s.hist.closes[n].key), i);
    } else {
      assert IsStop(op) && op.event == e && InFlight(s, op) && Reports(s.hist.closes, op.event);
      SamePrefix(s.store.log, s'.store.log, StartedEvent(s.hist.closes[n].key), i);
    }
  }

  lemma SamePrefix(log: seq<EventRow>, log': seq<EventRow>, e: Event, i: nat)
    requires |log| <= |log'| && (forall j :: 0 <= j < |log| ==> log'[j] == log[j]) && i <= |log|
    ensures Precedes(log', e, i) <==> Precedes(log, e, i)
    ensures i == |log| ==> (Precedes(log', e, i) <==> IsLogged(log, e))
  {
    if Precedes(log, e, i) {
      var j :| 0 <= j < i && j < |log| && log[j].event == e;
      assert log'[j].event == e;
    }
    if Precedes(log', e, i) {
      var j :| 0 <= j < i && j < |log'| && log'[j].event == e;
      assert log[j].event == e;
    }
    if i == |log| && IsLogged(log, e) {
      var j :| 0 <= j < |log| && log[j].event == e;
      assert log[j].event == e && j < i;
    }
  }

  // ---- Runs ----

  ghost predicate Inv(s: State) {
    Lock.Inv(s) && StopsOnce(s) && StartsInv(s)
  }

  lemma StepKeepsInv(cfg: Config, s: State, pid: Pid, c: Choice)
    requires Inv(s) && Runnable(s, pid) && Enabled(s, pid, c)
    ensures Inv(Stepped(cfg, s, pid, c))
  {
    Lock.StepKeepsInv(cfg, s, pid, c);
    StopsOnceStep(cfg, s, pid, c);
    StartsNamedStep(cfg, s, pid, c);
    StartsRecordedStep(cfg, s, pid, c);
    SweptStartedStep(cfg, s, pid, c);
    SweepsLockedStep(cfg, s, pid, c);
    StartsSettledStep(cfg, s, pid, c);
    StartsFirstStep(cfg, s, pid, c);
  }

  lemma ProgramStops(call: Call)
    requires Admissible(call)
    ensures forall x :: x in Program(call) ==> !IsStop(x)
    ensures forall x :: x in Program(call) && x.Persist? && x.event.dedup.StartedOnce? ==>
      x.event == StartedEvent(Key(x.event.subject, x.event.dedup.agent))
  {
  }

  lemma SpawnKeepsStops(s: State, pid: Pid, call: Call)
    requires StopsOnce(s) && CanSpawn(s, pid, call)
    ensures StopsOnce(Spawned(s, pid, call))
  {
    var s' := Spawned(s, pid, call);
    ProgramStops(call);
    forall n | 0 <= n < |s'.hist.closes| ensures ReportedOnce(s', n) {
      var x := Persist(StopEvent(s.hist.closes, n));
      assert ReportedOnce(s, n);
      assert x !in Program(call);
      assert multiset(Program(call))[x] == 0;
      if InFlight(s, x) { SpawnKeeps(s, pid, call, x); }
    }
  }

  lemma SpawnKeepsInv(s: State, pid: Pid, call: Call)
    requires Inv(s) && CanSpawn(s, pid, call)
    ensures Inv(Spawned(s, pid, call))
  {
    var s' := Spawned(s, pid, call);
    Lock.SpawnKeepsInv(s, pid, call);
    SpawnKeepsStops(s, pid, call);
    ProgramStops(call);
    forall k | k in s'.store.agents.rows
      ensures IsLogged(s'.store.log, StartedEvent(k)) || StartLost(s', k)
        || exists q :: q in s'.conts && s'.conts[q] != [] && s'.conts[q][0] == Persist(StartedEvent(k))
    {
      if !IsLogged(s.store.log, StartedEvent(k)) && !StartLost(s, k) {
        var q :| q in s.conts && s.conts[q] != [] && s.conts[q][0] == Persist(StartedEvent(k));
        assert s'.conts[q] == s.conts[q];
      }
    }
  }

  lemma CrashKeepsInv(s: State)
    requires Inv(s)
    ensures Inv(Crashed(s))
  {
    var s' := Crashed(s);
    Lock.BootInv(s');
    assert forall x :: x in BOOT ==> !x.Persist?;
    forall n | 0 <= n < |s'.hist.closes| ensures ReportedOnce(s', n) {
      assert ReportedOnce(s, n);
    }
    forall k | k in s'.store.agents.rows && !IsLogged(s'.store.log, StartedEvent(k)) ensures StartLost(s', k) {
      if !StartLost(s, k) {
        var q :| q in s.conts && s.conts[q] != [] && s.conts[q][0] == Persist(StartedEvent(k));
        assert s.conts[q][0] in s.conts[q];
      }
    }
  }

  lemma InvNext(cfg: Config, s: State, s': State)
    requires Inv(s) && Next(cfg, s, s')
    ensures Inv(s')
  {
    if pid: Pid, c: Choice :| Runnable(s, pid) && Enabled(s, pid, c) && s' == Stepped(cfg, s, pid, c) {
      StepKeepsInv(cfg, s, pid, c);
    } else if pid: Pid, call: Call :| CanSpawn(s, pid, call) && s' == Spawned(s, pid, call) {
      SpawnKeepsInv(s, pid, call);
    } else {
      CrashKeepsInv(s);
    }
  }

  lemma {:induction false} InvHolds(cfg: Config, run: seq<State>, i: nat)
    requires IsRun(cfg, run) && i < |run|
    ensures Inv(run[i])
  {
    if i == 0 {
      Lock.BootInv(run[0]);
      assert forall x :: x in BOOT ==> !x.Persist?;
    } else {
      InvHolds(cfg, run, i - 1);
      assert Next(cfg, run[i - 1], run[i - 1 + 1]);
      InvNext(cfg, run[i - 1], run[i]);
    }
  }

  // ---- The theorems ----

  /** Each running-to-done transition is reported by exactly one agent.stopped,
      even when sweeps race with stops, unless the step that appends it is still
      to run or was lost to an error or a crash; and nothing else is reported. */
  lemma ExactlyOneStopped(cfg: Config, run: seq<State>, i: nat, n: nat)
    requires IsRun(cfg, run) && i < |run| && n < |run[i].hist.closes|
    requires var op := Persist(StopEvent(run[i].hist.closes, n));
      !InFlight(run[i], op) && op !in run[i].hist.dropped
    ensures LoggedOnce(run[i].store.log, StopEvent(run[i].hist.closes, n))
  {
    InvHolds(cfg, run, i);
    assert ReportedOnce(run[i], n);
  }

  lemma NoStoppedWithoutTransition(cfg: Config, run: seq<State>, i: nat, j: nat)
    requires IsRun(cfg, run) && i < |run| && j < |run[i].store.log|
    requires run[i].store.log[j].event.body.Stopped?
    ensures var n := run[i].store.log[j].event.body.close;
      n < |run[i].hist.closes| && run[i].store.log[j].event == StopEvent(run[i].hist.closes, n)
  {
    InvHolds(cfg, run, i);
  }

  /** A swept agent's agent.started precedes its agent.stopped if and only if the
      log held it when the sweep closed the agent; if not, a registration of the
      agent had lost the append of it. */
  lemma StartedPrecedesSweptStop(cfg: Config, run: seq<State>, i: nat, j: nat)
    requires IsRun(cfg, run) && i < |run| && j < |run[i].store.log|
    requires run[i].store.log[j].event.body.Stopped?
    requires IsSwept(run[i].hist.closes, run[i].store.log[j].event.body.close)
    ensures var t := run[i].hist.closes[run[i].store.log[j].event.body.close];
      && ((exists a :: 0 <= a < j && run[i].store.log[a].event == StartedEvent(t.key)) <==> t.started)
      && (!t.started ==> Persist(StartedEvent(t.key)) in run[i].hist.dropped)
  {
    InvHolds(cfg, run, i);
    var t := run[i].hist.closes[run[i].store.log[j].event.body.close];
    assert Precedes(run[i].store.log, StartedEvent(t.key), j) <==> t.started;
  }
}
