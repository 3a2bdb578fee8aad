/** The subscription registry mirrors the agents table (daemon/subscriptions.go):
    what the memory holds at rest is what a restart would rebuild from the rows,
    and exactly when it is not. */
module SteeringRegistry {
  import opened Records
  import opened Steering
  import A = Agents
  import S = Subscriptions
  import SteeringMail
  import Lock = SteeringLock

  // ---- Boot ----

  predicate IsBootOp(op: Op) {
    op.Reconcile? || ((op.Persist? || op.Tee?) && op.event.body.Relay?)
  }

  predicate BootShape(cont: seq<Op>) {
    && |cont| >= 2 && cont[|cont| - 2] == RebuildSubscriptions && cont[|cont| - 1] == Serve
    && forall i :: 0 <= i < |cont| - 2 ==> IsBootOp(cont[i])
  }

  /** The registry has been derived since the last start. */
  predicate Ready(s: State) {
    s.mem.serving || (0 in s.conts && s.conts[0] == [Serve])
  }

  ghost predicate Booting(s: State) {
    if s.mem.serving then
      forall p, op :: p in s.conts && op in s.conts[p] ==> !op.RebuildSubscriptions? && !op.Serve?
    else
      s.conts.Keys == {0} && (BootShape(s.conts[0]) || s.conts[0] == [Serve] || s.conts[0] == [])
  }

  lemma FrontNoBoot(cfg: Config, s: State, op: Op, c: Choice)
    ensures forall o :: o in Front(cfg, s, op, c) ==> !o.RebuildSubscriptions? && !o.Serve?
  {
    match op
    case Tee(e) => SteeringMail.TeeAllOps(c.order, if e.body.Domain? then e.body.payload else "");
    case Sweep(k, t) => SteeringMail.SweepAllOps(A.RunningOfType(s.store.agents, s.store.agents.order, k.subject, t), k);
    case Reconcile => SteeringMail.RelayAllOps(c.order);
    case _ => FrontPlainNoBoot(cfg, s, op, c);
  }

  lemma FrontPlainNoBoot(cfg: Config, s: State, op: Op, c: Choice)
    requires !op.Tee? && !op.Sweep? && !op.Reconcile?
    ensures forall o :: o in Front(cfg, s, op, c) ==> !o.RebuildSubscriptions? && !o.Serve?
  {
  }

  lemma BootFront(cfg: Config, s: State, op: Op, c: Choice)
    requires IsBootOp(op)
    ensures forall o :: o in Front(cfg, s, op, c) ==> IsBootOp(o)
  {
    if op.Reconcile? { SteeringMail.RelayAllOps(c.order); }
  }

  lemma BootStepShape(cfg: Config, s: State, c: Choice)
    requires Runnable(s, 0) && BootShape(s.conts[0]) && !Fails(s, s.conts[0][0], c)
    requires IsBootOp(s.conts[0][0])
    ensures BootShape(Stepped(cfg, s, 0, c).conts[0])
  {
    var cont := s.conts[0];
    var front := Front(cfg, s, cont[0], c);
    BootFront(cfg, s, cont[0], c);
    var cont' := Stepped(cfg, s, 0, c).conts[0];
    assert cont' == front + cont[1..];
    forall i | 0 <= i < |cont'| - 2 ensures IsBootOp(cont'[i]) {
      if i < |front| { assert cont'[i] in front; } else { assert cont'[i] == cont[i - |front| + 1]; }
    }
  }

  lemma {:induction false} BootUnwinds(cont: seq<Op>)
    requires forall op :: op in cont ==> IsBootOp(op) || op.RebuildSubscriptions? || op.Serve?
    ensures Unwind(cont) == []
  {
    if cont != [] {
      assert cont[0] in cont;
      BootUnwinds(cont[1..]);
    }
  }

  lemma ServingStep(cfg: Config, s: State, pid: Pid, c: Choice)
    requires Booting(s) && s.mem.serving && Runnable(s, pid)
    ensures Booting(Stepped(cfg, s, pid, c)) && Stepped(cfg, s, pid, c).mem.serving
  {
    var s' := Stepped(cfg, s, pid, c);
    var cont := s.conts[pid];
    var op := cont[0];
    assert op in cont;
    FrontNoBoot(cfg, s, op, c);
    forall p, o | p in s'.conts && o in s'.conts[p] ensures !o.RebuildSubscriptions? && !o.Serve? {
      if p == pid {
        if Fails(s, op, c) { UnwindIsPart(cont, o); }
        assert o in cont || o in Front(cfg, s, op, c) || o in Greeting(cfg, s.store, op);
      }
    }
  }

  lemma BootFails(cfg: Config, s: State, c: Choice)
    requires Booting(s) && !s.mem.serving && Runnable(s, 0) && Fails(s, s.conts[0][0], c)
    ensures Booting(Stepped(cfg, s, 0, c)) && !Ready(Stepped(cfg, s, 0, c))
  {
    var cont := s.conts[0];
    forall o | o in cont ensures IsBootOp(o) || o.RebuildSubscriptions? || o.Serve? {
      var i :| 0 <= i < |cont| && cont[i] == o;
    }
    BootUnwinds(cont);
    assert Stepped(cfg, s, 0, c).conts.Keys == {0};
  }

  lemma BootingStep(cfg: Config, s: State, pid: Pid, c: Choice)
    requires Booting(s) && Runnable(s, pid)
    ensures Booting(Stepped(cfg, s, pid, c))
    ensures Ready(Stepped(cfg, s, pid, c)) ==> Ready(s) || s.conts[pid] == [RebuildSubscriptions, Serve]
  {
    var s' := Stepped(cfg, s, pid, c);
    var cont := s.conts[pid];
    var op := cont[0];
    if s.mem.serving {
      ServingStep(cfg, s, pid, c);
    } else {
      assert pid == 0;
      if Fails(s, op, c) {
        BootFails(cfg, s, c);
      } else {
        assert s'.conts.Keys == {0};
        BootAdvances(cfg, s, c);
      }
    }
  }

  lemma BootAdvances(cfg: Config, s: State, c: Choice)
    requires Booting(s) && !s.mem.serving && Runnable(s, 0) && !Fails(s, s.conts[0][0], c)
    ensures var s' := Stepped(cfg, s, 0, c);
      var cont := s.conts[0];
      if IsBootOp(cont[0]) then BootShape(s'.conts[0]) && !s'.mem.serving
      else if cont[0].RebuildSubscriptions? then
        cont == [RebuildSubscriptions, Serve] && s'.conts[0] == [Serve] && !s'.mem.serving
      else cont == [Serve] && s'.conts[0] == [] && s'.mem.serving
  {
    var cont := s.conts[0];
    if BootShape(cont) && IsBootOp(cont[0]) {
      BootStepShape(cfg, s, c);
    } else if BootShape(cont) {
      assert cont == [RebuildSubscriptions, Serve];
    }
  }

  // ---- The registry against the table ----

  /** k's entry is the one its row asks for. */
  predicate Matches(cfg: Config, s: State, k: Key) {
    Fits(s.mem.subs, k, Asked(cfg, s.store.agents, k))
  }

  /** The history has the agent's entry down as odd. */
  predicate IsOdd(s: State, k: Key) {
    k in s.hist.pruned || k in s.hist.unset || k in s.hist.cut
  }

  /** A running agent's entry is right, exactly unless the history has it down as odd. */
  ghost predicate RowsMirrored(cfg: Config, s: State) {
    forall k :: A.IsRunning(s.store.agents, k) ==> (Matches(cfg, s, k) <==> !IsOdd(s, k))
  }

  ghost predicate Due(s: State, op: Op) {
    InFlight(s, op) || op in s.hist.dropped
  }

  /** An agent that is unset has its subscription still to come, or lost. */
  ghost predicate UnsetDue(s: State) {
    forall k :: A.IsRunning(s.store.agents, k) && k in s.hist.unset ==>
      Due(s, Subscribe(k, s.store.agents.rows[k].agentType))
  }

  /** The very next step of some call removes k's entry. */
  ghost predicate Unsubscribing(s: State, k: Key) {
    exists p :: p in s.conts && s.conts[p] != [] && s.conts[p][0] == Unsubscribe(k)
  }

  /** An entry belongs to a running agent, or is about to be removed, or was set
      too late. */
  ghost predicate EntriesLive(s: State) {
    forall k :: k in s.mem.subs ==> A.IsRunning(s.store.agents, k) || Unsubscribing(s, k) || k in s.hist.late
  }

  /** In the steps of a call, no agent that may have an entry (`live`, and `all` of
      them where an error may resume) is closed by a sweep that has not
      unsubscribed it. */
  ghost predicate SweepsInOrder(cont: seq<Op>, live: set<Key>, all: set<Key>) {
    cont == [] ||
      (match cont[0]
       case EndTry => SweepsInOrder(cont[1..], all, all)
       case Unsubscribe(k) => SweepsInOrder(cont[1..], live - {k}, all)
       case Close(k, swept) => (swept ==> k !in live) && SweepsInOrder(cont[1..], live, all)
       case _ => SweepsInOrder(cont[1..], live, all))
  }

  ghost predicate SweptUnsubscribed(s: State) {
    forall p :: p in s.conts ==> SweepsInOrder(s.conts[p], s.mem.subs.Keys, s.mem.subs.Keys)
  }

  predicate PastRegister(cont: seq<Op>) {
    cont != [] && !cont[0].LockRegister? && !cont[0].RegisterRow?
  }

  /** Between inserting its row and subscribing, a registration's row keeps the
      type it was given. */
  ghost predicate SubscribeFaithful(s: State) {
    forall p, k, t :: p in s.conts && Subscribe(k, t) in s.conts[p] && PastRegister(s.conts[p]) ==>
      && k in s.store.agents.rows && s.store.agents.rows[k].agentType == t
      && k !in s.hist.pruned
  }

  /** An agent that was pruned or cut off has no entry. One that was subscribed too
      late has one. */
  ghost predicate Entries(s: State) {
    && (forall k :: k in s.hist.pruned || k in s.hist.cut ==> k !in s.mem.subs)
    && (forall k :: k in s.hist.late ==> k in s.mem.subs)
  }

  ghost predicate Mirrors(cfg: Config, s: State) {
    && RowsMirrored(cfg, s) && EntriesLive(s) && SweptUnsubscribed(s)
    && SubscribeFaithful(s) && Entries(s) && UnsetDue(s)
  }

  ghost predicate Inv(cfg: Config, s: State) {
    && SteeringMail.Shape(s.store) && Lock.Inv(s) && Booting(s)
    && (Ready(s) ==> Mirrors(cfg, s))
  }

  // ---- What a due step becomes ----

  lemma DueStep(cfg: Config, s: State, pid: Pid, c: Choice, x: Op)
    requires Runnable(s, pid) && Due(s, x) && x.Subscribe? && !s.conts[pid][0].RebuildSubscriptions?
    ensures Due(Stepped(cfg, s, pid, c), x) || (x == s.conts[pid][0] && !Fails(s, x, c))
  {
    if x !in s.hist.dropped {
      StillInFlight(cfg, s, pid, c, x);
    }
  }

  lemma InTail(cfg: Config, s: State, pid: Pid, c: Choice, x: Op)
    requires Runnable(s, pid) && x in s.conts[pid][1..] && !Fails(s, s.conts[pid][0], c)
    ensures InFlight(Stepped(cfg, s, pid, c), x)
  {
    assert x in Stepped(cfg, s, pid, c).conts[pid];
  }

  lemma RegistrySame(cfg: Config, s: State, pid: Pid, op: Op, c: Choice)
    requires !op.Subscribe? && !op.Unsubscribe? && !op.RebuildSubscriptions?
    ensures MemoryAfter(cfg, s.store, s.mem, pid, op, c).subs == s.mem.subs
  {
  }

  lemma TableSame(st: Store, op: Op, c: Choice)
    requires !op.Close? && !op.RegisterRow?
    ensures StoreAfter(st, op, c).agents == st.agents
  {
  }

  lemma HistorySame(cfg: Config, s: State, op: Op, c: Choice)
    requires !op.Close? && !op.RegisterRow? && !op.RebuildSubscriptions? && !op.Subscribe? && !op.Unsubscribe?
    ensures HistoryAfter(cfg, s, op, c).pruned == s.hist.pruned
    ensures HistoryAfter(cfg, s, op, c).cut == s.hist.cut
    ensures HistoryAfter(cfg, s, op, c).unset == s.hist.unset
    ensures HistoryAfter(cfg, s, op, c).late == s.hist.late
  {
  }

  /** What a failing step leaves alone, and what a step on another matter does. */
  lemma Untouched(cfg: Config, s: State, pid: Pid, c: Choice)
    requires Runnable(s, pid)
    requires var op := s.conts[pid][0];
      || Fails(s, op, c)
      || !(op.Subscribe? || op.Unsubscribe? || op.Close? || op.RegisterRow? || op.RebuildSubscriptions?)
    ensures var s' := Stepped(cfg, s, pid, c);
      && s'.store.agents == s.store.agents && s'.mem.subs == s.mem.subs
      && s'.hist.pruned == s.hist.pruned && s'.hist.unset == s.hist.unset
      && s'.hist.cut == s.hist.cut && s'.hist.late == s.hist.late
  {
    var op := s.conts[pid][0];
    if !Fails(s, op, c) {
      RegistrySame(cfg, s, pid, op, c);
      TableSame(s.store, op, c);
      HistorySame(cfg, s, op, c);
    }
  }

  predicate Touches(op: Op) {
    op.Subscribe? || op.Unsubscribe? || op.Close? || op.RegisterRow?
  }

  lemma RowsMirroredStep(cfg: Config, s: State, pid: Pid, c: Choice)
    requires Mirrors(cfg, s) && Runnable(s, pid) && !s.conts[pid][0].RebuildSubscriptions?
    ensures RowsMirrored(cfg, Stepped(cfg, s, pid, c))
  {
    var s' := Stepped(cfg, s, pid, c);
    var op := s.conts[pid][0];
    forall k | A.IsRunning(s'.store.agents, k) ensures Matches(cfg, s', k) <==> !IsOdd(s', k) {
      if Fails(s, op, c) || !Touches(op) {
        Untouched(cfg, s, pid, c);
      } else {
        RowMirrored(cfg, s, pid, c, k);
      }
    }
  }

  lemma RowMirrored(cfg: Config, s: State, pid: Pid, c: Choice, k: Key)
    requires Mirrors(cfg, s) && Runnable(s, pid)
    requires Touches(s.conts[pid][0]) && !Fails(s, s.conts[pid][0], c)
    requires A.IsRunning(Stepped(cfg, s, pid, c).store.agents, k)
    ensures var s' := Stepped(cfg, s, pid, c); Matches(cfg, s', k) <==> !IsOdd(s', k)
  {
    var cont := s.conts[pid];
    var op := cont[0];
    assert op in cont;
    match op
    case Subscribe(_, _) =>
      assert PastRegister(cont);
      RowSubscribed(cfg, s, pid, c, k);
    case Unsubscribe(_) => RowUnsubscribed(cfg, s, pid, c, k);
    case RegisterRow(_, _) => RowRegistered(cfg, s, pid, c, k);
    case _ => RowClosed(cfg, s, pid, c, k);
  }

  lemma RowSubscribed(cfg: Config, s: State, pid: Pid, c: Choice, k: Key)
    requires RowsMirrored(cfg, s) && Entries(s) && SubscribeFaithful(s) && Runnable(s, pid)
    requires s.conts[pid][0].Subscribe? && PastRegister(s.conts[pid]) && A.IsRunning(s.store.agents, k)
    ensures var s' := Stepped(cfg, s, pid, c); Matches(cfg, s', k) <==> !IsOdd(s', k)
  {
    assert s.conts[pid][0] in s.conts[pid];
    if k != s.conts[pid][0].key { assert Matches(cfg, s, k) <==> !IsOdd(s, k); }
  }

  lemma RowUnsubscribed(cfg: Config, s: State, pid: Pid, c: Choice, k: Key)
    requires RowsMirrored(cfg, s) && Entries(s) && Runnable(s, pid)
    requires s.conts[pid][0].Unsubscribe? && A.IsRunning(s.store.agents, k)
    ensures var s' := Stepped(cfg, s, pid, c); Matches(cfg, s', k) <==> !IsOdd(s', k)
  {
    assert Matches(cfg, s, k) <==> !IsOdd(s, k);
  }

  lemma RowRegistered(cfg: Config, s: State, pid: Pid, c: Choice, k: Key)
    requires RowsMirrored(cfg, s) && Runnable(s, pid) && s.conts[pid][0].RegisterRow? && !Fails(s, s.conts[pid][0], c)
    requires A.IsRunning(Stepped(cfg, s, pid, c).store.agents, k)
    ensures var s' := Stepped(cfg, s, pid, c); Matches(cfg, s', k) <==> !IsOdd(s', k)
  {
    if k != s.conts[pid][0].key { assert Matches(cfg, s, k) <==> !IsOdd(s, k); }
  }

  lemma RowClosed(cfg: Config, s: State, pid: Pid, c: Choice, k: Key)
    requires RowsMirrored(cfg, s) && Runnable(s, pid) && s.conts[pid][0].Close? && !Fails(s, s.conts[pid][0], c)
    requires A.IsRunning(Stepped(cfg, s, pid, c).store.agents, k)
    ensures var s' := Stepped(cfg, s, pid, c); Matches(cfg, s', k) <==> !IsOdd(s', k)
  {
    assert k != s.conts[pid][0].key && A.IsRunning(s.store.agents, k);
    assert Matches(cfg, s, k) <==> !IsOdd(s, k);
  }

  lemma UnsetDueStep(cfg: Config, s: State, pid: Pid, c: Choice)
    requires Mirrors(cfg, s) && Lock.Inv(s) && Runnable(s, pid) && !s.conts[pid][0].RebuildSubscriptions?
    ensures UnsetDue(Stepped(cfg, s, pid, c))
  {
    var s' := Stepped(cfg, s, pid, c);
    forall k | A.IsRunning(s'.store.agents, k) && k in s'.hist.unset
      ensures Due(s', Subscribe(k, s'.store.agents.rows[k].agentType))
    {
      StillDue(cfg, s, pid, c, k);
    }
  }

  lemma StillDue(cfg: Config, s: State, pid: Pid, c: Choice, k: Key)
    requires UnsetDue(s) && Lock.Inv(s) && Runnable(s, pid) && !s.conts[pid][0].RebuildSubscriptions?
    requires var s' := Stepped(cfg, s, pid, c); A.IsRunning(s'.store.agents, k) && k in s'.hist.unset
    ensures var s' := Stepped(cfg, s, pid, c); Due(s', Subscribe(k, s'.store.agents.rows[k].agentType))
  {
    var cont := s.conts[pid];
    var op := cont[0];
    if op.RegisterRow? && op.key == k && !Fails(s, op, c) {
      Lock.RegisteringShape(cont);
      assert cont[2] in cont[1..];
      InTail(cfg, s, pid, c, Subscribe(k, op.agentType));
    } else {
      RowKept(cfg, s, pid, c, k);
      DueStep(cfg, s, pid, c, Subscribe(k, s.store.agents.rows[k].agentType));
    }
  }

  /** An agent that runs after the step and was not registered by it ran before,
      with the same row, and is not newly unset. */
  lemma RowKept(cfg: Config, s: State, pid: Pid, c: Choice, k: Key)
    requires Runnable(s, pid) && !s.conts[pid][0].RebuildSubscriptions?
    requires A.IsRunning(Stepped(cfg, s, pid, c).store.agents, k)
    requires !(s.conts[pid][0].RegisterRow? && s.conts[pid][0].key == k) || Fails(s, s.conts[pid][0], c)
    ensures A.IsRunning(s.store.agents, k) && s.store.agents.rows[k] == Stepped(cfg, s, pid, c).store.agents.rows[k]
    ensures k in Stepped(cfg, s, pid, c).hist.unset ==> k in s.hist.unset
    ensures k in Stepped(cfg, s, pid, c).hist.unset && s.conts[pid][0].Subscribe? && s.conts[pid][0].key == k ==>
      Fails(s, s.conts[pid][0], c)
  {
  }

  lemma EntriesLiveStep(cfg: Config, s: State, pid: Pid, c: Choice)
    requires Mirrors(cfg, s) && Lock.Inv(s) && Runnable(s, pid) && !s.conts[pid][0].RebuildSubscriptions?
    ensures EntriesLive(Stepped(cfg, s, pid, c))
  {
    var s' := Stepped(cfg, s, pid, c);
    forall k | k in s'.mem.subs
      ensures A.IsRunning(s'.store.agents, k) || Unsubscribing(s', k) || k in s'.hist.late
    {
      EntryLive(cfg, s, pid, c, k);
    }
  }

  lemma EntryLive(cfg: Config, s: State, pid: Pid, c: Choice, k: Key)
    requires Mirrors(cfg, s) && Lock.Inv(s) && Runnable(s, pid) && !s.conts[pid][0].RebuildSubscriptions?
    requires k in Stepped(cfg, s, pid, c).mem.subs
    ensures var s' := Stepped(cfg, s, pid, c);
      A.IsRunning(s'.store.agents, k) || Unsubscribing(s', k) || k in s'.hist.late
  {
    var s' := Stepped(cfg, s, pid, c);
    var cont := s.conts[pid];
    var op := cont[0];
    if Unsubscribing(s, k) && op != Unsubscribe(k) {
      var p :| p in s.conts && s.conts[p] != [] && s.conts[p][0] == Unsubscribe(k);
      assert s'.conts[p][0] == Unsubscribe(k);
    } else if Fails(s, op, c) || !Touches(op) {
      Untouched(cfg, s, pid, c);
    } else {
      EntryTouched(cfg, s, pid, c, k);
    }
  }

  lemma EntryTouched(cfg: Config, s: State, pid: Pid, c: Choice, k: Key)
    requires EntriesLive(s) && SweptUnsubscribed(s) && Runnable(s, pid)
    requires var op := s.conts[pid][0]; Touches(op) && !Fails(s, op, c) && (Unsubscribing(s, k) ==> op == Unsubscribe(k))
    requires k in Stepped(cfg, s, pid, c).mem.subs
    ensures var s' := Stepped(cfg, s, pid, c);
      A.IsRunning(s'.store.agents, k) || Unsubscribing(s', k) || k in s'.hist.late
  {
    var op := s.conts[pid][0];
    if op.Close? {
      EntriesNotAdded(cfg, s, pid, c);
      if op.key == k && A.IsRunning(s.store.agents, k) {
        assert !op.swept;
        assert Stepped(cfg, s, pid, c).conts[pid][0] == Unsubscribe(k);
      }
    } else if op.RegisterRow? {
      EntriesNotAdded(cfg, s, pid, c);
    }
  }

  // ---- A sweep unsubscribes before it closes ----

  lemma {:induction false} FewerLive(cont: seq<Op>, live: set<Key>, all: set<Key>, live': set<Key>, all': set<Key>)
    requires SweepsInOrder(cont, live, all) && live' <= live && all' <= all
    ensures SweepsInOrder(cont, live', all')
  {
    if cont != [] {
      match cont[0]
      case EndTry => FewerLive(cont[1..], all, all, all', all');
      case Unsubscribe(k) => FewerLive(cont[1..], live - {k}, all, live' - {k}, all');
      case _ => FewerLive(cont[1..], live, all, live', all');
    }
  }

  lemma {:induction false} NoSweptClose(cont: seq<Op>, live: set<Key>, all: set<Key>)
    requires forall k :: Close(k, true) !in cont
    ensures SweepsInOrder(cont, live, all)
  {
    if cont != [] {
      assert cont[0] in cont;
      forall k ensures Close(k, true) !in cont[1..] { assert Close(k, true) !in cont; }
      NoSweptClose(cont[1..], if cont[0].EndTry? then all else if cont[0].Unsubscribe? then live - {cont[0].key} else live, all);
    }
  }

  /** Steps that are no swept closes go in front of anything. */
  lemma {:induction false} InFront(front: seq<Op>, rest: seq<Op>, live: set<Key>, all: set<Key>)
    requires SweepsInOrder(rest, all, all) && live <= all
    requires forall k :: Close(k, true) !in front
    ensures SweepsInOrder(front + rest, live, all)
  {
    if front == [] {
      assert front + rest == rest;
      FewerLive(rest, all, all, live, all);
    } else {
      assert front[0] in front;
      forall k ensures Close(k, true) !in front[1..] { assert Close(k, true) !in front; }
      assert (front + rest)[1..] == front[1..] + rest;
      InFront(front[1..], rest,
              if front[0].EndTry? then all else if front[0].Unsubscribe? then live - {front[0].key} else live, all);
    }
  }

  lemma {:induction false} SweepInFront(losers: seq<Key>, keep: Key, rest: seq<Op>, live: set<Key>, all: set<Key>)
    requires SweepsInOrder(rest, all, all) && live <= all
    ensures SweepsInOrder(SweepAll(losers, keep) + rest, live, all)
  {
    if losers == [] {
      assert SweepAll(losers, keep) + rest == rest;
      FewerLive(rest, all, all, live, all);
    } else if losers[0] == keep {
      SweepInFront(losers[1..], keep, rest, live, all);
      assert SweepAll(losers, keep) + rest == SweepAll(losers[1..], keep) + rest;
    } else {
      var k := losers[0];
      var tail := SweepAll(losers[1..], keep) + rest;
      SweepInFront(losers[1..], keep, rest, live - {k}, all);
      assert SweepAll(losers, keep) + rest == SweepOne(k) + tail;
      LoserInFront(k, tail, live, all);
    }
  }

  lemma LoserInFront(k: Key, tail: seq<Op>, live: set<Key>, all: set<Key>)
    requires SweepsInOrder(tail, live - {k}, all)
    ensures SweepsInOrder(SweepOne(k) + tail, live, all)
  {
    var close := [Close(k, true)] + tail;
    assert close[1..] == tail;
    var direct := [Enqueue(k, OriginSupersede, SUPERSEDED_DIRECTIVE)] + close;
    assert direct[1..] == close;
    assert (SweepOne(k) + tail)[1..] == direct;
  }

  lemma {:induction false} EnqueueBehind(cont: seq<Op>, op: Op, live: set<Key>, all: set<Key>)
    requires SweepsInOrder(cont, live, all) && op.Enqueue?
    ensures SweepsInOrder(cont + [op], live, all)
  {
    if cont == [] {
      assert (cont + [op])[1..] == [];
    } else {
      assert (cont + [op])[1..] == cont[1..] + [op];
      EnqueueBehind(cont[1..], op,
                    if cont[0].EndTry? then all else if cont[0].Unsubscribe? then live - {cont[0].key} else live, all);
    }
  }

  lemma {:induction false} UnwindInOrder(cont: seq<Op>, live: set<Key>, all: set<Key>)
    requires SweepsInOrder(cont, live, all)
    ensures SweepsInOrder(Unwind(cont), all, all)
  {
    if cont != [] && !cont[0].EndTry? {
      UnwindInOrder(cont[1..], if cont[0].Unsubscribe? then live - {cont[0].key} else live, all);
      assert ([cont[0]] + Unwind(cont[1..]))[1..] == Unwind(cont[1..]);
    }
  }

  lemma FrontClosesNoLoser(cfg: Config, s: State, op: Op, c: Choice)
    requires !op.Sweep?
    ensures forall k :: Close(k, true) !in Front(cfg, s, op, c)
  {
    match op
    case Tee(e) => SteeringMail.TeeAllOps(c.order, if e.body.Domain? then e.body.payload else "");
    case Reconcile => SteeringMail.RelayAllOps(c.order);
    case _ =>
  }

  lemma OwnStepInOrder(cfg: Config, s: State, pid: Pid, c: Choice)
    requires SweptUnsubscribed(s) && Runnable(s, pid) && !s.conts[pid][0].Subscribe? && !s.conts[pid][0].RebuildSubscriptions?
    ensures var s' := Stepped(cfg, s, pid, c); SweepsInOrder(s'.conts[pid], s'.mem.subs.Keys, s'.mem.subs.Keys)
  {
    var s' := Stepped(cfg, s, pid, c);
    var cont := s.conts[pid];
    var op, rest := cont[0], cont[1..];
    var all, all' := s.mem.subs.Keys, s'.mem.subs.Keys;
    if Fails(s, op, c) {
      UnwindInOrder(cont, all, all);
    } else {
      if op.Unsubscribe? {
        assert all' == all - {op.key};
        FewerLive(rest, all - {op.key}, all, all', all');
      } else {
        RegistrySame(cfg, s, pid, op, c);
      }
      var front, greeting := Front(cfg, s, op, c), Greeting(cfg, s.store, op);
      if op.Sweep? {
        SweepInFront(A.RunningOfType(s.store.agents, s.store.agents.order, op.key.subject, op.agentType), op.key, rest, all', all');
      } else {
        FrontClosesNoLoser(cfg, s, op, c);
        InFront(front, rest, all', all');
      }
      if greeting == [] {
        assert front + rest + greeting == front + rest;
      } else {
        EnqueueBehind(front + rest, greeting[0], all', all');
        assert front + rest + greeting == front + rest + [greeting[0]];
      }
    }
  }

  lemma SweptUnsubscribedStep(cfg: Config, s: State, pid: Pid, c: Choice)
    requires Mirrors(cfg, s) && Lock.Inv(s) && Runnable(s, pid) && !s.conts[pid][0].RebuildSubscriptions?
    ensures SweptUnsubscribed(Stepped(cfg, s, pid, c))
  {
    var s' := Stepped(cfg, s, pid, c);
    var op := s.conts[pid][0];
    forall p | p in s'.conts ensures SweepsInOrder(s'.conts[p], s'.mem.subs.Keys, s'.mem.subs.Keys) {
      if op.Subscribe? {
        NoSweepWhileSubscribing(cfg, s, pid, c, p);
        NoSweptClose(s'.conts[p], s'.mem.subs.Keys, s'.mem.subs.Keys);
      } else if p == pid {
        OwnStepInOrder(cfg, s, pid, c);
      } else {
        if !op.Unsubscribe? || Fails(s, op, c) { EntriesNotAdded(cfg, s, pid, c); }
        FewerLive(s.conts[p], s.mem.subs.Keys, s.mem.subs.Keys, s'.mem.subs.Keys, s'.mem.subs.Keys);
      }
    }
  }

  lemma EntriesNotAdded(cfg: Config, s: State, pid: Pid, c: Choice)
    requires Runnable(s, pid)
    requires var op := s.conts[pid][0]; Fails(s, op, c) || !(op.Subscribe? || op.Unsubscribe? || op.RebuildSubscriptions?)
    ensures Stepped(cfg, s, pid, c).mem.subs == s.mem.subs
  {
    var op := s.conts[pid][0];
    if !Fails(s, op, c) { RegistrySame(cfg, s, pid, op, c); }
  }

  lemma NoSweepWhileSubscribing(cfg: Config, s: State, pid: Pid, c: Choice, p: Pid)
    requires Lock.Inv(s) && Runnable(s, pid) && s.conts[pid][0].Subscribe? && p in s.conts
    ensures forall k :: Close(k, true) !in Stepped(cfg, s, pid, c).conts[p]
  {
    var s' := Stepped(cfg, s, pid, c);
    var op := s.conts[pid][0];
    forall k ensures Close(k, true) !in s'.conts[p] {
      SweepExcludesSubscribe(s, p, k, pid);
      FrontClosesNoLoser(cfg, s, op, c);
      if p == pid { assert s'.conts[p] == Front(cfg, s, op, c) + s.conts[p][1..] + Greeting(cfg, s.store, op); }
    }
  }

  /** While a registration is subscribing, no sweep has an agent to close. */
  lemma SweepExcludesSubscribe(s: State, p: Pid, k: Key, pid: Pid)
    requires Lock.Inv(s) && Runnable(s, pid) && s.conts[pid][0].Subscribe? && p in s.conts
    ensures Close(k, true) !in s.conts[p]
  {
    var cont := s.conts[p];
    assert s.conts[pid][0] in s.conts[pid];
    if cont == [] {
    } else if cont[0].LockRegister? {
      Lock.WaitingShape(cont);
      assert cont == [cont[0], cont[1], cont[2], cont[3], cont[4]];
    } else if p == pid {
      Lock.UnlockNext(cont);
      assert cont == [cont[0]] + cont[1..];
    } else if Close(k, true) in cont {
      Lock.SectionsExclude(s, p, Close(k, true), pid, s.conts[pid][0]);
    }
  }

  lemma SubscribeFaithfulStep(cfg: Config, s: State, pid: Pid, c: Choice)
    requires Mirrors(cfg, s) && Lock.Inv(s) && Runnable(s, pid) && !s.conts[pid][0].RebuildSubscriptions?
    ensures SubscribeFaithful(Stepped(cfg, s, pid, c))
  {
    var s' := Stepped(cfg, s, pid, c);
    forall p, k, t | p in s'.conts && Subscribe(k, t) in s'.conts[p] && PastRegister(s'.conts[p])
      ensures k in s'.store.agents.rows && s'.store.agents.rows[k].agentType == t
        && k !in s'.hist.pruned
    {
      StillFaithful(cfg, s, pid, c, p, k, t);
    }
  }

  lemma SubscribeNotPushed(cfg: Config, s: State, op: Op, c: Choice)
    ensures forall o :: o in Front(cfg, s, op, c) ==> !o.Subscribe?
  {
    match op
    case Tee(e) => SteeringMail.TeeAllOps(c.order, if e.body.Domain? then e.body.payload else "");
    case Sweep(k, t) => SteeringMail.SweepAllOps(A.RunningOfType(s.store.agents, s.store.agents.order, k.subject, t), k);
    case Reconcile => SteeringMail.RelayAllOps(c.order);
    case _ =>
  }

  lemma {:induction false} UnwindKeepsNoSectionAlone(cont: seq<Op>, op: Op)
    requires Lock.Sectioned(cont) && cont != [] && Lock.IsSection(cont[0]) && !IsDeferred(op)
    ensures op !in Unwind(cont)
  {
    Lock.UnwindWithoutTry(cont[1..], op);
  }

  lemma StillFaithful(cfg: Config, s: State, pid: Pid, c: Choice, p: Pid, k: Key, t: string)
    requires Mirrors(cfg, s) && Lock.Inv(s) && Runnable(s, pid) && !s.conts[pid][0].RebuildSubscriptions?
    requires p in s.conts && Subscribe(k, t) in Stepped(cfg, s, pid, c).conts[p] && PastRegister(Stepped(cfg, s, pid, c).conts[p])
    ensures var s' := Stepped(cfg, s, pid, c);
      && k in s'.store.agents.rows && s'.store.agents.rows[k].agentType == t
      && k !in s'.hist.pruned
  {
    if p == pid && s.conts[pid][0].RegisterRow? {
      FaithfulFromRow(cfg, s, pid, c, k, t);
    } else {
      if p == pid { SubscribeStays(cfg, s, pid, c, k, t); }
      FaithfulRowKept(cfg, s, pid, c, p, k, t);
    }
  }

  /** A registration that inserts its row now. */
  lemma FaithfulFromRow(cfg: Config, s: State, pid: Pid, c: Choice, k: Key, t: string)
    requires Lock.Inv(s) && Runnable(s, pid) && s.conts[pid][0].RegisterRow?
    requires Subscribe(k, t) in Stepped(cfg, s, pid, c).conts[pid]
    ensures var s' := Stepped(cfg, s, pid, c);
      && k in s'.store.agents.rows && s'.store.agents.rows[k].agentType == t
      && k !in s'.hist.pruned
  {
    var cont := s.conts[pid];
    assert cont[0] in cont;
    Lock.RegisteringShape(cont);
    RowInserted(cfg, s, pid, c, k, t);
    assert cont[1..] == [cont[1], cont[2], cont[3]];
    assert Subscribe(k, t) !in Greeting(cfg, s.store, cont[0]);
    assert Subscribe(k, t) in cont[1..];
  }

  lemma RowInserted(cfg: Config, s: State, pid: Pid, c: Choice, k: Key, t: string)
    requires Lock.Inv(s) && Runnable(s, pid) && s.conts[pid][0].RegisterRow?
    requires Subscribe(k, t) in Stepped(cfg, s, pid, c).conts[pid]
    ensures !Fails(s, s.conts[pid][0], c)
  {
    assert s.conts[pid][0] in s.conts[pid];
    UnwindKeepsNoSectionAlone(s.conts[pid], Subscribe(k, t));
  }

  /** Any other step leaves the Subscribe where it was. */
  lemma SubscribeStays(cfg: Config, s: State, pid: Pid, c: Choice, k: Key, t: string)
    requires Lock.Inv(s) && Runnable(s, pid) && !s.conts[pid][0].RegisterRow?
    requires Subscribe(k, t) in Stepped(cfg, s, pid, c).conts[pid] && PastRegister(Stepped(cfg, s, pid, c).conts[pid])
    ensures Subscribe(k, t) in s.conts[pid] && PastRegister(s.conts[pid])
  {
    var cont := s.conts[pid];
    var op := cont[0];
    assert op in cont;
    if Fails(s, op, c) {
      UnwindIsPart(cont, Subscribe(k, t));
    } else {
      SubscribeNotPushed(cfg, s, op, c);
    }
    if op.LockRegister? { Lock.WaitingShape(cont); }
  }

  lemma FaithfulRowKept(cfg: Config, s: State, pid: Pid, c: Choice, p: Pid, k: Key, t: string)
    requires Mirrors(cfg, s) && Lock.Inv(s) && Runnable(s, pid) && !s.conts[pid][0].RebuildSubscriptions?
    requires p in s.conts && Subscribe(k, t) in s.conts[p] && PastRegister(s.conts[p])
    requires !(p == pid && s.conts[pid][0].RegisterRow?)
    ensures var s' := Stepped(cfg, s, pid, c);
      && k in s'.store.agents.rows && s'.store.agents.rows[k].agentType == t
      && k !in s'.hist.pruned
  {
    var op := s.conts[pid][0];
    assert op in s.conts[pid];
    assert InFlight(s, Subscribe(k, t));
    if op.RegisterRow? {
      Lock.SectionsExclude(s, p, Subscribe(k, t), pid, op);
    }
  }

  lemma EntriesStep(cfg: Config, s: State, pid: Pid, c: Choice)
    requires Mirrors(cfg, s) && Runnable(s, pid) && !s.conts[pid][0].RebuildSubscriptions?
    ensures Entries(Stepped(cfg, s, pid, c))
  {
    var op := s.conts[pid][0];
    assert op in s.conts[pid];
    if Fails(s, op, c) || !Touches(op) {
      Untouched(cfg, s, pid, c);
    } else if op.Subscribe? {
      assert PastRegister(s.conts[pid]);
    }
  }

  // ---- Boot establishes it ----

  lemma RebuildEstablishes(cfg: Config, s: State, c: Choice)
    requires SteeringMail.Shape(s.store) && Booting(s) && !s.mem.serving
    requires Runnable(s, 0) && s.conts[0] == [RebuildSubscriptions, Serve] && !Fails(s, RebuildSubscriptions, c)
    ensures Mirrors(cfg, Stepped(cfg, s, 0, c))
  {
    var s' := Stepped(cfg, s, 0, c);
    var t := s.store.agents;
    assert s'.conts.Keys == {0} && s'.conts[0] == [Serve];
    forall k ensures k in s'.mem.subs ==> A.IsRunning(t, k)
             ensures A.IsRunning(t, k) ==> (Matches(cfg, s', k) <==> k !in s'.hist.pruned)
    {
      RebuiltEntry(cfg, t, k);
    }
    assert forall p, o :: p in s'.conts && o in s'.conts[p] ==> o == Serve;
  }

  predicate RebuiltDeserves(cfg: Config, t: A.Table, k: Key) {
    RunningInTable(t, t.order);
    S.Deserves(cfg.subscribe, cfg.singleton, t, A.RunningKeys(t, t.order), k)
  }

  lemma RebuiltEntry(cfg: Config, t: A.Table, k: Key)
    requires A.WellOrdered(t)
    ensures k in Rebuilt(cfg, t) <==> RebuiltDeserves(cfg, t, k)
    ensures k in Rebuilt(cfg, t) ==>
      A.IsRunning(t, k) && Rebuilt(cfg, t)[k] == cfg.subscribe(t.rows[k].agentType) && Rebuilt(cfg, t)[k] != {}
  {
    var keys := A.RunningKeys(t, t.order);
    RunningInTable(t, t.order);
    RunningDistinct(t, t.order);
    S.RebuiltMeaning(cfg.subscribe, cfg.singleton, t, keys, k);
    A.RunningKeysMember(t, t.order, k);
  }

  lemma {:induction false} RunningDistinct(t: A.Table, keys: seq<Key>)
    requires Distinct(keys)
    ensures Distinct(A.RunningKeys(t, keys))
  {
    if keys != [] {
      var n := |keys| - 1;
      RunningDistinct(t, keys[..n]);
      var early := A.RunningKeys(t, keys[..n]);
      A.RunningKeysMember(t, keys[..n], keys[n]);
      assert forall i :: 0 <= i < |early| ==> early[i] in early;
    }
  }

  // ---- Runs ----

  lemma StepKeepsMirrors(cfg: Config, s: State, pid: Pid, c: Choice)
    requires Mirrors(cfg, s) && Lock.Inv(s) && Runnable(s, pid) && !s.conts[pid][0].RebuildSubscriptions?
    ensures Mirrors(cfg, Stepped(cfg, s, pid, c))
  {
    RowsMirroredStep(cfg, s, pid, c);
    EntriesLiveStep(cfg, s, pid, c);
    SweptUnsubscribedStep(cfg, s, pid, c);
    SubscribeFaithfulStep(cfg, s, pid, c);
    EntriesStep(cfg, s, pid, c);
    UnsetDueStep(cfg, s, pid, c);
  }

  lemma ReadyNoRebuild(s: State, pid: Pid)
    requires Booting(s) && Ready(s) && Runnable(s, pid)
    ensures !s.conts[pid][0].RebuildSubscriptions?
  {
    assert s.conts[pid][0] in s.conts[pid];
  }

  lemma StepKeepsInv(cfg: Config, s: State, pid: Pid, c: Choice)
    requires Inv(cfg, s) && Runnable(s, pid) && Enabled(s, pid, c)
    ensures Inv(cfg, Stepped(cfg, s, pid, c))
  {
    var s' := Stepped(cfg, s, pid, c);
    SteeringMail.ShapeAfter(s.store, s.conts[pid][0], c);
    Lock.StepKeepsInv(cfg, s, pid, c);
    BootingStep(cfg, s, pid, c);
    if Ready(s) {
      ReadyNoRebuild(s, pid);
      StepKeepsMirrors(cfg, s, pid, c);
    } else if Ready(s') {
      assert pid == 0;
      if Fails(s, RebuildSubscriptions, c) { BootFails(cfg, s, c); }
      RebuildEstablishes(cfg, s, c);
    }
  }

  lemma ProgramPlain(call: Call)
    ensures forall o :: o in Program(call) ==> !o.Unsubscribe? && !o.Close? && !o.RebuildSubscriptions? && !o.Serve?
    ensures Program(call) != []
    ensures PastRegister(Program(call)) ==> forall o :: o in Program(call) ==> !o.Subscribe?
  {
  }

  lemma SpawnKeepsMirrors(cfg: Config, s: State, pid: Pid, call: Call)
    requires Mirrors(cfg, s) && CanSpawn(s, pid, call)
    ensures Mirrors(cfg, Spawned(s, pid, call))
  {
    var s' := Spawned(s, pid, call);
    ProgramPlain(call);
    forall x | Due(s, x) ensures Due(s', x) {
      if InFlight(s, x) { SpawnKeeps(s, pid, call, x); }
    }
    forall k | A.IsRunning(s'.store.agents, k) ensures Matches(cfg, s', k) <==> !IsOdd(s', k) {
      assert Matches(cfg, s, k) <==> Matches(cfg, s', k);
    }
    NoSweptClose(Program(call), s.mem.subs.Keys, s.mem.subs.Keys);
    forall k | k in s'.mem.subs && Unsubscribing(s, k) ensures Unsubscribing(s', k) {
      var p :| p in s.conts && s.conts[p] != [] && s.conts[p][0] == Unsubscribe(k);
      assert s'.conts[p][0] == Unsubscribe(k);
    }
    forall p, k, t | p in s'.conts && Subscribe(k, t) in s'.conts[p] && PastRegister(s'.conts[p])
      ensures p in s.conts && s.conts[p] == s'.conts[p]
    {
      assert p != pid;
    }
  }

  lemma SpawnKeepsInv(cfg: Config, s: State, pid: Pid, call: Call)
    requires Inv(cfg, s) && CanSpawn(s, pid, call)
    ensures Inv(cfg, Spawned(s, pid, call))
  {
    Lock.SpawnKeepsInv(s, pid, call);
    SpawnKeepsMirrors(cfg, s, pid, call);
    ProgramPlain(call);
    var s' := Spawned(s, pid, call);
    forall p, o | p in s'.conts && o in s'.conts[p] ensures !o.RebuildSubscriptions? && !o.Serve? {
      if p != pid { assert o in s.conts[p]; }
    }
  }

  lemma BootInv(cfg: Config, s: State)
    requires SteeringMail.Shape(s.store) && s.conts == map[0 := BOOT] && !s.mem.serving
    ensures Inv(cfg, s)
  {
    Lock.BootInv(s);
    assert BootShape(BOOT);
    assert BOOT[0] != Serve;
  }

  lemma InvNext(cfg: Config, s: State, s': State)
    requires Inv(cfg, s) && Next(cfg, s, s')
    ensures Inv(cfg, s')
  {
    if pid: Pid, c: Choice :| Runnable(s, pid) && Enabled(s, pid, c) && s' == Stepped(cfg, s, pid, c) {
      StepKeepsInv(cfg, s, pid, c);
    } else if pid: Pid, call: Call :| CanSpawn(s, pid, call) && s' == Spawned(s, pid, call) {
      SpawnKeepsInv(cfg, s, pid, call);
    } else {
      BootInv(cfg, s');
    }
  }

  lemma {:induction false} InvHolds(cfg: Config, run: seq<State>, i: nat)
    requires IsRun(cfg, run) && i < |run|
    ensures Inv(cfg, run[i])
  {
    if i == 0 {
      SteeringMail.InvInit();
      BootInv(cfg, run[0]);
    } else {
      InvHolds(cfg, run, i - 1);
      assert Next(cfg, run[i - 1], run[i - 1 + 1]);
      InvNext(cfg, run[i - 1], run[i]);
    }
  }

  // ---- The theorems ----

  /** Nothing is in flight. */
  ghost predicate AtRest(s: State) {
    s.mem.serving && forall p :: p in s.conts ==> s.conts[p] == []
  }

  /** At most one running agent per subscribed (subject, agent type). */
  ghost predicate OnePerGroup(cfg: Config, t: A.Table) {
    forall j, k :: (A.IsRunning(t, j) && A.IsRunning(t, k) && S.GroupOf(t, j) == S.GroupOf(t, k)
                    && cfg.subscribe(t.rows[k].agentType) != {}) ==> j == k
  }

  lemma LoneAgentDeserves(cfg: Config, t: A.Table, k: Key)
    requires A.WellOrdered(t) && (cfg.singleton ==> OnePerGroup(cfg, t))
    ensures RebuiltDeserves(cfg, t, k) <==> A.IsRunning(t, k) && cfg.subscribe(t.rows[k].agentType) != {}
  {
    var keys := A.RunningKeys(t, t.order);
    RunningInTable(t, t.order);
    A.RunningKeysMember(t, t.order, k);
    if k in keys {
      S.LastOfGroupBelongs(t, keys, S.GroupOf(t, k));
      var last := S.LastOfGroup(t, keys, S.GroupOf(t, k));
      if last.Some? {
        A.RunningKeysMember(t, t.order, last.value);
      }
    }
  }

  /** No agent runs that the last boot pruned, that lost its subscription when it
      registered over another entry, or that a stop's or a sweep's removal cut
      off; and every agent that was subscribed only after it had been closed is
      running again. */
  predicate NoOddOnes(s: State) {
    && (forall k | k in s.hist.pruned :: !A.IsRunning(s.store.agents, k))
    && (forall k | k in s.hist.unset :: !A.IsRunning(s.store.agents, k))
    && (forall k | k in s.hist.cut :: !A.IsRunning(s.store.agents, k))
    && (forall k | k in s.hist.late :: A.IsRunning(s.store.agents, k))
  }

  /** Restart transparency: from rest and, with the singleton knob on, with at most
      one running agent per group, the registry a restart derives from the rows
      equals the one lost, if and only if there are no odd ones. */
  lemma RestartTransparent(cfg: Config, run: seq<State>, i: nat)
    requires IsRun(cfg, run) && i < |run| && AtRest(run[i])
    requires cfg.singleton ==> OnePerGroup(cfg, run[i].store.agents)
    ensures run[i].mem.subs == Rebuilt(cfg, run[i].store.agents) <==> NoOddOnes(run[i])
  {
    InvHolds(cfg, run, i);
    var s := run[i];
    var rebuilt := Rebuilt(cfg, s.store.agents);
    forall k
      ensures Fits(rebuilt, k, if A.IsRunning(s.store.agents, k) then Asked(cfg, s.store.agents, k) else {})
      ensures A.IsRunning(s.store.agents, k) ==> (Matches(cfg, s, k) <==> !IsOdd(s, k))
      ensures !A.IsRunning(s.store.agents, k) ==> (k in s.mem.subs <==> k in s.hist.late)
    {
      RebuiltEntry(cfg, s.store.agents, k);
      LoneAgentDeserves(cfg, s.store.agents, k);
      assert !Unsubscribing(s, k);
    }
    if NoOddOnes(s) {
      assert s.mem.subs.Keys == rebuilt.Keys;
      assert forall k :: k in s.mem.subs ==> s.mem.subs[k] == rebuilt[k];
    } else if k :| IsOdd(s, k) && A.IsRunning(s.store.agents, k) {
      assert !Fits(s.mem.subs, k, Asked(cfg, s.store.agents, k));
    } else {
      var k :| k in s.hist.late && !A.IsRunning(s.store.agents, k);
      assert k !in rebuilt && k in s.mem.subs;
    }
  }

  /** At rest, what is unset was lost to an error. */
  lemma UnsetWasLost(cfg: Config, run: seq<State>, i: nat, k: Key)
    requires IsRun(cfg, run) && i < |run| && AtRest(run[i])
    requires k in run[i].hist.unset && A.IsRunning(run[i].store.agents, k)
    ensures Subscribe(k, run[i].store.agents.rows[k].agentType) in run[i].hist.dropped
  {
    InvHolds(cfg, run, i);
  }

  /** What a boot leaves, whatever state the crash interrupted: exactly the
      running agents that their type subscribes and, with the singleton knob on,
      of each (subject, type) only the last inserted. */
  lemma BootKeepsLastOfEachGroup(cfg: Config, run: seq<State>, i: nat, c: Choice, k: Key)
    requires IsRun(cfg, run) && i < |run| && Runnable(run[i], 0) && Enabled(run[i], 0, c)
    requires run[i].conts[0][0].RebuildSubscriptions? && !Fails(run[i], RebuildSubscriptions, c)
    ensures var t := run[i].store.agents;
      var s' := Stepped(cfg, run[i], 0, c);
      && (k in s'.mem.subs <==>
            && A.IsRunning(t, k)
            && cfg.subscribe(t.rows[k].agentType) != {}
            && (cfg.singleton ==> IsLastRunning(t, k)))
      && (k in s'.mem.subs ==> s'.mem.subs[k] == cfg.subscribe(t.rows[k].agentType))
  {
    InvHolds(cfg, run, i);
    var t := run[i].store.agents;
    RebuiltEntry(cfg, t, k);
    A.RunningKeysMember(t, t.order, k);
    RunningInTable(t, t.order);
    if A.IsRunning(t, k) {
      LastMeansLast(t, t.order, k);
    }
  }

  /** No running agent of k's group was inserted after k. */
  ghost predicate IsLastRunning(t: A.Table, k: Key)
    requires k in t.rows
  {
    forall i, j :: 0 <= i < j < |t.order| && t.order[i] == k && A.IsRunning(t, t.order[j])
      ==> S.GroupOf(t, t.order[j]) != S.GroupOf(t, k)
  }

  lemma {:induction false} LastMeansLast(t: A.Table, keys: seq<Key>, k: Key)
    requires Distinct(keys) && k in keys && A.IsRunning(t, k)
    ensures forall j :: j in A.RunningKeys(t, keys) ==> j in t.rows
    ensures S.LastOfGroup(t, A.RunningKeys(t, keys), S.GroupOf(t, k)) == Some(k) <==>
      forall i, j :: 0 <= i < j < |keys| && keys[i] == k && A.IsRunning(t, keys[j])
        ==> S.GroupOf(t, keys[j]) != S.GroupOf(t, k)
  {
    RunningInTable(t, keys);
    var n := |keys| - 1;
    var init, last := keys[..n], keys[n];
    var g := S.GroupOf(t, k);
    var running := A.RunningKeys(t, keys);
    RunningInTable(t, init);
    if A.IsRunning(t, last) {
      assert running[..|running| - 1] == A.RunningKeys(t, init);
    }
    if last == k {
      assert forall i :: 0 <= i < n ==> keys[i] != k;
    } else {
      var at :| 0 <= at < |keys| && keys[at] == k;
      assert init[at] == k;
      LastMeansLast(t, init, k);
      if A.IsRunning(t, last) && S.GroupOf(t, last) == g {
        assert keys[at] == k && A.IsRunning(t, keys[n]);
      } else {
        if !A.IsRunning(t, last) { assert running == A.RunningKeys(t, init); }
        assert forall i :: 0 <= i < n ==> init[i] == keys[i];
      }
    }
  }
}
