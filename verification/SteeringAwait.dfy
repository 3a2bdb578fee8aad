/** No lost wakeup: an await that sleeps on its release channel is never asleep
    on a directive whose Direct has already passed its release, however many
    later awaits displace it (daemon/parks.go, handleAgentAwait). */
module SteeringAwait {
  import opened Records
  import opened Steering
  import D = Directives
  import SteeringMail
  import Releases = SteeringReleases

  /** A step of the await that owns the channel, taken before it gets a reply. */
  predicate IsListenOp(op: Op) {
    op.Await? || (op.Drain? && op.via.AwaitFirst?)
  }

  predicate HasChan(op: Op) {
    IsListenOp(op) || op.ParkDone?
  }

  function ChanOf(op: Op): Chan
    requires HasChan(op)
  {
    match op
    case Await(_, ch) => ch
    case Drain(_, via) => via.chan
    case ParkDone(_, ch) => ch
  }

  /** A registered await is about to make its first drain, or asleep. */
  predicate Listening(cont: seq<Op>, k: Key, ch: Chan) {
    cont == [Drain(k, AwaitFirst(ch)), ParkDone(k, ch)] || cont == [Await(k, ch), ParkDone(k, ch)]
  }

  predicate Asleep(s: State, p: Pid, k: Key, ch: Chan) {
    p in s.conts && s.conts[p] == [Await(k, ch), ParkDone(k, ch)]
  }

  ghost predicate ChannelsOwned(s: State) {
    && (forall p, op :: p in s.conts && op in s.conts[p] && op.Park? ==> s.conts[p] == [op])
    && (forall p, op :: p in s.conts && op in s.conts[p] && IsListenOp(op) ==> Listening(s.conts[p], op.key, ChanOf(op)))
    && (forall p, op :: p in s.conts && op in s.conts[p] && HasChan(op) ==> ChanOf(op) < s.mem.nextChan)
    && (forall k :: k in s.mem.waiters ==> s.mem.waiters[k] < s.mem.nextChan)
    && (forall p, q, a, b :: (p in s.conts && q in s.conts && a in s.conts[p] && b in s.conts[q]
                              && HasChan(a) && HasChan(b) && ChanOf(a) == ChanOf(b)) ==> p == q)
  }

  /** An await is still the registered waiter or has been signalled. */
  ghost predicate Reachable(s: State) {
    forall p, k, ch :: p in s.conts && Listening(s.conts[p], k, ch)
      ==> ch in s.mem.signalled || Registered(s.mem, k, ch)
  }

  /** The Direct that enqueued `d` has not reached its release, or failed before it. */
  ghost predicate ReleasePending(s: State, d: Directive) {
    InFlight(s, Release(d.key, d.id)) || Release(d.key, d.id) in s.hist.dropped
  }

  ghost predicate NoLostWakeup(s: State) {
    forall p, k, ch, d :: (Asleep(s, p, k, ch) && ch !in s.mem.signalled
                           && d in s.store.directives && D.IsPending(d, k)) ==> ReleasePending(s, d)
  }

  ghost predicate Inv(s: State) {
    ChannelsOwned(s) && Reachable(s) && NoLostWakeup(s)
  }

  // ---- One step ----

  /** Channels come from Park alone; a first drain hands its own on. */
  lemma FrontChannels(cfg: Config, s: State, op: Op, c: Choice)
    ensures forall o :: o in Front(cfg, s, op, c) && HasChan(o) ==>
      (op.Park? && ChanOf(o) == s.mem.nextChan) || (IsListenOp(op) && ChanOf(o) == ChanOf(op))
  {
    if !op.Park? && !op.Drain? { FrontNoChannels(cfg, s, op, c); }
  }

  lemma FrontNoChannels(cfg: Config, s: State, op: Op, c: Choice)
    requires !op.Park? && !op.Drain?
    ensures forall o :: o in Front(cfg, s, op, c) ==> !HasChan(o)
  {
    match op
    case Tee(e) => SteeringMail.TeeAllOps(c.order, if e.body.Domain? then e.body.payload else "");
    case Sweep(k, t) => SteeringMail.SweepAllOps(SteeringMail.A.RunningOfType(s.store.agents, s.store.agents.order, k.subject, t), k);
    case Reconcile => SteeringMail.RelayAllOps(c.order);
    case _ =>
  }

  /** Every channel op after a step was there before it, or is the fresh one. */
  lemma ChannelsAfter(cfg: Config, s: State, pid: Pid, c: Choice, o: Op)
    requires Runnable(s, pid) && HasChan(o) && o in Stepped(cfg, s, pid, c).conts[pid]
    ensures (s.conts[pid][0].Park? && !Fails(s, s.conts[pid][0], c) && ChanOf(o) == s.mem.nextChan)
         || (exists a :: a in s.conts[pid] && HasChan(a) && ChanOf(a) == ChanOf(o))
  {
    var cont := s.conts[pid];
    assert cont[0] in cont;
    if Fails(s, cont[0], c) {
      UnwindIsPart(cont, o);
    } else {
      FrontChannels(cfg, s, cont[0], c);
      if o in Front(cfg, s, cont[0], c) {
      } else {
        assert o in cont[1..];
        assert o in cont;
      }
    }
  }

  lemma FrontNeverParks(cfg: Config, s: State, op: Op, c: Choice)
    ensures forall o :: o in Front(cfg, s, op, c) ==> !o.Park?
  {
    match op
    case Tee(e) => SteeringMail.TeeAllOps(c.order, if e.body.Domain? then e.body.payload else "");
    case Sweep(k, t) => SteeringMail.SweepAllOps(SteeringMail.A.RunningOfType(s.store.agents, s.store.agents.order, k.subject, t), k);
    case Reconcile => SteeringMail.RelayAllOps(c.order);
    case _ =>
  }

  /** Only the head of a call can be a Park or a listening step. */
  lemma TailIsPlain(s: State, pid: Pid)
    requires ChannelsOwned(s) && Runnable(s, pid)
    ensures forall o :: o in s.conts[pid][1..] ==> !o.Park? && !IsListenOp(o)
  {
    var cont := s.conts[pid];
    forall o | o in cont[1..] ensures !o.Park? && !IsListenOp(o) {
      assert o in cont;
    }
  }

  /** What follows a step of `pid`: the steps it pushed, then plain ones. */
  lemma AfterStep(cfg: Config, s: State, pid: Pid, c: Choice, o: Op)
    requires ChannelsOwned(s) && Runnable(s, pid) && o in Stepped(cfg, s, pid, c).conts[pid]
    ensures !o.Park?
    ensures IsListenOp(o) ==> !Fails(s, s.conts[pid][0], c) && o in Front(cfg, s, s.conts[pid][0], c)
  {
    var cont := s.conts[pid];
    TailIsPlain(s, pid);
    if Fails(s, cont[0], c) {
      UnwindTail(cont, o);
    } else {
      FrontNeverParks(cfg, s, cont[0], c);
      assert o in Front(cfg, s, cont[0], c) || o in cont[1..] || o in Greeting(cfg, s.store, cont[0]);
    }
  }

  /** A listening step after a step of `pid` was scheduled by a Park or by the
      first drain. */
  lemma ListenSource(cfg: Config, s: State, pid: Pid, c: Choice, o: Op)
    requires ChannelsOwned(s) && Runnable(s, pid) && IsListenOp(o) && o in Stepped(cfg, s, pid, c).conts[pid]
    ensures !Fails(s, s.conts[pid][0], c)
    ensures s.conts[pid][0].Park? || (s.conts[pid][0].Drain? && s.conts[pid][0].via.AwaitFirst?)
  {
    AfterStep(cfg, s, pid, c, o);
    FrontListens(cfg, s, s.conts[pid][0], c, o);
  }

  lemma FrontListens(cfg: Config, s: State, op: Op, c: Choice, o: Op)
    requires IsListenOp(o) && o in Front(cfg, s, op, c)
    ensures op.Park? || (op.Drain? && op.via.AwaitFirst?)
  {
    if !op.Park? && !op.Drain? { FrontNoChannels(cfg, s, op, c); }
  }

  lemma ParkListens(cfg: Config, s: State, pid: Pid, c: Choice)
    requires ChannelsOwned(s) && Runnable(s, pid) && s.conts[pid][0].Park?
    ensures Stepped(cfg, s, pid, c).conts[pid]
         == [Drain(s.conts[pid][0].key, AwaitFirst(s.mem.nextChan)), ParkDone(s.conts[pid][0].key, s.mem.nextChan)]
  {
    assert s.conts[pid][0] in s.conts[pid];
    assert s.conts[pid] == [s.conts[pid][0]];
  }

  lemma FirstDrainListens(cfg: Config, s: State, pid: Pid, c: Choice, o: Op)
    requires ChannelsOwned(s) && Runnable(s, pid) && s.conts[pid][0].Drain? && s.conts[pid][0].via.AwaitFirst?
    requires !Fails(s, s.conts[pid][0], c) && IsListenOp(o) && o in Stepped(cfg, s, pid, c).conts[pid]
    ensures var k, ch := s.conts[pid][0].key, s.conts[pid][0].via.chan;
      Listening(s.conts[pid], k, ch) && Stepped(cfg, s, pid, c).conts[pid] == [Await(k, ch), ParkDone(k, ch)]
  {
    var op := s.conts[pid][0];
    assert op in s.conts[pid] && op == Drain(op.key, AwaitFirst(op.via.chan));
    AfterStep(cfg, s, pid, c, o);
    DrainListens(cfg, s, op.key, op.via.chan, c, o);
    DrainContinues(cfg, s, pid, c, op.key, op.via.chan);
  }

  lemma DrainContinues(cfg: Config, s: State, pid: Pid, c: Choice, k: Key, ch: Chan)
    requires Runnable(s, pid) && s.conts[pid] == [Drain(k, AwaitFirst(ch)), ParkDone(k, ch)]
    requires !Fails(s, s.conts[pid][0], c)
    ensures Stepped(cfg, s, pid, c).conts[pid] == Front(cfg, s, Drain(k, AwaitFirst(ch)), c) + [ParkDone(k, ch)]
  {
    assert s.conts[pid][1..] == [ParkDone(k, ch)];
  }

  lemma DrainListens(cfg: Config, s: State, k: Key, ch: Chan, c: Choice, o: Op)
    requires IsListenOp(o) && o in Front(cfg, s, Drain(k, AwaitFirst(ch)), c)
    ensures Front(cfg, s, Drain(k, AwaitFirst(ch)), c) == [Await(k, ch)]
  {
  }

  lemma ListenShape(cfg: Config, s: State, pid: Pid, c: Choice, o: Op)
    requires ChannelsOwned(s) && Runnable(s, pid) && IsListenOp(o) && o in Stepped(cfg, s, pid, c).conts[pid]
    ensures Listening(Stepped(cfg, s, pid, c).conts[pid], o.key, ChanOf(o))
  {
    ListenSource(cfg, s, pid, c, o);
    if s.conts[pid][0].Park? {
      ParkListens(cfg, s, pid, c);
    } else {
      FirstDrainListens(cfg, s, pid, c, o);
    }
  }

  lemma WaitersBounded(cfg: Config, st: Store, m: Memory, pid: Pid, op: Op, c: Choice)
    requires forall k :: k in m.waiters ==> m.waiters[k] < m.nextChan
    ensures var m' := MemoryAfter(cfg, st, m, pid, op, c);
      && (forall k :: k in m'.waiters ==> m'.waiters[k] < m'.nextChan)
      && m'.nextChan == if op.Park? then m.nextChan + 1 else m.nextChan
  {
  }

  lemma BoundsStep(cfg: Config, s: State, pid: Pid, c: Choice, p: Pid, o: Op)
    requires ChannelsOwned(s) && Runnable(s, pid)
    requires p in s.conts && o in Stepped(cfg, s, pid, c).conts[p] && HasChan(o)
    ensures ChanOf(o) < Stepped(cfg, s, pid, c).mem.nextChan
  {
    WaitersBounded(cfg, s.store, s.mem, pid, s.conts[pid][0], c);
    if p == pid { ChannelsAfter(cfg, s, pid, c, o); }
  }

  lemma OwnersStep(cfg: Config, s: State, pid: Pid, c: Choice, p: Pid, q: Pid, a: Op, b: Op)
    requires ChannelsOwned(s) && Runnable(s, pid)
    requires var s' := Stepped(cfg, s, pid, c);
      p in s'.conts && q in s'.conts && a in s'.conts[p] && b in s'.conts[q]
    requires HasChan(a) && HasChan(b) && ChanOf(a) == ChanOf(b)
    ensures p == q
  {
    if p == pid { ChannelsAfter(cfg, s, pid, c, a); }
    if q == pid { ChannelsAfter(cfg, s, pid, c, b); }
  }

  lemma ChannelsOwnedStep(cfg: Config, s: State, pid: Pid, c: Choice)
    requires ChannelsOwned(s) && Runnable(s, pid)
    ensures ChannelsOwned(Stepped(cfg, s, pid, c))
  {
    var s' := Stepped(cfg, s, pid, c);
    WaitersBounded(cfg, s.store, s.mem, pid, s.conts[pid][0], c);
    forall p, o | p in s'.conts && o in s'.conts[p] && HasChan(o) ensures ChanOf(o) < s'.mem.nextChan {
      BoundsStep(cfg, s, pid, c, p, o);
    }
    forall p, o | p in s'.conts && o in s'.conts[p] && o.Park? ensures s'.conts[p] == [o] {
      if p == pid { AfterStep(cfg, s, pid, c, o); }
    }
    forall p, o | p in s'.conts && o in s'.conts[p] && IsListenOp(o) ensures Listening(s'.conts[p], o.key, ChanOf(o)) {
      if p == pid { ListenShape(cfg, s, pid, c, o); }
    }
    forall p, q, a, b | p in s'.conts && q in s'.conts && a in s'.conts[p] && b in s'.conts[q]
                        && HasChan(a) && HasChan(b) && ChanOf(a) == ChanOf(b)
      ensures p == q
    {
      OwnersStep(cfg, s, pid, c, p, q, a, b);
    }
  }

  /** A listening await was listening before the step, or has just parked. */
  lemma WasListening(cfg: Config, s: State, pid: Pid, c: Choice, k: Key, ch: Chan)
    requires ChannelsOwned(s) && Runnable(s, pid)
    requires Listening(Stepped(cfg, s, pid, c).conts[pid], k, ch)
    ensures !Fails(s, s.conts[pid][0], c)
    ensures if s.conts[pid][0].Park?
            then ch == s.mem.nextChan && s.conts[pid][0].key == k
                 && Stepped(cfg, s, pid, c).conts[pid][0].Drain?
            else Listening(s.conts[pid], k, ch)
  {
    var o := Stepped(cfg, s, pid, c).conts[pid][0];
    assert o in Stepped(cfg, s, pid, c).conts[pid];
    ListenSource(cfg, s, pid, c, o);
    if s.conts[pid][0].Park? {
      ParkListens(cfg, s, pid, c);
    } else {
      FirstDrainListens(cfg, s, pid, c, o);
    }
  }

  ghost predicate Registered(m: Memory, k: Key, ch: Chan) {
    k in m.waiters && m.waiters[k] == ch
  }

  /** No step but its own call's takes a waiter's signal or registration away,
      and a release for its agent signals it. */
  lemma WaiterKept(cfg: Config, st: Store, m: Memory, pid: Pid, op: Op, c: Choice, k: Key, ch: Chan)
    requires ch in m.signalled || Registered(m, k, ch)
    requires ch < m.nextChan
    requires HasChan(op) ==> ChanOf(op) != ch
    ensures var m' := MemoryAfter(cfg, st, m, pid, op, c);
      && (ch in m.signalled ==> ch in m'.signalled)
      && (ch in m'.signalled || Registered(m', k, ch))
      && (op.Release? && op.key == k ==> ch in m'.signalled)
  {
    match op
    case Park(j) =>
    case Release(j, _) =>
    case Await(j, _) =>
    case ParkDone(j, _) =>
    case _ =>
  }

  lemma OtherStepKeepsReachable(cfg: Config, s: State, pid: Pid, c: Choice, p: Pid, k: Key, ch: Chan)
    requires ChannelsOwned(s) && Reachable(s) && Runnable(s, pid)
    requires pid != p && p in s.conts && Listening(s.conts[p], k, ch)
    ensures var m := Stepped(cfg, s, pid, c).mem;
      && (ch in s.mem.signalled ==> ch in m.signalled)
      && (ch in m.signalled || Registered(m, k, ch))
      && (s.conts[pid][0].Release? && s.conts[pid][0].key == k ==> ch in m.signalled)
  {
    var own, op := s.conts[p][0], s.conts[pid][0];
    assert own in s.conts[p] && HasChan(own) && ChanOf(own) == ch;
    assert op in s.conts[pid];
    WaiterKept(cfg, s.store, s.mem, pid, op, c, k, ch);
    assert op.Release? ==> !Fails(s, op, c);
  }

  lemma OwnStepReachable(cfg: Config, s: State, pid: Pid, c: Choice, k: Key, ch: Chan)
    requires ChannelsOwned(s) && Reachable(s) && Runnable(s, pid)
    requires Listening(Stepped(cfg, s, pid, c).conts[pid], k, ch)
    ensures var m := Stepped(cfg, s, pid, c).mem;
      ch in m.signalled || Registered(m, k, ch)
  {
    WasListening(cfg, s, pid, c, k, ch);
    var op := s.conts[pid][0];
    if !op.Park? {
      assert Listening(s.conts[pid], k, ch);
      assert op in s.conts[pid] && HasChan(op);
      assert Stepped(cfg, s, pid, c).conts[pid][0].Await? ==> op.Drain?;
      assert op.Drain?;
    }
  }

  lemma ReachableStep(cfg: Config, s: State, pid: Pid, c: Choice)
    requires ChannelsOwned(s) && Reachable(s) && Runnable(s, pid)
    ensures Reachable(Stepped(cfg, s, pid, c))
  {
    var s' := Stepped(cfg, s, pid, c);
    forall p, k, ch | p in s'.conts && Listening(s'.conts[p], k, ch)
      ensures ch in s'.mem.signalled || Registered(s'.mem, k, ch)
    {
      if p == pid {
        OwnStepReachable(cfg, s, pid, c, k, ch);
      } else {
        OtherStepKeepsReachable(cfg, s, pid, c, p, k, ch);
      }
    }
  }

  /** An await that has just fallen asleep has just drained its mailbox empty. */
  lemma FirstDrainEmpties(cfg: Config, s: State, pid: Pid, c: Choice, k: Key, ch: Chan, d: Directive)
    requires ChannelsOwned(s) && Runnable(s, pid) && Asleep(Stepped(cfg, s, pid, c), pid, k, ch)
    requires d in Stepped(cfg, s, pid, c).store.directives
    ensures !D.IsPending(d, k)
  {
    var s' := Stepped(cfg, s, pid, c);
    WasListening(cfg, s, pid, c, k, ch);
    var op := s.conts[pid][0];
    assert Listening(s.conts[pid], k, ch);
    assert op.Drain?;
    D.MarkedPending(s.store.directives, k, k);
    D.PendingMember(s'.store.directives, k, d);
  }

  /** A pending directive that was not in the table is the one just enqueued. */
  lemma FreshDirective(st: Store, op: Op, c: Choice, d: Directive)
    requires d in StoreAfter(st, op, c).directives && d !in st.directives && !d.delivered
    ensures op.Enqueue? && d == D.Enqueued(st.directives, op.key, op.origin, op.text, c.now, |st.log|)
  {
  }

  lemma SleepThroughStep(cfg: Config, s: State, pid: Pid, c: Choice, p: Pid, k: Key, ch: Chan, d: Directive)
    requires Inv(s) && Runnable(s, pid)
    requires pid != p && Asleep(s, p, k, ch) && ch !in Stepped(cfg, s, pid, c).mem.signalled
    requires d in Stepped(cfg, s, pid, c).store.directives && D.IsPending(d, k)
    ensures ReleasePending(Stepped(cfg, s, pid, c), d)
  {
    var s' := Stepped(cfg, s, pid, c);
    var op := s.conts[pid][0];
    OtherStepKeepsReachable(cfg, s, pid, c, p, k, ch);
    if d !in s.store.directives {
      FreshDirective(s.store, op, c, d);
      PushedInFlight(cfg, s, pid, c, Release(d.key, d.id));
    } else {
      assert ReleasePending(s, d);
      if InFlight(s, Release(d.key, d.id)) {
        StillInFlight(cfg, s, pid, c, Release(d.key, d.id));
      }
    }
  }

  lemma WakeupStep(cfg: Config, s: State, pid: Pid, c: Choice)
    requires Inv(s) && Runnable(s, pid)
    ensures NoLostWakeup(Stepped(cfg, s, pid, c))
  {
    var s' := Stepped(cfg, s, pid, c);
    forall p, k, ch, d | Asleep(s', p, k, ch) && ch !in s'.mem.signalled
                         && d in s'.store.directives && D.IsPending(d, k)
      ensures ReleasePending(s', d)
    {
      if p == pid {
        FirstDrainEmpties(cfg, s, pid, c, k, ch, d);
      } else {
        assert Asleep(s, p, k, ch);
        SleepThroughStep(cfg, s, pid, c, p, k, ch, d);
      }
    }
  }

  lemma ProgramHasNoChan(call: Call, o: Op)
    requires o in Program(call)
    ensures !HasChan(o)
  {
  }

  lemma SpawnKeepsChannels(s: State, pid: Pid, call: Call)
    requires ChannelsOwned(s) && CanSpawn(s, pid, call)
    ensures ChannelsOwned(Spawned(s, pid, call))
  {
    var s' := Spawned(s, pid, call);
    forall o | o in Program(call) ensures !HasChan(o) {
      ProgramHasNoChan(call, o);
    }
    forall p, q, a, b | p in s'.conts && q in s'.conts && a in s'.conts[p] && b in s'.conts[q]
                        && HasChan(a) && HasChan(b) && ChanOf(a) == ChanOf(b)
      ensures p == q
    {
      assert p in s.conts && q in s.conts;
    }
  }

  lemma SpawnKeepsInv(s: State, pid: Pid, call: Call)
    requires Inv(s) && CanSpawn(s, pid, call)
    ensures Inv(Spawned(s, pid, call))
  {
    SpawnKeepsChannels(s, pid, call);
    var s' := Spawned(s, pid, call);
    assert forall o :: o in Program(call) ==> !HasChan(o);
    forall p, k, ch | p in s'.conts && Listening(s'.conts[p], k, ch)
      ensures p in s.conts && s.conts[p] == s'.conts[p]
    {
      assert s'.conts[p][0] in s'.conts[p] && HasChan(s'.conts[p][0]);
    }
    forall p, k, ch, d | Asleep(s', p, k, ch) && ch !in s'.mem.signalled
                         && d in s'.store.directives && D.IsPending(d, k)
      ensures ReleasePending(s', d)
    {
      assert Listening(s'.conts[p], k, ch);
      assert Asleep(s, p, k, ch);
      if InFlight(s, Release(d.key, d.id)) { SpawnKeeps(s, pid, call, Release(d.key, d.id)); }
    }
  }

  /** At boot nobody waits. */
  lemma BootInv(s: State)
    requires s.conts == map[0 := BOOT] && s.mem.waiters == map[]
    ensures Inv(s)
  {
    assert forall o :: o in BOOT ==> !HasChan(o) && !o.Park?;
  }

  lemma StepKeepsInv(cfg: Config, s: State, pid: Pid, c: Choice)
    requires Inv(s) && Runnable(s, pid)
    ensures Inv(Stepped(cfg, s, pid, c))
  {
    ChannelsOwnedStep(cfg, s, pid, c);
    ReachableStep(cfg, s, pid, c);
    WakeupStep(cfg, s, pid, c);
  }

  lemma InvNext(cfg: Config, s: State, s': State)
    requires Inv(s) && Next(cfg, s, s')
    ensures Inv(s')
  {
    if pid: Pid, c: Choice :| Runnable(s, pid) && Enabled(s, pid, c) && s' == Stepped(cfg, s, pid, c) {
      StepKeepsInv(cfg, s, pid, c);
    } else if pid: Pid, call: Call :| CanSpawn(s, pid, call) && s' == Spawned(s, pid, call) {
      SpawnKeepsInv(s, pid, call);
    } else {
      BootInv(s');
    }
  }

  lemma {:induction false} InvHolds(cfg: Config, run: seq<State>, i: nat)
    requires IsRun(cfg, run) && i < |run|
    ensures Inv(run[i])
  {
    if i == 0 {
      BootInv(run[0]);
    } else {
      InvHolds(cfg, run, i - 1);
      assert Next(cfg, run[i - 1], run[i - 1 + 1]);
      InvNext(cfg, run[i - 1], run[i]);
    }
  }

  // ---- The theorem ----

  /** In every state of every run, an await asleep on its channel either has a
      signal waiting there, or every directive pending for its agent belongs to
      a Direct that has yet to come to its release, exactly unless it failed
      before it. */
  lemma AwaitNeverSleepsOnADirective(cfg: Config, run: seq<State>, i: nat, p: Pid, k: Key, ch: Chan)
    requires IsRun(cfg, run) && i < |run| && Asleep(run[i], p, k, ch)
    ensures ch in run[i].mem.signalled
         || forall d :: d in run[i].store.directives && D.IsPending(d, k) ==>
              (InFlight(run[i], Release(k, d.id)) <==> Release(k, d.id) !in run[i].hist.dropped)
  {
    InvHolds(cfg, run, i);
    if ch !in run[i].mem.signalled {
      forall d | d in run[i].store.directives && D.IsPending(d, k)
        ensures InFlight(run[i], Release(k, d.id)) <==> Release(k, d.id) !in run[i].hist.dropped
      {
        assert ReleasePending(run[i], d);
        Releases.ReleaseDueOrLost(cfg, run, i, k, d.id);
      }
    }
  }
}
