/** The registration critical section (registerAndSupersede): what a call may
    still have to do under registerMu, and that one call at a time is in it. */
module SteeringLock {
  import opened Records
  import opened Steering
  import A = Agents
  import SteeringMail

  /** The steps that run under registerMu. */
  predicate IsSection(op: Op) {
    || op.RegisterRow? || op.Subscribe? || op.Sweep? || op.Settle?
    || (op.Close? && op.swept)
    || (op.Persist? && op.event.body.Started?)
  }

  /** Neither under the lock nor about to touch it. */
  predicate IsPlain(op: Op) {
    !IsSection(op) && !op.LockRegister? && !op.UnlockRegister?
  }

  predicate SectionHead(op: Op, rest: seq<Op>) {
    && LockRegister !in rest
    && (IsSection(op) ==> UnlockRegister in rest && EndTry !in rest)
    && (op.Persist? && op.event.body.Started? ==> forall o :: o in rest ==> o.Subscribe? || o.UnlockRegister? || o.Enqueue?)
    && (match op
        case LockRegister => |rest| == 4 && rest[0].RegisterRow?
        case RegisterRow(k, t) => rest == [Persist(StartedEvent(k)), Subscribe(k, t), UnlockRegister]
        case Subscribe(_, _) => rest[0] == UnlockRegister
        case Settle(_, _) => rest[0] == UnlockRegister
        case UnlockRegister => forall o :: o in rest ==> o.Enqueue?
        case _ => true)
  }

  /** A call's remaining steps respect the shape of the section. */
  predicate Sectioned(cont: seq<Op>) {
    cont == [] || (SectionHead(cont[0], cont[1..]) && Sectioned(cont[1..]))
  }

  ghost predicate LockHeld(s: State) {
    forall p :: p in s.conts && UnlockRegister in s.conts[p]
      ==> s.conts[p][0] == LockRegister || s.mem.lock == Some(p)
  }

  ghost predicate Inv(s: State) {
    && (forall p :: p in s.conts ==> Sectioned(s.conts[p]))
    && LockHeld(s)
  }

  // ---- The shape survives pushes and errors ----

  lemma PushOne(op: Op, rest: seq<Op>)
    requires Sectioned(rest) && SectionHead(op, rest)
    ensures Sectioned([op] + rest)
  {
    assert ([op] + rest)[1..] == rest;
  }

  lemma {:induction false} PushPlain(front: seq<Op>, rest: seq<Op>)
    requires Sectioned(rest) && LockRegister !in rest
    requires forall o :: o in front ==> IsPlain(o)
    ensures Sectioned(front + rest)
  {
    if front == [] {
      assert front + rest == rest;
    } else {
      assert front[0] in front;
      assert forall o :: o in front[1..] ==> o in front;
      PushPlain(front[1..], rest);
      PushOne(front[0], front[1..] + rest);
      assert front + rest == [front[0]] + (front[1..] + rest);
    }
  }

  lemma PushLoser(k: Key, rest: seq<Op>)
    requires Sectioned(rest) && UnlockRegister in rest && LockRegister !in rest && EndTry !in rest
    ensures Sectioned(SweepOne(k) + rest)
  {
    var close := [Close(k, true)] + rest;
    PushOne(Close(k, true), rest);
    var direct := Enqueue(k, OriginSupersede, SUPERSEDED_DIRECTIVE);
    PushOne(direct, close);
    PushOne(Unsubscribe(k), [direct] + close);
    assert SweepOne(k) + rest == [Unsubscribe(k)] + ([direct] + close);
  }

  lemma {:induction false} PushSweep(losers: seq<Key>, keep: Key, rest: seq<Op>)
    requires Sectioned(rest) && UnlockRegister in rest && LockRegister !in rest && EndTry !in rest
    ensures Sectioned(SweepAll(losers, keep) + rest)
  {
    if losers == [] {
      assert SweepAll(losers, keep) + rest == rest;
    } else {
      PushSweep(losers[1..], keep, rest);
      SteeringMail.SweepAllOps(losers[1..], keep);
      var tail := SweepAll(losers[1..], keep) + rest;
      if losers[0] == keep {
        assert SweepAll(losers, keep) + rest == tail;
      } else {
        PushLoser(losers[0], tail);
        assert SweepAll(losers, keep) + rest == SweepOne(losers[0]) + tail;
      }
    }
  }

  lemma {:induction false} AppendGreeting(cont: seq<Op>, op: Op)
    requires Sectioned(cont) && op.Enqueue?
    requires forall o :: o in cont ==> !o.LockRegister? && !o.RegisterRow?
    ensures Sectioned(cont + [op])
  {
    if cont == [] {
      assert cont + [op] == [op] && [op][1..] == [];
    } else {
      AppendGreeting(cont[1..], op);
      assert (cont + [op])[1..] == cont[1..] + [op];
    }
  }

  lemma {:induction false} UnwindSectioned(cont: seq<Op>)
    requires Sectioned(cont)
    ensures Sectioned(Unwind(cont))
    ensures LockRegister !in Unwind(cont)
  {
    if cont != [] {
      UnwindSectioned(cont[1..]);
      var rest := Unwind(cont[1..]);
      if IsDeferred(cont[0]) {
        assert ([cont[0]] + rest)[1..] == rest;
        forall o | o in rest ensures o in cont[1..] { UnwindIsPart(cont[1..], o); }
      }
    }
  }

  /** An error that spares any step but a deferred one spares the whole section. */
  lemma {:induction false} UnwindSparesSection(cont: seq<Op>, kept: Op, other: Op)
    requires Sectioned(cont) && !IsDeferred(kept) && IsSection(other)
    requires kept in Unwind(cont) && other in cont
    ensures other in Unwind(cont)
  {
    if !cont[0].EndTry? {
      if IsSection(cont[0]) {
        UnwindWithoutTry(cont[1..], kept);
      }
      UnwindSparesSection(cont[1..], kept, other);
    }
  }

  lemma {:induction false} UnwindWithoutTry(cont: seq<Op>, kept: Op)
    requires EndTry !in cont && !IsDeferred(kept)
    ensures kept !in Unwind(cont)
  {
    if cont != [] {
      UnwindWithoutTry(cont[1..], kept);
    }
  }

  lemma {:induction false} SectionNeedsUnlock(cont: seq<Op>, op: Op)
    requires Sectioned(cont) && IsSection(op) && op in cont
    ensures UnlockRegister in cont
  {
    if op != cont[0] {
      SectionNeedsUnlock(cont[1..], op);
    }
  }

  lemma FrontPlain(cfg: Config, s: State, op: Op, c: Choice)
    requires !op.Subscribe? && !op.Sweep?
    ensures forall o :: o in Front(cfg, s, op, c) ==> IsPlain(o)
  {
    match op
    case Tee(e) => SteeringMail.TeeAllOps(c.order, if e.body.Domain? then e.body.payload else "");
    case Reconcile => SteeringMail.RelayAllOps(c.order);
    case _ =>
  }

  /** The steps pushed in front of the rest keep the shape. */
  lemma FrontSectioned(cfg: Config, s: State, op: Op, c: Choice, rest: seq<Op>)
    requires Sectioned(rest) && SectionHead(op, rest)
    ensures Sectioned(Front(cfg, s, op, c) + rest)
    ensures LockRegister !in Front(cfg, s, op, c)
  {
    var front := Front(cfg, s, op, c);
    if op.Subscribe? {
      if front == [] {
        assert front + rest == rest;
      } else {
        PushOne(Settle(op.key, op.agentType), rest);
        PushOne(Sweep(op.key, op.agentType), [Settle(op.key, op.agentType)] + rest);
        assert front + rest == [Sweep(op.key, op.agentType)] + ([Settle(op.key, op.agentType)] + rest);
      }
    } else if op.Sweep? {
      var losers := A.RunningOfType(s.store.agents, s.store.agents.order, op.key.subject, op.agentType);
      PushSweep(losers, op.key, rest);
      SteeringMail.SweepAllOps(losers, op.key);
    } else {
      FrontPlain(cfg, s, op, c);
      PushPlain(front, rest);
    }
  }

  lemma SectionedStep(cfg: Config, s: State, pid: Pid, c: Choice)
    requires Runnable(s, pid) && Sectioned(s.conts[pid])
    ensures Sectioned(Stepped(cfg, s, pid, c).conts[pid])
    ensures LockRegister !in Stepped(cfg, s, pid, c).conts[pid]
  {
    var cont := s.conts[pid];
    if Fails(s, cont[0], c) {
      UnwindSectioned(cont);
    } else {
      SuccessSectioned(cfg, s, cont[0], c, cont[1..]);
    }
  }

  lemma SuccessSectioned(cfg: Config, s: State, op: Op, c: Choice, rest: seq<Op>)
    requires Sectioned(rest) && SectionHead(op, rest)
    ensures Sectioned(Front(cfg, s, op, c) + rest + Greeting(cfg, s.store, op))
    ensures LockRegister !in Front(cfg, s, op, c) + rest + Greeting(cfg, s.store, op)
  {
    var front, greeting := Front(cfg, s, op, c), Greeting(cfg, s.store, op);
    FrontSectioned(cfg, s, op, c, rest);
    if greeting == [] {
      assert front + rest + greeting == front + rest;
    } else {
      assert front + rest == rest;
      AppendGreeting(rest, greeting[0]);
      assert front + rest + greeting == rest + [greeting[0]];
    }
  }

  lemma NoUnlockPushed(cfg: Config, s: State, pid: Pid, c: Choice)
    requires Runnable(s, pid) && Sectioned(s.conts[pid])
    requires UnlockRegister in Stepped(cfg, s, pid, c).conts[pid]
    ensures UnlockRegister in s.conts[pid][1..] || Fails(s, s.conts[pid][0], c)
    ensures UnlockRegister in s.conts[pid]
    ensures s.conts[pid][0] == UnlockRegister ==> Fails(s, s.conts[pid][0], c)
  {
    var cont := s.conts[pid];
    var op := cont[0];
    if Fails(s, op, c) {
      UnwindIsPart(cont, UnlockRegister);
    } else {
      if op.Sweep? {
        SteeringMail.SweepAllOps(A.RunningOfType(s.store.agents, s.store.agents.order, op.key.subject, op.agentType), op.key);
      } else if !op.Subscribe? {
        FrontPlain(cfg, s, op, c);
      }
      assert UnlockRegister in cont[1..];
    }
  }

  lemma StepKeepsInv(cfg: Config, s: State, pid: Pid, c: Choice)
    requires Inv(s) && Runnable(s, pid) && Enabled(s, pid, c)
    ensures Inv(Stepped(cfg, s, pid, c))
  {
    var s' := Stepped(cfg, s, pid, c);
    SectionedStep(cfg, s, pid, c);
    forall p | p in s'.conts && UnlockRegister in s'.conts[p]
      ensures s'.conts[p][0] == LockRegister || s'.mem.lock == Some(p)
    {
      if p == pid { NoUnlockPushed(cfg, s, pid, c); }
      LockAfter(cfg, s, pid, c, p);
    }
  }

  lemma LockAfter(cfg: Config, s: State, pid: Pid, c: Choice, p: Pid)
    requires Inv(s) && Runnable(s, pid) && Enabled(s, pid, c)
    requires p in s.conts && UnlockRegister in s.conts[p]
    requires p == pid ==> s.conts[pid][0] != UnlockRegister || Fails(s, s.conts[pid][0], c)
    ensures (s.conts[p][0] == LockRegister && p != pid) || Stepped(cfg, s, pid, c).mem.lock == Some(p)
  {
    var op := s.conts[pid][0];
    assert op in s.conts[pid];
  }

  lemma SpawnKeepsInv(s: State, pid: Pid, call: Call)
    requires Inv(s) && CanSpawn(s, pid, call)
    ensures Inv(Spawned(s, pid, call))
  {
    ProgramSectioned(call);
  }

  lemma ProgramSectioned(call: Call)
    requires Admissible(call)
    ensures Sectioned(Program(call))
    ensures UnlockRegister in Program(call) ==> Program(call)[0] == LockRegister
  {
    match call
    case StartCall(k, t) => StartSectioned(k, t);
    case _ => assert Program(call)[1..] == [];
  }

  lemma StartSectioned(k: Key, t: string)
    ensures Sectioned(Program(StartCall(k, t))) && Program(StartCall(k, t))[0] == LockRegister
  {
    var p := Program(StartCall(k, t));
    assert p[1..] == [RegisterRow(k, t)] + p[2..];
    PushOne(UnlockRegister, []);
    assert p[4..] == [UnlockRegister] + [];
    PushOne(Subscribe(k, t), p[4..]);
    PushOne(Persist(StartedEvent(k)), [Subscribe(k, t)] + p[4..]);
    assert p[2..] == [Persist(StartedEvent(k))] + ([Subscribe(k, t)] + p[4..]);
    PushOne(RegisterRow(k, t), p[2..]);
    PushOne(LockRegister, p[1..]);
    assert p == [LockRegister] + p[1..];
  }

  lemma BootInv(s: State)
    requires s.conts == map[0 := BOOT]
    ensures Inv(s)
  {
    assert BOOT[1..] == [RebuildSubscriptions, Serve];
    assert BOOT[1..][1..] == [Serve] && BOOT[1..][1..][1..] == [];
  }

  lemma InvNext(cfg: Config, s: State, s': State)
    requires Inv(s) && Next(cfg, s, s')
    ensures Inv(s')
  {
    if pid: Pid, c: Choice :| Runnable(s, pid) && Enabled(s, pid, c) && s' == Stepped(cfg, s, pid, c) {
      StepKeepsInv(cfg, s, pid, c);
    } else if pid: Pid, call: Call :| CanSpawn(s, pid, call) && s' == Spawned(s, pid, call) {
      SpawnKeepsInv(s, pid, call);
    } else {
      BootInv(s');
    }
  }

  /** At most one call is inside the section: whoever is past LockRegister and
      not past UnlockRegister is the only one. */
  lemma MutualExclusion(s: State, p: Pid, q: Pid)
    requires Inv(s) && p in s.conts && q in s.conts
    requires UnlockRegister in s.conts[p] && s.conts[p][0] != LockRegister
    requires UnlockRegister in s.conts[q] && s.conts[q][0] != LockRegister
    ensures p == q && s.mem.lock == Some(p)
  {
  }

  /** Two steps of the section belong to one call. */
  lemma SectionsExclude(s: State, p: Pid, a: Op, q: Pid, b: Op)
    requires Inv(s) && p in s.conts && q in s.conts
    requires IsSection(a) && a in s.conts[p] && s.conts[p][0] != LockRegister
    requires IsSection(b) && b in s.conts[q] && s.conts[q][0] != LockRegister
    ensures p == q
  {
    SectionNeedsUnlock(s.conts[p], a);
    SectionNeedsUnlock(s.conts[q], b);
    MutualExclusion(s, p, q);
  }

  /** A call that waits for the lock has its whole registration ahead of it. */
  lemma WaitingShape(cont: seq<Op>)
    requires Sectioned(cont) && cont != [] && cont[0].LockRegister?
    ensures |cont| == 5 && cont[1].RegisterRow?
    ensures cont[2] == Persist(StartedEvent(cont[1].key)) && cont[3] == Subscribe(cont[1].key, cont[1].agentType)
    ensures cont[4] == UnlockRegister
  {
    var rest := cont[1..];
    assert SectionHead(rest[0], rest[1..]);
    assert cont == [cont[0], rest[0]] + rest[1..];
  }

  lemma RegisteringShape(cont: seq<Op>)
    requires Sectioned(cont) && cont != [] && cont[0].RegisterRow?
    ensures cont == [cont[0], Persist(StartedEvent(cont[0].key)), Subscribe(cont[0].key, cont[0].agentType), UnlockRegister]
  {
    assert cont == [cont[0]] + cont[1..];
  }

  /** After the subscription is set, or the registration complete, only the
      unlock and the greeting remain. */
  lemma UnlockNext(cont: seq<Op>)
    requires Sectioned(cont) && cont != [] && (cont[0].Subscribe? || cont[0].Settle?)
    ensures forall o :: o in cont[1..] ==> o.UnlockRegister? || o.Enqueue?
  {
    var rest := cont[1..];
    assert SectionHead(rest[0], rest[1..]);
    assert rest == [rest[0]] + rest[1..];
  }
}
