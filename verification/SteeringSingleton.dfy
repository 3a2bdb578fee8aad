/** Last registration wins (supersedeSubscribers): once a subscribed registration
    completes, it is alone in its (subject, agent type) until the next begins. */
module SteeringSingleton {
  import opened Records
  import opened Steering
  import A = Agents
  import S = Subscriptions
  import SteeringMail
  import Lock = SteeringLock

  /** Every running rival of `k` is about to be closed by call `p`. */
  ghost predicate RivalsDoomed(s: State, p: Pid, k: Key, t: string)
    requires p in s.conts
  {
    forall o :: A.InGroup(s.store.agents, o, k.subject, t) && o != k ==> Close(o, true) in s.conts[p]
  }

  /** A registration that has yet to complete either has its sweep ahead of it or
      has listed every rival. */
  ghost predicate SweepsComplete(s: State) {
    forall p, k, t :: p in s.conts && Settle(k, t) in s.conts[p]
      ==> Sweep(k, t) in s.conts[p] || RivalsDoomed(s, p, k, t)
  }

  ghost predicate Alone(s: State) {
    forall g, o :: g in s.hist.settled && A.InGroup(s.store.agents, o, g.subject, g.agentType)
      ==> o.agent == s.hist.settled[g]
  }

  ghost predicate Inv(s: State) {
    SweepsComplete(s) && Alone(s)
  }

  lemma {:induction false} SweepAllMember(losers: seq<Key>, keep: Key, o: Key)
    requires o in losers && o != keep
    ensures Close(o, true) in SweepAll(losers, keep)
  {
    if losers[0] == o {
      assert SweepOne(o)[2] in SweepAll(losers, keep);
    } else {
      SweepAllMember(losers[1..], keep, o);
    }
  }

  /** A call that has yet to insert its row has not come to its completion. */
  lemma SettleNotLocking(cont: seq<Op>)
    requires Lock.Sectioned(cont) && cont != [] && (cont[0].LockRegister? || cont[0].RegisterRow?)
    ensures forall k, t :: Settle(k, t) !in cont
  {
    if cont[0].LockRegister? {
      Lock.WaitingShape(cont);
    } else {
      Lock.RegisteringShape(cont);
    }
  }

  /** Only a registration can make a rival appear. */
  lemma RivalsShrink(st: Store, op: Op, c: Choice, o: Key, subject: string, t: string)
    requires A.InGroup(StoreAfter(st, op, c).agents, o, subject, t)
    requires !op.RegisterRow?
    ensures A.InGroup(st.agents, o, subject, t)
    ensures !(op.Close? && op.key == o)
  {
  }

  lemma RivalsAfterError(s: State, p: Pid, k: Key, t: string)
    requires Runnable(s, p) && Lock.Sectioned(s.conts[p]) && SweepsComplete(s)
    requires Settle(k, t) in Unwind(s.conts[p])
    ensures Sweep(k, t) in Unwind(s.conts[p]) || RivalsDoomed(Failed(s, p), p, k, t)
  {
    var cont := s.conts[p];
    UnwindIsPart(cont, Settle(k, t));
    if Sweep(k, t) in cont {
      Lock.UnwindSparesSection(cont, Settle(k, t), Sweep(k, t));
    } else {
      forall o | A.InGroup(s.store.agents, o, k.subject, t) && o != k ensures Close(o, true) in Unwind(cont) {
        Lock.UnwindSparesSection(cont, Settle(k, t), Close(o, true));
      }
    }
  }

  /** The sweep schedules the close of each rival. */
  lemma SweepDooms(cfg: Config, s: State, p: Pid, c: Choice, k: Key, t: string, o: Key)
    requires Runnable(s, p) && s.conts[p][0] == Sweep(k, t) && !Fails(s, Sweep(k, t), c)
    requires A.WellOrdered(s.store.agents) && A.InGroup(s.store.agents, o, k.subject, t) && o != k
    ensures Close(o, true) in Succeeded(cfg, s, p, c).conts[p]
  {
    A.RunningOfTypeMember(s.store.agents, s.store.agents.order, k.subject, t, o);
    SweepAllMember(A.RunningOfType(s.store.agents, s.store.agents.order, k.subject, t), k, o);
    assert Close(o, true) in Front(cfg, s, Sweep(k, t), c);
  }

  /** After the sweep, a rival that is left has its close ahead. */
  lemma RivalsAhead(cfg: Config, s: State, p: Pid, c: Choice, k: Key, t: string)
    requires Runnable(s, p) && !Fails(s, s.conts[p][0], c) && !s.conts[p][0].RegisterRow?
    requires RivalsDoomed(s, p, k, t)
    ensures RivalsDoomed(Succeeded(cfg, s, p, c), p, k, t)
  {
    var s' := Succeeded(cfg, s, p, c);
    forall o | A.InGroup(s'.store.agents, o, k.subject, t) && o != k ensures Close(o, true) in s'.conts[p] {
      RivalsShrink(s.store, s.conts[p][0], c, o, k.subject, t);
      assert Close(o, true) in s.conts[p][1..];
    }
  }

  lemma RivalsAfterOwnStep(cfg: Config, s: State, p: Pid, c: Choice, k: Key, t: string)
    requires Runnable(s, p) && Lock.Sectioned(s.conts[p]) && SweepsComplete(s)
    requires A.WellOrdered(s.store.agents)
    requires !Fails(s, s.conts[p][0], c) && Settle(k, t) in s.conts[p][1..]
    ensures var s' := Succeeded(cfg, s, p, c);
      Sweep(k, t) in s'.conts[p] || RivalsDoomed(s', p, k, t)
  {
    var op := s.conts[p][0];
    assert Settle(k, t) in s.conts[p];
    if op == Sweep(k, t) {
      forall o | A.InGroup(Succeeded(cfg, s, p, c).store.agents, o, k.subject, t) && o != k
        ensures Close(o, true) in Succeeded(cfg, s, p, c).conts[p]
      {
        SweepDooms(cfg, s, p, c, k, t, o);
      }
    } else if Sweep(k, t) in s.conts[p] {
      assert Sweep(k, t) in s.conts[p][1..];
    } else {
      if op.RegisterRow? { SettleNotLocking(s.conts[p]); }
      RivalsAhead(cfg, s, p, c, k, t);
    }
  }

  lemma SweepsStep(cfg: Config, s: State, pid: Pid, c: Choice)
    requires Inv(s) && Lock.Inv(s) && A.WellOrdered(s.store.agents) && Runnable(s, pid)
    ensures SweepsComplete(Stepped(cfg, s, pid, c))
  {
    var s' := Stepped(cfg, s, pid, c);
    var op := s.conts[pid][0];
    assert op in s.conts[pid];
    forall p, k, t | p in s'.conts && Settle(k, t) in s'.conts[p]
      ensures Sweep(k, t) in s'.conts[p] || RivalsDoomed(s', p, k, t)
    {
      if p != pid {
        if s.conts[p][0].LockRegister? { SettleNotLocking(s.conts[p]); }
        if op.RegisterRow? {
          Lock.SectionsExclude(s, p, Settle(k, t), pid, op);
        }
        forall o | A.InGroup(s'.store.agents, o, k.subject, t) && o != k && Sweep(k, t) !in s.conts[p]
          ensures Close(o, true) in s'.conts[p]
        {
          RivalsShrink(s.store, if Fails(s, op, c) then EndTry else op, c, o, k.subject, t);
        }
      } else if Fails(s, op, c) {
        RivalsAfterError(s, pid, k, t);
      } else if Settle(k, t) in s.conts[pid][1..] {
        RivalsAfterOwnStep(cfg, s, pid, c, k, t);
      } else {
        SettlePushed(cfg, s, op, c, k, t);
        PushedInFlight(cfg, s, pid, c, Sweep(k, t));
      }
    }
  }

  lemma SettlePushed(cfg: Config, s: State, op: Op, c: Choice, k: Key, t: string)
    requires Settle(k, t) in Front(cfg, s, op, c)
    ensures Sweep(k, t) in Front(cfg, s, op, c)
  {
    if op.Sweep? {
      SteeringMail.SweepAllOps(A.RunningOfType(s.store.agents, s.store.agents.order, op.key.subject, op.agentType), op.key);
    } else if !op.Subscribe? {
      Lock.FrontPlain(cfg, s, op, c);
    }
  }

  /** A registration that completes has no rival left. */
  lemma SettlesAlone(s: State, p: Pid, k: Key, t: string, o: Key)
    requires Runnable(s, p) && Lock.Sectioned(s.conts[p]) && SweepsComplete(s)
    requires s.conts[p][0] == Settle(k, t)
    requires A.InGroup(s.store.agents, o, k.subject, t)
    ensures o == k
  {
    var cont := s.conts[p];
    assert Settle(k, t) in cont;
    Lock.UnlockNext(cont);
    assert cont == [cont[0]] + cont[1..];
  }

  lemma AloneStep(cfg: Config, s: State, pid: Pid, c: Choice)
    requires Inv(s) && Lock.Inv(s) && Runnable(s, pid)
    ensures Alone(Stepped(cfg, s, pid, c))
  {
    var s' := Stepped(cfg, s, pid, c);
    var op := s.conts[pid][0];
    forall g, o | g in s'.hist.settled && A.InGroup(s'.store.agents, o, g.subject, g.agentType)
      ensures o.agent == s'.hist.settled[g]
    {
      if Fails(s, op, c) {
        assert g in s.hist.settled;
      } else if op.RegisterRow? {
        assert g in s.hist.settled && g != S.Group(op.key.subject, op.agentType);
        assert A.InGroup(s.store.agents, o, g.subject, g.agentType);
      } else {
        RivalsShrink(s.store, op, c, o, g.subject, g.agentType);
        if op.Settle? && g == S.Group(op.key.subject, op.agentType) {
          SettlesAlone(s, pid, op.key, op.agentType, o);
        } else {
          assert g in s.hist.settled && s'.hist.settled[g] == s.hist.settled[g];
        }
      }
    }
  }

  ghost predicate AllInv(s: State) {
    SteeringMail.Inv(s) && Lock.Inv(s) && Inv(s)
  }

  lemma InvNext(cfg: Config, s: State, s': State)
    requires AllInv(s) && Next(cfg, s, s')
    ensures AllInv(s')
  {
    SteeringMail.InvNext(cfg, s, s');
    Lock.InvNext(cfg, s, s');
    if pid: Pid, c: Choice :| Runnable(s, pid) && Enabled(s, pid, c) && s' == Stepped(cfg, s, pid, c) {
      SweepsStep(cfg, s, pid, c);
      AloneStep(cfg, s, pid, c);
    } else if pid: Pid, call: Call :| CanSpawn(s, pid, call) && s' == Spawned(s, pid, call) {
      SpawnKeepsInv(s, pid, call);
    } else {
      CrashKeepsInv(s);
    }
  }

  lemma SpawnKeepsInv(s: State, pid: Pid, call: Call)
    requires Inv(s) && CanSpawn(s, pid, call)
    ensures Inv(Spawned(s, pid, call))
  {
    var s' := Spawned(s, pid, call);
    assert forall k, t :: Settle(k, t) !in Program(call);
    forall p, k, t | p in s'.conts && Settle(k, t) in s'.conts[p]
      ensures Sweep(k, t) in s'.conts[p] || RivalsDoomed(s', p, k, t)
    {
      assert p in s.conts && Settle(k, t) in s.conts[p];
    }
  }

  lemma CrashKeepsInv(s: State)
    requires Inv(s)
    ensures Inv(Crashed(s))
  {
    assert forall k, t :: Settle(k, t) !in BOOT;
  }

  lemma {:induction false} InvHolds(cfg: Config, run: seq<State>, i: nat)
    requires IsRun(cfg, run) && i < |run|
    ensures AllInv(run[i])
  {
    if i == 0 {
      SteeringMail.InvInit();
      Lock.BootInv(run[0]);
      assert forall k, t :: Settle(k, t) !in BOOT;
    } else {
      InvHolds(cfg, run, i - 1);
      assert Next(cfg, run[i - 1], run[i - 1 + 1]);
      InvNext(cfg, run[i - 1], run[i]);
    }
  }

  // ---- The theorems ----

  /** A group is settled from the completion of a subscribed registration until
      the next registration of that group begins; meanwhile no other agent of
      the group runs, whatever stops, sweeps, errors and crashes come between. */
  lemma SettledGroupHasOneAgent(cfg: Config, run: seq<State>, i: nat, g: S.Group, o: Key)
    requires IsRun(cfg, run) && i < |run| && g in run[i].hist.settled
    requires A.InGroup(run[i].store.agents, o, g.subject, g.agentType)
    ensures o == Key(g.subject, run[i].hist.settled[g])
  {
    InvHolds(cfg, run, i);
  }

  /** Completion is reached only when every rival is gone. */
  lemma RegistrationCompletesAlone(cfg: Config, run: seq<State>, i: nat, pid: Pid, o: Key)
    requires IsRun(cfg, run) && i < |run| && Runnable(run[i], pid)
    requires run[i].conts[pid][0].Settle?
    requires var op := run[i].conts[pid][0]; A.InGroup(run[i].store.agents, o, op.key.subject, op.agentType)
    ensures o == run[i].conts[pid][0].key
  {
    InvHolds(cfg, run, i);
    var op := run[i].conts[pid][0];
    SettlesAlone(run[i], pid, op.key, op.agentType, o);
  }

  /** Two registrations are never between the lock and the unlock of registerMu
      together. */
  lemma RegistrationsExclude(cfg: Config, run: seq<State>, i: nat, p: Pid, q: Pid)
    requires IsRun(cfg, run) && i < |run|
    requires p in run[i].conts && UnlockRegister in run[i].conts[p] && run[i].conts[p][0] != LockRegister
    requires q in run[i].conts && UnlockRegister in run[i].conts[q] && run[i].conts[q][0] != LockRegister
    ensures p == q && run[i].mem.lock == Some(p)
  {
    InvHolds(cfg, run, i);
    Lock.MutualExclusion(run[i], p, q);
  }
}
