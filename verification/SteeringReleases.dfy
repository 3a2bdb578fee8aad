/** Each Direct has one release of its agent's await: still to come, done, or lost
    to an error, and never two of these (daemon/agents.go Direct). */
module SteeringReleases {
  import opened Records
  import opened Steering
  import A = Agents
  import D = Directives
  import SteeringMail
  import SteeringStops

  predicate IsRelease(x: Op) { x.Release? }

  /** A release belongs to a directive in the table. */
  ghost predicate Numbered(s: State) {
    forall x :: IsRelease(x) && (InFlight(s, x) || x in s.hist.dropped) ==> 0 < x.id <= |s.store.directives|
  }

  /** It is in one place only. */
  ghost predicate OnePlace(s: State, x: Op) {
    && (x in s.hist.dropped ==> !InFlight(s, x))
    && (forall p :: p in s.conts ==> multiset(s.conts[p])[x] <= 1)
    && (forall p, q :: p in s.conts && q in s.conts && x in s.conts[p] && x in s.conts[q] ==> p == q)
  }

  ghost predicate Inv(s: State) {
    Numbered(s) && forall x :: IsRelease(x) ==> OnePlace(s, x)
  }

  lemma FrontReleases(cfg: Config, s: State, op: Op, c: Choice, x: Op)
    requires IsRelease(x)
    ensures multiset(Front(cfg, s, op, c))[x] ==
      if op.Enqueue? && x == Release(op.key, |s.store.directives| + 1) then 1 else 0
  {
    if op.Enqueue? {
      EnqueueReleases(cfg, s, op, c, x);
    } else {
      NoRelease(cfg, s, op, c);
      assert x !in Front(cfg, s, op, c);
    }
  }

  lemma EnqueueReleases(cfg: Config, s: State, op: Op, c: Choice, x: Op)
    requires op.Enqueue? && IsRelease(x)
    ensures multiset(Front(cfg, s, op, c))[x] == if x == Release(op.key, |s.store.directives| + 1) then 1 else 0
  {
    var front := Front(cfg, s, op, c);
    var release := Release(op.key, |s.store.directives| + 1);
    assert front == [front[0], release] || front == [front[0], release, front[2]];
  }

  lemma NoRelease(cfg: Config, s: State, op: Op, c: Choice)
    requires !op.Enqueue?
    ensures forall o :: o in Front(cfg, s, op, c) ==> !IsRelease(o)
  {
    match op
    case Tee(e) => SteeringMail.TeeAllOps(c.order, if e.body.Domain? then e.body.payload else "");
    case Sweep(k, t) => SteeringMail.SweepAllOps(A.RunningOfType(s.store.agents, s.store.agents.order, k.subject, t), k);
    case Reconcile => SteeringMail.RelayAllOps(c.order);
    case _ =>
  }

  /** How often a release is in the steps of the call that took a step. */
  lemma OwnCount(cfg: Config, s: State, pid: Pid, c: Choice, x: Op)
    requires Runnable(s, pid) && IsRelease(x)
    ensures var op := s.conts[pid][0];
      var after := multiset(Stepped(cfg, s, pid, c).conts[pid])[x];
      if Fails(s, op, c) then
        && after <= multiset(s.conts[pid])[x]
        && (x in Abandoned(s.conts[pid]) ==> after < multiset(s.conts[pid])[x])
      else after == multiset(s.conts[pid])[x] - (if op == x then 1 else 0)
             + (if op.Enqueue? && x == Release(op.key, |s.store.directives| + 1) then 1 else 0)
  {
    var cont := s.conts[pid];
    if Fails(s, cont[0], c) {
      SteeringStops.UnwindCounts(cont, x);
    } else {
      FrontReleases(cfg, s, cont[0], c, x);
      assert cont == [cont[0]] + cont[1..];
      assert multiset(cont)[x] == multiset(cont[1..])[x] + if cont[0] == x then 1 else 0;
      assert x !in Greeting(cfg, s.store, cont[0]);
    }
  }

  lemma DirectivesGrow(cfg: Config, s: State, pid: Pid, c: Choice)
    requires Runnable(s, pid)
    ensures var s' := Stepped(cfg, s, pid, c);
      |s'.store.directives| ==
        |s.store.directives| + if s.conts[pid][0].Enqueue? && !Fails(s, s.conts[pid][0], c) then 1 else 0
  {
  }

  /** Which releases are lost after a step. */
  lemma DroppedReleases(cfg: Config, s: State, pid: Pid, c: Choice, x: Op)
    requires Runnable(s, pid) && IsRelease(x)
    ensures x in Stepped(cfg, s, pid, c).hist.dropped <==>
      x in s.hist.dropped || (Fails(s, s.conts[pid][0], c) && x in Abandoned(s.conts[pid]))
  {
  }

  /** Whose steps hold a release after a step. */
  lemma HeldBy(cfg: Config, s: State, pid: Pid, c: Choice, x: Op, p: Pid)
    requires Runnable(s, pid) && IsRelease(x) && p in s.conts && x in Stepped(cfg, s, pid, c).conts[p]
    ensures x in s.conts[p]
      || (p == pid && s.conts[pid][0].Enqueue? && !Fails(s, s.conts[pid][0], c)
          && x == Release(s.conts[pid][0].key, |s.store.directives| + 1))
  {
    if p == pid {
      OwnCount(cfg, s, pid, c, x);
      assert multiset(Stepped(cfg, s, pid, c).conts[pid])[x] > 0;
    }
  }

  lemma NumberedStep(cfg: Config, s: State, pid: Pid, c: Choice)
    requires Numbered(s) && Runnable(s, pid)
    ensures Numbered(Stepped(cfg, s, pid, c))
  {
    var s' := Stepped(cfg, s, pid, c);
    DirectivesGrow(cfg, s, pid, c);
    forall x | IsRelease(x) && (InFlight(s', x) || x in s'.hist.dropped) ensures 0 < x.id <= |s'.store.directives| {
      if InFlight(s', x) {
        var p :| p in s'.conts && x in s'.conts[p];
        HeldBy(cfg, s, pid, c, x, p);
      } else {
        DroppedReleases(cfg, s, pid, c, x);
        SteeringStops.AbandonedIsPart(s.conts[pid], x);
      }
    }
  }

  lemma OnePlaceStep(cfg: Config, s: State, pid: Pid, c: Choice, x: Op)
    requires Numbered(s) && OnePlace(s, x) && IsRelease(x) && Runnable(s, pid)
    ensures OnePlace(Stepped(cfg, s, pid, c), x)
  {
    var s' := Stepped(cfg, s, pid, c);
    OwnCount(cfg, s, pid, c, x);
    DroppedReleases(cfg, s, pid, c, x);
    SteeringStops.AbandonedIsPart(s.conts[pid], x);
    forall p | p in s'.conts && x in s'.conts[p]
      ensures x in s.conts[p] || (p == pid && !InFlight(s, x) && x !in s'.hist.dropped)
    {
      HeldBy(cfg, s, pid, c, x, p);
    }
    if x in s'.hist.dropped && x !in s.hist.dropped {
      assert multiset(s'.conts[pid])[x] == 0;
    }
  }

  lemma StepKeepsInv(cfg: Config, s: State, pid: Pid, c: Choice)
    requires Inv(s) && Runnable(s, pid)
    ensures Inv(Stepped(cfg, s, pid, c))
  {
    NumberedStep(cfg, s, pid, c);
    forall x | IsRelease(x) ensures OnePlace(Stepped(cfg, s, pid, c), x) {
      OnePlaceStep(cfg, s, pid, c, x);
    }
  }

  lemma SpawnKeepsInv(s: State, pid: Pid, call: Call)
    requires Inv(s) && CanSpawn(s, pid, call)
    ensures Inv(Spawned(s, pid, call))
  {
    var s' := Spawned(s, pid, call);
    forall x | IsRelease(x) ensures InFlight(s', x) ==> InFlight(s, x) ensures OnePlace(s', x) {
      SpawnedElsewhere(s, pid, call, x);
    }
  }

  lemma SpawnedElsewhere(s: State, pid: Pid, call: Call, x: Op)
    requires OnePlace(s, x) && CanSpawn(s, pid, call) && IsRelease(x)
    ensures var s' := Spawned(s, pid, call); (InFlight(s', x) ==> InFlight(s, x)) && OnePlace(s', x)
  {
    ProgramReleasesNothing(call);
    assert multiset(Program(call))[x] == 0;
  }

  lemma ProgramReleasesNothing(call: Call)
    ensures forall x :: x in Program(call) ==> !IsRelease(x)
  {
  }

  lemma CrashKeepsInv(s: State)
    requires Inv(s)
    ensures Inv(Crashed(s))
  {
    var s' := Crashed(s);
    assert forall x :: x in BOOT ==> !IsRelease(x);
    forall x | IsRelease(x) ensures !InFlight(s', x) && OnePlace(s', x) {
      assert multiset(BOOT)[x] == 0;
    }
  }

  lemma InvNext(cfg: Config, s: State, s': State)
    requires Inv(s) && Next(cfg, s, s')
    ensures Inv(s')
  {
    if pid: Pid, c: Choice :| Runnable(s, pid) && Enabled(s, pid, c) && s' == Stepped(cfg, s, pid, c) {
      StepKeepsInv(cfg, s, pid, c);
    } else if pid: Pid, call: Call :| CanSpawn(s, pid, call) && s' == Spawned(s, pid, call) {
      SpawnKeepsInv(s, pid, call);
    } else {
      CrashKeepsInv(s);
    }
  }

  lemma {:induction false} InvHolds(cfg: Config, run: seq<State>, i: nat)
    requires IsRun(cfg, run) && i < |run|
    ensures Inv(run[i])
  {
    if i == 0 {
      assert forall x :: x in BOOT ==> !IsRelease(x);
      forall x | IsRelease(x) ensures OnePlace(run[0], x) {
        assert multiset(BOOT)[x] == 0;
      }
    } else {
      InvHolds(cfg, run, i - 1);
      assert Next(cfg, run[i - 1], run[i - 1 + 1]);
      InvNext(cfg, run[i - 1], run[i]);
    }
  }

  /** A Direct that failed before its release has none to come: the two excuses of
      a sleeping await exclude each other. */
  lemma ReleaseDueOrLost(cfg: Config, run: seq<State>, i: nat, k: Key, id: nat)
    requires IsRun(cfg, run) && i < |run|
    ensures !(InFlight(run[i], Release(k, id)) && Release(k, id) in run[i].hist.dropped)
  {
    InvHolds(cfg, run, i);
    assert IsRelease(Release(k, id));
  }
}
