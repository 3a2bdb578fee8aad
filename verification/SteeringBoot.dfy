/** What a finished boot has achieved for the mailboxes (reconcileDirectives in
    activateServing): whatever an error or a crash had left unannounced is
    announced. */
module SteeringBoot {
  import opened Records
  import opened Steering
  import A = Agents
  import SteeringMail
  import SteeringRegistry

  /** A boot has its sweep ahead of it as its first step, or has lost no relay since
      the sweep; one that failed does nothing more. */
  ghost predicate Swept(s: State) {
    0 in s.conts && (s.conts[0] == [] || s.conts[0] == BOOT || (Reconcile !in s.conts[0] && s.hist.lostRelays == map[]))
  }

  ghost predicate Inv(s: State) {
    SteeringRegistry.Booting(s) && (!s.mem.serving ==> Swept(s))
  }

  /** Only a call of its own sweeps. */
  lemma FrontSweepsNothing(cfg: Config, s: State, op: Op, c: Choice)
    ensures Reconcile !in Front(cfg, s, op, c)
  {
    match op
    case Tee(e) => SteeringMail.TeeAllOps(c.order, if e.body.Domain? then e.body.payload else "");
    case Sweep(k, t) => SteeringMail.SweepAllOps(A.RunningOfType(s.store.agents, s.store.agents.order, k.subject, t), k);
    case Reconcile => SteeringMail.RelayAllOps(c.order);
    case _ =>
  }

  lemma LossesSame(cfg: Config, s: State, op: Op, c: Choice)
    ensures HistoryAfter(cfg, s, op, c).lostRelays == if op.Reconcile? then map[] else s.hist.lostRelays
  {
  }

  lemma BootStepSwept(cfg: Config, s: State, c: Choice)
    requires Inv(s) && !s.mem.serving && Runnable(s, 0)
    ensures Swept(Stepped(cfg, s, 0, c))
  {
    var cont := s.conts[0];
    if Fails(s, cont[0], c) {
      forall o | o in cont ensures SteeringRegistry.IsBootOp(o) || o.RebuildSubscriptions? || o.Serve? {
        var i :| 0 <= i < |cont| && cont[i] == o;
      }
      SteeringRegistry.BootUnwinds(cont);
    } else {
      SuccessSwept(cfg, s, cont[0], c, cont[1..]);
      assert BOOT[1..] == [RebuildSubscriptions, Serve];
    }
  }

  lemma SuccessSwept(cfg: Config, s: State, op: Op, c: Choice, rest: seq<Op>)
    requires Reconcile !in rest && (op == Reconcile || s.hist.lostRelays == map[])
    ensures Reconcile !in Front(cfg, s, op, c) + rest + Greeting(cfg, s.store, op)
    ensures HistoryAfter(cfg, s, op, c).lostRelays == map[]
  {
    FrontSweepsNothing(cfg, s, op, c);
    LossesSame(cfg, s, op, c);
  }

  lemma StepKeepsInv(cfg: Config, s: State, pid: Pid, c: Choice)
    requires Inv(s) && Runnable(s, pid)
    ensures Inv(Stepped(cfg, s, pid, c))
  {
    SteeringRegistry.BootingStep(cfg, s, pid, c);
    if s.mem.serving {
      SteeringRegistry.ServingStep(cfg, s, pid, c);
    } else {
      assert pid == 0;
      BootStepSwept(cfg, s, c);
    }
  }

  lemma InvNext(cfg: Config, s: State, s': State)
    requires Inv(s) && Next(cfg, s, s') && SteeringRegistry.Booting(s')
    ensures Inv(s')
  {
    if pid: Pid, c: Choice :| Runnable(s, pid) && Enabled(s, pid, c) && s' == Stepped(cfg, s, pid, c) {
      StepKeepsInv(cfg, s, pid, c);
    }
  }

  lemma {:induction false} InvHolds(cfg: Config, run: seq<State>, i: nat)
    requires IsRun(cfg, run) && i < |run|
    ensures Inv(run[i])
  {
    SteeringRegistry.InvHolds(cfg, run, i);
    if i > 0 {
      InvHolds(cfg, run, i - 1);
      assert Next(cfg, run[i - 1], run[i - 1 + 1]);
      InvNext(cfg, run[i - 1], run[i]);
    }
  }

  /** When a boot is about to serve, every stranded directive has an agent.relay
      logged after it was enqueued, whatever errors and crashes came before. */
  lemma BootAnnouncesStranded(cfg: Config, run: seq<State>, i: nat, d: Directive)
    requires IsRun(cfg, run) && i < |run|
    requires !run[i].mem.serving && 0 in run[i].conts && run[i].conts[0] == [Serve]
    requires d in run[i].store.directives && SteeringMail.IsStranded(run[i].store, d)
    ensures SteeringMail.RelayedSince(run[i].store.log, d.loggedBefore, d.key)
  {
    InvHolds(cfg, run, i);
    assert BOOT[0] != Serve;
    SteeringMail.NoDirectiveStranded(cfg, run, i, d);
  }
}
