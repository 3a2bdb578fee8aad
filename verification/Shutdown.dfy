/** The shutdown fence (daemon/server.go Dispatch, Drain, Close, closeAfterPresence;
    sse/sse.go presence; daemon/workers.go): admitted work, debounce timers and
    presence callbacks race with the two shutdown stages over one store. */
module Shutdown {
  import opened Records
  import opened Workers

  /** How far the shutdown is. A Close that waited in vain leaves the store open
      and may be called again. */
  datatype Stage = Serving | Refusing | Draining | Drained | Closing | Quiet | Closed

  datatype State = State(
    serving: bool,
    group: Group,
    gate: Gate,
    storeOpen: bool,
    stage: Stage,
    /** Whether the drain's wait ended without an error. */
    waited: bool,
    /** Dispatch calls past their serving check, and not admitted yet. */
    checked: set<nat>,
    /** Dispatch calls, streams and workers that hold a release. */
    admitted: set<nat>,
    /** Streams whose connect callback runs. */
    announcing: set<nat>,
    /** Timers: running; gone off, before their lock; with their callback running. */
    armed: set<nat>,
    fired: set<nat>,
    emitting: set<nat>)

  datatype Step =
    | Check(c: nat)
    | AdmitChecked(c: nat)
    | Admit(c: nat)
    | Leave(c: nat)
    | Announce(c: nat)
    | AnnounceDone(c: nat)
    | Detach(c: nat, timer: nat)
    | GoOff(timer: nat)
    | Enter(timer: nat)
    | EmitDone(timer: nat)
    | Refuse
    | CloseWorkers
    | EndWait(ok: bool)
    | ClosePresence
    | PresenceQuiet
    | PresenceTimeout
    | CloseState

  predicate Enabled(s: State, step: Step) {
    match step
    case Check(c) => s.serving && c !in s.checked && c !in s.admitted
    case AdmitChecked(c) => c in s.checked
    case Admit(c) => c !in s.checked && c !in s.admitted
    case Leave(c) => c in s.admitted && c !in s.announcing
    case Announce(c) => c in s.admitted && c !in s.announcing
    case AnnounceDone(c) => c in s.announcing
    case Detach(c, timer) =>
      c in s.admitted && c !in s.announcing && timer !in s.armed && timer !in s.fired && timer !in s.emitting
    case GoOff(timer) => timer in s.armed
    case Enter(timer) => timer in s.fired
    case EmitDone(timer) => timer in s.emitting
    case Refuse => s.stage == Serving
    case CloseWorkers => s.stage == Refusing
    case EndWait(ok) => s.stage == Draining && (ok ==> s.group.drains > 0)
    case ClosePresence => s.stage == Drained
    case PresenceQuiet => s.stage == Closing && s.gate.emitting == 0
    case PresenceTimeout => s.stage == Closing
    case CloseState => s.stage == Quiet
  }

  function Admitting(s: State, c: nat): State {
    match Entered(s.group)
    case None => s.(checked := s.checked - {c})
    case Some(g) => s.(checked := s.checked - {c}, group := g, admitted := s.admitted + {c})
  }

  function After(s: State, step: Step): State {
    match step
    case Check(c) => s.(checked := s.checked + {c})
    case AdmitChecked(c) => Admitting(s, c)
    case Admit(c) => Admitting(s, c)
    case Leave(c) => s.(group := Left(s.group), admitted := s.admitted - {c})
    case Announce(c) =>
      (match Announced(s.gate)
       case None => s
       case Some(p) => s.(gate := p, announcing := s.announcing + {c}))
    case AnnounceDone(c) => s.(gate := Emitted(s.gate), announcing := s.announcing - {c})
    case Detach(_, timer) =>
      s.(gate := Debounced(s.gate, timer), armed := if s.gate.closed then s.armed else s.armed + {timer})
    case GoOff(timer) => s.(armed := s.armed - {timer}, fired := s.fired + {timer})
    case Enter(timer) =>
      s.(gate := Fired(s.gate, timer), fired := s.fired - {timer},
         emitting := if timer in s.gate.disconnects then s.emitting + {timer} else s.emitting)
    case EmitDone(timer) => s.(gate := Emitted(s.gate), emitting := s.emitting - {timer})
    case Refuse => s.(serving := false, stage := Refusing)
    case CloseWorkers => s.(group := Shut(s.group), stage := Draining)
    case EndWait(ok) => s.(stage := Drained, waited := ok)
    case ClosePresence =>
      s.(gate := GateShut(s.gate), armed := s.armed - s.gate.disconnects, stage := Closing)
    case PresenceQuiet => s.(stage := Quiet)
    case PresenceTimeout => s.(stage := Drained)
    case CloseState => s.(storeOpen := false, stage := Closed)
  }

  ghost predicate Next(s: State, s': State) {
    exists step :: Enabled(s, step) && s' == After(s, step)
  }

  /** A daemon whose store is open; a start that fails never serves. */
  predicate Initial(s: State) {
    && s.group == Group(0, false, 0) && s.gate == Gate(false, {}, 0)
    && s.storeOpen && s.stage == Serving && !s.waited
    && s.checked == s.admitted == s.announcing == s.armed == s.fired == s.emitting == {}
  }

  ghost predicate IsRun(run: seq<State>) {
    && run != [] && Initial(run[0])
    && forall i, j :: 0 <= i < j < |run| && j == i + 1 ==> Next(run[i], run[j])
  }

  // ---- What every state keeps ----

  predicate Counted(s: State) {
    Settled(s.group) && s.group.active == |s.admitted| && s.announcing <= s.admitted && s.checked !! s.admitted
  }

  predicate Callbacks(s: State) { s.gate.emitting == |s.announcing| + |s.emitting| }

  predicate Timed(s: State) {
    && s.armed !! s.fired && s.armed !! s.emitting && s.fired !! s.emitting
    && s.armed <= s.gate.disconnects <= s.armed + s.fired
    && (s.gate.closed ==> s.gate.disconnects == {})
  }

  predicate Staged(s: State) {
    && (s.stage.Serving? || s.stage.Refusing? || s.group.closed)
    && (s.stage.Serving? || s.stage.Refusing? || s.stage.Draining? ==> !s.waited)
    && (s.waited ==> s.group.drains > 0)
    && (s.stage.Closing? || s.stage.Quiet? || s.stage.Closed? ==> s.gate.closed)
    && (s.stage.Quiet? || s.stage.Closed? ==> s.gate.emitting == 0)
    && (s.storeOpen <==> !s.stage.Closed?)
  }

  predicate Inv(s: State) { Counted(s) && Callbacks(s) && Timed(s) && Staged(s) }

  lemma NextCounted(s: State, step: Step)
    requires Counted(s) && Enabled(s, step)
    ensures Counted(After(s, step))
  {
    match step
    case AdmitChecked(c) => AdmittingCounted(s, c);
    case Admit(c) => AdmittingCounted(s, c);
    case Leave(c) => LeaveCounted(s, c);
    case _ =>
  }

  lemma AdmittingCounted(s: State, c: nat)
    requires Counted(s) && c !in s.admitted
    ensures Counted(Admitting(s, c))
  {
  }

  lemma LeaveCounted(s: State, c: nat)
    requires Counted(s) && c in s.admitted && c !in s.announcing
    ensures Counted(After(s, Leave(c)))
  {
    assert s.admitted == (s.admitted - {c}) + {c};
  }

  lemma NextCallbacks(s: State, step: Step)
    requires Callbacks(s) && Timed(s) && Enabled(s, step)
    ensures Callbacks(After(s, step))
  {
    match step
    case AdmitChecked(c) => AdmittingNoCallback(s, c);
    case Admit(c) => AdmittingNoCallback(s, c);
    case AnnounceDone(c) => FewerCallbacks(s.announcing, c);
    case EmitDone(t) => FewerCallbacks(s.emitting, t);
    case Enter(t) => EnterCallbacks(s, t);
    case _ =>
  }

  lemma AdmittingNoCallback(s: State, c: nat)
    requires Callbacks(s)
    ensures Callbacks(Admitting(s, c))
  {
  }

  lemma FewerCallbacks(running: set<nat>, c: nat)
    requires c in running
    ensures |running| == |running - {c}| + 1
  {
    assert running == (running - {c}) + {c};
  }

  lemma EnterCallbacks(s: State, t: nat)
    requires Callbacks(s) && t !in s.emitting
    ensures Callbacks(After(s, Enter(t)))
  {
  }

  lemma NextTimed(s: State, step: Step)
    requires Inv(s) && Enabled(s, step)
    ensures Timed(After(s, step))
  {
  }

  lemma NextStaged(s: State, step: Step)
    requires Inv(s) && Enabled(s, step)
    ensures Staged(After(s, step))
  {
  }

  lemma {:induction false} RunKeepsInv(run: seq<State>, i: nat)
    requires IsRun(run) && i < |run|
    ensures Inv(run[i])
  {
    if i > 0 {
      RunKeepsInv(run, i - 1);
      StepOf(run, i);
      NextKeepsInv(run[i - 1], run[i]);
    }
  }

  lemma NextKeepsInv(s: State, s': State)
    requires Inv(s) && Next(s, s')
    ensures Inv(s')
  {
    var step :| Enabled(s, step) && s' == After(s, step);
    NextCounted(s, step);
    NextCallbacks(s, step);
    NextTimed(s, step);
    NextStaged(s, step);
  }

  // ---- The fence ----

  /** In every state of every run: over a closed store no presence callback runs,
      and none can start; if the drain's wait ended without an error, no admitted
      call, stream or worker is there either, and none can be admitted. */
  lemma StoreClosesBehindTheFence(run: seq<State>, i: nat)
    requires IsRun(run) && i < |run| && !run[i].storeOpen
    ensures run[i].announcing == {} && run[i].emitting == {} && run[i].armed == {}
    ensures Announced(run[i].gate).None?
    ensures forall c :: Enabled(run[i], Announce(c)) ==> After(run[i], Announce(c)) == run[i]
    ensures forall t :: Enabled(run[i], Enter(t)) ==> After(run[i], Enter(t)).emitting == {}
    ensures run[i].waited ==> run[i].admitted == {}
    ensures Entered(run[i].group).None?
  {
    RunKeepsInv(run, i);
  }

  /** Once closed, the store stays closed: the fence holds for the rest of the run. */
  lemma {:induction false} ClosedForGood(run: seq<State>, i: nat, j: nat)
    requires IsRun(run) && i <= j < |run| && !run[i].storeOpen
    ensures !run[j].storeOpen && run[j].waited == run[i].waited
  {
    if i < j {
      ClosedForGood(run, i, j - 1);
      ClosedStage(run, j - 1);
      StepOf(run, j);
      NextStaysClosed(run[j - 1], run[j]);
    }
  }

  lemma StepOf(run: seq<State>, i: nat)
    requires IsRun(run) && 0 < i < |run|
    ensures Next(run[i - 1], run[i])
  {
  }

  lemma ClosedStage(run: seq<State>, i: nat)
    requires IsRun(run) && i < |run|
    ensures run[i].storeOpen <==> !run[i].stage.Closed?
  {
    RunKeepsInv(run, i);
  }

  lemma NextStaysClosed(s: State, s': State)
    requires s.stage.Closed? && !s.storeOpen && Next(s, s')
    ensures !s'.storeOpen && s'.waited == s.waited
  {
    var step :| Enabled(s, step) && s' == After(s, step);
  }

  /** The wait is what the worker half hangs on: here it timed out, and a worker is
      still admitted over the closed store. */
  lemma TimedOutDrainLosesTheWorkers() returns (run: seq<State>)
    ensures IsRun(run)
    ensures var last := run[|run| - 1]; !last.storeOpen && !last.waited && last.admitted == {0}
  {
    run := AdmittedWhileDraining();
    run := Take(run, EndWait(false));
    run := Take(run, ClosePresence);
    run := Take(run, PresenceQuiet);
    run := Take(run, CloseState);
  }

  lemma AdmittedWhileDraining() returns (run: seq<State>)
    ensures IsRun(run)
    ensures run[|run| - 1]
         == State(false, Group(1, true, 0), Gate(false, {}, 0), true, Draining, false, {}, {0}, {}, {}, {}, {})
  {
    var s := State(true, Group(0, false, 0), Gate(false, {}, 0), true, Serving, false, {}, {}, {}, {}, {}, {});
    run := [s];
    run := Take(run, Admit(0));
    run := Take(run, Refuse);
    run := Take(run, CloseWorkers);
  }

  lemma Take(run: seq<State>, step: Step) returns (longer: seq<State>)
    requires IsRun(run) && Enabled(run[|run| - 1], step)
    ensures IsRun(longer) && longer != [] && longer[|longer| - 1] == After(run[|run| - 1], step)
  {
    longer := run + [After(run[|run| - 1], step)];
    assert Next(run[|run| - 1], After(run[|run| - 1], step));
    forall i, j | 0 <= i < j < |longer| && j == i + 1 ensures Next(longer[i], longer[j]) {
      if j < |run| { assert Next(run[i], run[j]); }
    }
  }

  /** The drained channel has been closed exactly once if the group is closed with
      nobody active, and otherwise not at all. */
  lemma DrainedClosesOnce(run: seq<State>, i: nat)
    requires IsRun(run) && i < |run|
    ensures run[i].group.drains == if run[i].group.closed && run[i].admitted == {} then 1 else 0
  {
    RunKeepsInv(run, i);
  }

  // ---- The lifecycle methods, in place ----

  /** The parts of the daemon's server that its shutdown changes. A wait that is
      still blocked answers None. */
  class Lifecycle {
    var serving: bool
    const workers: WorkerGroup
    const gate: PresenceGate
    var storeOpen: bool

    ghost predicate Valid()
      reads this, workers, workers.holders
    {
      workers.Valid()
    }

    constructor ()
      ensures Valid() && fresh(workers) && fresh(gate) && !serving && storeOpen
      ensures workers.Value() == Group(0, false, 0) && gate.Value() == Gate(false, {}, 0)
    {
      serving, storeOpen := false, true;
      workers := new WorkerGroup();
      gate := new PresenceGate();
    }

    /** The admission of one Dispatch call: refused before the product is ready and
        once the drain has begun. */
    method Dispatch() returns (release: Release?)
      requires Valid()
      modifies workers
      ensures Valid() && (release != null <==> serving && !old(workers.closed))
      ensures release != null ==> release in workers.holders
    {
      if !serving {
        return null;
      }
      release := workers.Admit();
    }

    /** Without an error nobody is admitted any more, and nobody will be. */
    method Drain(cancelled: bool) returns (ok: Option<bool>)
      requires Valid()
      modifies this`serving, workers
      ensures Valid() && !serving && workers.Value() == Shut(old(workers.Value()))
      ensures ok == Some(true) ==> workers.holders == {}
    {
      serving := false;
      workers.Close();
      ok := workers.Wait(cancelled);
    }

    /** The store closes only behind a shut gate with no callback running, and is
        left open when the wait is given up. */
    method CloseAfterPresence(cancelled: bool) returns (ok: Option<bool>)
      requires gate.emitting >= 0
      modifies this`storeOpen, gate
      ensures gate.Value() == GateShut(old(gate.Value()))
      ensures storeOpen == (old(storeOpen) && ok != Some(true))
      ensures ok == Some(true) ==> gate.emitting == 0
      ensures ok == None ==> gate.emitting > 0
    {
      var stopped := gate.CloseGate();
      if cancelled {
        return Some(false);
      }
      if gate.emitting > 0 {
        return None;
      }
      storeOpen := false;
      ok := Some(true);
    }
  }
}
