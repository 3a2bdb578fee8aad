/** The agent steering plane as a protocol (daemon/agents.go, daemon/parks.go,
    daemon/subscriptions.go, daemon/events.go over the store).

    Every call is a continuation: the sequence of atomic steps it has yet to
    take. One step of one call runs the head of its continuation, which may put
    new steps in front of the rest; any number of calls interleave. A store
    transaction, a critical section under a registry mutex and a channel
    operation are one step each.

    A failing step unwinds its call the way Go's early return does: the steps up
    to the nearest place that only logs the error (EndTry) are abandoned, except
    the deferred ones. `dropped` remembers every abandoned step, so theorems can
    say precisely which errors they need to be absent. */
module Steering {
  import opened Records
  import D = Directives
  import L = EventLog
  import A = Agents
  import S = Subscriptions

  type Pid = nat
  type Chan = nat

  const AGENT_GATE_BLOCK_BUDGET := 3
  const SUPERSEDED_DIRECTIVE := "A newer handler superseded this one on the subject; stop and exit."

  /** Who drains a mailbox, and hence what happens after the drain. */
  datatype Via = StopGate | Hook | AwaitFirst(chan: Chan) | AwaitAgain

  datatype Op =
    | Enqueue(key: Key, origin: Origin, text: string)
    | Persist(event: Event)
    | Tee(event: Event)
    | Release(key: Key, id: nat)
    | Drain(key: Key, via: Via)
    | Lookup(key: Key)
    | Gate(key: Key)
    | ResetGate(key: Key, delivered: bool)
    | Close(key: Key, swept: bool)
    | PeekStranded(key: Key)
    | LockRegister
    | RegisterRow(key: Key, agentType: string)
    | Subscribe(key: Key, agentType: string)
    | Sweep(key: Key, agentType: string)
    | Settle(key: Key, agentType: string)
    | UnlockRegister
    | Unsubscribe(key: Key)
    | Park(key: Key)
    | Await(key: Key, chan: Chan)
    | ParkDone(key: Key, chan: Chan)
    | Reconcile
    | RebuildSubscriptions
    | Serve
    | EndTry

  datatype Config = Config(subscribe: S.SubscribeFunc, singleton: bool, greeting: Key -> string)

  datatype Store = Store(agents: A.Table, directives: seq<Directive>, log: seq<EventRow>)

  datatype Memory = Memory(
    waiters: map<Key, Chan>,
    signalled: set<Chan>,
    nextChan: nat,
    subs: S.Registry,
    gates: map<Key, nat>,
    lock: Option<Pid>,
    serving: bool)

  /** One running-to-done transition: whose, whether a sweep made it, and whether
      the log held the agent's agent.started by then. */
  datatype Transition = Transition(key: Key, swept: bool, started: bool)

  /** How an agent's stops were answered since one was last let through: with the
      directives they delivered, or with the gate's refusal. */
  datatype Tally = Tally(delivered: nat, refused: nat)

  /** What happened, for the theorems to speak of. No step's effect on the store
      or the memory reads it. Of the agents whose registry entry may not be what
      their row asks for, `pruned` holds those that the last boot left without
      one, `unset` those registered over an entry that their type does not ask for
      and not subscribed since, `cut` those unsubscribed while their row ran, and
      `late` those subscribed while their row did not. `lostRelays` says how many
      directives there were when an agent's relay was last lost. */
  datatype History = History(
    drains: seq<D.Drain>,
    closes: seq<Transition>,
    dropped: set<Op>,
    settled: map<S.Group, string>,
    pruned: set<Key>,
    unset: set<Key>,
    cut: set<Key>,
    late: set<Key>,
    lostRelays: map<Key, nat>,
    refusals: map<Key, nat>,
    tallies: map<Key, Tally>)

  datatype State = State(store: Store, mem: Memory, hist: History, conts: map<Pid, seq<Op>>)

  /** What the environment decides about a step: the clock, whether the step
      fails, the agent gate's verdict, which select case an await takes, and the
      order in which a set is listed. */
  datatype Wake = Cancelled | TimedOut | Released
  datatype Choice = Choice(now: int, fails: bool, gateAllows: bool, wake: Wake, order: seq<Key>)

  // ---- Errors ----

  predicate IsDeferred(op: Op) { op.ParkDone? || op.UnlockRegister? }

  /** What is left of a call after an error at its head. */
  function Unwind(cont: seq<Op>): seq<Op> {
    if cont == [] then []
    else if cont[0].EndTry? then cont[1..]
    else if IsDeferred(cont[0]) then [cont[0]] + Unwind(cont[1..])
    else Unwind(cont[1..])
  }

  /** The steps that the error abandons. */
  function Abandoned(cont: seq<Op>): set<Op> {
    if cont == [] || cont[0].EndTry? then {}
    else if IsDeferred(cont[0]) then Abandoned(cont[1..])
    else {cont[0]} + Abandoned(cont[1..])
  }

  /** The steps that go through the store and so may fail. */
  predicate Fallible(op: Op) {
    || op.Enqueue? || op.Persist? || op.Drain? || op.Lookup? || op.Close? || op.PeekStranded?
    || op.RegisterRow? || op.Sweep? || op.Reconcile? || op.RebuildSubscriptions?
  }

  /** The store's own ErrNotFound. */
  predicate NotFound(st: Store, op: Op) {
    match op
    case Enqueue(k, _, _) => k.agent != TopLevel && k !in st.agents.rows
    case Lookup(k) => k !in st.agents.rows
    case Close(k, _) => k !in st.agents.rows
    case _ => false
  }

  // ---- The calls ----

  datatype Call =
    | DirectCall(key: Key, origin: Origin, text: string)
    | AppendCall(event: Event)
    | InjectCall(key: Key)
    | StopCall(key: Key)
    | AwaitCall(key: Key)
    | StartCall(key: Key, agentType: string)
    | ReconcileCall

  /** The requests the handlers accept: agent-start and agent-stop need an agent
      id, and only the plane itself appends `agent.*` lifecycle events. */
  predicate Admissible(call: Call) {
    match call
    case StartCall(k, _) => k.agent != TopLevel
    case StopCall(k) => k.agent != TopLevel
    case AppendCall(e) => e.body.Domain? && !e.dedup.StartedOnce?
    case _ => true
  }

  function Program(call: Call): seq<Op> {
    match call
    case DirectCall(k, o, t) => [Enqueue(k, o, t)]
    case AppendCall(e) => [Persist(e)]
    case InjectCall(k) => [Drain(k, Hook)]
    case StopCall(k) => [Drain(k, StopGate)]
    case AwaitCall(k) => [Park(k)]
    case StartCall(k, t) =>
      [LockRegister, RegisterRow(k, t), Persist(StartedEvent(k)), Subscribe(k, t), UnlockRegister]
    case ReconcileCall => [Reconcile]
  }

  /** Boot runs before the daemon serves (activateServing). */
  const BOOT: seq<Op> := [Reconcile, RebuildSubscriptions, Serve]

  // ---- One step ----

  ghost predicate InFlight(s: State, op: Op) {
    exists p :: p in s.conts && op in s.conts[p]
  }

  function Subscribers(subs: S.Registry, e: Event): set<Key> {
    if e.origin == OriginAgent || !e.body.Domain? then {}
    else set k | k in subs && k.subject == e.subject && e.body.eventType in subs[k]
  }

  function Stranded(st: Store): set<Key> {
    set k | k in st.agents.rows && A.IsStranded(st.agents, st.directives, k)
  }

  /** Each subscriber gets a Direct whose failure is only logged. */
  function TeeAll(order: seq<Key>, payload: string): seq<Op> {
    if order == [] then [] else
      [Enqueue(order[0], OriginEvent, payload), EndTry] + TeeAll(order[1..], payload)
  }

  /** What the sweep does to one loser. */
  function SweepOne(k: Key): seq<Op> {
    [Unsubscribe(k), Enqueue(k, OriginSupersede, SUPERSEDED_DIRECTIVE), Close(k, true)]
  }

  function SweepAll(losers: seq<Key>, keep: Key): seq<Op> {
    if losers == [] then [] else
      (if losers[0] == keep then [] else SweepOne(losers[0])) + SweepAll(losers[1..], keep)
  }

  function RelayAll(order: seq<Key>): seq<Op> {
    if order == [] then [] else [Persist(RelayEvent(order[0]))] + RelayAll(order[1..])
  }

  /** A step that announces a stranded directive, and whose. */
  predicate IsRelayDuty(op: Op) {
    op.PeekStranded? || (op.Persist? && op.event.body.Relay?)
  }

  function RelayKey(op: Op): Key
    requires IsRelayDuty(op)
  {
    if op.PeekStranded? then op.key else Key(op.event.subject, op.event.body.agent)
  }

  /** The relays among the steps that are lost now, with n directives enqueued. */
  function LostRelays(lost: map<Key, nat>, ops: set<Op>, n: nat): map<Key, nat> {
    lost + map k | k in RelayKeys(ops) :: n
  }

  function RelayKeys(ops: set<Op>): set<Key> {
    set o | o in ops && IsRelayDuty(o) :: RelayKey(o)
  }

  function Count(m: map<Key, nat>, k: Key): nat {
    if k in m then m[k] else 0
  }

  function TallyOf(m: map<Key, Tally>, k: Key): Tally {
    if k in m then m[k] else Tally(0, 0)
  }

  function AfterDrain(k: Key, via: Via, ids: seq<nat>): seq<Op> {
    if ids == [] then
      match via
      case StopGate => [Lookup(k)]
      case Hook => []
      case AwaitFirst(ch) => [Await(k, ch)]
      case AwaitAgain => []
    else
      var record := Persist(DeliveredEvent(k, ids));
      match via
      case StopGate => [ResetGate(k, true), record]
      case Hook => [record]
      // writeAwaitDirectives: the delivered append is best effort
      case AwaitFirst(_) => [record, EndTry]
      case AwaitAgain => [record, EndTry]
  }

  predicate Runnable(s: State, pid: Pid) {
    pid in s.conts && s.conts[pid] != []
  }

  /** The head step can run now with this choice. */
  ghost predicate Enabled(s: State, pid: Pid, c: Choice)
    requires Runnable(s, pid)
  {
    match s.conts[pid][0]
    case LockRegister => s.mem.lock == None
    case Await(_, ch) => c.wake == Released ==> ch in s.mem.signalled
    case Tee(e) => Enumerates(c.order, Subscribers(s.mem.subs, e))
    case Reconcile => Enumerates(c.order, Stranded(s.store))
    case _ => true
  }

  /** What a successful step does to the tables. */
  function StoreAfter(st: Store, op: Op, c: Choice): Store {
    Store(AgentsAfter(st.agents, op), DirectivesAfter(st, op, c), if op.Persist? then L.Appended(st.log, op.event) else st.log)
  }

  function AgentsAfter(t: A.Table, op: Op): A.Table {
    if op.Close? then A.Closed(t, op.key)
    else if op.RegisterRow? then A.Registered(t, op.key, op.agentType)
    else t
  }

  function DirectivesAfter(st: Store, op: Op, c: Choice): seq<Directive> {
    if op.Enqueue? then st.directives + [D.Enqueued(st.directives, op.key, op.origin, op.text, c.now, |st.log|)]
    else if op.Drain? then D.MarkDelivered(st.directives, op.key)
    else st.directives
  }

  /** What it does to the daemon's memory. */
  function MemoryAfter(cfg: Config, st: Store, m: Memory, pid: Pid, op: Op, c: Choice): Memory {
    Memory(WaitersAfter(m, op),
           SignalledAfter(m, op, c),
           if op.Park? then m.nextChan + 1 else m.nextChan,
           SubsAfter(cfg, st, m.subs, op),
           GatesAfter(m.gates, op, c),
           if op.LockRegister? then Some(pid) else if op.UnlockRegister? then None else m.lock,
           m.serving || op.Serve?)
  }

  function WaitersAfter(m: Memory, op: Op): map<Key, Chan> {
    if op.Park? then m.waiters[op.key := m.nextChan]
    else if op.ParkDone? && op.key in m.waiters && m.waiters[op.key] == op.chan then m.waiters - {op.key}
    else m.waiters
  }

  function SignalledAfter(m: Memory, op: Op, c: Choice): set<Chan> {
    if (op.Release? || op.Park?) && op.key in m.waiters then m.signalled + {m.waiters[op.key]}
    else if op.Await? && c.wake == Released then m.signalled - {op.chan}
    else m.signalled
  }

  function SubsAfter(cfg: Config, st: Store, subs: S.Registry, op: Op): S.Registry {
    if op.Subscribe? then S.WithSubscription(subs, op.key, cfg.subscribe(op.agentType))
    else if op.Unsubscribe? then subs - {op.key}
    else if op.RebuildSubscriptions? then Rebuilt(cfg, st.agents)
    else subs
  }

  function GatesAfter(gates: map<Key, nat>, op: Op, c: Choice): map<Key, nat> {
    if op.Gate? && !c.gateAllows then gates[op.key := Count(gates, op.key) + 1]
    else if op.ResetGate? then gates - {op.key}
    else gates
  }

  ghost predicate IsLogged(log: seq<EventRow>, e: Event) {
    exists i :: 0 <= i < |log| && log[i].event == e
  }

  /** k's entry is the one for these types. */
  predicate Fits(subs: S.Registry, k: Key, types: set<string>) {
    if types == {} then k !in subs else k in subs && subs[k] == types
  }

  /** What the agent's row asks for. */
  function Asked(cfg: Config, t: A.Table, k: Key): set<string> {
    if k in t.rows then cfg.subscribe(t.rows[k].agentType) else {}
  }

  /** The agent runs, and its type asks for a subscription. */
  predicate Subscribed(cfg: Config, t: A.Table, k: Key) {
    A.IsRunning(t, k) && cfg.subscribe(t.rows[k].agentType) != {}
  }

  /** What it adds to the record of what happened. */
  ghost function HistoryAfter(cfg: Config, s: State, op: Op, c: Choice): History {
    var h := s.hist;
    History(if op.Drain? then D.RecordDrain(h.drains, s.store.directives, op.key) else h.drains,
            ClosesAfter(s, op),
            if op.RebuildSubscriptions? then (set o | o in h.dropped && !o.Subscribe?) else h.dropped,
            SettledAfter(h.settled, op),
            PrunedAfter(cfg, s, op),
            UnsetAfter(cfg, s, op),
            CutAfter(cfg, s, op),
            LateAfter(cfg, s, op),
            if op.Reconcile? then map[] else h.lostRelays,
            RefusalsAfter(s, op, c),
            TalliesAfter(s, op, c))
  }

  ghost function ClosesAfter(s: State, op: Op): seq<Transition> {
    if op.Close? && A.IsRunning(s.store.agents, op.key)
    then s.hist.closes + [Transition(op.key, op.swept, IsLogged(s.store.log, StartedEvent(op.key)))]
    else s.hist.closes
  }

  function SettledAfter(settled: map<S.Group, string>, op: Op): map<S.Group, string> {
    if op.RegisterRow? then settled - {S.Group(op.key.subject, op.agentType)}
    else if op.Settle? then settled[S.Group(op.key.subject, op.agentType) := op.key.agent]
    else settled
  }

  function PrunedAfter(cfg: Config, s: State, op: Op): set<Key> {
    if op.RegisterRow? then s.hist.pruned - {op.key}
    else if op.RebuildSubscriptions? then Pruned(cfg, s.store.agents)
    else s.hist.pruned
  }

  function UnsetAfter(cfg: Config, s: State, op: Op): set<Key> {
    match op
    case RegisterRow(k, t) => if Fits(s.mem.subs, k, cfg.subscribe(t)) then s.hist.unset - {k} else s.hist.unset + {k}
    case Subscribe(k, _) => s.hist.unset - {k}
    case Unsubscribe(k) =>
      if Fits(s.mem.subs - {k}, k, Asked(cfg, s.store.agents, k)) then s.hist.unset - {k} else s.hist.unset
    case RebuildSubscriptions => {}
    case _ => s.hist.unset
  }

  function CutAfter(cfg: Config, s: State, op: Op): set<Key> {
    match op
    case RegisterRow(k, _) => s.hist.cut - {k}
    case Subscribe(k, _) => s.hist.cut - {k}
    case Unsubscribe(k) => if Subscribed(cfg, s.store.agents, k) then s.hist.cut + {k} else s.hist.cut
    case Close(k, _) => if A.IsRunning(s.store.agents, k) then s.hist.cut - {k} else s.hist.cut
    case RebuildSubscriptions => {}
    case _ => s.hist.cut
  }

  function LateAfter(cfg: Config, s: State, op: Op): set<Key> {
    match op
    case Subscribe(k, t) =>
      if cfg.subscribe(t) != {} && !A.IsRunning(s.store.agents, k) then s.hist.late + {k} else s.hist.late - {k}
    case Unsubscribe(k) => s.hist.late - {k}
    case RebuildSubscriptions => {}
    case _ => s.hist.late
  }

  function RefusalsAfter(s: State, op: Op, c: Choice): map<Key, nat> {
    if op.Gate? && Refuses(s.mem, op.key, c) then s.hist.refusals[op.key := Count(s.hist.refusals, op.key) + 1]
    else if op.ResetGate? then s.hist.refusals - {op.key}
    else s.hist.refusals
  }

  function TalliesAfter(s: State, op: Op, c: Choice): map<Key, Tally> {
    var tallies := s.hist.tallies;
    if op.Gate? && Refuses(s.mem, op.key, c) then
      var tally := TallyOf(tallies, op.key);
      tallies[op.key := tally.(refused := tally.refused + 1)]
    else if op.ResetGate? then
      var tally := TallyOf(tallies, op.key);
      if op.delivered then tallies[op.key := tally.(delivered := tally.delivered + 1)] else tallies - {op.key}
    else tallies
  }

  /** A stop is refused while its count stays below the budget. */
  predicate Refuses(m: Memory, k: Key, c: Choice) {
    !c.gateAllows && Count(m.gates, k) + 1 < AGENT_GATE_BLOCK_BUDGET
  }

  /** The running agents that the boot loop leaves without the subscription
      their type asks for. */
  function Pruned(cfg: Config, t: A.Table): set<Key> {
    set k | k in t.rows && Subscribed(cfg, t, k) && k !in Rebuilt(cfg, t)
  }

  /** The steps it schedules in front of the rest of its call. */
  function Front(cfg: Config, s: State, op: Op, c: Choice): seq<Op> {
    match op
    case Enqueue(k, o, t) =>
      var d := D.Enqueued(s.store.directives, k, o, t, c.now, |s.store.log|);
      [Persist(DirectedEvent(d)), Release(k, d.id)]
      + if k.agent != TopLevel && A.IsDone(s.store.agents, k) then [Persist(RelayEvent(k))] else []
    case Persist(e) => [Tee(e)]
    case Tee(e) => if e.body.Domain? then TeeAll(c.order, e.body.payload) else []
    case Drain(k, via) => AfterDrain(k, via, D.Ids(D.Drained(s.store.directives, k)))
    case Lookup(k) => [Gate(k)]
    case Gate(k) =>
      if c.gateAllows then [ResetGate(k, false), Close(k, false)]
      else if Refuses(s.mem, k, c) then []
      else [Persist(ForcedAllowEvent(k)), ResetGate(k, false), Close(k, false)]
    case Close(k, swept) =>
      if !A.IsRunning(s.store.agents, k) then []
      else (if swept then [] else [Unsubscribe(k)])
           + [Persist(StoppedEvent(k, |s.hist.closes|)), PeekStranded(k)]
    case PeekStranded(k) =>
      if D.HasPending(s.store.directives, k, Some(OriginSupersede)) then [Persist(RelayEvent(k))] else []
    case Subscribe(k, t) =>
      if cfg.singleton && cfg.subscribe(t) != {} then [Sweep(k, t), Settle(k, t)] else []
    case Sweep(k, t) => SweepAll(A.RunningOfType(s.store.agents, s.store.agents.order, k.subject, t), k)
    case Park(k) => [Drain(k, AwaitFirst(s.mem.nextChan)), ParkDone(k, s.mem.nextChan)]
    case Await(k, ch) => if c.wake == Cancelled then [] else [Drain(k, AwaitAgain)]
    case Reconcile => RelayAll(c.order)
    case _ => []
  }

  /** The registry that the boot loop derives from the agents table alone. */
  function Rebuilt(cfg: Config, t: A.Table): S.Registry {
    RunningInTable(t, t.order);
    S.Rebuilt(cfg.subscribe, cfg.singleton, t, A.RunningKeys(t, t.order)).subs
  }

  lemma RunningInTable(t: A.Table, keys: seq<Key>)
    ensures forall k :: k in A.RunningKeys(t, keys) ==> k in t.rows
  {
    forall k | k in A.RunningKeys(t, keys) ensures k in t.rows {
      A.RunningKeysMember(t, keys, k);
    }
  }

  /** A first registration is greeted after the lock is released. */
  function Greeting(cfg: Config, st: Store, op: Op): seq<Op> {
    if op.RegisterRow? && op.key !in st.agents.rows && cfg.greeting(op.key) != ""
    then [Enqueue(op.key, OriginSystem, cfg.greeting(op.key))] else []
  }

  predicate Fails(s: State, op: Op, c: Choice) {
    NotFound(s.store, op) || (c.fails && Fallible(op))
  }

  function Losing(h: History, ops: set<Op>, n: nat): History {
    h.(dropped := h.dropped + ops, lostRelays := LostRelays(h.lostRelays, ops, n))
  }

  function Failed(s: State, pid: Pid): State
    requires Runnable(s, pid)
  {
    s.(conts := s.conts[pid := Unwind(s.conts[pid])],
       hist := Losing(s.hist, Abandoned(s.conts[pid]), |s.store.directives|))
  }

  ghost function Succeeded(cfg: Config, s: State, pid: Pid, c: Choice): State
    requires Runnable(s, pid)
  {
    var op := s.conts[pid][0];
    State(StoreAfter(s.store, op, c),
          MemoryAfter(cfg, s.store, s.mem, pid, op, c),
          HistoryAfter(cfg, s, op, c),
          s.conts[pid := Front(cfg, s, op, c) + s.conts[pid][1..] + Greeting(cfg, s.store, op)])
  }

  /** One step of call `pid`. */
  ghost function Stepped(cfg: Config, s: State, pid: Pid, c: Choice): State
    requires Runnable(s, pid)
  {
    if Fails(s, s.conts[pid][0], c) then Failed(s, pid) else Succeeded(cfg, s, pid, c)
  }

  function Spawned(s: State, pid: Pid, call: Call): State {
    s.(conts := s.conts[pid := Program(call)])
  }

  /** kill -9: memory is lost, the store survives, and the next process boots. */
  function Crashed(s: State): State {
    State(s.store,
          Memory(map[], {}, s.mem.nextChan, map[], map[], None, false),
          Losing(s.hist, (set p, o | p in s.conts && o in s.conts[p] :: o), |s.store.directives|).(
            refusals := map[], tallies := map[]),
          map[0 := BOOT])
  }

  ghost predicate Next(cfg: Config, s: State, s': State) {
    || (exists pid: Pid, c: Choice :: Runnable(s, pid) && Enabled(s, pid, c) && s' == Stepped(cfg, s, pid, c))
    || (exists pid: Pid, call: Call :: CanSpawn(s, pid, call) && s' == Spawned(s, pid, call))
    || s' == Crashed(s)
  }

  predicate CanSpawn(s: State, pid: Pid, call: Call) {
    s.mem.serving && pid !in s.conts && Admissible(call)
  }

  /** A fresh store, about to boot for the first time. */
  const INIT := State(
    Store(A.EmptyTable, [], []),
    Memory(map[], {}, 0, map[], map[], None, false),
    History([], [], {}, map[], {}, {}, {}, {}, map[], map[], map[]),
    map[0 := BOOT])

  /** Any finite run: the states a daemon (and its successors) can go through. */
  ghost predicate IsRun(cfg: Config, run: seq<State>) {
    && run != [] && run[0] == INIT
    && forall i :: 0 <= i < |run| - 1 ==> Next(cfg, run[i], run[i + 1])
  }

  // ---- Bookkeeping that every invariant uses ----

  lemma {:induction false} UnwindKeeps(cont: seq<Op>, op: Op)
    requires op in cont
    ensures op in Unwind(cont) || op in Abandoned(cont) || op == EndTry
  {
    if cont[0] != op {
      assert op in cont[1..];
      if !cont[0].EndTry? {
        UnwindKeeps(cont[1..], op);
      }
    }
  }

  lemma {:induction false} UnwindIsPart(cont: seq<Op>, op: Op)
    requires op in Unwind(cont)
    ensures op in cont
  {
    if !cont[0].EndTry? && op != cont[0] {
      UnwindIsPart(cont[1..], op);
    }
  }

  lemma {:induction false} UnwindTail(cont: seq<Op>, op: Op)
    requires cont != [] && op in Unwind(cont)
    ensures IsDeferred(op) || op in cont[1..]
  {
    if !cont[0].EndTry? && !IsDeferred(op) {
      UnwindIsPart(cont[1..], op);
    }
  }

  /** A pending step stays pending until it is the one that runs, unless an
      error abandons it. */
  lemma StillInFlight(cfg: Config, s: State, pid: Pid, c: Choice, op: Op)
    requires Runnable(s, pid) && InFlight(s, op) && op != EndTry
    ensures var s' := Stepped(cfg, s, pid, c);
      || InFlight(s', op)
      || (op in s'.hist.dropped && Fails(s, s.conts[pid][0], c) && op in Abandoned(s.conts[pid]))
      || (op == s.conts[pid][0] && !Fails(s, op, c))
  {
    var s' := Stepped(cfg, s, pid, c);
    var p :| p in s.conts && op in s.conts[p];
    if p != pid {
      assert op in s'.conts[p];
    } else {
      var cont := s.conts[pid];
      if Fails(s, cont[0], c) {
        UnwindKeeps(cont, op);
        if op in Unwind(cont) { assert op in s'.conts[pid]; }
      } else if op != cont[0] {
        assert op in cont[1..];
        assert op in s'.conts[pid];
      }
    }
  }

  /** The steps a step pushes are in flight after it. */
  lemma PushedInFlight(cfg: Config, s: State, pid: Pid, c: Choice, op: Op)
    requires Runnable(s, pid) && !Fails(s, s.conts[pid][0], c)
    requires op in Front(cfg, s, s.conts[pid][0], c)
    ensures InFlight(Stepped(cfg, s, pid, c), op)
  {
    assert op in Stepped(cfg, s, pid, c).conts[pid];
  }

  lemma SpawnKeeps(s: State, pid: Pid, call: Call, op: Op)
    requires pid !in s.conts && InFlight(s, op)
    ensures InFlight(Spawned(s, pid, call), op)
  {
    var p :| p in s.conts && op in s.conts[p];
    assert op in Spawned(s, pid, call).conts[p];
  }

  lemma {:induction false} RelayAllMember(order: seq<Key>, k: Key)
    requires k in order
    ensures Persist(RelayEvent(k)) in RelayAll(order)
  {
    if order[0] != k {
      RelayAllMember(order[1..], k);
    }
  }
}
