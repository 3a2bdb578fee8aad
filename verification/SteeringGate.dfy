/** Stop loops end (handleAgentStop, gateBlockCounter): a gate cannot refuse an
    agent's stop forever. */
module SteeringGate {
  import opened Records
  import opened Steering

  const MOST_REFUSALS := AGENT_GATE_BLOCK_BUDGET - 1

  function AtMost(n: nat, bound: nat): nat { if n < bound then n else bound }

  /** The refusals since the last reset are read off the counter, and before that
      each delivery had at most so many. */
  ghost predicate Counted(s: State, k: Key) {
    && Count(s.hist.refusals, k) == AtMost(Count(s.mem.gates, k), MOST_REFUSALS)
    && TallyOf(s.hist.tallies, k).refused
       <= MOST_REFUSALS * TallyOf(s.hist.tallies, k).delivered + Count(s.hist.refusals, k)
  }

  lemma CountsSame(cfg: Config, s: State, pid: Pid, op: Op, c: Choice)
    requires !op.Gate? && !op.ResetGate?
    ensures MemoryAfter(cfg, s.store, s.mem, pid, op, c).gates == s.mem.gates
    ensures HistoryAfter(cfg, s, op, c).refusals == s.hist.refusals
    ensures HistoryAfter(cfg, s, op, c).tallies == s.hist.tallies
  {
  }

  lemma CountedStep(cfg: Config, s: State, pid: Pid, c: Choice, k: Key)
    requires Counted(s, k) && Runnable(s, pid)
    ensures Counted(Stepped(cfg, s, pid, c), k)
  {
    var op := s.conts[pid][0];
    if !Fails(s, op, c) && !op.Gate? && !op.ResetGate? {
      CountsSame(cfg, s, pid, op, c);
    }
  }

  lemma {:induction false} CountsHold(cfg: Config, run: seq<State>, i: nat, k: Key)
    requires IsRun(cfg, run) && i < |run|
    ensures Counted(run[i], k)
  {
    if i > 0 {
      CountsHold(cfg, run, i - 1, k);
      assert Next(cfg, run[i - 1], run[i - 1 + 1]);
      CountedNext(cfg, run[i - 1], run[i], k);
    }
  }

  lemma CountedNext(cfg: Config, s: State, s': State, k: Key)
    requires Counted(s, k) && Next(cfg, s, s')
    ensures Counted(s', k)
  {
    if pid: Pid, c: Choice :| Runnable(s, pid) && Enabled(s, pid, c) && s' == Stepped(cfg, s, pid, c) {
      CountedStep(cfg, s, pid, c, k);
    }
  }

  /** In every interleaving, fewer than the budget of an agent's stops are
      refused between two resets of its counter. */
  lemma RefusalsBounded(cfg: Config, run: seq<State>, i: nat, k: Key)
    requires IsRun(cfg, run) && i < |run|
    ensures Count(run[i].hist.refusals, k) < AGENT_GATE_BLOCK_BUDGET
  {
    CountsHold(cfg, run, i, k);
  }

  /** Stop loops end, in every interleaving and whatever the gate says: since an
      agent's stop was last let through (or the daemon started), fewer than
      3*(D+1) of its stops were answered otherwise, D of them with a delivery. */
  lemma StopsEnd(cfg: Config, run: seq<State>, i: nat, k: Key)
    requires IsRun(cfg, run) && i < |run|
    ensures var t := TallyOf(run[i].hist.tallies, k);
      t.delivered + t.refused < AGENT_GATE_BLOCK_BUDGET * (t.delivered + 1)
  {
    CountsHold(cfg, run, i, k);
  }

  // ---- Successive stops of one agent ----

  /** Blocked: the stop delivered pending directives. */
  datatype StopReply = Blocked | Refused | Allowed

  /** What one stop finds: a pending directive, and the gate's verdict. */
  datatype StopInput = StopInput(pending: bool, gateAllows: bool)

  /** The replies to stops that run one after the other from counter `blocks`. */
  function Replies(blocks: nat, stops: seq<StopInput>): (replies: seq<StopReply>)
    ensures |replies| == |stops|
    decreases |stops|
  {
    if stops == [] then []
    else if stops[0].pending then [Blocked] + Replies(0, stops[1..])
    else if stops[0].gateAllows || blocks + 1 >= AGENT_GATE_BLOCK_BUDGET then [Allowed] + Replies(0, stops[1..])
    else [Refused] + Replies(blocks + 1, stops[1..])
  }

  function Deliveries(replies: seq<StopReply>): nat {
    if replies == [] then 0
    else (if replies[0].Blocked? then 1 else 0) + Deliveries(replies[1..])
  }

  /** The same of stops that run one after the other, whatever the counter starts
      at: a run of them with D deliveries that is never allowed is shorter than
      3*(D+1). */
  lemma {:induction false} SuccessiveStopsEnd(blocks: nat, stops: seq<StopInput>)
    requires Allowed !in Replies(blocks, stops)
    ensures |stops| + AtMost(blocks, MOST_REFUSALS) < AGENT_GATE_BLOCK_BUDGET * (Deliveries(Replies(blocks, stops)) + 1)
    decreases |stops|
  {
    if stops != [] {
      var replies := Replies(blocks, stops);
      var next := if stops[0].pending then 0 else blocks + 1;
      assert replies[1..] == Replies(next, stops[1..]);
      assert replies[0] in replies;
      assert forall r :: r in replies[1..] ==> r in replies;
      SuccessiveStopsEnd(next, stops[1..]);
    }
  }

  /** The counter as the daemon keeps it, and the handler's use of it. */
  class GateBlockCounter {
    var counts: map<Key, nat>

    constructor ()
      ensures counts == map[]
    {
      counts := map[];
    }

    method Incr(k: Key) returns (n: nat)
      modifies this
      ensures n == Count(old(counts), k) + 1
      ensures counts == old(counts)[k := n]
    {
      counts := counts[k := Count(counts, k) + 1];
      n := counts[k];
    }

    method Reset(k: Key)
      modifies this
      ensures counts == old(counts) - {k}
    {
      counts := counts - {k};
    }

    /** The stop handler's use of the counter, run alone: its reply and its
        counter are those of the first of a run of stops. Racing stops and a
        failed append can leave the counter at the budget or past it. */
    method HandleAgentStop(k: Key, stop: StopInput) returns (reply: StopReply)
      modifies this
      ensures [reply] == Replies(Count(old(counts), k), [stop])
      ensures Count(counts, k) == if reply.Refused? then Count(old(counts), k) + 1 else 0
      ensures Count(old(counts), k) < AGENT_GATE_BLOCK_BUDGET ==> Count(counts, k) < AGENT_GATE_BLOCK_BUDGET
      ensures counts - {k} == old(counts) - {k}
    {
      if stop.pending {
        Reset(k);
        return Blocked;
      }
      if !stop.gateAllows {
        var n := Incr(k);
        if n < AGENT_GATE_BLOCK_BUDGET {
          return Refused;
        }
      }
      Reset(k);
      return Allowed;
    }
  }
}
