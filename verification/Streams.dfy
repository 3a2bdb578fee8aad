/** A stream never sleeps on an unseen event (event/bus.go, sse/sse.go,
    daemon/events.go): one subject's log, the streams that follow it and the
    appends that grow it, with subscribe, snapshot, send and query as separate
    steps of any number of interleaved parties. */
module Streams {
  import opened Records
  import L = EventLog

  type Id = nat

  /** Where a stream is: connected but not subscribed, about to query, or parked
      in its select. `slot` is its one-slot wakeup channel. */
  datatype Pc = Subscribing | Querying | Parked | Gone
  datatype Stream = Stream(cursor: nat, exclude: Option<Origin>, pc: Pc, slot: bool)

  /** Where an Append is: its row committed, or sending to its snapshot. A
      deduplicated Append publishes too, under the original seq. */
  datatype Appender = Persisted(seqNo: nat) | Sending(seqNo: nat, left: set<Id>)

  datatype State = State(
    subject: string,
    log: seq<EventRow>,
    streams: map<Id, Stream>,
    registered: set<Id>,
    appenders: map<Id, Appender>)

  /** The cursor that flushSince returns: the last row it read, if any. */
  function FlushedCursor(rows: seq<EventRow>, cursor: nat): nat {
    if rows == [] then cursor
    else
      var last := rows[|rows| - 1].seqNo;
      var earlier := FlushedCursor(rows[..|rows| - 1], cursor);
      if last > earlier then last else earlier
  }

  function Queried(s: State, t: Stream): Stream {
    t.(cursor := FlushedCursor(L.EventsSince(s.log, s.subject, t.cursor, t.exclude), t.cursor), pc := Parked)
  }

  datatype Step =
    | Connect(id: Id, cursor: nat, exclude: Option<Origin>)
    | Subscribe(id: Id)
    | Query(id: Id)
    | Wake(id: Id)
    | Leave(id: Id)
    | Commit(id: Id, event: Event)
    | Snapshot(id: Id)
    | Send(id: Id, to: Id)
    | Finish(id: Id)

  predicate Enabled(s: State, step: Step) {
    match step
    case Connect(t, _, _) => t !in s.streams
    case Subscribe(t) => t in s.streams && s.streams[t].pc == Subscribing
    case Query(t) => t in s.streams && s.streams[t].pc == Querying
    case Wake(t) => t in s.streams && s.streams[t].pc == Parked && s.streams[t].slot
    case Leave(t) => t in s.streams && s.streams[t].pc != Gone
    case Commit(a, e) => a !in s.appenders
    case Snapshot(a) => a in s.appenders && s.appenders[a].Persisted?
    case Send(a, t) => a in s.appenders && s.appenders[a].Sending? && t in s.appenders[a].left
    case Finish(a) => a in s.appenders && s.appenders[a].Sending? && s.appenders[a].left == {}
  }

  /** Commit is of this subject's event or another's; only its own concern it. */
  function After(s: State, step: Step): State
    requires Enabled(s, step)
  {
    match step
    case Connect(t, cursor, exclude) => s.(streams := s.streams[t := Stream(cursor, exclude, Subscribing, false)])
    case Subscribe(t) => s.(streams := s.streams[t := s.streams[t].(pc := Querying)], registered := s.registered + {t})
    case Query(t) => s.(streams := s.streams[t := Queried(s, s.streams[t])])
    case Wake(t) => s.(streams := s.streams[t := s.streams[t].(slot := false, pc := Querying)])
    case Leave(t) => s.(streams := s.streams[t := s.streams[t].(pc := Gone)], registered := s.registered - {t})
    case Commit(a, e) =>
      s.(log := L.Appended(s.log, e),
         appenders := if e.subject == s.subject then s.appenders[a := Persisted(L.AppendedSeq(s.log, e))] else s.appenders)
    case Snapshot(a) => s.(appenders := s.appenders[a := Sending(s.appenders[a].seqNo, s.registered)])
    case Send(a, t) =>
      s.(streams := if t in s.streams then s.streams[t := s.streams[t].(slot := true)] else s.streams,
         appenders := s.appenders[a := Sending(s.appenders[a].seqNo, s.appenders[a].left - {t})])
    case Finish(a) => s.(appenders := s.appenders - {a})
  }

  ghost predicate Next(s: State, s': State) {
    exists step :: Enabled(s, step) && s' == After(s, step)
  }

  ghost predicate IsRun(run: seq<State>) {
    && run != [] && run[0] == State(run[0].subject, [], map[], {}, map[])
    && forall i, j :: 0 <= i < j < |run| && j == i + 1 ==> Next(run[i], run[j])
  }

  /** A row the stream would be sent: past its cursor and not of the origin it excludes. */
  predicate Admissible(s: State, t: Stream, r: EventRow) {
    L.Matches(r, s.subject, t.cursor, t.exclude)
  }

  /** The Append of row `seqNo` has yet to send its wakeup to stream `t`. */
  ghost predicate WakeupComing(s: State, t: Id, seqNo: nat) {
    exists a :: a in s.appenders && s.appenders[a].seqNo == seqNo
      && (s.appenders[a].Persisted? || t in s.appenders[a].left)
  }

  ghost predicate Awake(s: State) {
    forall t, r :: (t in s.streams && s.streams[t].pc == Parked && !s.streams[t].slot
                    && r in s.log && Admissible(s, s.streams[t], r)) ==> WakeupComing(s, t, r.seqNo)
  }

  ghost predicate Inv(s: State) {
    && L.GapFree(s.log) && L.DedupUnique(s.log)
    && (forall t :: t in s.streams ==> (t in s.registered <==> s.streams[t].pc == Querying || s.streams[t].pc == Parked))
    && (forall t :: t in s.registered ==> t in s.streams)
    && Awake(s)
  }

  lemma {:induction false} FlushedPastAll(rows: seq<EventRow>, cursor: nat)
    ensures FlushedCursor(rows, cursor) >= cursor
    ensures forall r :: r in rows ==> r.seqNo <= FlushedCursor(rows, cursor)
  {
    if rows != [] {
      FlushedPastAll(rows[..|rows| - 1], cursor);
      assert rows == rows[..|rows| - 1] + [rows[|rows| - 1]];
    }
  }

  /** A query leaves nothing admissible past the cursor. */
  lemma QuerySeesAll(s: State, t: Stream, r: EventRow)
    requires L.GapFree(s.log) && r in s.log
    ensures !Admissible(s, Queried(s, t), r)
  {
    L.EventsSinceExact(s.log, s.subject, t.cursor, t.exclude);
    FlushedPastAll(L.EventsSince(s.log, s.subject, t.cursor, t.exclude), t.cursor);
  }

  lemma ComingKept(s: State, step: Step, t: Id, seqNo: nat)
    requires Inv(s) && Enabled(s, step) && WakeupComing(s, t, seqNo) && t in s.registered
    ensures WakeupComing(After(s, step), t, seqNo) || step == Send(step.id, t)
  {
    var a :| a in s.appenders && s.appenders[a].seqNo == seqNo && (s.appenders[a].Persisted? || t in s.appenders[a].left);
    var s' := After(s, step);
    if step != Send(step.id, t) {
      assert a in s'.appenders && s'.appenders[a].seqNo == seqNo
        && (s'.appenders[a].Persisted? || t in s'.appenders[a].left);
    }
  }

  lemma AwakeAt(s: State, step: Step, t: Id, r: EventRow)
    requires Inv(s) && Enabled(s, step)
    requires var s' := After(s, step);
      t in s'.streams && s'.streams[t].pc == Parked && !s'.streams[t].slot && r in s'.log && Admissible(s', s'.streams[t], r)
    ensures WakeupComing(After(s, step), t, r.seqNo)
  {
    var s' := After(s, step);
    if step == Query(t) {
      QuerySeesAll(s, s.streams[t], r);
    } else {
      assert s.streams[t] == s'.streams[t];
      if r in s.log {
        ComingKept(s, step, t, r.seqNo);
      } else {
        assert step.Commit? && r == s'.log[|s.log|];
        assert s'.appenders[step.id] == Persisted(r.seqNo);
      }
    }
  }

  lemma StepKeepsInv(s: State, step: Step)
    requires Inv(s) && Enabled(s, step)
    ensures Inv(After(s, step))
  {
    var s' := After(s, step);
    if step.Commit? { L.AppendKeepsShape(s.log, step.event); }
    forall t, r | t in s'.streams && s'.streams[t].pc == Parked && !s'.streams[t].slot
                  && r in s'.log && Admissible(s', s'.streams[t], r)
      ensures WakeupComing(s', t, r.seqNo)
    {
      AwakeAt(s, step, t, r);
    }
  }

  lemma InvNext(s: State, s': State)
    requires Inv(s) && Next(s, s')
    ensures Inv(s')
  {
    var step :| Enabled(s, step) && s' == After(s, step);
    StepKeepsInv(s, step);
  }

  lemma {:induction false} InvHolds(run: seq<State>, i: nat)
    requires IsRun(run) && i < |run|
    ensures Inv(run[i])
  {
    if i > 0 {
      InvHolds(run, i - 1);
      InvNext(run[i - 1], run[i]);
    }
  }

  /** In every state of every run, a stream parked in its select with an
      admissible event past its cursor has a wakeup pending, or that event's
      Append has not finished publishing to it. */
  lemma NeverSleepsOnAnEvent(run: seq<State>, i: nat, t: Id, r: EventRow)
    requires IsRun(run) && i < |run|
    requires t in run[i].streams && run[i].streams[t].pc == Parked
    requires r in run[i].log && Admissible(run[i], run[i].streams[t], r)
    ensures run[i].streams[t].slot || WakeupComing(run[i], t, r.seqNo)
  {
    InvHolds(run, i);
  }
}
