/** At-least-once delivery end to end (sse/sse.go flushSince and Inject,
    consume/consume.go): a log, a server cursor per connection, a wire, and a
    client whose cursor survives drops, handler failures, kills and daemon swaps. */
module Delivery {
  import opened Records
  import L = EventLog
  import Streams

  /** What the server writes to a stream. */
  datatype Frame =
    | Log(seqNo: nat, payload: string)
    | Keepalive
    | Connected
    | CaughtUp(seqNo: nat)
    | Injected(payload: string)

  /** A payload is opaque text; the store coerces an empty one to an object. */
  function Text(e: Event): (text: string)
    ensures text != ""
  {
    if e.body.Domain? && e.body.payload != "" then e.body.payload else "{}"
  }

  // ---- The server's flush ----

  /** Which rows a connection withholds: for a named consumer, the presence type
      and whatever MuteFrame mutes at that moment. */
  datatype Filter = Filter(named: bool, presenceType: string, muted: EventRow -> bool)

  predicate Withholds(f: Filter, r: EventRow) {
    f.named && ((f.presenceType != "" && r.event.body.Domain? && r.event.body.eventType == f.presenceType) || f.muted(r))
  }

  function Frames(rows: seq<EventRow>, f: Filter): seq<Frame> {
    if rows == [] then [] else
      var r := rows[|rows| - 1];
      Frames(rows[..|rows| - 1], f) + if Withholds(f, r) then [] else [Log(r.seqNo, Text(r.event))]
  }

  /** flushSince: one frame per row that is not withheld; the cursor passes
      withheld rows too. */
  method FlushSince(rows: seq<EventRow>, start: nat, f: Filter) returns (cursor: nat, wrote: seq<Frame>)
    ensures cursor == Streams.FlushedCursor(rows, start)
    ensures wrote == Frames(rows, f)
  {
    cursor, wrote := start, [];
    for i := 0 to |rows|
      invariant cursor == Streams.FlushedCursor(rows[..i], start)
      invariant wrote == Frames(rows[..i], f)
    {
      assert rows[..i + 1][..i] == rows[..i];
      var r := rows[i];
      if r.seqNo > cursor {
        cursor := r.seqNo;
      }
      if Withholds(f, r) {
        continue;
      }
      wrote := wrote + [Log(r.seqNo, Text(r.event))];
    }
    assert rows[..|rows|] == rows;
  }

  // ---- The protocol ----

  /** A connection: the server's cursor, the frames under way, and the id that
      the client's parser last read. `withheld` is a history value: the seqs that
      this connection's flushes withheld. */
  datatype Conn = Conn(sent: nat, wire: seq<Frame>, id: nat, withheld: set<nat>)

  datatype State = State(
    subject: string,
    exclude: Option<Origin>,
    log: seq<EventRow>,
    conn: Option<Conn>,
    cursor: nat,
    disk: nat,
    // history: what was ever handled, and what the cursor, on its last way there,
    // passed under a connection that withheld it
    handled: set<nat>,
    passed: set<nat>)

  /** How the client's handler fares with one frame: it fails; it succeeds, with
      the cursor persisted or not; or the process dies right after it succeeded. */
  datatype Verdict = Failed | Succeeded(persisted: bool) | Killed

  datatype Step =
    | Commit(event: Event)
    | Connect
    | Flush(filter: Filter)
    | Control(frame: Frame)
    | Read(verdict: Verdict)
    | Drop
    | Restart

  predicate Enabled(s: State, step: Step) {
    match step
    case Connect => s.conn.None?
    case Flush(_) => s.conn.Some?
    case Control(f) => s.conn.Some? && !f.Log?
    case Read(_) => s.conn.Some? && s.conn.value.wire != []
    case _ => true
  }

  function WithheldSeqs(rows: seq<EventRow>, f: Filter): set<nat> {
    set r | r in rows && Withholds(f, r) :: r.seqNo
  }

  /** The client's side of one frame: readStream between two blank lines. */
  function AfterRead(s: State, v: Verdict): State
    requires s.conn.Some? && s.conn.value.wire != []
  {
    var c := s.conn.value;
    var frame, rest := c.wire[0], c.wire[1..];
    match frame
    case Log(n, _) => Handled(s.(conn := Some(c.(wire := rest, id := n))), v, {n})
    case Injected(_) => Handled(s.(conn := Some(c.(wire := rest))), v, {})
    case _ => s.(conn := Some(c.(wire := rest)))
  }

  /** The handler ran on a frame under the parser's current id. */
  function Handled(s: State, v: Verdict, events: set<nat>): State
    requires s.conn.Some?
  {
    var c := s.conn.value;
    match v
    case Failed => s.(conn := None)
    case Succeeded(persisted) =>
      s.(cursor := c.id, disk := if persisted then c.id else s.disk, handled := s.handled + events,
         passed := s.passed + set n | n in c.withheld && s.cursor < n <= c.id)
    case Killed => Rewound(s).(handled := s.handled + events)
  }

  /** The process is gone, and its successor resumes from the persisted cursor. */
  function Rewound(s: State): State {
    s.(conn := None, cursor := s.disk, passed := (set n | n in s.passed && n <= s.disk))
  }

  function After(s: State, step: Step): State
    requires Enabled(s, step)
  {
    match step
    case Commit(e) => s.(log := L.Appended(s.log, e))
    // the request carries the cursor as Last-Event-ID, left out when it is 0
    case Connect => s.(conn := Some(Conn(s.cursor, [], s.cursor, {})))
    case Flush(f) =>
      var c := s.conn.value;
      var rows := L.EventsSince(s.log, s.subject, c.sent, s.exclude);
      s.(conn := Some(c.(sent := Streams.FlushedCursor(rows, c.sent), wire := c.wire + Frames(rows, f),
                         withheld := c.withheld + WithheldSeqs(rows, f))))
    case Control(frame) => s.(conn := Some(s.conn.value.(wire := s.conn.value.wire + [frame])))
    case Read(v) => AfterRead(s, v)
    case Drop => s.(conn := None)
    case Restart => Rewound(s)
  }

  ghost predicate Next(s: State, s': State) {
    exists step :: Enabled(s, step) && s' == After(s, step)
  }

  ghost predicate IsRun(run: seq<State>) {
    && run != []
    && run[0] == State(run[0].subject, run[0].exclude, [], None, 0, 0, {}, {})
    && forall i, j :: 0 <= i < j < |run| && j == i + 1 ==> Next(run[i], run[j])
  }

  // ---- The invariant ----

  ghost predicate Excluded(s: State, n: nat) {
    exists r :: r in s.log && r.event.subject == s.subject && r.seqNo == n && Some(r.event.origin) == s.exclude
  }

  /** Row n was handled; or it was withheld, or is excluded, on the connection under
      which the cursor last passed it. */
  ghost predicate Settled(s: State, n: nat) {
    n in s.handled || n in s.passed || Excluded(s, n)
  }

  /** Row n is under way on the connection, or withheld or excluded from it. */
  ghost predicate Covered(s: State, c: Conn, n: nat) {
    n in LogSeqs(c.wire) || n in c.withheld || Excluded(s, n)
  }

  function LogSeqs(wire: seq<Frame>): seq<nat> {
    if wire == [] then [] else (if wire[0].Log? then [wire[0].seqNo] else []) + LogSeqs(wire[1..])
  }

  ghost predicate Ascending(ns: seq<nat>) {
    forall i, j :: 0 <= i < j < |ns| ==> ns[i] < ns[j]
  }

  ghost predicate ConnInv(s: State, c: Conn) {
    && c.id == s.cursor <= c.sent <= L.CountOf(s.log, s.subject)
    && Ascending(LogSeqs(c.wire))
    && (forall n :: n in LogSeqs(c.wire) ==> s.cursor < n <= c.sent)
    && (forall n :: s.cursor < n <= c.sent ==> Covered(s, c, n))
  }

  ghost predicate Inv(s: State) {
    && L.GapFree(s.log) && L.DedupUnique(s.log)
    && s.disk <= s.cursor <= L.CountOf(s.log, s.subject)
    && (forall n :: 0 < n <= s.cursor ==> Settled(s, n))
    && (forall n :: n in s.passed ==> n <= s.cursor)
    && (s.conn.Some? ==> ConnInv(s, s.conn.value))
  }

  lemma LogSeqsCons(f: Frame, rest: seq<Frame>)
    ensures LogSeqs([f] + rest) == (if f.Log? then [f.seqNo] else []) + LogSeqs(rest)
  {
    assert ([f] + rest)[1..] == rest;
  }

  lemma Associative(a: seq<nat>, b: seq<nat>, c: seq<nat>)
    ensures (a + b) + c == a + (b + c)
  {
  }

  lemma {:induction false} LogSeqsAppend(a: seq<Frame>, b: seq<Frame>)
    ensures LogSeqs(a + b) == LogSeqs(a) + LogSeqs(b)
  {
    if a == [] {
      assert a + b == b;
    } else {
      LogSeqsAppend(a[1..], b);
      LogSeqsCons(a[0], a[1..]);
      LogSeqsCons(a[0], a[1..] + b);
      assert a + b == [a[0]] + (a[1..] + b);
      assert a == [a[0]] + a[1..];
      Associative(if a[0].Log? then [a[0].seqNo] else [], LogSeqs(a[1..]), LogSeqs(b));
    }
  }

  lemma {:induction false} FrameSeqs(rows: seq<EventRow>, f: Filter)
    requires forall i, j :: 0 <= i < j < |rows| ==> rows[i].seqNo < rows[j].seqNo
    ensures Ascending(LogSeqs(Frames(rows, f)))
    ensures forall n :: n in LogSeqs(Frames(rows, f)) <==> exists r :: r in rows && !Withholds(f, r) && r.seqNo == n
  {
    if rows != [] {
      var init, r := rows[..|rows| - 1], rows[|rows| - 1];
      assert rows == init + [r];
      FrameSeqs(init, f);
      LastFrameSeq(rows, f);
      var early := LogSeqs(Frames(init, f));
      forall i | 0 <= i < |early| ensures early[i] < r.seqNo {
        assert early[i] in early;
        var q :| q in init && !Withholds(f, q) && q.seqNo == early[i];
      }
    }
  }

  lemma LastFrameSeq(rows: seq<EventRow>, f: Filter)
    requires rows != []
    ensures var init, r := rows[..|rows| - 1], rows[|rows| - 1];
      LogSeqs(Frames(rows, f)) == LogSeqs(Frames(init, f)) + if Withholds(f, r) then [] else [r.seqNo]
  {
    var init, r := rows[..|rows| - 1], rows[|rows| - 1];
    LogSeqsAppend(Frames(init, f), if Withholds(f, r) then [] else [Log(r.seqNo, Text(r.event))]);
    assert LogSeqs([Log(r.seqNo, Text(r.event))]) == [r.seqNo] + LogSeqs([]);
  }

  /** Every seq up to the count has its row. */
  lemma {:induction false} RowExists(log: seq<EventRow>, subject: string, n: nat) returns (r: EventRow)
    requires L.GapFree(log) && 0 < n <= L.CountOf(log, subject)
    ensures r in log && r.event.subject == subject && r.seqNo == n
  {
    var m := |log| - 1;
    var init := log[..m];
    assert log == init + [log[m]];
    if log[m].event.subject == subject && n == L.CountOf(log, subject) {
      r := log[m];
    } else {
      L.GapFreePrefix(log);
      r := RowExists(init, subject, n);
    }
  }

  lemma {:induction false} FlushedInRange(rows: seq<EventRow>, cursor: nat, bound: nat)
    requires cursor <= bound && forall r :: r in rows ==> r.seqNo <= bound
    ensures cursor <= Streams.FlushedCursor(rows, cursor) <= bound
  {
    if rows != [] {
      assert rows[|rows| - 1] in rows;
      assert forall r :: r in rows[..|rows| - 1] ==> r in rows;
      FlushedInRange(rows[..|rows| - 1], cursor, bound);
    }
  }

  /** After a flush, every row between the two server cursors is on the wire,
      withheld, or excluded. */
  lemma FlushCovers(s: State, f: Filter, n: nat)
    requires Inv(s) && s.conn.Some?
    requires var rows := L.EventsSince(s.log, s.subject, s.conn.value.sent, s.exclude);
      s.conn.value.sent < n <= Streams.FlushedCursor(rows, s.conn.value.sent)
    ensures var rows := L.EventsSince(s.log, s.subject, s.conn.value.sent, s.exclude);
      n in LogSeqs(Frames(rows, f)) || n in WithheldSeqs(rows, f) || Excluded(s, n)
  {
    var c := s.conn.value;
    var rows := L.EventsSince(s.log, s.subject, c.sent, s.exclude);
    L.EventsSinceExact(s.log, s.subject, c.sent, s.exclude);
    FlushedInRange(rows, c.sent, L.CountOf(s.log, s.subject));
    var r := RowExists(s.log, s.subject, n);
    FrameSeqs(rows, f);
    if Some(r.event.origin) != s.exclude {
      assert L.Matches(r, s.subject, c.sent, s.exclude);
      assert r in rows;
    }
  }

  lemma FlushKeepsInv(s: State, f: Filter)
    requires Inv(s) && s.conn.Some?
    ensures Inv(After(s, Flush(f)))
  {
    var s' := After(s, Flush(f));
    var c, c' := s.conn.value, s'.conn.value;
    FlushKeepsWire(s, f);
    forall n ensures Excluded(s, n) <==> Excluded(s', n) {}
    forall n | s'.cursor < n <= c'.sent ensures Covered(s', c', n) {
      if n <= c.sent { assert Covered(s, c, n); } else { FlushCovers(s, f, n); }
    }
    forall n | 0 < n <= s'.cursor ensures Settled(s', n) { assert Settled(s, n); }
  }

  lemma FlushKeepsWire(s: State, f: Filter)
    requires Inv(s) && s.conn.Some?
    ensures var s' := After(s, Flush(f));
      var c, c' := s.conn.value, s'.conn.value;
      var rows := L.EventsSince(s.log, s.subject, c.sent, s.exclude);
      && c.sent <= c'.sent <= L.CountOf(s.log, s.subject)
      && LogSeqs(c'.wire) == LogSeqs(c.wire) + LogSeqs(Frames(rows, f))
      && Ascending(LogSeqs(c'.wire))
      && (forall n :: n in LogSeqs(c'.wire) ==> s.cursor < n <= c'.sent)
  {
    var c := s.conn.value;
    var rows := L.EventsSince(s.log, s.subject, c.sent, s.exclude);
    var sent := Streams.FlushedCursor(rows, c.sent);
    L.EventsSinceExact(s.log, s.subject, c.sent, s.exclude);
    FlushedInRange(rows, c.sent, L.CountOf(s.log, s.subject));
    LogSeqsAppend(c.wire, Frames(rows, f));
    NewSeqs(s, f);
    AscendingAppend(LogSeqs(c.wire), LogSeqs(Frames(rows, f)), c.sent);
  }

  lemma NewSeqs(s: State, f: Filter)
    requires Inv(s) && s.conn.Some?
    ensures var c := s.conn.value;
      var rows := L.EventsSince(s.log, s.subject, c.sent, s.exclude);
      && Ascending(LogSeqs(Frames(rows, f)))
      && forall n :: n in LogSeqs(Frames(rows, f)) ==> c.sent < n <= Streams.FlushedCursor(rows, c.sent)
  {
    var c := s.conn.value;
    var rows := L.EventsSince(s.log, s.subject, c.sent, s.exclude);
    L.EventsSinceExact(s.log, s.subject, c.sent, s.exclude);
    FrameSeqs(rows, f);
    Streams.FlushedPastAll(rows, c.sent);
    forall n | n in LogSeqs(Frames(rows, f)) ensures c.sent < n <= Streams.FlushedCursor(rows, c.sent) {
      var r :| r in rows && !Withholds(f, r) && r.seqNo == n;
    }
  }

  lemma AscendingAppend(a: seq<nat>, b: seq<nat>, between: nat)
    requires Ascending(a) && Ascending(b)
    requires (forall n :: n in a ==> n <= between) && (forall n :: n in b ==> between < n)
    ensures Ascending(a + b)
  {
    assert forall i :: 0 <= i < |a| ==> a[i] in a;
    assert forall i :: 0 <= i < |b| ==> b[i] in b;
  }

  lemma CommitKeepsInv(s: State, e: Event)
    requires Inv(s)
    ensures Inv(After(s, Commit(e)))
  {
    var s' := After(s, Commit(e));
    L.AppendKeepsShape(s.log, e);
    assert s'.log[..|s.log|] == s.log;
    L.CountMonotone(s'.log, |s.log|, s.subject);
    assert forall r :: r in s.log ==> r in s'.log;
    forall n ensures Excluded(s, n) ==> Excluded(s', n) {}
    forall n | 0 < n <= s.cursor ensures Settled(s', n) { assert Settled(s, n); }
    if s.conn.Some? {
      forall n | s.cursor < n <= s.conn.value.sent ensures Covered(s', s.conn.value, n) {
        assert Covered(s, s.conn.value, n);
      }
    }
  }

  /** The first log frame on the wire is the lowest. */
  lemma WireHead(wire: seq<Frame>)
    requires wire != [] && wire[0].Log? && Ascending(LogSeqs(wire))
    ensures LogSeqs(wire) == [wire[0].seqNo] + LogSeqs(wire[1..])
    ensures Ascending(LogSeqs(wire[1..]))
    ensures forall n :: n in LogSeqs(wire[1..]) ==> n > wire[0].seqNo
  {
    var seqs, rest := LogSeqs(wire), LogSeqs(wire[1..]);
    assert seqs == [wire[0].seqNo] + rest;
    assert forall i :: 0 <= i < |rest| ==> rest[i] == seqs[i + 1];
    forall n | n in rest ensures n > wire[0].seqNo {
      var i :| 0 <= i < |rest| && rest[i] == n;
      assert seqs[0] < seqs[i + 1];
    }
  }

  lemma ReadKeepsInv(s: State, v: Verdict)
    requires Inv(s) && s.conn.Some? && s.conn.value.wire != []
    ensures Inv(After(s, Read(v)))
  {
    if s.conn.value.wire[0].Log? { ReadLogKeepsInv(s, v); } else { ReadOtherKeepsInv(s, v); }
  }

  lemma ReadLogKeepsInv(s: State, v: Verdict)
    requires Inv(s) && s.conn.Some? && s.conn.value.wire != [] && s.conn.value.wire[0].Log?
    ensures Inv(After(s, Read(v)))
  {
    var s' := After(s, Read(v));
    var c := s.conn.value;
    var n0 := c.wire[0].seqNo;
    WireHead(c.wire);
    assert n0 in LogSeqs(c.wire);
    forall n ensures Excluded(s, n) <==> Excluded(s', n) {}
    forall n | n in LogSeqs(c.wire) ensures n == n0 || (n in LogSeqs(c.wire[1..]) && n > n0) {}
    assert forall n :: n in LogSeqs(c.wire[1..]) ==> n in LogSeqs(c.wire);
    forall n | 0 < n <= s'.cursor ensures Settled(s', n) {
      LogSettles(s, v, n);
    }
    if s'.conn.Some? {
      forall n | s'.cursor < n <= c.sent ensures Covered(s', s'.conn.value, n) { assert Covered(s, c, n); }
    }
  }

  /** What the cursor passes with a log frame, and what it had passed. */
  lemma LogSettles(s: State, v: Verdict, n: nat)
    requires Inv(s) && s.conn.Some? && s.conn.value.wire != [] && s.conn.value.wire[0].Log?
    requires 0 < n <= After(s, Read(v)).cursor
    requires s.conn.value.wire[0].seqNo in LogSeqs(s.conn.value.wire)
    requires forall m :: m in LogSeqs(s.conn.value.wire) ==> m >= s.conn.value.wire[0].seqNo
    ensures Settled(After(s, Read(v)), n)
  {
    var s' := After(s, Read(v));
    if n <= s.cursor {
      assert Settled(s, n);
    } else {
      assert v.Succeeded? && Covered(s, s.conn.value, n);
    }
  }

  lemma ReadOtherKeepsInv(s: State, v: Verdict)
    requires Inv(s) && s.conn.Some? && s.conn.value.wire != [] && !s.conn.value.wire[0].Log?
    ensures Inv(After(s, Read(v)))
  {
    var s' := After(s, Read(v));
    var c := s.conn.value;
    assert LogSeqs(c.wire) == LogSeqs(c.wire[1..]);
    forall n ensures Excluded(s, n) <==> Excluded(s', n) {}
    forall n | 0 < n <= s'.cursor ensures Settled(s', n) { assert Settled(s, n); }
    if s'.conn.Some? {
      forall n | s'.cursor < n <= c.sent ensures Covered(s', s'.conn.value, n) { assert Covered(s, c, n); }
    }
  }

  lemma ControlKeepsInv(s: State, frame: Frame)
    requires Inv(s) && s.conn.Some? && !frame.Log?
    ensures Inv(After(s, Control(frame)))
  {
    LogSeqsAppend(s.conn.value.wire, [frame]);
    assert LogSeqs([frame]) == [] + LogSeqs([]);
    var s' := After(s, Control(frame));
    forall n ensures Excluded(s, n) <==> Excluded(s', n) {}
    forall n | 0 < n <= s.cursor ensures Settled(s', n) { assert Settled(s, n); }
    forall n | s.cursor < n <= s.conn.value.sent ensures Covered(s', s'.conn.value, n) {
      assert Covered(s, s.conn.value, n);
    }
  }

  lemma StepKeepsInv(s: State, step: Step)
    requires Inv(s) && Enabled(s, step)
    ensures Inv(After(s, step))
  {
    match step
    case Commit(e) => CommitKeepsInv(s, e);
    case Flush(f) => FlushKeepsInv(s, f);
    case Control(frame) => ControlKeepsInv(s, frame);
    case Read(v) => ReadKeepsInv(s, v);
    case _ =>
      var s' := After(s, step);
      forall n ensures Excluded(s, n) <==> Excluded(s', n) {}
      forall n | 0 < n <= s'.cursor ensures Settled(s', n) { assert Settled(s, n); }
  }

  lemma InvNext(s: State, s': State)
    requires Inv(s) && Next(s, s')
    ensures Inv(s')
  {
    var step :| Enabled(s, step) && s' == After(s, step);
    StepKeepsInv(s, step);
  }

  lemma {:induction false} InvHolds(run: seq<State>, i: nat)
    requires IsRun(run) && i < |run|
    ensures Inv(run[i])
  {
    if i > 0 {
      InvHolds(run, i - 1);
      InvNext(run[i - 1], run[i]);
    }
  }

  // ---- The theorems ----

  /** At least once: over any run of commits, flushes, drops, handler failures,
      failed cursor writes, kills, restarts and reconnects, every event at or
      below the client's cursor was handled, or was withheld by the connection
      under which the cursor last passed it, or is of the origin the client
      excludes; and the persisted cursor never passes the one in memory. */
  lemma AtLeastOnce(run: seq<State>, i: nat, n: nat)
    requires IsRun(run) && i < |run|
    ensures run[i].disk <= run[i].cursor
    ensures 0 < n <= run[i].cursor ==> n in run[i].handled || n in run[i].passed || Excluded(run[i], n)
  {
    InvHolds(run, i);
    if 0 < n <= run[i].cursor { assert Settled(run[i], n); }
  }

  /** Being passed without being handled is not for good: only a connection that
      itself withheld the event adds it, as the cursor moves over it. */
  lemma PassedOnlyWhileWithheld(s: State, step: Step, n: nat)
    requires Enabled(s, step) && n in After(s, step).passed && n !in s.passed
    ensures s.conn.Some? && n in s.conn.value.withheld && s.cursor < n <= After(s, step).cursor
  {
    match step
    case Read(v) => assert v.Succeeded? && After(s, step) == AfterRead(s, v);
    case _ =>
  }

  /** Nothing that was not sent is ever counted as delivered: the cursor stays
      within the log and within what the connection has flushed. */
  lemma CursorWithinLog(run: seq<State>, i: nat)
    requires IsRun(run) && i < |run|
    ensures run[i].cursor <= L.CountOf(run[i].log, run[i].subject)
    ensures run[i].conn.Some? ==> run[i].cursor <= run[i].conn.value.sent
  {
    InvHolds(run, i);
  }

  /** Keepalives, caught-up markers and injected frames never move the cursor,
      even when their handler succeeds. */
  lemma ControlFramesMoveNothing(run: seq<State>, i: nat, v: Verdict)
    requires IsRun(run) && i < |run| && Enabled(run[i], Read(v)) && !run[i].conn.value.wire[0].Log?
    ensures var s' := After(run[i], Read(v));
      && s'.cursor == (if run[i].conn.value.wire[0].Injected? && v.Killed? then run[i].disk else run[i].cursor)
      && (s'.disk == run[i].disk || (v.Succeeded? && v.persisted && s'.disk == run[i].cursor))
      && s'.handled == run[i].handled
  {
    InvHolds(run, i);
  }
}
