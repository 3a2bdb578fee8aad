/** The append-only events table (store/events.go). Rows are kept in commit
    order across all subjects; `seqNo` is the per-subject sequence number. */
module EventLog {
  import opened Records

  /** COALESCE(MAX(seq), 0) over one subject. */
  function MaxSeq(rows: seq<EventRow>, subject: string): nat {
    if rows == [] then 0 else
      var n := |rows| - 1;
      var earlier := MaxSeq(rows[..n], subject);
      if rows[n].event.subject == subject && rows[n].seqNo > earlier then rows[n].seqNo else earlier
  }

  function CountOf(rows: seq<EventRow>, subject: string): nat {
    if rows == [] then 0 else
      var n := |rows| - 1;
      CountOf(rows[..n], subject) + if rows[n].event.subject == subject then 1 else 0
  }

  predicate SameDedup(a: Event, b: Event) {
    a.subject == b.subject && a.dedup == b.dedup && a.dedup != NoDedup
  }

  predicate Duplicated(rows: seq<EventRow>, e: Event) {
    exists i :: 0 <= i < |rows| && SameDedup(rows[i].event, e)
  }

  /** The seq of the first row that carries e's dedup key. */
  function OriginalSeq(rows: seq<EventRow>, e: Event): nat
    requires Duplicated(rows, e)
  {
    var n := |rows| - 1;
    if Duplicated(rows[..n], e) then OriginalSeq(rows[..n], e) else rows[n].seqNo
  }

  /** AppendEvent's transaction: the new table and the seq it returns. */
  function Appended(rows: seq<EventRow>, e: Event): seq<EventRow> {
    if Duplicated(rows, e) then rows else rows + [EventRow(MaxSeq(rows, e.subject) + 1, e)]
  }

  function AppendedSeq(rows: seq<EventRow>, e: Event): nat {
    if Duplicated(rows, e) then OriginalSeq(rows, e) else MaxSeq(rows, e.subject) + 1
  }

  /** Every subject's rows carry the seqs 1, 2, 3, ... in commit order. */
  ghost predicate GapFree(rows: seq<EventRow>) {
    forall i :: 0 <= i < |rows| ==> rows[i].seqNo == CountOf(rows[..i], rows[i].event.subject) + 1
  }

  /** The unique index on (subject_id, dedup_key). */
  ghost predicate DedupUnique(rows: seq<EventRow>) {
    forall i, j :: 0 <= i < j < |rows| ==> !SameDedup(rows[i].event, rows[j].event)
  }

  lemma {:induction false} MaxIsCount(rows: seq<EventRow>, subject: string)
    requires GapFree(rows)
    ensures MaxSeq(rows, subject) == CountOf(rows, subject)
  {
    if rows != [] {
      var n := |rows| - 1;
      forall i | 0 <= i < n ensures rows[..n][i].seqNo == CountOf(rows[..n][..i], rows[..n][i].event.subject) + 1 {
        assert rows[..n][..i] == rows[..i];
      }
      MaxIsCount(rows[..n], subject);
      assert rows[n].seqNo == CountOf(rows[..n], rows[n].event.subject) + 1;
    }
  }

  /** No append ever leaves a gap, repeats a seq, or breaks the unique index. */
  lemma AppendKeepsShape(rows: seq<EventRow>, e: Event)
    requires GapFree(rows) && DedupUnique(rows)
    ensures GapFree(Appended(rows, e)) && DedupUnique(Appended(rows, e))
  {
    if !Duplicated(rows, e) {
      MaxIsCount(rows, e.subject);
      var rows' := Appended(rows, e);
      forall i | 0 <= i < |rows'| ensures rows'[i].seqNo == CountOf(rows'[..i], rows'[i].event.subject) + 1 {
        assert rows'[..i] == rows[..i];
      }
    }
  }

  /** A repeated dedup key: the second append adds nothing and returns the seq
      the first one got, however many appends come between. */
  lemma {:induction false} RepeatReturnsOriginal(rows: seq<EventRow>, between: seq<Event>, first: Event, again: Event)
    requires SameDedup(first, again)
    ensures var rows1 := Appended(rows, first);
      var rows2 := AppendedAll(rows1, between);
      && Appended(rows2, again) == rows2
      && AppendedSeq(rows2, again) == AppendedSeq(rows, first)
  {
    var rows1 := Appended(rows, first);
    assert Duplicated(rows1, again) by {
      if Duplicated(rows, first) {
        var i :| 0 <= i < |rows| && SameDedup(rows[i].event, first);
        assert SameDedup(rows1[i].event, again);
      } else {
        assert SameDedup(rows1[|rows|].event, again);
      }
    }
    assert OriginalSeq(rows1, again) == AppendedSeq(rows, first) by {
      if Duplicated(rows, first) {
        OriginalSeqSame(rows, first, again);
      } else {
        assert rows1[..|rows|] == rows;
      }
    }
    DuplicateStays(rows1, between, again);
  }

  lemma {:induction false} OriginalSeqSame(rows: seq<EventRow>, a: Event, b: Event)
    requires SameDedup(a, b) && Duplicated(rows, a)
    ensures Duplicated(rows, b) && OriginalSeq(rows, a) == OriginalSeq(rows, b)
  {
    var i :| 0 <= i < |rows| && SameDedup(rows[i].event, a);
    assert SameDedup(rows[i].event, b);
    var n := |rows| - 1;
    if Duplicated(rows[..n], a) {
      OriginalSeqSame(rows[..n], a, b);
    }
  }

  function AppendedAll(rows: seq<EventRow>, events: seq<Event>): seq<EventRow> {
    if events == [] then rows
    else Appended(AppendedAll(rows, events[..|events| - 1]), events[|events| - 1])
  }

  lemma {:induction false} DuplicateStays(rows: seq<EventRow>, between: seq<Event>, e: Event)
    requires Duplicated(rows, e)
    ensures Duplicated(AppendedAll(rows, between), e)
    ensures OriginalSeq(AppendedAll(rows, between), e) == OriginalSeq(rows, e)
  {
    if between != [] {
      var m := |between| - 1;
      DuplicateStays(rows, between[..m], e);
      var before := AppendedAll(rows, between[..m]);
      var after := Appended(before, between[m]);
      if after != before {
        assert after[..|before|] == before;
        var i :| 0 <= i < |before| && SameDedup(before[i].event, e);
        assert SameDedup(after[i].event, e);
      }
    }
  }

  // ---- Reading past a cursor ----

  predicate Matches(r: EventRow, subject: string, cursor: int, exclude: Option<Origin>) {
    r.event.subject == subject && r.seqNo > cursor && Some(r.event.origin) != exclude
  }

  function EventsSince(rows: seq<EventRow>, subject: string, cursor: int, exclude: Option<Origin>): seq<EventRow> {
    if rows == [] then [] else
      var n := |rows| - 1;
      EventsSince(rows[..n], subject, cursor, exclude) +
      if Matches(rows[n], subject, cursor, exclude) then [rows[n]] else []
  }

  lemma {:induction false} CountMonotone(rows: seq<EventRow>, i: nat, subject: string)
    requires i <= |rows|
    ensures CountOf(rows[..i], subject) <= CountOf(rows, subject)
  {
    if i < |rows| {
      CountMonotone(rows[..|rows| - 1], i, subject);
      assert rows[..|rows| - 1][..i] == rows[..i];
    } else {
      assert rows[..i] == rows;
    }
  }

  lemma GapFreePrefix(rows: seq<EventRow>)
    requires GapFree(rows) && rows != []
    ensures var init, last := rows[..|rows| - 1], rows[|rows| - 1];
      GapFree(init) && last.seqNo == CountOf(init, last.event.subject) + 1
  {
    var n := |rows| - 1;
    var init := rows[..n];
    forall i | 0 <= i < n ensures init[i].seqNo == CountOf(init[..i], init[i].event.subject) + 1 {
      assert init[..i] == rows[..i];
    }
  }

  lemma {:induction false} EventsSinceMembers(rows: seq<EventRow>, subject: string, cursor: int, exclude: Option<Origin>)
    ensures forall r :: r in EventsSince(rows, subject, cursor, exclude) <==>
      r in rows && Matches(r, subject, cursor, exclude)
  {
    if rows != [] {
      var n := |rows| - 1;
      EventsSinceMembers(rows[..n], subject, cursor, exclude);
      assert rows == rows[..n] + [rows[n]];
    }
  }

  lemma {:induction false} EventsSinceBounded(rows: seq<EventRow>, subject: string, cursor: int, exclude: Option<Origin>, k: nat)
    requires GapFree(rows) && k < |EventsSince(rows, subject, cursor, exclude)|
    ensures EventsSince(rows, subject, cursor, exclude)[k].seqNo <= CountOf(rows, subject)
  {
    var n := |rows| - 1;
    GapFreePrefix(rows);
    if k < |EventsSince(rows[..n], subject, cursor, exclude)| {
      EventsSinceBounded(rows[..n], subject, cursor, exclude, k);
    }
  }

  lemma {:induction false} EventsSinceAscending(rows: seq<EventRow>, subject: string, cursor: int, exclude: Option<Origin>,
                                                i: nat, j: nat)
    requires GapFree(rows) && i < j < |EventsSince(rows, subject, cursor, exclude)|
    ensures EventsSince(rows, subject, cursor, exclude)[i].seqNo < EventsSince(rows, subject, cursor, exclude)[j].seqNo
  {
    var n := |rows| - 1;
    var early := EventsSince(rows[..n], subject, cursor, exclude);
    GapFreePrefix(rows);
    if j < |early| {
      EventsSinceAscending(rows[..n], subject, cursor, exclude, i, j);
    } else {
      EventsSinceBounded(rows[..n], subject, cursor, exclude, i);
    }
  }

  /** The query returns exactly the matching rows, in strictly ascending seq. */
  lemma EventsSinceExact(rows: seq<EventRow>, subject: string, cursor: int, exclude: Option<Origin>)
    requires GapFree(rows)
    ensures var out := EventsSince(rows, subject, cursor, exclude);
      && (forall r :: r in out <==> r in rows && Matches(r, subject, cursor, exclude))
      && (forall i, j :: 0 <= i < j < |out| ==> out[i].seqNo < out[j].seqNo)
      && (forall r :: r in out ==> r.seqNo <= CountOf(rows, subject))
  {
    var out := EventsSince(rows, subject, cursor, exclude);
    EventsSinceMembers(rows, subject, cursor, exclude);
    forall i, j | 0 <= i < j < |out| ensures out[i].seqNo < out[j].seqNo {
      EventsSinceAscending(rows, subject, cursor, exclude, i, j);
    }
    forall k | 0 <= k < |out| ensures out[k].seqNo <= CountOf(rows, subject) {
      EventsSinceBounded(rows, subject, cursor, exclude, k);
    }
  }
}
