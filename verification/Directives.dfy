/** The directives table (store/directives.go): every transaction is a function
    on the table, and the mailbox laws are proved about those functions. */
module Directives {
  import opened Records

  ghost predicate WellNumbered(rows: seq<Directive>) {
    forall i :: 0 <= i < |rows| ==> rows[i].id == i + 1
  }

  function IsPending(d: Directive, k: Key): bool {
    d.key == k && !d.delivered
  }

  /** The undelivered rows of `k` in table order. */
  function Pending(rows: seq<Directive>, k: Key): seq<Directive> {
    if rows == [] then [] else
      var n := |rows| - 1;
      Pending(rows[..n], k) + if IsPending(rows[n], k) then [rows[n]] else []
  }

  function Addressed(rows: seq<Directive>, k: Key): seq<nat> {
    if rows == [] then [] else
      var n := |rows| - 1;
      Addressed(rows[..n], k) + if rows[n].key == k then [rows[n].id] else []
  }

  function Ids(ds: seq<Directive>): (ids: seq<nat>)
    ensures |ids| == |ds|
    ensures forall i :: 0 <= i < |ds| ==> ids[i] == ds[i].id
  {
    seq(|ds|, i requires 0 <= i < |ds| => ds[i].id)
  }

  /** Excluding no origin counts them all. */
  predicate HasPending(rows: seq<Directive>, k: Key, exclude: Option<Origin>) {
    exists i :: 0 <= i < |rows| && IsPending(rows[i], k) && Some(rows[i].origin) != exclude
  }

  /** ORDER BY created_at ASC, id ASC. */
  predicate NoLater(a: Directive, b: Directive) {
    a.created < b.created || (a.created == b.created && a.id <= b.id)
  }

  ghost predicate InOrder(ds: seq<Directive>) {
    forall i, j :: 0 <= i < j < |ds| ==> NoLater(ds[i], ds[j])
  }

  function Insert(ds: seq<Directive>, d: Directive): seq<Directive> {
    if ds == [] then [d]
    else if NoLater(ds[|ds| - 1], d) then ds + [d]
    else Insert(ds[..|ds| - 1], d) + [ds[|ds| - 1]]
  }

  function Sort(ds: seq<Directive>): seq<Directive> {
    if ds == [] then [] else Insert(Sort(ds[..|ds| - 1]), ds[|ds| - 1])
  }

  /** UPDATE directives SET delivered_at ... for every undelivered row of `k`. */
  function MarkDelivered(rows: seq<Directive>, k: Key): (marked: seq<Directive>)
    ensures |marked| == |rows|
    ensures forall i :: 0 <= i < |rows| ==>
      marked[i] == if IsPending(rows[i], k) then rows[i].(delivered := true) else rows[i]
  {
    seq(|rows|, i requires 0 <= i < |rows| =>
      if IsPending(rows[i], k) then rows[i].(delivered := true) else rows[i])
  }

  function Enqueued(rows: seq<Directive>, k: Key, origin: Origin, text: string, now: int, logged: nat): Directive {
    Directive(|rows| + 1, k, origin, text, now, false, logged)
  }

  /** What one drain returns: the pending rows, oldest first. */
  function Drained(rows: seq<Directive>, k: Key): seq<Directive> {
    Sort(Pending(rows, k))
  }

  // ---- The order of one drain ----

  lemma {:induction false} InsertAdds(ds: seq<Directive>, d: Directive)
    ensures multiset(Insert(ds, d)) == multiset(ds) + multiset{d}
  {
    if ds != [] && !NoLater(ds[|ds| - 1], d) {
      var init := ds[..|ds| - 1];
      InsertAdds(init, d);
      assert ds == init + [ds[|ds| - 1]];
    }
  }

  lemma {:induction false} InsertKeeps(ds: seq<Directive>, d: Directive)
    requires InOrder(ds)
    ensures InOrder(Insert(ds, d))
    ensures multiset(Insert(ds, d)) == multiset(ds) + multiset{d}
  {
    InsertAdds(ds, d);
    if ds != [] {
      var init, last := ds[..|ds| - 1], ds[|ds| - 1];
      if NoLater(last, d) {
        forall i | 0 <= i < |ds| ensures NoLater(ds[i], d) {
          assert i < |ds| - 1 ==> NoLater(ds[i], last);
        }
      } else {
        InsertKeeps(init, d);
        AllBefore(Insert(init, d), init, d, last);
      }
    }
  }

  lemma AllBefore(low: seq<Directive>, init: seq<Directive>, d: Directive, last: Directive)
    requires multiset(low) == multiset(init) + multiset{d} && NoLater(d, last)
    requires forall i :: 0 <= i < |init| ==> NoLater(init[i], last)
    ensures forall i :: 0 <= i < |low| ==> NoLater(low[i], last)
  {
    forall i | 0 <= i < |low| ensures NoLater(low[i], last) {
      assert low[i] in multiset(low);
      assert low[i] == d || low[i] in init;
    }
  }

  /** A drain is the pending rows, rearranged into (created_at, id) order. */
  lemma {:induction false} SortIsOrdered(ds: seq<Directive>)
    ensures InOrder(Sort(ds))
    ensures multiset(Sort(ds)) == multiset(ds)
  {
    if ds != [] {
      var init := ds[..|ds| - 1];
      assert ds == init + [ds[|ds| - 1]];
      SortIsOrdered(init);
      InsertKeeps(Sort(init), ds[|ds| - 1]);
    }
  }

  lemma {:induction false} SortOfOrdered(ds: seq<Directive>)
    requires InOrder(ds)
    ensures Sort(ds) == ds
  {
    if ds != [] {
      var init := ds[..|ds| - 1];
      assert ds == init + [ds[|ds| - 1]];
      SortOfOrdered(init);
    }
  }

  // ---- What the transactions do to the pending set ----

  lemma {:induction false} PendingMember(rows: seq<Directive>, k: Key, d: Directive)
    ensures d in Pending(rows, k) <==> d in rows && IsPending(d, k)
  {
    if rows != [] {
      var n := |rows| - 1;
      assert rows == rows[..n] + [rows[n]];
      PendingMember(rows[..n], k, d);
    }
  }

  /** A drain empties its own mailbox and leaves every other one as it was. */
  lemma {:induction false} MarkedPending(rows: seq<Directive>, k: Key, j: Key)
    ensures Pending(MarkDelivered(rows, k), j) == if j == k then [] else Pending(rows, j)
    ensures Addressed(MarkDelivered(rows, k), j) == Addressed(rows, j)
  {
    if rows != [] {
      var n := |rows| - 1;
      assert MarkDelivered(rows, k)[..n] == MarkDelivered(rows[..n], k);
      MarkedPending(rows[..n], k, j);
    }
  }

  lemma {:induction false} PendingInOrder(rows: seq<Directive>, k: Key)
    requires WellNumbered(rows) && Chronological(rows, k)
    ensures InOrder(Pending(rows, k))
  {
    if rows != [] {
      var n := |rows| - 1;
      PendingInOrder(rows[..n], k);
      forall d | d in Pending(rows[..n], k) ensures IsPending(rows[n], k) ==> NoLater(d, rows[n]) {
        PendingMember(rows[..n], k, d);
      }
    }
  }

  // ---- Conservation over a whole history ----

  datatype Drain = Drain(key: Key, ids: seq<nat>)

  /** Everything ever drained for `k`, drain after drain. */
  function DrainedIds(drains: seq<Drain>, k: Key): seq<nat> {
    if drains == [] then [] else
      var n := |drains| - 1;
      DrainedIds(drains[..n], k) + if drains[n].key == k then drains[n].ids else []
  }

  /** Everything ever drained, for whomever. */
  function AllDrainedIds(drains: seq<Drain>): seq<nat> {
    if drains == [] then [] else
      var n := |drains| - 1;
      AllDrainedIds(drains[..n]) + drains[n].ids
  }

  /** A drain returns directives of its own mailbox only. */
  ghost predicate OwnMail(rows: seq<Directive>, drains: seq<Drain>) {
    forall i, id :: 0 <= i < |drains| && id in drains[i].ids ==> 0 < id <= |rows| && rows[id - 1].key == drains[i].key
  }

  /** The rows of `k` were enqueued with non-decreasing timestamps. */
  ghost predicate Chronological(rows: seq<Directive>, k: Key) {
    forall i, j :: 0 <= i < j < |rows| && rows[i].key == k && rows[j].key == k
      ==> rows[i].created <= rows[j].created
  }

  /** Every directive of `k` is pending or was returned by a drain, and no
      directive is counted twice. */
  ghost predicate Conserved(rows: seq<Directive>, drains: seq<Drain>, k: Key) {
    multiset(DrainedIds(drains, k)) + multiset(Ids(Pending(rows, k))) == multiset(Addressed(rows, k))
  }

  /** When the clock did not run backwards, the drains followed by what is still
      pending are exactly the enqueue order. */
  ghost predicate FirstInFirstOut(rows: seq<Directive>, drains: seq<Drain>, k: Key) {
    Chronological(rows, k) ==>
      DrainedIds(drains, k) + Ids(Pending(rows, k)) == Addressed(rows, k)
  }

  lemma {:induction false} InsertIds(ds: seq<Directive>, d: Directive)
    ensures multiset(Ids(Insert(ds, d))) == multiset(Ids(ds)) + multiset{d.id}
  {
    if ds == [] {
    } else if NoLater(ds[|ds| - 1], d) {
      assert Ids(ds + [d]) == Ids(ds) + [d.id];
    } else {
      var init, last := ds[..|ds| - 1], ds[|ds| - 1];
      InsertIds(init, d);
      assert Ids(ds) == Ids(init) + [last.id];
      assert Ids(Insert(ds, d)) == Ids(Insert(init, d)) + [last.id];
    }
  }

  lemma {:induction false} SortIds(ds: seq<Directive>)
    ensures multiset(Ids(Sort(ds))) == multiset(Ids(ds))
  {
    if ds != [] {
      var init, last := ds[..|ds| - 1], ds[|ds| - 1];
      SortIds(init);
      InsertIds(Sort(init), last);
      assert Ids(ds) == Ids(init) + [last.id];
    }
  }

  lemma {:induction false} AddressedAreDistinct(rows: seq<Directive>, k: Key)
    requires WellNumbered(rows)
    ensures Distinct(Addressed(rows, k))
    ensures forall id :: id in Addressed(rows, k) <==> 0 < id <= |rows| && rows[id - 1].key == k
  {
    if rows != [] {
      var n := |rows| - 1;
      AddressedAreDistinct(rows[..n], k);
      var earlier := Addressed(rows[..n], k);
      assert forall i :: 0 <= i < |earlier| ==> earlier[i] in earlier;
    }
  }

  /** Enqueueing adds the new id to exactly its own mailbox. */
  lemma EnqueueConserves(rows: seq<Directive>, drains: seq<Drain>, d: Directive, k: Key)
    requires WellNumbered(rows) && d.id == |rows| + 1 && !d.delivered
    requires Conserved(rows, drains, k) && FirstInFirstOut(rows, drains, k)
    ensures WellNumbered(rows + [d])
    ensures Conserved(rows + [d], drains, k) && FirstInFirstOut(rows + [d], drains, k)
  {
    EnqueueNumbers(rows, d);
    EnqueueCounts(rows, drains, d, k);
    EnqueueKeepsOrder(rows, drains, d, k);
  }

  lemma EnqueueNumbers(rows: seq<Directive>, d: Directive)
    requires WellNumbered(rows) && d.id == |rows| + 1
    ensures WellNumbered(rows + [d])
  {
  }

  lemma EnqueueCounts(rows: seq<Directive>, drains: seq<Drain>, d: Directive, k: Key)
    requires !d.delivered && Conserved(rows, drains, k)
    ensures Conserved(rows + [d], drains, k)
  {
    EnqueuedMail(rows, d, k);
  }

  lemma EnqueueKeepsOrder(rows: seq<Directive>, drains: seq<Drain>, d: Directive, k: Key)
    requires !d.delivered && FirstInFirstOut(rows, drains, k)
    ensures FirstInFirstOut(rows + [d], drains, k)
  {
    EnqueuedMail(rows, d, k);
    if Chronological(rows + [d], k) {
      ChronologicalPrefix(rows, d, k);
      AppendLast(DrainedIds(drains, k), Ids(Pending(rows, k)), d.id);
    }
  }

  lemma AppendLast(a: seq<nat>, b: seq<nat>, id: nat)
    ensures (a + b) + [id] == a + (b + [id])
  {
  }

  lemma EnqueuedMail(rows: seq<Directive>, d: Directive, k: Key)
    requires !d.delivered
    ensures Ids(Pending(rows + [d], k)) == if d.key == k then Ids(Pending(rows, k)) + [d.id] else Ids(Pending(rows, k))
    ensures Addressed(rows + [d], k) == if d.key == k then Addressed(rows, k) + [d.id] else Addressed(rows, k)
  {
    assert (rows + [d])[..|rows|] == rows;
  }

  lemma ChronologicalPrefix(rows: seq<Directive>, d: Directive, k: Key)
    requires Chronological(rows + [d], k)
    ensures Chronological(rows, k)
  {
    var rows' := rows + [d];
    forall i, j | 0 <= i < j < |rows| && rows[i].key == k && rows[j].key == k
      ensures rows[i].created <= rows[j].created
    {
      assert rows'[i] == rows[i] && rows'[j] == rows[j];
    }
  }

  function RecordDrain(drains: seq<Drain>, rows: seq<Directive>, j: Key): seq<Drain> {
    drains + [Drain(j, Ids(Drained(rows, j)))]
  }

  /** A drain moves its mailbox's pending ids to the history, each once. */
  lemma DrainConserves(rows: seq<Directive>, drains: seq<Drain>, j: Key, k: Key)
    requires WellNumbered(rows) && Conserved(rows, drains, k)
    ensures WellNumbered(MarkDelivered(rows, j))
    ensures Conserved(MarkDelivered(rows, j), RecordDrain(drains, rows, j), k)
  {
    var ids := Ids(Drained(rows, j));
    DrainExtendsHistory(drains, j, ids, k);
    MarkedPending(rows, j, k);
    if j == k {
      DrainReturnsPending(rows, k);
      assert multiset(DrainedIds(drains, k) + ids) == multiset(DrainedIds(drains, k)) + multiset(ids);
    }
  }

  /** With a clock that never ran backwards, draining keeps first-in-first-out. */
  lemma DrainKeepsOrder(rows: seq<Directive>, drains: seq<Drain>, j: Key, k: Key)
    requires WellNumbered(rows) && FirstInFirstOut(rows, drains, k)
    ensures FirstInFirstOut(MarkDelivered(rows, j), RecordDrain(drains, rows, j), k)
  {
    var rows' := MarkDelivered(rows, j);
    MarkedChronological(rows, j, k);
    if Chronological(rows', k) {
      DrainExtendsHistory(drains, j, Ids(Drained(rows, j)), k);
      MarkedPending(rows, j, k);
      DrainReturnsPending(rows, k);
      assert Ids(Pending(rows', k)) == if j == k then [] else Ids(Pending(rows, k));
    }
  }

  lemma DrainExtendsHistory(drains: seq<Drain>, j: Key, ids: seq<nat>, k: Key)
    ensures DrainedIds(drains + [Drain(j, ids)], k)
         == DrainedIds(drains, k) + if j == k then ids else []
  {
    assert (drains + [Drain(j, ids)])[..|drains|] == drains;
  }

  lemma MarkedChronological(rows: seq<Directive>, j: Key, k: Key)
    ensures Chronological(MarkDelivered(rows, j), k) ==> Chronological(rows, k)
  {
    var rows' := MarkDelivered(rows, j);
    assert forall i :: 0 <= i < |rows| ==> rows'[i].key == rows[i].key && rows'[i].created == rows[i].created;
  }

  /** A drain returns the pending ids, in enqueue order when the clock allows it. */
  lemma DrainReturnsPending(rows: seq<Directive>, k: Key)
    requires WellNumbered(rows)
    ensures multiset(Ids(Drained(rows, k))) == multiset(Ids(Pending(rows, k)))
    ensures Chronological(rows, k) ==> Drained(rows, k) == Pending(rows, k)
  {
    SortIds(Pending(rows, k));
    if Chronological(rows, k) {
      PendingInOrder(rows, k);
      SortOfOrdered(Pending(rows, k));
    }
  }

  /** The payoff of Conserved: no id was drained twice, and an id was drained
      exactly when its row is marked. */
  lemma DrainedExactlyOnce(rows: seq<Directive>, drains: seq<Drain>, k: Key, id: nat)
    requires WellNumbered(rows) && Conserved(rows, drains, k)
    requires 0 < id <= |rows| && rows[id - 1].key == k
    ensures multiset(DrainedIds(drains, k))[id] == if rows[id - 1].delivered then 1 else 0
  {
    var d := rows[id - 1];
    AddressedAreDistinct(rows, k);
    MultiplicityOfDistinct(Addressed(rows, k), id);
    PendingIdsDistinct(rows, k);
    var pending := Pending(rows, k);
    MultiplicityOfDistinct(Ids(pending), id);
    PendingMember(rows, k, d);
    if d.delivered {
      if id in Ids(pending) {
        var i :| 0 <= i < |pending| && Ids(pending)[i] == id;
        PendingMember(rows, k, pending[i]);
        assert false;
      }
    } else {
      var i :| 0 <= i < |pending| && pending[i] == d;
      assert Ids(pending)[i] == id;
    }
  }

  lemma DrainReturnsOwnMail(rows: seq<Directive>, drains: seq<Drain>, k: Key)
    requires WellNumbered(rows) && OwnMail(rows, drains)
    ensures OwnMail(MarkDelivered(rows, k), RecordDrain(drains, rows, k))
  {
    var rows' := MarkDelivered(rows, k);
    var drains' := RecordDrain(drains, rows, k);
    forall i, id | 0 <= i < |drains'| && id in drains'[i].ids
      ensures 0 < id <= |rows'| && rows'[id - 1].key == drains'[i].key
    {
      if i < |drains| { assert drains'[i] == drains[i]; } else { DrainedIsPending(rows, k, id); }
    }
  }

  lemma DrainedIsPending(rows: seq<Directive>, k: Key, id: nat)
    requires WellNumbered(rows) && id in Ids(Drained(rows, k))
    ensures 0 < id <= |rows| && rows[id - 1].key == k
  {
    var pending := Pending(rows, k);
    SortIds(pending);
    assert id in multiset(Ids(Drained(rows, k)));
    assert id in Ids(pending);
    var i :| 0 <= i < |pending| && Ids(pending)[i] == id;
    PendingMember(rows, k, pending[i]);
  }

  /** Over all drains an id occurs as often as over those of its own mailbox. */
  lemma {:induction false} OnlyInOwnDrains(rows: seq<Directive>, drains: seq<Drain>, id: nat)
    requires OwnMail(rows, drains) && 0 < id <= |rows|
    ensures multiset(AllDrainedIds(drains))[id] == multiset(DrainedIds(drains, rows[id - 1].key))[id]
  {
    if drains != [] {
      var n := |drains| - 1;
      OnlyInOwnDrains(rows, drains[..n], id);
      if drains[n].key != rows[id - 1].key { assert id !in drains[n].ids; }
    }
  }

  lemma {:induction false} PendingIdsDistinct(rows: seq<Directive>, k: Key)
    requires WellNumbered(rows)
    ensures Distinct(Ids(Pending(rows, k)))
    ensures forall id :: id in Ids(Pending(rows, k)) ==> 0 < id <= |rows|
  {
    if rows != [] {
      var n := |rows| - 1;
      PendingIdsDistinct(rows[..n], k);
      var p := Pending(rows[..n], k);
      if IsPending(rows[n], k) {
        assert forall i :: 0 <= i < |p| ==> Ids(p)[i] in Ids(p);
        assert Ids(Pending(rows, k)) == Ids(p) + [rows[n].id];
      } else {
        assert Pending(rows, k) == p;
      }
    }
  }

  lemma MultiplicityOfDistinct(s: seq<nat>, x: nat)
    requires Distinct(s)
    ensures multiset(s)[x] == if x in s then 1 else 0
  {
    if s != [] {
      assert s == [s[0]] + s[1..];
      MultiplicityOfDistinct(s[1..], x);
    }
  }
}
