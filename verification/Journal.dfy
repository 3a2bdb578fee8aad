/** The optimistic-mutation journal of the browser client
    (web/src/query/index.ts): while a mutation on a key is unsettled, every write
    to that key is journaled over the value that the first one saw, and a failure
    replays the journal without its own step. */
module Journal {
  import opened Records

  // ---- The simple history ----

  /** What happens to the cache, in order. A mutation's ticket is its position
      in the history. A Write is a fetch, a removal or any other direct write. */
  datatype Call<!C> =
    | Write(key: string, value: Option<C>)
    | Mutate(key: string, step: C -> C)
    | Frame(key: string, step: C -> C)
    | Success(ticket: nat)
    | Failure(ticket: nat)

  ghost predicate Failed<C>(h: seq<Call<C>>, i: nat) {
    exists j :: 0 <= j < |h| && h[j].Failure? && h[j].ticket == i
  }

  ghost predicate Succeeded<C>(h: seq<Call<C>>, i: nat) {
    exists j :: 0 <= j < |h| && h[j].Success? && h[j].ticket == i
  }

  predicate IsStep<C>(c: Call<C>, key: string) {
    (c.Mutate? || c.Frame?) && c.key == key
  }

  /** The value of `key` after the first n calls of `h`, when the steps that fail
      anywhere in `h` are left out: every other step in order, each where there
      is a value to apply it to. */
  ghost function Value<C>(h: seq<Call<C>>, n: nat, key: string): Option<C>
    requires n <= |h|
  {
    if n == 0 then None else
      var before := Value(h, n - 1, key);
      var c := h[n - 1];
      if c.Write? && c.key == key then c.value
      else if before.Some? && Stands(h, n - 1, key) then Some(c.step(before.value))
      else before
  }

  ghost function Meaning<C>(h: seq<Call<C>>, key: string): Option<C> {
    Value(h, |h|, key)
  }

  /** A mutation that found a value and has not settled. */
  ghost predicate Pending<C>(h: seq<Call<C>>, i: nat, key: string) {
    && i < |h| && h[i].Mutate? && h[i].key == key
    && Value(h, i, key).Some?
    && !Failed(h, i) && !Succeeded(h, i)
  }

  ghost predicate Stands<C>(h: seq<Call<C>>, i: nat, key: string)
    requires i < |h|
  {
    IsStep(h[i], key) && !Failed(h, i)
  }

  /** The steps on `key` from position `from` that have not failed. */
  ghost function Applied<C>(h: seq<Call<C>>, from: nat, n: nat, key: string): (tickets: seq<nat>)
    requires from <= n <= |h|
    decreases n
  {
    if n == from then []
    else if Stands(h, n - 1, key) then Applied(h, from, n - 1, key) + [n - 1]
    else Applied(h, from, n - 1, key)
  }

  predicate Ascending(tickets: seq<nat>) {
    forall j, k :: 0 <= j < k < |tickets| ==> tickets[j] < tickets[k]
  }

  predicate AreSteps<C>(h: seq<Call<C>>, tickets: seq<nat>, key: string) {
    forall k :: 0 <= k < |tickets| ==> tickets[k] < |h| && IsStep(h[tickets[k]], key)
  }

  function Replay<C>(h: seq<Call<C>>, tickets: seq<nat>, key: string, base: C): C
    requires AreSteps(h, tickets, key)
  {
    if tickets == [] then base else
      var n := |tickets| - 1;
      h[tickets[n]].step(Replay(h, tickets[..n], key, base))
  }

  function Without(tickets: seq<nat>, t: nat): seq<nat> {
    if tickets == [] then [] else
      var n := |tickets| - 1;
      Without(tickets[..n], t) + if tickets[n] == t then [] else [tickets[n]]
  }

  ghost predicate NoWrites<C>(h: seq<Call<C>>, from: nat, n: nat, key: string)
    requires from <= n <= |h|
  {
    forall i :: from <= i < n ==> !(h[i].Write? && h[i].key == key)
  }

  lemma {:induction false} AppliedExactly<C>(h: seq<Call<C>>, from: nat, n: nat, key: string)
    requires from <= n <= |h|
    ensures Ascending(Applied(h, from, n, key))
    ensures forall i: nat :: i in Applied(h, from, n, key) <==> from <= i < n && Stands(h, i, key)
    decreases n
  {
    if n > from {
      AppliedExactly(h, from, n - 1, key);
      AscendingSnoc(Applied(h, from, n - 1, key), n - 1);
      AppliedLast(h, from, n, key);
    }
  }

  lemma AppliedLast<C>(h: seq<Call<C>>, from: nat, n: nat, key: string)
    requires from < n <= |h|
    ensures Applied(h, from, n, key)
         == Applied(h, from, n - 1, key) + if Stands(h, n - 1, key) then [n - 1 as nat] else []
  {
  }

  lemma AscendingSnoc(tickets: seq<nat>, last: nat)
    requires Ascending(tickets) && forall i :: i in tickets ==> i < last
    ensures Ascending(tickets + [last])
  {
    assert forall k :: 0 <= k < |tickets| ==> tickets[k] in tickets;
  }

  lemma ReplaySnoc<C>(h: seq<Call<C>>, tickets: seq<nat>, t: nat, key: string, base: C)
    requires AreSteps(h, tickets, key) && t < |h| && IsStep(h[t], key)
    ensures AreSteps(h, tickets + [t], key)
    ensures Replay(h, tickets + [t], key, base) == h[t].step(Replay(h, tickets, key, base))
  {
    assert (tickets + [t])[..|tickets|] == tickets;
  }

  /** Replaying the journaled steps over the value that the journal opened with
      is the simple history. */
  lemma {:induction false} ReplayIsHistory<C>(h: seq<Call<C>>, from: nat, n: nat, key: string)
    requires from <= n <= |h| && NoWrites(h, from, n, key)
    requires Value(h, from, key).Some?
    ensures AreSteps(h, Applied(h, from, n, key), key)
    ensures Value(h, n, key) == Some(Replay(h, Applied(h, from, n, key), key, Value(h, from, key).value))
    decreases n
  {
    if n > from {
      ReplayIsHistory(h, from, n - 1, key);
      if Stands(h, n - 1, key) {
        ReplaySnoc(h, Applied(h, from, n - 1, key), n - 1, key, Value(h, from, key).value);
      }
    }
  }

  /** Nothing but a failure changes what an earlier call meant. */
  lemma {:induction false} EarlierStays<C>(h: seq<Call<C>>, c: Call<C>, from: nat, n: nat, key: string)
    requires from <= n <= |h| && !c.Failure?
    ensures Value(h + [c], n, key) == Value(h, n, key)
    ensures Applied(h + [c], from, n, key) == Applied(h, from, n, key)
    decreases n
  {
    if n > 0 { SettledStays(h, c, n - 1); }
    if n > from {
      EarlierStays(h, c, from, n - 1, key);
    } else if n > 0 {
      EarlierStays(h, c, n - 1, n - 1, key);
    }
  }

  lemma SettledStays<C>(h: seq<Call<C>>, c: Call<C>, i: nat)
    ensures Failed(h + [c], i) <==> Failed(h, i) || (c.Failure? && c.ticket == i)
    ensures Succeeded(h + [c], i) <==> Succeeded(h, i) || (c.Success? && c.ticket == i)
  {
    assert (h + [c])[|h|] == c;
    if Failed(h, i) {
      var j :| 0 <= j < |h| && h[j].Failure? && h[j].ticket == i;
      assert (h + [c])[j] == h[j];
    }
    if Succeeded(h, i) {
      var j :| 0 <= j < |h| && h[j].Success? && h[j].ticket == i;
      assert (h + [c])[j] == h[j];
    }
  }

  /** A failure takes its own step out and changes nothing before it or under
      another key. */
  lemma {:induction false} FailureRemoves<C>(h: seq<Call<C>>, t: nat, from: nat, n: nat, key: string)
    requires from <= n <= |h|
    ensures Applied(h + [Failure(t)], from, n, key) == Without(Applied(h, from, n, key), t)
    decreases n
  {
    if n > from {
      SettledStays(h, Failure(t), n - 1);
      FailureRemoves(h, t, from, n - 1, key);
      if Stands(h, n - 1, key) {
        WithoutSnoc(Applied(h, from, n - 1, key), n - 1, t);
      }
    }
  }

  lemma WithoutSnoc(tickets: seq<nat>, last: nat, t: nat)
    ensures Without(tickets + [last], t) == Without(tickets, t) + if last == t then [] else [last]
  {
    assert (tickets + [last])[..|tickets|] == tickets;
  }

  lemma {:induction false} FailureLeaves<C>(h: seq<Call<C>>, t: nat, n: nat, key: string)
    requires n <= |h| && (t >= n || !IsStep(h[t], key) || Value(h, t, key).None?)
    ensures Value(h + [Failure(t)], n, key) == Value(h, n, key)
    decreases n
  {
    if n > 0 {
      SettledStays(h, Failure(t), n - 1);
      FailureLeaves(h, t, n - 1, key);
    }
  }

  lemma {:induction false} WithoutIsSplice(tickets: seq<nat>, t: nat, p: nat)
    requires p < |tickets| && tickets[p] == t
    requires Ascending(tickets)
    ensures Without(tickets, t) == tickets[..p] + tickets[p + 1..]
  {
    var n := |tickets| - 1;
    if p == n {
      WithoutAbsent(tickets[..n], t);
    } else {
      WithoutIsSplice(tickets[..n], t, p);
      assert tickets[p + 1..] == tickets[..n][p + 1..] + [tickets[n]];
    }
  }

  lemma {:induction false} WithoutAbsent(tickets: seq<nat>, t: nat)
    requires t !in tickets
    ensures Without(tickets, t) == tickets
  {
    if tickets != [] {
      WithoutAbsent(tickets[..|tickets| - 1], t);
    }
  }

  // ---- What the cache and the journal of one key stand for ----

  /** A key's journal; `since` is the length of the history when it opened, and
      each entry is a ticket and its settled flag. */
  datatype View<C> = Closed | Open(since: nat, base: C, tickets: seq<nat>, settled: seq<bool>)

  ghost predicate Flags<C>(h: seq<Call<C>>, key: string, tickets: seq<nat>, settled: seq<bool>) {
    |settled| == |tickets| && forall i :: 0 <= i < |settled| ==> (settled[i] <==> !Pending(h, tickets[i], key))
  }

  function Added<C>(view: View<C>, ticket: nat, settled: bool): View<C>
    requires view.Open?
  {
    Open(view.since, view.base, view.tickets + [ticket], view.settled + [settled])
  }

  ghost predicate NonePending<C>(h: seq<Call<C>>, key: string) {
    forall i: nat :: !Pending(h, i, key)
  }

  ghost predicate Journals<C>(h: seq<Call<C>>, key: string, since: nat, base: C, tickets: seq<nat>) {
    && since <= |h| && NoWrites(h, since, |h|, key)
    && Value(h, since, key) == Some(base)
    && tickets == Applied(h, since, |h|, key)
    && (forall i: nat :: Pending(h, i, key) ==> since <= i)
  }

  /** A call settles an earlier one. */
  ghost predicate Causal<C>(h: seq<Call<C>>) {
    forall j :: 0 <= j < |h| && (h[j].Success? || h[j].Failure?) ==> h[j].ticket < j
  }

  /** The cached value is the simple history's; a journal is open exactly while a
      mutation is pending, and holds what stands since it opened. */
  ghost predicate Tracks<C>(h: seq<Call<C>>, key: string, cached: Option<C>, view: View<C>) {
    && Causal(h)
    && cached == Meaning(h, key)
    && (view.Closed? <==> NonePending(h, key))
    && (view.Open? ==> Journals(h, key, view.since, view.base, view.tickets))
    && (view.Open? ==> Flags(h, key, view.tickets, view.settled))
  }

  lemma PendingStays<C>(h: seq<Call<C>>, c: Call<C>, i: nat, key: string)
    requires !c.Failure?
    ensures i < |h| ==>
      (Pending(h + [c], i, key) <==> (Pending(h, i, key) && !(c.Success? && c.ticket == i)))
  {
    if i < |h| {
      SettledStays(h, c, i);
      EarlierStays(h, c, i, i, key);
    }
  }

  lemma {:induction false} StillThere<C>(h: seq<Call<C>>, from: nat, n: nat, key: string)
    requires from <= n <= |h| && NoWrites(h, from, n, key) && Value(h, from, key).Some?
    ensures Value(h, n, key).Some?
    decreases n
  {
    if n > from { StillThere(h, from, n - 1, key); }
  }

  /** What an open journal holds is in it: a pending mutation is found. */
  lemma PendingIsFound<C>(h: seq<Call<C>>, key: string, cached: Option<C>, view: View<C>, t: nat)
    requires Tracks(h, key, cached, view) && Pending(h, t, key)
    ensures view.Open? && t in view.tickets
  {
    AppliedExactly(h, view.since, |h|, key);
  }

  predicate Elsewhere<C>(h: seq<Call<C>>, c: Call<C>, key: string) {
    match c
    case Write(k, _) => k != key
    case Mutate(k, _) => k != key
    case Frame(k, _) => k != key
    case Success(t) => t < |h| && !IsStep(h[t], key)
    case Failure(t) => t < |h| && !IsStep(h[t], key)
  }

  /** What happens under one key is nothing to another. */
  lemma TracksElsewhere<C>(h: seq<Call<C>>, c: Call<C>, key: string, cached: Option<C>, view: View<C>)
    requires Tracks(h, key, cached, view) && Elsewhere(h, c, key)
    ensures Tracks(h + [c], key, cached, view)
  {
    var h' := h + [c];
    var from := if view.Open? then view.since else |h|;
    if c.Failure? {
      FailureLeaves(h, c.ticket, |h|, key);
      FailureLeaves(h, c.ticket, from, key);
      AppliedElsewhere(h, c.ticket, from, |h|, key);
    } else {
      EarlierStays(h, c, from, |h|, key);
      EarlierStays(h, c, from, from, key);
    }
    forall i: nat ensures Pending(h', i, key) <==> Pending(h, i, key) {
      PendingElsewhere(h, c, i, key);
    }
  }

  lemma PendingElsewhere<C>(h: seq<Call<C>>, c: Call<C>, i: nat, key: string)
    requires Elsewhere(h, c, key)
    ensures Pending(h + [c], i, key) <==> Pending(h, i, key)
  {
    if i < |h| {
      SettledStays(h, c, i);
      if c.Failure? {
        FailureLeaves(h, c.ticket, i, key);
      } else {
        EarlierStays(h, c, i, i, key);
      }
    }
  }

  lemma {:induction false} AppliedElsewhere<C>(h: seq<Call<C>>, t: nat, from: nat, n: nat, key: string)
    requires from <= n <= |h| && (t < from || (t < |h| && !IsStep(h[t], key)))
    ensures Applied(h + [Failure(t)], from, n, key) == Applied(h, from, n, key)
    decreases n
  {
    if n > from {
      SettledStays(h, Failure(t), n - 1);
      AppliedElsewhere(h, t, from, n - 1, key);
    }
  }

  lemma TracksWrite<C>(h: seq<Call<C>>, key: string, cached: Option<C>, value: Option<C>)
    requires Tracks(h, key, cached, Closed)
    ensures Tracks(h + [Write(key, value)], key, value, Closed)
  {
    var c := Write(key, value);
    EarlierStays(h, c, |h|, |h|, key);
    forall i: nat ensures !Pending(h + [c], i, key) {
      PendingStays(h, c, i, key);
    }
  }

  /** A step that finds no value does nothing, and there is no journal. */
  lemma TracksNothing<C>(h: seq<Call<C>>, key: string, c: Call<C>, view: View<C>)
    requires Tracks(h, key, None, view) && IsStep(c, key)
    ensures view.Closed? && Tracks(h + [c], key, None, Closed)
  {
    if view.Open? { StillThere(h, view.since, |h|, key); }
    EarlierStays(h, c, |h|, |h|, key);
    forall i: nat ensures !Pending(h + [c], i, key) {
      PendingStays(h, c, i, key);
    }
  }

  lemma TracksFrame<C>(h: seq<Call<C>>, key: string, value: C, view: View<C>, step: C -> C)
    requires Tracks(h, key, Some(value), view)
    ensures Tracks(h + [Frame(key, step)], key, Some(step(value)),
                   if view.Open? then Added(view, |h|, true) else Closed)
  {
    var c := Frame(key, step);
    var h' := h + [c];
    StepAdded(h, c, key, value, view);
    if view.Open? { StepJournaled(h, c, key, value, view); }
    forall i: nat ensures Pending(h', i, key) <==> Pending(h, i, key) {
      PendingStays(h, c, i, key);
    }
  }

  lemma StepAdded<C>(h: seq<Call<C>>, c: Call<C>, key: string, value: C, view: View<C>)
    requires Tracks(h, key, Some(value), view) && IsStep(c, key)
    ensures Value(h + [c], |h|, key) == Some(value)
    ensures Meaning(h + [c], key) == Some(c.step(value))
    ensures Applied(h + [c], |h|, |h| + 1, key) == [|h|]
  {
    EarlierStays(h, c, |h|, |h|, key);
    assert !Failed(h + [c], |h|) && !Succeeded(h + [c], |h|);
  }

  /** And in the key's open journal. */
  lemma StepJournaled<C>(h: seq<Call<C>>, c: Call<C>, key: string, value: C, view: View<C>)
    requires Tracks(h, key, Some(value), view) && IsStep(c, key) && view.Open?
    ensures view.since <= |h| && Value(h + [c], view.since, key) == Some(view.base)
    ensures NoWrites(h + [c], view.since, |h| + 1, key)
    ensures Applied(h + [c], view.since, |h| + 1, key) == view.tickets + [|h|]
  {
    StepAdded(h, c, key, value, view);
    EarlierStays(h, c, view.since, |h|, key);
    EarlierStays(h, c, view.since, view.since, key);
  }

  lemma {:induction false} TracksMutate<C>(h: seq<Call<C>>, key: string, value: C, view: View<C>, step: C -> C)
    requires Tracks(h, key, Some(value), view)
    ensures Tracks(h + [Mutate(key, step)], key, Some(step(value)),
                   if view.Open? then Added(view, |h|, false) else Open(|h|, value, [|h|], [false]))
  {
    var c := Mutate(key, step);
    var h' := h + [c];
    StepAdded(h, c, key, value, view);
    assert !Failed(h + [c], |h|) && !Succeeded(h + [c], |h|);
    assert Pending(h', |h|, key);
    if view.Open? {
      StepJournaled(h, c, key, value, view);
      AppliedExactly(h, view.since, |h|, key);
      assert forall i :: 0 <= i < |view.tickets| ==> view.tickets[i] in view.tickets;
    }
    forall i: nat ensures Pending(h', i, key) <==> Pending(h, i, key) || i == |h| {
      PendingStays(h, c, i, key);
    }
  }

  function Settling(view: View, at: nat): View
    requires view.Open? && at < |view.settled|
  {
    view.(settled := view.settled[at := true])
  }

  function Dropping(view: View, at: nat): View
    requires view.Open? && at < |view.settled| == |view.tickets|
  {
    view.(tickets := view.tickets[..at] + view.tickets[at + 1..],
          settled := view.settled[..at] + view.settled[at + 1..])
  }

  predicate EntryAt<C>(view: View<C>, at: nat, t: nat) {
    view.Open? && |view.settled| == |view.tickets| && at < |view.tickets| && view.tickets[at] == t
  }

  lemma TracksSuccess<C>(h: seq<Call<C>>, key: string, cached: Option<C>, view: View<C>, t: nat, at: nat)
    requires Tracks(h, key, cached, view) && Pending(h, t, key) && EntryAt(view, at, t)
    ensures var h' := h + [Success(t)];
      Tracks(h', key, cached, if NonePending(h', key) then Closed else Settling(view, at))
    ensures Flags(h + [Success(t)], key, view.tickets, Settling(view, at).settled)
  {
    var c := Success(t);
    EarlierStays(h, c, view.since, |h|, key);
    EarlierStays(h, c, view.since, view.since, key);
    forall i: nat ensures Pending(h + [c], i, key) <==> Pending(h, i, key) && i != t {
      PendingStays(h, c, i, key);
    }
    AppliedExactly(h, view.since, |h|, key);
  }

  /** A failed step goes, and what is left stands for the history without it. */
  lemma TracksFailure<C>(h: seq<Call<C>>, key: string, cached: Option<C>, view: View<C>, t: nat, at: nat)
    requires Tracks(h, key, cached, view) && Pending(h, t, key) && EntryAt(view, at, t)
    ensures var left := Dropping(view, at);
      && AreSteps(h, left.tickets, key)
      && Flags(h + [Failure(t)], key, left.tickets, left.settled)
      && Tracks(h + [Failure(t)], key, Some(Replay(h, left.tickets, key, view.base)),
                if NonePending(h + [Failure(t)], key) then Closed else left)
  {
    AppliedExactly(h, view.since, |h|, key);
    WithoutIsSplice(view.tickets, t, at);
    FailureReplays(h, key, view.since, view.base, view.tickets, t);
    PendingsAfterFailure(h, t, view.since, key);
    FlagsDropped(h, key, view, t, at);
  }

  lemma FlagsDropped<C>(h: seq<Call<C>>, key: string, view: View<C>, t: nat, at: nat)
    requires EntryAt(view, at, t) && Flags(h, key, view.tickets, view.settled) && Ascending(view.tickets)
    requires forall i: nat :: Pending(h + [Failure(t)], i, key) <==> Pending(h, i, key) && i != t
    ensures Flags(h + [Failure(t)], key, Dropping(view, at).tickets, Dropping(view, at).settled)
  {
  }

  predicate AllSettled<C>(view: View<C>) {
    view.Open? ==> forall i :: 0 <= i < |view.settled| ==> view.settled[i]
  }

  function Closing<C>(view: View<C>): View<C> {
    if AllSettled(view) then Closed else view
  }

  /** A journal is all settled exactly when nothing is pending under its key. */
  lemma AllSettledIsNonePending<C>(h: seq<Call<C>>, key: string, view: View<C>)
    requires view.Open? && Flags(h, key, view.tickets, view.settled)
    requires forall i: nat :: Pending(h, i, key) ==> i in view.tickets
    ensures AllSettled(view) <==> NonePending(h, key)
  {
    if AllSettled(view) {
      forall i: nat ensures !Pending(h, i, key) {
        if i in view.tickets {
          var k :| 0 <= k < |view.tickets| && view.tickets[k] == i;
          assert view.settled[k];
        }
      }
    }
  }

  lemma SuccessCloses<C>(h: seq<Call<C>>, key: string, cached: Option<C>, view: View<C>, t: nat, at: nat)
    requires Tracks(h, key, cached, view) && Pending(h, t, key) && EntryAt(view, at, t)
    ensures Tracks(h + [Success(t)], key, cached, Closing(Settling(view, at)))
  {
    TracksSuccess(h, key, cached, view, t, at);
    forall i: nat | Pending(h + [Success(t)], i, key) ensures i in view.tickets {
      PendingStays(h, Success(t), i, key);
      PendingIsFound(h, key, cached, view, i);
    }
    AllSettledIsNonePending(h + [Success(t)], key, Settling(view, at));
  }

  lemma FailureCloses<C>(h: seq<Call<C>>, key: string, cached: Option<C>, view: View<C>, t: nat, at: nat)
    requires Tracks(h, key, cached, view) && Pending(h, t, key) && EntryAt(view, at, t)
    ensures AreSteps(h, Dropping(view, at).tickets, key)
    ensures var left := Dropping(view, at);
      Tracks(h + [Failure(t)], key, Some(Replay(h, left.tickets, key, view.base)),
             Closing(left))
  {
    TracksFailure(h, key, cached, view, t, at);
    PendingsAfterFailure(h, t, view.since, key);
    var left := Dropping(view, at);
    forall i: nat | Pending(h + [Failure(t)], i, key) ensures i in left.tickets {
      PendingIsFound(h, key, cached, view, i);
    }
    AllSettledIsNonePending(h + [Failure(t)], key, left);
  }

  lemma PendingsAfterFailure<C>(h: seq<Call<C>>, t: nat, from: nat, key: string)
    requires from <= t < |h| && NoWrites(h, from, |h|, key) && Value(h, from, key).Some?
    ensures forall i: nat :: Pending(h + [Failure(t)], i, key) <==> Pending(h, i, key) && i != t
  {
    forall i: nat ensures Pending(h + [Failure(t)], i, key) <==> Pending(h, i, key) && i != t {
      PendingAfterFailure(h, t, i, from, key);
    }
  }

  lemma FailureReplays<C>(h: seq<Call<C>>, key: string, since: nat, base: C, tickets: seq<nat>, t: nat)
    requires Journals(h, key, since, base, tickets) && since <= t < |h|
    ensures AreSteps(h, Without(tickets, t), key)
    ensures var h' := h + [Failure(t)];
      && Value(h', since, key) == Some(base)
      && Without(tickets, t) == Applied(h', since, |h'|, key)
      && Meaning(h', key) == Some(Replay(h, Without(tickets, t), key, base))
  {
    var h' := h + [Failure(t)];
    FailureShortens(h, key, since, base, tickets, t);
    ReplayIsHistory(h', since, |h'|, key);
    SameReplay(h, Failure(t), Without(tickets, t), key, base);
  }

  lemma FailureShortens<C>(h: seq<Call<C>>, key: string, since: nat, base: C, tickets: seq<nat>, t: nat)
    requires Journals(h, key, since, base, tickets) && since <= t < |h|
    ensures var h' := h + [Failure(t)];
      && Value(h', since, key) == Some(base) && NoWrites(h', since, |h'|, key)
      && Applied(h', since, |h'|, key) == Without(tickets, t)
  {
    FailureLeaves(h, t, since, key);
    FailureRemoves(h, t, since, |h|, key);
  }

  lemma {:induction false} SameReplay<C>(h: seq<Call<C>>, c: Call<C>, tickets: seq<nat>, key: string, base: C)
    requires AreSteps(h + [c], tickets, key) && !IsStep(c, key)
    ensures AreSteps(h, tickets, key)
    ensures Replay(h + [c], tickets, key, base) == Replay(h, tickets, key, base)
  {
    forall k | 0 <= k < |tickets| ensures tickets[k] < |h| && h[tickets[k]] == (h + [c])[tickets[k]] {
      assert IsStep((h + [c])[tickets[k]], key);
    }
    if tickets != [] { SameReplay(h, c, tickets[..|tickets| - 1], key, base); }
  }

  lemma PendingAfterFailure<C>(h: seq<Call<C>>, t: nat, i: nat, from: nat, key: string)
    requires from <= t < |h| && NoWrites(h, from, |h|, key) && Value(h, from, key).Some?
    ensures Pending(h + [Failure(t)], i, key) <==> Pending(h, i, key) && i != t
  {
    if i < |h| {
      SettledStays(h, Failure(t), i);
      if from <= i {
        FailureLeaves(h, t, from, key);
        StillThere(h, from, i, key);
        StillThere(h + [Failure(t)], from, i, key);
      } else {
        FailureLeaves(h, t, i, key);
      }
    }
  }

  /** Settling a mutation that had found nothing changes nothing. */
  lemma TracksVoid<C>(h: seq<Call<C>>, key: string, cached: Option<C>, view: View<C>, c: Call<C>)
    requires Tracks(h, key, cached, view) && (c.Success? || c.Failure?)
    requires c.ticket < |h| && IsStep(h[c.ticket], key) && Value(h, c.ticket, key).None?
    ensures Tracks(h + [c], key, cached, view)
    ensures forall i: nat :: Pending(h + [c], i, key) <==> Pending(h, i, key)
  {
    var h' := h + [c];
    var from := if view.Open? then view.since else |h|;
    if view.Open? { VoidIsEarlier(h, view.since, c.ticket, key); }
    if c.Failure? {
      FailureLeaves(h, c.ticket, |h|, key);
      FailureLeaves(h, c.ticket, from, key);
      AppliedElsewhere(h, c.ticket, from, |h|, key);
    } else {
      EarlierStays(h, c, from, |h|, key);
      EarlierStays(h, c, from, from, key);
    }
    forall i: nat ensures Pending(h', i, key) <==> Pending(h, i, key) {
      PendingVoid(h, c, i, key);
    }
  }

  lemma VoidIsEarlier<C>(h: seq<Call<C>>, since: nat, t: nat, key: string)
    requires since <= |h| && NoWrites(h, since, |h|, key) && Value(h, since, key).Some?
    requires t < |h| && Value(h, t, key).None?
    ensures t < since
  {
    if since <= t { StillThere(h, since, t, key); }
  }

  lemma PendingVoid<C>(h: seq<Call<C>>, c: Call<C>, i: nat, key: string)
    requires c.Success? || c.Failure?
    requires c.ticket < |h| && IsStep(h[c.ticket], key) && Value(h, c.ticket, key).None?
    ensures Pending(h + [c], i, key) <==> Pending(h, i, key)
  {
    if i < |h| {
      SettledStays(h, c, i);
      if c.Failure? {
        FailureLeaves(h, c.ticket, i, key);
      } else {
        EarlierStays(h, c, i, i, key);
      }
    }
  }

  /** Whether a step found a value never changes. */
  lemma {:induction false} FoundStays<C>(h: seq<Call<C>>, c: Call<C>, n: nat, key: string)
    requires n <= |h|
    ensures Value(h + [c], n, key).None? <==> Value(h, n, key).None?
    decreases n
  {
    if n > 0 { FoundStays(h, c, n - 1, key); }
  }

  /** The history in which mutation i would have done something else. */
  ghost function Altered<C>(h: seq<Call<C>>, i: nat, other: C -> C): seq<Call<C>>
    requires i < |h| && h[i].Mutate?
  {
    h[i := Mutate(h[i].key, other)]
  }

  /** A failed mutation leaves no trace: what it would have done is nowhere in
      the meaning of the history. */
  lemma {:induction false} FailureLeavesNoTrace<C>(h: seq<Call<C>>, i: nat, other: C -> C, n: nat, key: string)
    requires i < |h| && h[i].Mutate? && Failed(h, i) && n <= |h|
    ensures Value(Altered(h, i, other), n, key) == Value(h, n, key)
    decreases n
  {
    if n > 0 {
      FailedSame(h, i, other, n - 1);
      FailureLeavesNoTrace(h, i, other, n - 1, key);
    }
  }

  lemma FailedSame<C>(h: seq<Call<C>>, i: nat, other: C -> C, t: nat)
    requires i < |h| && h[i].Mutate?
    ensures Failed(Altered(h, i, other), t) <==> Failed(h, t)
  {
    var h' := Altered(h, i, other);
    if Failed(h, t) {
      var j :| 0 <= j < |h| && h[j].Failure? && h[j].ticket == t;
      assert h'[j] == h[j];
    }
    if Failed(h', t) {
      var j :| 0 <= j < |h'| && h'[j].Failure? && h'[j].ticket == t;
      assert h'[j] == h[j];
    }
  }
}
