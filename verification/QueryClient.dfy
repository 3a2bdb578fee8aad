/** The cache and its journals as the browser client keeps them
    (web/src/query/index.ts): entries, journals and callbacks that change them in
    place. `history`, `issued`, `ticket` and `since` are history variables. */
module QueryClient {
  import opened Records
  import opened Journal

  class Entry<C> {
    const step: C -> C
    var settled: bool
    ghost const ticket: nat

    constructor (step: C -> C, settled: bool, ghost ticket: nat)
      ensures this.step == step && this.settled == settled && this.ticket == ticket
    {
      this.step, this.settled, this.ticket := step, settled, ticket;
    }
  }

  class OpenJournal<C> {
    const base: C
    var entries: seq<Entry<C>>
    ghost const since: nat
    ghost var tickets: seq<nat>
    ghost var settled: seq<bool>

    constructor (base: C, ghost since: nat)
      ensures this.base == base && entries == [] && this.since == since && tickets == [] && settled == []
    {
      this.base, entries, this.since, tickets, settled := base, [], since, [], [];
    }

    method Push(entry: Entry<C>)
      modifies this
      ensures entries == old(entries) + [entry] && tickets == old(tickets) + [entry.ticket]
      ensures settled == old(settled) + [entry.settled]
    {
      entries := entries + [entry];
      tickets, settled := tickets + [entry.ticket], settled + [entry.settled];
    }

    /** indexOf and splice. */
    method Remove(entry: Entry<C>, ghost at: nat)
      requires |settled| == |tickets| == |entries| && at < |entries| && entries[at] == entry
      requires forall i, j :: 0 <= i < j < |entries| ==> entries[i] != entries[j]
      modifies this
      ensures entries == old(entries[..at] + entries[at + 1..])
      ensures tickets == old(tickets[..at] + tickets[at + 1..])
      ensures settled == old(settled[..at] + settled[at + 1..])
    {
      var i := 0;
      while entries[i] != entry
        invariant 0 <= i <= at
        decreases at - i
      {
        i := i + 1;
      }
      entries := entries[..i] + entries[i + 1..];
      tickets, settled := tickets[..i] + tickets[i + 1..], settled[..i] + settled[i + 1..];
    }

    /** The replay: every step over the base, in order. */
    method Reduce(ghost h: seq<Call<C>>, ghost key: string) returns (value: C)
      requires |tickets| == |entries| && AreSteps(h, tickets, key)
      requires forall i :: 0 <= i < |entries| ==> entries[i].step == h[tickets[i]].step
      ensures value == Replay(h, tickets, key, base)
    {
      value := base;
      for i := 0 to |entries|
        invariant value == Replay(h, tickets[..i], key, base)
      {
        assert tickets[..i + 1][..i] == tickets[..i];
        value := entries[i].step(value);
      }
      assert tickets[..|entries|] == tickets;
    }
  }

  class Client<C(==,!new)> {
    var cache: map<string, C>
    var journals: map<string, OpenJournal<C>>
    ghost var history: seq<Call<C>>
    ghost var issued: map<nat, Entry?<C>>

    ghost function Cached(key: string): Option<C>
      reads this
    {
      if key in cache then Some(cache[key]) else None
    }

    ghost function ViewOf(key: string): View<C>
      reads this
      reads if key in journals then {journals[key]} else {}
    {
      if key in journals then
        Open(journals[key].since, journals[key].base, journals[key].tickets, journals[key].settled)
      else Closed
    }

    /** Every mutation has its entry, or found nothing and has none. */
    ghost predicate Issues()
      reads this
    {
      forall t :: t in issued ==>
        && t < |history| && (history[t].Mutate? || history[t].Frame?)
        && (issued[t] != null ==> issued[t].ticket == t && issued[t].step == history[t].step)
        && (history[t].Mutate? ==> (issued[t] == null <==> Value(history, t, history[t].key).None?))
    }

    ghost predicate Linked(key: string)
      requires key in journals
      reads this, journals[key], issued.Values
    {
      var j := journals[key];
      && |j.settled| == |j.tickets| == |j.entries|
      && forall i :: 0 <= i < |j.entries| ==>
        && j.tickets[i] in issued && issued[j.tickets[i]] == j.entries[i]
        && j.settled[i] == j.entries[i].settled
        && j.tickets[i] < |history| && IsStep(history[j.tickets[i]], key)
    }

    ghost predicate Apart()
      reads this
    {
      forall j, k :: j in journals && k in journals && journals[j] == journals[k] ==> j == k
    }

    ghost predicate Structured()
      reads this, journals.Values, issued.Values
    {
      Apart() && Issues() && forall key :: key in journals ==> Linked(key)
    }

    ghost predicate Tracked(key: string)
      reads this
      reads if key in journals then {journals[key]} else {}
    {
      Tracks(history, key, Cached(key), ViewOf(key))
    }

    /** The cache is the simple history, key by key. */
    ghost predicate Valid()
      reads this, journals.Values, issued.Values
    {
      Structured() && forall key :: Tracked(key)
    }

    constructor ()
      ensures Valid() && history == [] && cache == map[] && journals == map[] && issued == map[]
    {
      cache, journals, history, issued := map[], map[], [], map[];
    }

    // ---- The parts of a call ----

    /** The history grows; nothing else changes. */
    ghost method Note(c: Call<C>)
      requires Structured()
      modifies this`history
      ensures Structured() && history == old(history) + [c]
      ensures forall k :: ViewOf(k) == old(ViewOf(k))
    {
      FoundsStay(history, c);
      history := history + [c];
    }

    /** The step that was noted last goes into the journal. */
    method Enter(key: string, entry: Entry<C>)
      requires Structured() && key in journals
      requires history != [] && entry.ticket == |history| - 1 && entry.ticket !in issued
      requires IsStep(history[entry.ticket], key) && entry.step == history[entry.ticket].step
      requires history[entry.ticket].Mutate? ==> Value(history, entry.ticket, key).Some?
      modifies this`issued, journals[key]
      ensures Structured() && issued == old(issued)[entry.ticket := entry]
      ensures entry in journals[key].entries
      ensures ViewOf(key) == Added(old(ViewOf(key)), entry.ticket, entry.settled)
      ensures forall k :: k != key ==> ViewOf(k) == old(ViewOf(k))
    {
      issued := issued[entry.ticket := entry];
      journals[key].Push(entry);
    }

    /** setQueryData, for a key that has a value. */
    method SetValue(key: string, value: C)
      requires Structured()
      modifies this`cache
      ensures Structured() && cache == old(cache)[key := value]
      ensures forall k :: ViewOf(k) == old(ViewOf(k))
    {
      cache := cache[key := value];
    }

    /** openJournal. */
    method OpenAt(key: string, base: C, ghost since: nat)
      requires Structured()
      modifies this`journals
      ensures Structured() && key in journals
      ensures old(journals).Keys <= journals.Keys && forall k :: k in old(journals) ==> journals[k] == old(journals)[k]
      ensures key !in old(journals) ==> fresh(journals[key]) && journals.Keys == old(journals).Keys + {key}
      ensures key in old(journals) ==> journals == old(journals)
      ensures ViewOf(key) == if key in old(journals) then old(ViewOf(key)) else View.Open(since, base, [], [])
      ensures forall k :: k != key ==> ViewOf(k) == old(ViewOf(k))
    {
      if key !in journals {
        var journal := new OpenJournal(base, since);
        journals := journals[key := journal];
      }
    }

    /** closeSettledJournal. */
    method CloseSettled(key: string)
      requires Structured() && key in journals
      modifies this`journals
      ensures Structured()
      ensures journals == if AllSettled(old(ViewOf(key))) then old(journals) - {key} else old(journals)
      ensures ViewOf(key) == Closing(old(ViewOf(key)))
      ensures forall k :: k != key ==> ViewOf(k) == old(ViewOf(k))
    {
      var entries := journals[key].entries;
      assert forall i :: 0 <= i < |entries| ==> ViewOf(key).settled[i] == entries[i].settled;
      if forall i :: 0 <= i < |entries| ==> entries[i].settled {
        journals := journals - {key};
      }
    }

    /** What is under other keys stays what it was. */
    lemma OthersTracked(h: seq<Call<C>>, c: Call<C>, key: string)
      requires history == h + [c] && forall k :: k != key ==> Elsewhere(h, c, k)
      requires forall k :: k != key ==> Tracks(h, k, Cached(k), ViewOf(k))
      ensures forall k :: k != key ==> Tracked(k)
    {
      forall k | k != key ensures Tracked(k) {
        TracksElsewhere(h, c, k, Cached(k), ViewOf(k));
      }
    }

    method EnterFrame(key: string, step: C -> C)
      requires Structured() && key in journals && history != [] && |history| - 1 !in issued
      requires history[|history| - 1] == Frame(key, step)
      modifies this`issued, journals[key]
      ensures Structured()
      ensures ViewOf(key) == Added(old(ViewOf(key)), |history| - 1, true)
      ensures forall k :: k != key ==> ViewOf(k) == old(ViewOf(k))
    {
      var entry := NewEntry(step, true, |history| - 1);
      Enter(key, entry);
    }

    /** What applyCacheStep does after it noted the call. */
    method WriteFrame(key: string, step: C -> C)
      requires Structured() && history != [] && |history| - 1 !in issued
      requires history[|history| - 1] == Frame(key, step)
      modifies this`issued, this`cache, journals.Values
      ensures Structured()
      ensures Cached(key) == Mapped(step, old(Cached(key)))
      ensures forall k :: k != key ==> Cached(k) == old(Cached(k))
      ensures ViewOf(key) == AfterFrame(old(ViewOf(key)), |history| - 1, old(Cached(key)))
      ensures forall k :: k != key ==> ViewOf(k) == old(ViewOf(k))
    {
      if key !in cache {
        return;
      }
      var current := cache[key];
      if key in journals {
        EnterFrame(key, step);
      }
      var next := step(current);
      if next != current {
        SetValue(key, next);
      }
    }

    // ---- The calls ----

    /** A write that does not go through the journal: only while none is open. */
    method SetQueryData(key: string, value: Option<C>)
      requires Valid() && key !in journals
      modifies this
      ensures Valid() && history == old(history) + [Write(key, value)]
      ensures issued == old(issued) && journals == old(journals)
    {
      ghost var h, c := history, Write(key, value);
      assert Tracked(key);
      TracksWrite(h, key, Cached(key), value);
      cache := if value.Some? then cache[key := value.value] else cache - {key};
      Note(c);
      forall k | k != key ensures Tracks(h, k, Cached(k), ViewOf(k)) {
        assert old(Tracked(k));
      }
      OthersTracked(h, c, key);
    }

    /** applyCacheStep: one stream frame. */
    method ApplyCacheStep(key: string, step: C -> C)
      requires Valid()
      modifies this, journals.Values
      ensures Valid() && history == old(history) + [Frame(key, step)]
      ensures journals == old(journals)
    {
      ghost var h, c := history, Frame(key, step);
      assert Tracked(key);
      FrameMeans(h, key, Cached(key), ViewOf(key), step);
      TakeFrame(key, step);
      forall k | k != key ensures Tracks(h, k, Cached(k), ViewOf(k)) {
        assert old(Tracked(k));
      }
      OthersTracked(h, c, key);
    }

    method TakeFrame(key: string, step: C -> C)
      requires Structured()
      modifies this, journals.Values
      ensures Structured() && history == old(history) + [Frame(key, step)] && journals == old(journals)
      ensures Cached(key) == Mapped(step, old(Cached(key)))
      ensures ViewOf(key) == AfterFrame(old(ViewOf(key)), |old(history)|, old(Cached(key)))
      ensures forall k :: k != key ==> Cached(k) == old(Cached(k)) && ViewOf(k) == old(ViewOf(k))
    {
      Note(Frame(key, step));
      WriteFrame(key, step);
    }

    /** The mutation's journal, and its entry in it. */
    method Journaled(key: string, entry: Entry<C>, current: C)
      requires Structured()
      requires history != [] && entry.ticket == |history| - 1 && entry.ticket !in issued
      requires history[entry.ticket].Mutate? && history[entry.ticket].key == key
      requires entry.step == history[entry.ticket].step && !entry.settled
      requires Value(history, entry.ticket, key).Some?
      modifies this`issued, this`journals, journals.Values
      ensures Structured() && issued == old(issued)[entry.ticket := entry]
      ensures key in journals && entry in journals[key].entries
      ensures ViewOf(key) == AfterMutation(old(ViewOf(key)), entry.ticket, current)
      ensures forall k :: k != key ==> ViewOf(k) == old(ViewOf(k))
    {
      OpenAt(key, current, entry.ticket);
      Enter(key, entry);
    }

    /** A new entry is nobody's yet. */
    method NewEntry(step: C -> C, settled: bool, ghost ticket: nat) returns (entry: Entry<C>)
      requires Structured()
      ensures Structured() && fresh(entry)
      ensures entry.step == step && entry.settled == settled && entry.ticket == ticket
      ensures forall k :: ViewOf(k) == old(ViewOf(k))
    {
      entry := new Entry(step, settled, ticket);
    }

    /** What onMutate does after it noted the call. */
    method WriteMutation(key: string, step: C -> C) returns (entry: Entry?<C>)
      requires Structured() && history != [] && |history| - 1 !in issued
      requires history[|history| - 1] == Mutate(key, step)
      requires Value(history, |history| - 1, key) == Cached(key)
      modifies this`issued, this`journals, this`cache, journals.Values
      ensures Structured() && issued == old(issued)[|history| - 1 := entry]
      ensures entry != null <==> key in old(cache)
      ensures entry != null ==> fresh(entry) && key in journals && entry in journals[key].entries
      ensures cache == if key in old(cache) then old(cache)[key := step(old(cache)[key])] else old(cache)
      ensures ViewOf(key) == if key in old(cache)
        then AfterMutation(old(ViewOf(key)), |history| - 1, old(cache)[key]) else old(ViewOf(key))
      ensures forall k :: k != key ==> ViewOf(k) == old(ViewOf(k))
    {
      if key !in cache {
        issued := issued[|history| - 1 := null];
        return null;
      }
      var current := cache[key];
      var made := NewEntry(step, false, |history| - 1);
      Journaled(key, made, current);
      SetValue(key, step(current));
      entry := made;
    }

    /** onMutate, from the cancelled queries on. */
    method OnMutate(key: string, step: C -> C) returns (entry: Entry?<C>)
      requires Valid()
      modifies this, journals.Values
      ensures Valid() && history == old(history) + [Mutate(key, step)]
      ensures issued == old(issued)[|old(history)| := entry]
      ensures entry != null <==> key in old(cache)
      ensures entry != null ==> fresh(entry) && key in journals && entry in journals[key].entries
    {
      ghost var h, c := history, Mutate(key, step);
      assert Tracked(key);
      TracksMutation(h, key, Cached(key), ViewOf(key), step);
      entry := TakeMutation(key, step);
      forall k | k != key ensures Tracks(h, k, Cached(k), ViewOf(k)) {
        assert old(Tracked(k));
      }
      OthersTracked(h, c, key);
    }

    method TakeMutation(key: string, step: C -> C) returns (entry: Entry?<C>)
      requires Structured() && Value(history + [Mutate(key, step)], |history|, key) == Cached(key)
      modifies this, journals.Values
      ensures Structured() && history == old(history) + [Mutate(key, step)]
      ensures issued == old(issued)[|old(history)| := entry]
      ensures entry != null <==> key in old(cache)
      ensures entry != null ==> fresh(entry) && key in journals && entry in journals[key].entries
      ensures Cached(key) == Mapped(step, old(Cached(key)))
      ensures ViewOf(key) == if key in old(cache)
        then AfterMutation(old(ViewOf(key)), |old(history)|, old(cache)[key]) else old(ViewOf(key))
      ensures forall k :: k != key ==> Cached(k) == old(Cached(k)) && ViewOf(k) == old(ViewOf(k))
    {
      Note(Mutate(key, step));
      entry := WriteMutation(key, step);
    }

    // ---- Settling ----

    /** A mutation of this client on this key whose callback has not run yet. */
    ghost predicate Unsettled(key: string, entry: Entry?<C>, ticket: nat)
      reads this
    {
      && ticket in issued && issued[ticket] == entry && ticket < |history|
      && history[ticket].Mutate? && history[ticket].key == key
      && !Failed(history, ticket) && !Succeeded(history, ticket)
    }

    /** Its entry is in its key's open journal, at one place. */
    lemma EntryIsFound(key: string, entry: Entry<C>, ticket: nat) returns (at: nat)
      requires Valid() && Unsettled(key, entry, ticket)
      ensures Pending(history, ticket, key)
      ensures At(key, entry, at) && entry.ticket == ticket
    {
      assert Tracked(key);
      PendingIsFound(history, key, Cached(key), ViewOf(key), ticket);
      var j := journals[key];
      at :| 0 <= at < |j.tickets| && j.tickets[at] == ticket;
      AppliedExactly(history, j.since, |history|, key);
      forall i, k | 0 <= i < k < |j.entries| ensures j.entries[i] != j.entries[k] {
        assert j.entries[i].ticket == j.tickets[i] < j.tickets[k] == j.entries[k].ticket;
      }
    }

    /** The parts of settling an entry at a known place. */
    ghost predicate At(key: string, entry: Entry<C>, at: nat)
      reads this, journals.Values
    {
      && key in journals && at < |journals[key].entries| == |journals[key].tickets| == |journals[key].settled|
      && journals[key].tickets[at] == entry.ticket && journals[key].entries[at] == entry
      && forall i, j :: 0 <= i < j < |journals[key].entries| ==> journals[key].entries[i] != journals[key].entries[j]
    }

    lemma OnlyThere(key: string, entry: Entry<C>, at: nat)
      requires Structured() && At(key, entry, at)
      ensures forall k, i :: k in journals && 0 <= i < |journals[k].entries| && journals[k].entries[i] == entry ==>
        k == key && i == at
    {
      assert Linked(key);
      forall k, i | k in journals && 0 <= i < |journals[k].entries| && journals[k].entries[i] == entry
        ensures k == key && i == at
      {
        assert Linked(k);
      }
    }

    method MarkSettled(key: string, entry: Entry<C>, ghost at: nat)
      requires Structured() && At(key, entry, at)
      modifies entry, journals[key]
      ensures Structured() && ViewOf(key) == Settling(old(ViewOf(key)), at)
      ensures forall k :: k != key ==> ViewOf(k) == old(ViewOf(k))
    {
      OnlyThere(key, entry, at);
      entry.settled := true;
      journals[key].settled := journals[key].settled[at := true];
      forall k | k in journals ensures Linked(k) {
        assert old(Linked(k));
      }
    }

    /** The entry leaves its journal. */
    method Drop(key: string, entry: Entry<C>, ghost at: nat)
      requires Structured() && At(key, entry, at)
      modifies journals[key]
      ensures Structured() && ViewOf(key) == Dropping(old(ViewOf(key)), at)
      ensures forall k :: k != key ==> ViewOf(k) == old(ViewOf(k))
    {
      DropLinked(key, entry, at);
      forall k | k in journals ensures Linked(k) {
        if k != key { assert old(Linked(k)); }
      }
    }

    method DropLinked(key: string, entry: Entry<C>, ghost at: nat)
      requires Structured() && At(key, entry, at)
      modifies journals[key]
      ensures Linked(key) && ViewOf(key) == Dropping(old(ViewOf(key)), at)
    {
      assert Linked(key);
      journals[key].Remove(entry, at);
    }

    /** What is left is replayed. */
    method Replayed(key: string) returns (value: C)
      requires Structured() && key in journals
      ensures AreSteps(history, ViewOf(key).tickets, key)
      ensures value == Replay(history, ViewOf(key).tickets, key, ViewOf(key).base)
    {
      assert Linked(key);
      value := journals[key].Reduce(history, key);
    }

    method SettleEntry(key: string, entry: Entry<C>, ghost at: nat)
      requires Structured() && At(key, entry, at)
      modifies entry, journals[key], this`journals
      ensures Structured() && ViewOf(key) == Closing(Settling(old(ViewOf(key)), at))
      ensures forall k :: k != key ==> ViewOf(k) == old(ViewOf(k))
    {
      MarkSettled(key, entry, at);
      CloseSettled(key);
    }

    method DropAndReplay(key: string, entry: Entry<C>, ghost at: nat) returns (value: C)
      requires Structured() && At(key, entry, at)
      modifies journals[key]
      ensures Structured() && ViewOf(key) == Dropping(old(ViewOf(key)), at)
      ensures forall k :: k != key ==> ViewOf(k) == old(ViewOf(k))
      ensures AreSteps(history, ViewOf(key).tickets, key)
      ensures value == Replay(history, ViewOf(key).tickets, key, ViewOf(key).base)
    {
      Drop(key, entry, at);
      value := Replayed(key);
    }

    method RollBack(key: string, entry: Entry<C>, ghost at: nat)
      requires Structured() && At(key, entry, at)
      modifies journals[key], this`journals, this`cache
      ensures Structured() && ViewOf(key) == Closing(Dropping(old(ViewOf(key)), at))
      ensures forall k :: k != key ==> ViewOf(k) == old(ViewOf(k))
      ensures AreSteps(history, Dropping(old(ViewOf(key)), at).tickets, key)
      ensures cache == old(cache)[key := Replay(history, Dropping(old(ViewOf(key)), at).tickets, key, old(ViewOf(key).base))]
    {
      var value := DropAndReplay(key, entry, at);
      SetValue(key, value);
      CloseSettled(key);
    }

    /** onSuccess: the entry is settled, and a journal without unsettled entries
        closes. */
    method OnSuccess(key: string, entry: Entry?<C>, ghost ticket: nat)
      requires Valid() && Unsettled(key, entry, ticket)
      modifies this`history, this`journals, journals.Values, entry
      ensures Valid() && history == old(history) + [Success(ticket)]
      ensures issued == old(issued) && cache == old(cache)
    {
      ghost var h, c := history, Success(ticket);
      assert Tracked(key);
      if entry == null {
        TracksVoid(h, key, Cached(key), ViewOf(key), c);
      } else {
        ghost var at := EntryIsFound(key, entry, ticket);
        SuccessCloses(h, key, Cached(key), ViewOf(key), ticket, at);
        SettleEntry(key, entry, at);
      }
      ghost var cached, view := Cached(key), ViewOf(key);
      assert Tracks(h + [c], key, cached, view);
      Note(c);
      forall k | k != key ensures Tracks(h, k, Cached(k), ViewOf(k)) {
        assert old(Tracked(k));
      }
      OthersTracked(h, c, key);
    }

    /** onError: the entry goes, what is left is replayed over the base, and a
        journal without unsettled entries closes. */
    method OnError(key: string, entry: Entry?<C>, ghost ticket: nat)
      requires Valid() && Unsettled(key, entry, ticket)
      modifies this`history, this`journals, this`cache, journals.Values
      ensures Valid() && history == old(history) + [Failure(ticket)]
      ensures issued == old(issued)
    {
      ghost var h, c := history, Failure(ticket);
      if entry != null {
        Recover(key, entry, ticket);
      } else {
        assert Tracked(key);
        TracksVoid(h, key, Cached(key), ViewOf(key), c);
      }
      ghost var cached, view := Cached(key), ViewOf(key);
      assert Tracks(h + [c], key, cached, view);
      Note(c);
      forall k | k != key ensures Tracks(h, k, Cached(k), ViewOf(k)) {
        assert old(Tracked(k));
      }
      OthersTracked(h, c, key);
    }

    method Recover(key: string, entry: Entry<C>, ghost ticket: nat)
      requires Valid() && Unsettled(key, entry, ticket)
      modifies this`journals, this`cache, journals.Values
      ensures Structured() && Tracks(history + [Failure(ticket)], key, Cached(key), ViewOf(key))
      ensures forall k :: k != key ==> Cached(k) == old(Cached(k)) && ViewOf(k) == old(ViewOf(k))
    {
      ghost var at := EntryIsFound(key, entry, ticket);
      assert Tracked(key);
      FailureCloses(history, key, Cached(key), ViewOf(key), ticket, at);
      RollBack(key, entry, at);
    }
  }

  function Mapped<C>(step: C -> C, cached: Option<C>): Option<C> {
    if cached.Some? then Some(step(cached.value)) else None
  }

  function AfterFrame<C>(view: View<C>, ticket: nat, cached: Option<C>): View<C> {
    if view.Open? && cached.Some? then Added(view, ticket, true) else view
  }

  lemma FrameMeans<C(!new)>(h: seq<Call<C>>, key: string, cached: Option<C>, view: View<C>, step: C -> C)
    requires Tracks(h, key, cached, view)
    ensures Tracks(h + [Frame(key, step)], key, Mapped(step, cached), AfterFrame(view, |h|, cached))
  {
    if cached.Some? {
      TracksFrame(h, key, cached.value, view, step);
    } else {
      TracksNothing(h, key, Frame(key, step), view);
    }
  }

  function AfterMutation<C>(view: View<C>, ticket: nat, current: C): View<C> {
    Added(if view.Open? then view else Open(ticket, current, [], []), ticket, false)
  }

  lemma TracksMutation<C(!new)>(h: seq<Call<C>>, key: string, cached: Option<C>, view: View<C>, step: C -> C)
    requires Tracks(h, key, cached, view)
    ensures Value(h + [Mutate(key, step)], |h|, key) == cached
    ensures Tracks(h + [Mutate(key, step)], key,
                   Mapped(step, cached),
                   if cached.Some? then AfterMutation(view, |h|, cached.value) else view)
  {
    EarlierStays(h, Mutate(key, step), |h|, |h|, key);
    if cached.Some? {
      TracksMutate(h, key, cached.value, view, step);
    } else {
      TracksNothing(h, key, Mutate(key, step), view);
    }
  }

  lemma FoundsStay<C(!new)>(h: seq<Call<C>>, c: Call<C>)
    ensures forall t, k :: 0 <= t <= |h| ==> (Value(h + [c], t, k).None? <==> Value(h, t, k).None?)
  {
    forall t, k | 0 <= t <= |h| ensures Value(h + [c], t, k).None? <==> Value(h, t, k).None? {
      FoundStays(h, c, t, k);
    }
  }
}
