/** The ownership resolver (subject/resolver.go): windows find, start, follow and
    settle subjects. One call at a time, so that no compare-and-swap misses; one
    clock reading a call. */
module Resolver {
  import opened Records
  import opened Subjects

  datatype Window = Window(session: string, pid: int)

  datatype Lifecycle = Lifecycle(initial: string, closed: string)

  /** Find: the exact binding, else the window's latest subject by pid. */
  function Found(rows: Rows, w: Window, scope: string): (r: Option<nat>)
    ensures r.Some? ==> r.value < |rows|
  {
    var bound := FindBound(rows, w.session, scope);
    if bound.Some? then bound else FindLatest(rows, w.pid, scope)
  }

  /** A pid that some running window has. */
  predicate Alive(live: int -> bool, pid: int) { pid != 0 && live(pid) }

  /** What a start writes to the subject that it attaches to. */
  function Attached(rows: Rows, w: Window, scope: string, now: int, live: int -> bool): Rows
    requires Found(rows, w, scope).Some?
  {
    var i := Found(rows, w, scope).value;
    if FindBound(rows, w.session, scope).Some? && (w.pid == 0 || rows[i].pid == w.pid || Alive(live, rows[i].pid)) then rows
    else Rebound(rows, i, w.session, w.pid, now)
  }

  /** What a fresh start does to the exact binding before it creates. */
  function Ended(rows: Rows, w: Window, scope: string, lc: Lifecycle, now: int): Rows {
    var bound := FindBound(rows, w.session, scope);
    if bound.Some? then Detached(StatusSet(rows, bound.value, lc.closed, now), bound.value, now) else rows
  }

  function Created(w: Window, scope: string, id: string, slug: string, lc: Lifecycle, now: int): Subject {
    Subject(id, slug, w.session, scope, w.pid, lc.initial, now, now)
  }

  /** What following a session rotation writes. */
  function Rotated(rows: Rows, w: Window, scope: string, now: int, active: Subject -> bool): Rows {
    var latest := FindLatest(rows, w.pid, scope);
    if w.session == "" || FindBound(rows, w.session, scope).Some? || latest.None? || !active(rows[latest.value]) then rows
    else Rebound(rows, latest.value, w.session, w.pid, now)
  }

  /** Which row a settle detaches: the window's latest, when it is strictly
      younger than the subject that the session holds. */
  function Boot(rows: Rows, w: Window, scope: string): (r: Option<nat>)
    ensures r.Some? ==> r.value < |rows|
  {
    var held, latest := FindBound(rows, w.session, scope), FindLatest(rows, w.pid, scope);
    if held.Some? && latest.Some? && latest.value != held.value && rows[latest.value].created > rows[held.value].created
    then latest else None
  }

  function Settled(rows: Rows, w: Window, scope: string, now: int, active: Subject -> bool): Rows {
    var held := FindBound(rows, w.session, scope);
    if held.None? then Rotated(rows, w, scope, now, active) else
      var boot := Boot(rows, w, scope);
      var detached := if boot.Some? then Detached(rows, boot.value, now) else rows;
      if w.pid != 0 && rows[held.value].pid != w.pid then Rebound(detached, held.value, w.session, w.pid, now) else detached
  }

  class Resolver {
    const store: SubjectStore
    const active: Subject -> bool
    const live: int -> bool

    constructor (store: SubjectStore, active: Subject -> bool, live: int -> bool)
      ensures this.store == store && this.active == active && this.live == live
    {
      this.store, this.active, this.live := store, active, live;
    }

    method Find(w: Window, scope: string) returns (r: Option<Subject>)
      ensures r == At(store.rows, Found(store.rows, w, scope))
    {
      r := store.FindBySessionScope(w.session, scope);
      if r.None? {
        r := store.FindLatestByWindowScope(w.pid, scope);
      }
    }

    /** The resume of the exact binding: a window that is gone gives its pid up. */
    method ResumeBound(s: Subject, w: Window, scope: string, now: int) returns (r: Outcome<Subject>)
      requires Indexed(store.rows) && At(store.rows, FindBound(store.rows, w.session, scope)) == Some(s)
      modifies store
      ensures Indexed(store.rows) && store.rows == Attached(old(store.rows), w, scope, now, live)
      ensures r.Ok? && Same(r.value, store.rows[FindBound(old(store.rows), w.session, scope).value])
    {
      OneAnswer(store.rows, FindBound(store.rows, w.session, scope).value);
      var held := s;
      if w.pid != 0 && s.pid != w.pid && !Alive(live, s.pid) {
        var swapped := store.Rebind(s.id, s.pid, w.session, w.pid, now);
        if swapped.ConstraintFailed? {
          return ConstraintFailed;
        }
        held := held.(pid := w.pid);
      }
      r := Ok(held);
    }

    /** The resume of the window's latest: it takes the window's session. */
    method ResumeLatest(s: Subject, w: Window, scope: string, now: int) returns (r: Outcome<Subject>)
      requires Indexed(store.rows) && FindBound(store.rows, w.session, scope).None?
      requires At(store.rows, FindLatest(store.rows, w.pid, scope)) == Some(s)
      modifies store
      ensures Indexed(store.rows) && store.rows == Attached(old(store.rows), w, scope, now, live)
      ensures r.Ok? && Same(r.value, store.rows[FindLatest(old(store.rows), w.pid, scope).value])
    {
      var swapped := store.Rebind(s.id, s.pid, w.session, w.pid, now);
      if swapped.ConstraintFailed? {
        return ConstraintFailed;
      }
      r := Ok(s.(session := w.session));
    }

    method EndBound(w: Window, scope: string, lc: Lifecycle, now: int)
      requires Indexed(store.rows)
      modifies store
      ensures Indexed(store.rows) && store.rows == Ended(old(store.rows), w, scope, lc, now)
      ensures FindBound(store.rows, w.session, scope).None?
    {
      var bound := store.FindBySessionScope(w.session, scope);
      if bound.Some? {
        OneAnswer(store.rows, FindBound(store.rows, w.session, scope).value);
        store.SetStatus(bound.value.id, lc.closed, now);
        OneAnswer(store.rows, FindBound(old(store.rows), w.session, scope).value);
        store.Detach(bound.value.id, now);
      }
    }

    /** No start is refused for its session: the only constraint that can fail is
        that of a fresh id or slug. A start that is not fresh attaches to exactly
        what Find finds, and otherwise creates. */
    method Start(w: Window, scope: string, id: string, slug: string, lc: Lifecycle, fresh_: bool, now: int)
      returns (r: Outcome<Subject>, resumed: bool)
      requires Indexed(store.rows)
      modifies store
      ensures Indexed(store.rows)
      ensures r.ConstraintFailed? ==> !Unused(old(store.rows), id, slug)
      ensures resumed <==> !fresh_ && Found(old(store.rows), w, scope).Some?
      ensures resumed ==>
        var i := Found(old(store.rows), w, scope).value;
        && store.rows == Attached(old(store.rows), w, scope, now, live)
        && r.Ok? && Same(r.value, store.rows[i])
      ensures !resumed && r.Ok? ==>
        var rest := if fresh_ then Ended(old(store.rows), w, scope, lc, now) else old(store.rows);
        && r.value == Created(w, scope, id, slug, lc, now)
        && store.rows == rest + [r.value]
    {
      if fresh_ {
        EndBound(w, scope, lc, now);
        r := store.Create(Created(w, scope, id, slug, lc, now));
        return r, false;
      }
      var bound := store.FindBySessionScope(w.session, scope);
      if bound.Some? {
        r := ResumeBound(bound.value, w, scope, now);
        return r, true;
      }
      var latest := store.FindLatestByWindowScope(w.pid, scope);
      if latest.Some? {
        r := ResumeLatest(latest.value, w, scope, now);
        return r, true;
      }
      r := store.Create(Created(w, scope, id, slug, lc, now));
      resumed := false;
    }

    /** Rebind: follow a session rotation, on the window's own active subject. */
    method Rotate(w: Window, scope: string, now: int) returns (ok: bool)
      requires Indexed(store.rows)
      modifies store
      ensures ok && Indexed(store.rows)
      ensures store.rows == Rotated(old(store.rows), w, scope, now, active)
    {
      if w.session == "" {
        return true;
      }
      var bound := store.FindBySessionScope(w.session, scope);
      if bound.Some? {
        return true;
      }
      var latest := store.FindLatestByWindowScope(w.pid, scope);
      if latest.Some? && active(latest.value) {
        var swapped := store.Rebind(latest.value.id, latest.value.pid, w.session, w.pid, now);
        return !swapped.ConstraintFailed?;
      }
      ok := true;
    }

    /** No settle is refused; it returns the id of the subject it detached. */
    method Settle(w: Window, scope: string, now: int) returns (ok: bool, boot: string)
      requires Indexed(store.rows)
      modifies store
      ensures ok && Indexed(store.rows)
      ensures store.rows == Settled(old(store.rows), w, scope, now, active)
      ensures var detached := Boot(old(store.rows), w, scope);
        boot == if detached.Some? then old(store.rows)[detached.value].id else ""
    {
      var held := store.FindBySessionScope(w.session, scope);
      if held.None? {
        ok := Rotate(w, scope, now);
        return ok, "";
      }
      ghost var at := FindBound(store.rows, w.session, scope).value;
      OneAnswer(store.rows, at);
      boot := "";
      var latest := store.FindLatestByWindowScope(w.pid, scope);
      if latest.Some? { OneAnswer(store.rows, FindLatest(store.rows, w.pid, scope).value); }
      if latest.Some? && latest.value.id != held.value.id && latest.value.created > held.value.created {
        store.Detach(latest.value.id, now);
        boot := latest.value.id;
      }
      OneAnswer(store.rows, at);
      if w.pid != 0 && held.value.pid != w.pid {
        var swapped := store.Rebind(held.value.id, held.value.pid, w.session, w.pid, now);
        return !swapped.ConstraintFailed?, boot;
      }
      ok := true;
    }
  }

  /** A start and then a lookup by the same window, with a clock that did not run
      backwards: the lookup returns the started subject exactly if the window has
      a session or a pid. */
  method StartThenFind(rs: Resolver, w: Window, scope: string, id: string, slug: string, lc: Lifecycle, fresh_: bool, now: int)
    returns (r: Outcome<Subject>, found: Option<Subject>)
    requires Indexed(rs.store.rows) && NoneLater(rs.store.rows, now)
    modifies rs.store
    ensures r.Ok? ==>
      (found.Some? && Same(r.value, found.value) <==> w.session != "" || w.pid != 0)
  {
    ghost var rows := rs.store.rows;
    var resumed;
    r, resumed := rs.Start(w, scope, id, slug, lc, fresh_, now);
    if resumed {
      FindAfterAttach(rows, w, scope, now, rs.live);
    } else if r.Ok? {
      var rest := if fresh_ then Ended(rows, w, scope, lc, now) else rows;
      WasInsertable(rest, r.value);
      FindAfterCreate(rest, w, scope, id, slug, lc, now);
    }
    found := rs.Find(w, scope);
  }

  lemma WasInsertable(rows: Rows, s: Subject)
    requires Indexed(rows + [s])
    ensures Insertable(rows, s)
  {
    var after := rows + [s];
    forall i | 0 <= i < |rows|
      ensures rows[i].id != s.id && !Bound(rows[i], s.session, s.scope) && (s.slug == "" || rows[i].slug != s.slug)
    {
      assert after[i] == rows[i] && after[|rows|] == s;
    }
  }

  predicate Unused(rows: Rows, id: string, slug: string) {
    forall i | 0 <= i < |rows| :: rows[i].id != id && (slug == "" || rows[i].slug != slug)
  }

  /** Equal but for the time of the last write. */
  predicate Same(s: Subject, row: Subject) { s == row.(updated := s.updated) }

  // ---- Start agrees with Find ----

  ghost predicate NoneLater(rows: Rows, now: int) {
    forall i :: 0 <= i < |rows| ==> rows[i].created <= now
  }

  /** After a start that attached, Find finds the same row, if the window has a
      session or a pid. */
  lemma FindAfterAttach(rows: Rows, w: Window, scope: string, now: int, live: int -> bool)
    requires Indexed(rows) && Found(rows, w, scope).Some?
    ensures Found(Attached(rows, w, scope, now, live), w, scope) == Found(rows, w, scope)
  {
    var i := Found(rows, w, scope).value;
    var after := Attached(rows, w, scope, now, live);
    OneAnswer(rows, i);
    if after != rows {
      ReboundIsIndexed(rows, i, w.session, w.pid, now);
      OneAnswer(after, i);
      if w.session == "" {
        LatestIs(after, w.pid, scope, i);
      }
    }
  }

  lemma {:induction false} LatestIs(rows: Rows, pid: int, scope: string, i: nat)
    requires i < |rows| && Owned(rows[i], pid, scope)
    requires forall j :: 0 <= j < |rows| && Owned(rows[j], pid, scope) ==> !Beats(rows, j, i)
    ensures FindLatest(rows, pid, scope) == Some(i)
  {
    var k := FindLatest(rows, pid, scope).value;
    assert !Beats(rows, k, i) && !Beats(rows, i, k);
  }

  /** After a start that created, Find finds the new row exactly if the window has
      a session or a pid; otherwise it finds nothing. */
  lemma FindAfterCreate(rows: Rows, w: Window, scope: string, id: string, slug: string, lc: Lifecycle, now: int)
    requires Insertable(rows, Created(w, scope, id, slug, lc, now)) && NoneLater(rows, now)
    ensures Found(rows + [Created(w, scope, id, slug, lc, now)], w, scope)
         == if w.session != "" || w.pid != 0 then Some(|rows|) else None
  {
    assert (rows + [Created(w, scope, id, slug, lc, now)])[..|rows|] == rows;
  }

  /** A start that is not fresh changes no row of another live window. */
  lemma AttachSparesLiveWindows(rows: Rows, w: Window, scope: string, now: int, live: int -> bool, i: nat)
    requires Found(rows, w, scope).Some? && i < |rows|
    requires Alive(live, rows[i].pid) && rows[i].pid != w.pid
    ensures Attached(rows, w, scope, now, live)[i] == rows[i]
  {
  }

  // ---- Settle ----

  /** The window's own subjects in the scope that are strictly younger than the
      one its session holds. */
  predicate Younger(rows: Rows, w: Window, scope: string, held: nat, i: nat)
    requires held < |rows|
  {
    i < |rows| && i != held && Owned(rows[i], w.pid, scope) && rows[i].created > rows[held].created
  }

  ghost predicate AtMostOneYounger(rows: Rows, w: Window, scope: string, held: nat)
    requires held < |rows|
  {
    forall i: nat, j: nat :: Younger(rows, w, scope, held, i) && Younger(rows, w, scope, held, j) ==> i == j
  }

  /** No other of the window's subjects has the same second and a later row. */
  ghost predicate NoTieAbove(rows: Rows, w: Window, scope: string, held: nat)
    requires held < |rows|
  {
    forall i: nat :: held < i < |rows| && Owned(rows[i], w.pid, scope) ==> rows[i].created != rows[held].created
  }

  /** A settle detaches a younger subject exactly if there is one, and then the
      latest of them. */
  lemma BootIsYounger(rows: Rows, w: Window, scope: string, held: nat)
    requires Indexed(rows) && FindBound(rows, w.session, scope) == Some(held)
    ensures Boot(rows, w, scope).Some? <==> exists i: nat :: Younger(rows, w, scope, held, i)
    ensures Boot(rows, w, scope).Some? ==> Younger(rows, w, scope, held, Boot(rows, w, scope).value)
  {
    var boot := Boot(rows, w, scope);
    if boot.Some? { assert Younger(rows, w, scope, held, boot.value); }
    forall i: nat | Younger(rows, w, scope, held, i) ensures boot.Some? {
      var latest := FindLatest(rows, w.pid, scope);
      assert latest.Some? && !Beats(rows, i, latest.value);
    }
  }

  /** What a settle does to each row: the held one is the window's, the boot
      subject is nobody's, and the rest is as it was. */
  lemma SettledRows(rows: Rows, w: Window, scope: string, now: int, active: Subject -> bool, held: nat)
    requires Indexed(rows) && FindBound(rows, w.session, scope) == Some(held)
    ensures var after := Settled(rows, w, scope, now, active);
      var boot := Boot(rows, w, scope);
      && |after| == |rows| && Indexed(after)
      && (boot.Some? ==> boot.value != held && after[boot.value].session == "" && after[boot.value].pid == 0)
      && (forall i :: 0 <= i < |rows| && i != held && boot != Some(i) ==> after[i] == rows[i])
      && after[held].pid == (if w.pid != 0 then w.pid else rows[held].pid)
      && after[held].session == w.session
      && (forall i :: 0 <= i < |rows| ==> after[i].created == rows[i].created && after[i].scope == rows[i].scope)
  {
    var boot := Boot(rows, w, scope);
    if boot.Some? { ReboundIsIndexed(rows, boot.value, "", 0, now); }
    var detached := if boot.Some? then Detached(rows, boot.value, now) else rows;
    OneAnswer(detached, held);
    if w.pid != 0 && rows[held].pid != w.pid { ReboundIsIndexed(detached, held, w.session, w.pid, now); }
  }

  /** After a settle the session finds the subject that it held, and so does the
      boot session that the settle detached, exactly if the window had no second
      younger subject and no other row of the same second after the held one. */
  lemma SettledIsFound(rows: Rows, w: Window, scope: string, now: int, active: Subject -> bool, held: nat)
    requires Indexed(rows) && FindBound(rows, w.session, scope) == Some(held)
    ensures var after := Settled(rows, w, scope, now, active);
      var boot := Boot(rows, w, scope);
      && Found(after, w, scope) == Some(held)
      && (boot.Some? ==>
        (Found(after, Window(rows[boot.value].session, w.pid), scope) == Some(held)
         <==> AtMostOneYounger(rows, w, scope, held) && NoTieAbove(rows, w, scope, held)))
  {
    var after := Settled(rows, w, scope, now, active);
    var boot := Boot(rows, w, scope);
    SettledRows(rows, w, scope, now, active, held);
    OneAnswer(after, held);
    if boot.Some? {
      BootIsYounger(rows, w, scope, held);
      BootIsUnbound(rows, w, scope, now, active, held);
      HeldIsLatest(rows, w, scope, now, active, held);
    }
  }

  lemma BootIsUnbound(rows: Rows, w: Window, scope: string, now: int, active: Subject -> bool, held: nat)
    requires Indexed(rows) && FindBound(rows, w.session, scope) == Some(held) && Boot(rows, w, scope).Some?
    ensures FindBound(Settled(rows, w, scope, now, active), rows[Boot(rows, w, scope).value].session, scope).None?
  {
    SettledRows(rows, w, scope, now, active, held);
    BootIsYounger(rows, w, scope, held);
  }

  /** By pid the window finds the held subject after a settle under the same
      exact condition. */
  lemma HeldIsLatest(rows: Rows, w: Window, scope: string, now: int, active: Subject -> bool, held: nat)
    requires Indexed(rows) && FindBound(rows, w.session, scope) == Some(held) && w.pid != 0
    ensures FindLatest(Settled(rows, w, scope, now, active), w.pid, scope) == Some(held)
      <==> AtMostOneYounger(rows, w, scope, held) && NoTieAbove(rows, w, scope, held)
  {
    if AtMostOneYounger(rows, w, scope, held) && NoTieAbove(rows, w, scope, held) {
      HeldWins(rows, w, scope, now, active, held);
    } else {
      var other := HeldLoses(rows, w, scope, now, active, held);
    }
  }

  lemma HeldWins(rows: Rows, w: Window, scope: string, now: int, active: Subject -> bool, held: nat)
    requires Indexed(rows) && FindBound(rows, w.session, scope) == Some(held) && w.pid != 0
    requires AtMostOneYounger(rows, w, scope, held) && NoTieAbove(rows, w, scope, held)
    ensures FindLatest(Settled(rows, w, scope, now, active), w.pid, scope) == Some(held)
  {
    var after := Settled(rows, w, scope, now, active);
    SettledRows(rows, w, scope, now, active, held);
    BootIsYounger(rows, w, scope, held);
    forall j | 0 <= j < |after| && Owned(after[j], w.pid, scope) ensures !Beats(after, j, held) {
      if j != held {
        assert after[j] == rows[j];
        assert !Younger(rows, w, scope, held, j);
      }
    }
    LatestIs(after, w.pid, scope, held);
  }

  /** Some other of the window's rows comes first. */
  lemma HeldLoses(rows: Rows, w: Window, scope: string, now: int, active: Subject -> bool, held: nat)
    returns (other: nat)
    requires Indexed(rows) && FindBound(rows, w.session, scope) == Some(held) && w.pid != 0
    requires !AtMostOneYounger(rows, w, scope, held) || !NoTieAbove(rows, w, scope, held)
    ensures var after := Settled(rows, w, scope, now, active);
      other < |after| && Owned(after[other], w.pid, scope) && Beats(after, other, held)
  {
    if !NoTieAbove(rows, w, scope, held) {
      other :| held < other < |rows| && Owned(rows[other], w.pid, scope) && rows[other].created == rows[held].created;
      TieWins(rows, w, scope, now, active, held, other);
    } else {
      var i: nat, j: nat :| Younger(rows, w, scope, held, i) && Younger(rows, w, scope, held, j) && i != j;
      other := if Boot(rows, w, scope) == Some(i) then j else i;
      YoungerWins(rows, w, scope, now, active, held, other);
    }
  }

  lemma TieWins(rows: Rows, w: Window, scope: string, now: int, active: Subject -> bool, held: nat, other: nat)
    requires Indexed(rows) && FindBound(rows, w.session, scope) == Some(held) && w.pid != 0
    requires held < other < |rows| && Owned(rows[other], w.pid, scope) && rows[other].created == rows[held].created
    ensures var after := Settled(rows, w, scope, now, active);
      other < |after| && Owned(after[other], w.pid, scope) && Beats(after, other, held)
  {
    SettledRows(rows, w, scope, now, active, held);
  }

  lemma YoungerWins(rows: Rows, w: Window, scope: string, now: int, active: Subject -> bool, held: nat, other: nat)
    requires Indexed(rows) && FindBound(rows, w.session, scope) == Some(held) && w.pid != 0
    requires Younger(rows, w, scope, held, other) && Boot(rows, w, scope) != Some(other)
    ensures var after := Settled(rows, w, scope, now, active);
      other < |after| && Owned(after[other], w.pid, scope) && Beats(after, other, held)
  {
    SettledRows(rows, w, scope, now, active, held);
  }

  /** A second settle moves nothing, exactly if there was at most one younger
      subject. */
  lemma SettleTwice(rows: Rows, w: Window, scope: string, now: int, later: int, active: Subject -> bool, held: nat)
    requires Indexed(rows) && FindBound(rows, w.session, scope) == Some(held)
    ensures var after := Settled(rows, w, scope, now, active);
      && (Boot(after, w, scope).None? <==> AtMostOneYounger(rows, w, scope, held))
      && (Boot(after, w, scope).None? <==> Settled(after, w, scope, later, active) == after)
  {
    var after := Settled(rows, w, scope, now, active);
    SettledRows(rows, w, scope, now, active, held);
    OneAnswer(after, held);
    BootIsYounger(rows, w, scope, held);
    BootIsYounger(after, w, scope, held);
    YoungerAfter(rows, w, scope, now, active, held);
    SettledRows(after, w, scope, later, active, held);
  }

  lemma YoungerAfter(rows: Rows, w: Window, scope: string, now: int, active: Subject -> bool, held: nat)
    requires Indexed(rows) && FindBound(rows, w.session, scope) == Some(held)
    ensures var after := Settled(rows, w, scope, now, active);
      |after| == |rows| && forall i: nat ::
        Younger(after, w, scope, held, i) <==> Younger(rows, w, scope, held, i) && Boot(rows, w, scope) != Some(i)
  {
    SettledRows(rows, w, scope, now, active, held);
  }

  /** And nothing moves at all when the session held nothing the first time. */
  lemma RotateTwice(rows: Rows, w: Window, scope: string, now: int, later: int, active: Subject -> bool)
    requires Indexed(rows) && FindBound(rows, w.session, scope).None?
    ensures var after := Settled(rows, w, scope, now, active);
      Settled(after, w, scope, later, active) == after && Boot(after, w, scope).None?
  {
    var after := Settled(rows, w, scope, now, active);
    if after != rows {
      var i := FindLatest(rows, w.pid, scope).value;
      ReboundIsIndexed(rows, i, w.session, w.pid, now);
      OneAnswer(after, i);
      LatestIs(after, w.pid, scope, i);
    }
  }

  /** Following a rotation and creating change no row of another window. */
  lemma RotationSparesOthers(rows: Rows, w: Window, scope: string, now: int, active: Subject -> bool, i: nat)
    requires i < |rows| && rows[i].pid != w.pid
    ensures Rotated(rows, w, scope, now, active)[i] == rows[i]
  {
  }

  // ---- Where a settle falls short ----

  /** A window's own three subjects: the one that its session holds, another, and a
      boot subject; the other is not younger than the boot subject. */
  predicate Trio(rows: Rows, w: Window, scope: string) {
    && |rows| == 3 && w.session != "" && w.pid != 0
    && (forall i | 0 <= i < 3 :: Owned(rows[i], w.pid, scope))
    && (forall i | 0 <= i < 3 :: rows[i].session == w.session <==> i == 0)
    && rows[1].session != rows[2].session
    && rows[0].created < rows[2].created && rows[1].created <= rows[2].created
  }

  /** A settle detaches the boot subject and touches nothing else. */
  lemma TrioSettles(rows: Rows, w: Window, scope: string, now: int, active: Subject -> bool)
    requires Indexed(rows) && Trio(rows, w, scope)
    ensures FindBound(rows, w.session, scope) == Some(0) && Boot(rows, w, scope) == Some(2)
    ensures Settled(rows, w, scope, now, active) == Detached(rows, 2, now)
  {
    OneAnswer(rows, 0);
    LatestIs(rows, w.pid, scope, 2);
  }

  /** If the other is strictly younger than the held subject, the boot session finds
      the other afterwards, and a second settle detaches it too. */
  lemma SecondYounger(rows: Rows, w: Window, scope: string, now: int, later: int, active: Subject -> bool)
    requires Indexed(rows) && Trio(rows, w, scope) && rows[1].created > rows[0].created
    ensures var after := Settled(rows, w, scope, now, active);
      && Found(after, Window(rows[2].session, w.pid), scope) == Some(1)
      && Settled(after, w, scope, later, active)[1].pid == 0
  {
    TrioSettles(rows, w, scope, now, active);
    var after := Detached(rows, 2, now);
    ReboundIsIndexed(rows, 2, "", 0, now);
    OneAnswer(after, 0);
    LatestIs(after, w.pid, scope, 1);
  }

  /** If the other has the held subject's very second and a later row, the boot
      session finds the other as well. */
  lemma SameSecond(rows: Rows, w: Window, scope: string, now: int, active: Subject -> bool)
    requires Indexed(rows) && Trio(rows, w, scope) && rows[1].created == rows[0].created
    ensures Found(Settled(rows, w, scope, now, active), Window(rows[2].session, w.pid), scope) == Some(1)
  {
    TrioSettles(rows, w, scope, now, active);
    LatestIs(Detached(rows, 2, now), w.pid, scope, 1);
  }

  /** There are such tables, whatever the times allow. */
  lemma TrioExists(w: Window, scope: string, held: int, other: int, boot: int) returns (rows: Rows)
    requires w.session != "" && w.pid != 0 && held < boot && other <= boot
    ensures Indexed(rows) && Trio(rows, w, scope)
    ensures rows[0].created == held && rows[1].created == other && rows[2].created == boot
  {
    var b, c := w.session + "b", w.session + "bc";
    rows := [Subject("", "", w.session, scope, w.pid, "", held, held),
             Subject("b", "", b, scope, w.pid, "", other, other),
             Subject("bc", "", c, scope, w.pid, "", boot, boot)];
    assert |w.session| < |b| < |c|;
  }
}
