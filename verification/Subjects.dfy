/** The subjects table (store/subjectstore.go, and its unique indexes in
    store/store.go). A row's position is its rowid; a NULL session is "". */
module Subjects {
  import opened Records

  datatype Subject = Subject(
    id: string,
    slug: string,
    session: string,
    scope: string,
    pid: int,
    status: string,
    created: int,
    updated: int)

  type Rows = seq<Subject>

  /** The primary key and the two partial unique indexes. */
  ghost predicate Indexed(rows: Rows) {
    && (forall i, j :: 0 <= i < j < |rows| ==> rows[i].id != rows[j].id)
    && (forall i, j :: 0 <= i < j < |rows| && rows[i].session != "" ==>
      !(rows[i].session == rows[j].session && rows[i].scope == rows[j].scope))
    && (forall i, j :: 0 <= i < j < |rows| && rows[i].slug != "" ==> rows[i].slug != rows[j].slug)
  }

  predicate Bound(s: Subject, session: string, scope: string) {
    session != "" && s.session == session && s.scope == scope
  }

  predicate Owned(s: Subject, pid: int, scope: string) {
    pid != 0 && s.pid == pid && s.scope == scope
  }

  /** ORDER BY created_at DESC, rowid DESC puts j before i. */
  predicate Beats(rows: Rows, j: nat, i: nat)
    requires i < |rows| && j < |rows|
  {
    rows[j].created > rows[i].created || (rows[j].created == rows[i].created && j > i)
  }

  function FindById(rows: Rows, id: string): (r: Option<nat>)
    ensures r.Some? ==> r.value < |rows| && rows[r.value].id == id
    ensures r.None? ==> forall i :: 0 <= i < |rows| ==> rows[i].id != id
  {
    if rows == [] then None
    else if rows[|rows| - 1].id == id then Some(|rows| - 1)
    else FindById(rows[..|rows| - 1], id)
  }

  function FindBound(rows: Rows, session: string, scope: string): (r: Option<nat>)
    ensures r.Some? ==> r.value < |rows| && Bound(rows[r.value], session, scope)
    ensures r.None? ==> forall i :: 0 <= i < |rows| ==> !Bound(rows[i], session, scope)
  {
    if rows == [] then None
    else if Bound(rows[|rows| - 1], session, scope) then Some(|rows| - 1)
    else FindBound(rows[..|rows| - 1], session, scope)
  }

  function FindLatest(rows: Rows, pid: int, scope: string): (r: Option<nat>)
    ensures r.Some? ==> r.value < |rows| && Owned(rows[r.value], pid, scope)
    ensures r.Some? ==> forall j :: 0 <= j < |rows| && Owned(rows[j], pid, scope) ==> !Beats(rows, j, r.value)
    ensures r.None? ==> forall i :: 0 <= i < |rows| ==> !Owned(rows[i], pid, scope)
  {
    if rows == [] then None else
      var n := |rows| - 1;
      var before := FindLatest(rows[..n], pid, scope);
      if !Owned(rows[n], pid, scope) then before
      else if before.Some? && rows[before.value].created > rows[n].created then before
      else Some(n)
  }

  // ---- The statements ----

  function Rebound(rows: Rows, i: nat, session: string, pid: int, now: int): Rows
    requires i < |rows|
  {
    rows[i := rows[i].(session := session, pid := pid, updated := now)]
  }

  function Detached(rows: Rows, i: nat, now: int): Rows
    requires i < |rows|
  {
    Rebound(rows, i, "", 0, now)
  }

  function StatusSet(rows: Rows, i: nat, status: string, now: int): Rows
    requires i < |rows|
  {
    rows[i := rows[i].(status := status, updated := now)]
  }

  predicate Taken(rows: Rows, i: nat, session: string)
    requires i < |rows|
  {
    exists j | 0 <= j < |rows| :: j != i && Bound(rows[j], session, rows[i].scope)
  }

  datatype Outcome<T> = Ok(value: T) | ConstraintFailed

  class SubjectStore {
    var rows: Rows

    constructor ()
      ensures rows == [] && Indexed(rows)
    {
      rows := [];
    }

    method FindBySessionScope(session: string, scope: string) returns (r: Option<Subject>)
      ensures r == At(rows, FindBound(rows, session, scope))
    {
      r := At(rows, FindBound(rows, session, scope));
    }

    method FindLatestByWindowScope(pid: int, scope: string) returns (r: Option<Subject>)
      ensures r == At(rows, FindLatest(rows, pid, scope))
    {
      r := At(rows, FindLatest(rows, pid, scope));
    }

    /** An insert that no unique index refuses. */
    method Create(s: Subject) returns (r: Outcome<Subject>)
      requires Indexed(rows)
      modifies this
      ensures Indexed(rows)
      ensures r == if Insertable(old(rows), s) then Ok(s) else ConstraintFailed
      ensures rows == if r.Ok? then old(rows) + [s] else old(rows)
    {
      if Insertable(rows, s) {
        rows := rows + [s];
        return Ok(s);
      }
      r := ConstraintFailed;
    }

    /** Compare-and-swap on the pid; the unique index may refuse the session. */
    method Rebind(id: string, fromPid: int, session: string, pid: int, now: int) returns (r: Outcome<bool>)
      requires Indexed(rows)
      modifies this
      ensures Indexed(rows)
      ensures var i := FindById(old(rows), id);
        if i.None? || old(rows)[i.value].pid != fromPid then r == Ok(false) && rows == old(rows)
        else if Taken(old(rows), i.value, session) then r == ConstraintFailed && rows == old(rows)
        else r == Ok(true) && rows == Rebound(old(rows), i.value, session, pid, now)
    {
      var i := FindById(rows, id);
      if i.None? || rows[i.value].pid != fromPid {
        return Ok(false);
      }
      if Taken(rows, i.value, session) {
        return ConstraintFailed;
      }
      ReboundIsIndexed(rows, i.value, session, pid, now);
      rows := Rebound(rows, i.value, session, pid, now);
      r := Ok(true);
    }

    method SetStatus(id: string, status: string, now: int)
      requires Indexed(rows)
      modifies this
      ensures Indexed(rows)
      ensures var i := FindById(old(rows), id);
        rows == if i.Some? then StatusSet(old(rows), i.value, status, now) else old(rows)
    {
      var i := FindById(rows, id);
      if i.Some? {
        rows := StatusSet(rows, i.value, status, now);
      }
    }

    method Detach(id: string, now: int)
      requires Indexed(rows)
      modifies this
      ensures Indexed(rows)
      ensures var i := FindById(old(rows), id);
        rows == if i.Some? then Detached(old(rows), i.value, now) else old(rows)
    {
      var i := FindById(rows, id);
      if i.Some? {
        ReboundIsIndexed(rows, i.value, "", 0, now);
        rows := Detached(rows, i.value, now);
      }
    }
  }

  function At(rows: Rows, i: Option<nat>): Option<Subject>
    requires i.Some? ==> i.value < |rows|
  {
    if i.Some? then Some(rows[i.value]) else None
  }

  predicate Insertable(rows: Rows, s: Subject) {
    forall i | 0 <= i < |rows| ::
      rows[i].id != s.id && !Bound(rows[i], s.session, s.scope) && (s.slug == "" || rows[i].slug != s.slug)
  }

  lemma ReboundIsIndexed(rows: Rows, i: nat, session: string, pid: int, now: int)
    requires Indexed(rows) && i < |rows| && !Taken(rows, i, session)
    ensures Indexed(Rebound(rows, i, session, pid, now))
  {
    var after := Rebound(rows, i, session, pid, now);
    forall j, k | 0 <= j < k < |after| && after[j].session != ""
      ensures !(after[j].session == after[k].session && after[j].scope == after[k].scope)
    {
      assert j != i ==> after[j] == rows[j];
      assert k != i ==> after[k] == rows[k];
    }
  }

  /** In an indexed table a lookup by id or by binding has one answer. */
  lemma OneAnswer(rows: Rows, i: nat)
    requires Indexed(rows) && i < |rows|
    ensures FindById(rows, rows[i].id) == Some(i)
    ensures rows[i].session != "" ==> FindBound(rows, rows[i].session, rows[i].scope) == Some(i)
  {
  }
}
