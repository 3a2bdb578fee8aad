/** Any number of archive-policy openers of one store path and one schema
    (store/store.go Open, resetUnderLock, createStore; store/schema_archive.go),
    step by step over the files. */
module Archive {
  import opened Records

  /** What verifySchema makes of a file: nothing in it yet, another schema, or the
      wanted one. */
  datatype Content = Empty | Foreign | Wanted

  /** Where an opener is. A file number stands for an open handle. */
  datatype Pc =
    | Statted(exists_: bool)
    | Peeking(file: nat)
    | Waiting
    | Locked
    | Checking(file: nat)
    | Unsupported(file: nat)
    | Creating
    | Making(file: nat)
    | Made(file: nat)
    | Ready(file: nat)
    | Open(file: nat)
    | Failed

  /** `archived` and `broken` are history: the files renamed aside, and how many
      openers failed between their archive and the end of their creation. */
  datatype State = State(
    files: seq<Content>,
    path: Option<nat>,
    lock: Option<nat>,
    openers: map<nat, Pc>,
    archived: seq<nat>,
    broken: nat)

  datatype Step =
    | Stat
    | Peek
    | PeekVerify
    | PeekTransient
    | Acquire
    | LockTimeout
    | LockedStat
    | Check
    | Rename
    | OpenNew
    | MakeSchema
    | VerifyNew
    | Release
    | Fail

  predicate HoldsLock(pc: Pc) {
    pc.Locked? || pc.Checking? || pc.Unsupported? || pc.Creating? || pc.Making? || pc.Made? || pc.Ready?
  }

  predicate Enabled(s: State, o: nat, step: Step) {
    if o !in s.openers then step == Stat else
      var pc := s.openers[o];
      match step
      case Stat => false
      case Peek => pc.Statted?
      case PeekVerify => pc.Peeking? && pc.file < |s.files|
      case PeekTransient => pc.Peeking?
      case Acquire => pc.Waiting? && s.lock == None
      case LockTimeout => pc.Waiting?
      case LockedStat => pc.Locked?
      case Check => pc.Checking? && pc.file < |s.files|
      case Rename => pc.Unsupported?
      case OpenNew => pc.Creating?
      case MakeSchema => pc.Making? && pc.file < |s.files| && s.files[pc.file] == Empty
      case VerifyNew => pc.Made? && pc.file < |s.files| && s.files[pc.file] == Wanted
      case Release => pc.Ready?
      case Fail => HoldsLock(pc) && !pc.Ready?
  }

  function At(s: State, o: nat, pc: Pc): State { s.(openers := s.openers[o := pc]) }

  /** The file that opening the path gives: an open creates a missing one. */
  function PathFile(s: State): nat { if s.path.Some? then s.path.value else |s.files| }

  function PathOpened(s: State): State {
    if s.path.Some? then s else s.(files := s.files + [Empty], path := Some(|s.files|))
  }

  function After(s: State, o: nat, step: Step): State
    requires Enabled(s, o, step)
  {
    match step
    case Stat => At(s, o, Statted(s.path.Some?))
    case Peek =>
      if s.openers[o].exists_ then At(PathOpened(s), o, Peeking(PathFile(s))) else At(s, o, Waiting)
    case PeekVerify =>
      var file := s.openers[o].file;
      At(s, o, if s.files[file] == Wanted then Open(file) else Waiting)
    case PeekTransient => At(s, o, Waiting)
    case Acquire => At(s, o, Locked).(lock := Some(o))
    case LockTimeout => At(s, o, Failed)
    case LockedStat => At(s, o, if s.path.Some? then Checking(s.path.value) else Creating)
    case Check =>
      var file := s.openers[o].file;
      At(s, o, if s.files[file] == Wanted then Ready(file) else Unsupported(file))
    case Rename =>
      if s.path.Some? then At(s, o, Creating).(path := None, archived := s.archived + [s.path.value])
      else At(s, o, Failed).(lock := None)
    case OpenNew => At(PathOpened(s), o, Making(PathFile(s)))
    case MakeSchema =>
      var file := s.openers[o].file;
      At(s, o, Made(file)).(files := s.files[file := Wanted])
    case VerifyNew => At(s, o, Ready(s.openers[o].file))
    case Release => At(s, o, Open(s.openers[o].file)).(lock := None)
    case Fail =>
      var pc := s.openers[o];
      At(s, o, Failed).(lock := None, broken := if pc.Creating? || pc.Making? || pc.Made? then s.broken + 1 else s.broken)
  }

  ghost predicate Next(s: State, s': State) {
    exists o, step :: Enabled(s, o, step) && s' == After(s, o, step)
  }

  /** No opener yet, and at the path nothing or any file. */
  predicate Initial(s: State) {
    && s.openers == map[] && s.lock == None && s.archived == [] && s.broken == 0
    && ((s.files == [] && s.path == None) || (|s.files| == 1 && s.path == Some(0)))
  }

  ghost predicate IsRun(run: seq<State>) {
    && run != [] && Initial(run[0])
    && forall i, j :: 0 <= i < j < |run| && j == i + 1 ==> Next(run[i], run[j])
  }

  // ---- What every state keeps ----

  /** One opener holds the lock at a time. */
  predicate Locks(s: State) {
    && (s.lock.Some? ==> s.lock.value in s.openers)
    && forall o :: o in s.openers ==> (HoldsLock(s.openers[o]) <==> s.lock == Some(o))
  }

  /** The wanted store is the one at the path; what was archived is not wanted. */
  predicate Stores(s: State) {
    && (s.path.Some? ==> s.path.value < |s.files|)
    && (forall i :: 0 <= i < |s.files| && s.files[i] == Wanted ==> s.path == Some(i))
    && (forall k :: 0 <= k < |s.archived| ==>
      s.archived[k] < |s.files| && s.files[s.archived[k]] != Wanted && s.path != Some(s.archived[k]))
  }

  predicate PathIs(s: State, file: nat) { s.path == Some(file) && file < |s.files| }

  /** What each opener knows. */
  predicate Knows(s: State, pc: Pc) {
    match pc
    case Peeking(file) => file < |s.files|
    case Checking(file) => PathIs(s, file)
    case Unsupported(file) => PathIs(s, file) && s.files[file] != Wanted
    case Creating => s.path.Some? ==> s.path.value < |s.files| && s.files[s.path.value] == Empty
    case Making(file) => PathIs(s, file) && s.files[file] == Empty
    case Made(file) => PathIs(s, file) && s.files[file] == Wanted
    case Ready(file) => PathIs(s, file) && s.files[file] == Wanted
    case Open(file) => PathIs(s, file) && s.files[file] == Wanted
    case _ => true
  }

  predicate AllKnow(s: State) {
    forall o :: o in s.openers ==> Knows(s, s.openers[o])
  }

  predicate WantedAtPath(s: State) {
    s.path.Some? && s.path.value < |s.files| && s.files[s.path.value] == Wanted
  }

  /** Whether one more archive can come without another failure. */
  function Owed(s: State): nat {
    if s.lock.Some? && s.lock.value in s.openers
      && (s.openers[s.lock.value].Creating? || s.openers[s.lock.value].Making? || s.openers[s.lock.value].Made?) then 0
    else if WantedAtPath(s) then 0 else 1
  }

  predicate Bounded(s: State) { |s.archived| + Owed(s) <= 1 + s.broken }

  predicate Inv(s: State) { Locks(s) && Stores(s) && AllKnow(s) && Bounded(s) }

  lemma NextLocks(s: State, o: nat, step: Step)
    requires Inv(s) && Enabled(s, o, step)
    ensures Locks(After(s, o, step))
  {
  }

  lemma NextStores(s: State, o: nat, step: Step)
    requires Inv(s) && Enabled(s, o, step)
    ensures Stores(After(s, o, step))
  {
    if o in s.openers { assert Knows(s, s.openers[o]); }
  }

  /** The opener that takes the step. */
  lemma NextOwn(s: State, o: nat, step: Step)
    requires Inv(s) && Enabled(s, o, step)
    ensures Knows(After(s, o, step), After(s, o, step).openers[o])
  {
    if o in s.openers { assert Knows(s, s.openers[o]); }
  }

  /** Every other opener. */
  lemma NextOther(s: State, o: nat, step: Step, p: nat)
    requires Inv(s) && Enabled(s, o, step) && p in s.openers && p != o
    ensures Knows(After(s, o, step), s.openers[p])
  {
    assert Knows(s, s.openers[p]);
    if o in s.openers { assert Knows(s, s.openers[o]); }
  }

  lemma NextBounded(s: State, o: nat, step: Step)
    requires Inv(s) && Enabled(s, o, step)
    ensures Bounded(After(s, o, step))
  {
    if o in s.openers { assert Knows(s, s.openers[o]); }
  }

  lemma NextKeepsInv(s: State, s': State)
    requires Inv(s) && Next(s, s')
    ensures Inv(s')
  {
    var o, step :| Enabled(s, o, step) && s' == After(s, o, step);
    NextLocks(s, o, step);
    NextStores(s, o, step);
    NextBounded(s, o, step);
    forall p | p in s'.openers ensures Knows(s', s'.openers[p]) {
      if p == o { NextOwn(s, o, step); } else { NextOther(s, o, step, p); }
    }
  }

  lemma {:induction false} RunKeepsInv(run: seq<State>, i: nat)
    requires IsRun(run) && i < |run|
    ensures Inv(run[i])
  {
    if i > 0 {
      RunKeepsInv(run, i - 1);
      NextKeepsInv(run[i - 1], run[i]);
    }
  }

  // ---- The theorems ----

  /** Every opener that succeeded, at any time, has a handle to the one store with
      the wanted schema, and that is the store at the path. */
  lemma OpenersShareTheWantedStore(run: seq<State>, i: nat, o: nat)
    requires IsRun(run) && i < |run| && o in run[i].openers && run[i].openers[o].Open?
    ensures run[i].path == Some(run[i].openers[o].file)
    ensures run[i].openers[o].file < |run[i].files| && run[i].files[run[i].openers[o].file] == Wanted
    ensures run[i].openers[o].file !in run[i].archived
  {
    RunKeepsInv(run, i);
    assert Knows(run[i], run[i].openers[o]);
  }

  /** Nothing is archived that verifies, then or later. */
  lemma VerifyingIsNeverArchived(run: seq<State>, i: nat, k: nat)
    requires IsRun(run) && i < |run| && k < |run[i].archived|
    ensures run[i].archived[k] < |run[i].files| && run[i].files[run[i].archived[k]] != Wanted
  {
    RunKeepsInv(run, i);
  }

  /** At most one archive happens, and one more for each opener that failed between
      its archive and the end of its creation. */
  lemma SingleFlight(run: seq<State>, i: nat)
    requires IsRun(run) && i < |run|
    ensures |run[i].archived| <= 1 + run[i].broken
  {
    RunKeepsInv(run, i);
  }

  /** Without a failed creation there is no second archive; with one there may be:
      here the first opener archives a foreign store and then cannot create its
      schema, and the second archives the empty file that was left. */
  lemma FailedCreationIsArchived() returns (run: seq<State>)
    ensures IsRun(run)
    ensures var last := run[|run| - 1]; last.archived == [0, 1] && last.broken == 1 && last.files == [Foreign, Empty]
  {
    run := [State([Foreign], Some(0), None, map[], [], 0)];
    run := UpToRename(run, 0);
    run := Take(run, 0, OpenNew);
    run := Take(run, 0, Fail);
    run := UpToRename(run, 1);
  }

  /** The bound is reached for every number of failed creations: over a foreign
      store, n openers in turn archive what they find, and cannot create their
      schema in the file that they leave; the next archives that one too. */
  lemma {:induction false} BoundIsReached(n: nat) returns (run: seq<State>)
    ensures IsRun(run)
    ensures var last := run[|run| - 1]; last.broken == n && |last.archived| == n + 1
    ensures InTurn(run[|run| - 1], n)
  {
    if n == 0 {
      run := [State([Foreign], Some(0), None, map[], [], 0)];
      run := UpToRename(run, 0);
    } else {
      run := BoundIsReached(n - 1);
      run := Take(run, n - 1, OpenNew);
      run := Take(run, n - 1, Fail);
      run := UpToRename(run, n);
    }
  }

  /** Opener n has just archived, and nobody came after it. */
  ghost predicate InTurn(s: State, n: nat) {
    && s.lock == Some(n) && n in s.openers && s.openers[n] == Creating && s.path == None
    && forall o :: o in s.openers ==> o <= n
  }

  /** One opener on its own, from its first look to its archive. */
  lemma UpToRename(run: seq<State>, o: nat) returns (longer: seq<State>)
    requires IsRun(run)
    requires var s := run[|run| - 1];
      o !in s.openers && s.lock == None && s.path.Some? && s.path.value < |s.files| && s.files[s.path.value] != Wanted
    ensures IsRun(longer)
    ensures var s := run[|run| - 1];
      longer[|longer| - 1] == s.(openers := s.openers[o := Creating], lock := Some(o), path := None,
                                 archived := s.archived + [s.path.value])
  {
    var s := run[|run| - 1];
    longer := Take(run, o, Stat);
    longer := Take(longer, o, Peek);
    longer := Take(longer, o, PeekVerify);
    longer := Take(longer, o, Acquire);
    longer := Take(longer, o, LockedStat);
    longer := Take(longer, o, Check);
    longer := Take(longer, o, Rename);
    assert longer[|longer| - 1].openers == s.openers[o := Creating];
  }

  lemma Take(run: seq<State>, o: nat, step: Step) returns (longer: seq<State>)
    requires IsRun(run) && Enabled(run[|run| - 1], o, step)
    ensures IsRun(longer) && longer[|longer| - 1] == After(run[|run| - 1], o, step)
  {
    longer := run + [After(run[|run| - 1], o, step)];
    assert Next(run[|run| - 1], After(run[|run| - 1], o, step));
    forall i, j | 0 <= i < j < |longer| && j == i + 1 ensures Next(longer[i], longer[j]) {
      if j < |run| { assert Next(run[i], run[j]); }
    }
  }
}
