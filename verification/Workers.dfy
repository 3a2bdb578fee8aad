/** Admission counting (daemon/workers.go) and the presence gate (sse/sse.go), as
    the daemon keeps them. */
module Workers {
  import opened Records

  // ---- What the two gates mean ----

  /** `drains` counts the times that the drained channel was closed; closing it a
      second time would panic. */
  datatype Group = Group(active: int, closed: bool, drains: nat)

  function Entered(g: Group): Option<Group> {
    if g.closed then None else Some(g.(active := g.active + 1))
  }

  function Left(g: Group): Group {
    var n := g.active - 1;
    g.(active := n, drains := if g.closed && n == 0 then g.drains + 1 else g.drains)
  }

  function Shut(g: Group): Group {
    if g.closed then g
    else g.(closed := true, drains := if g.active == 0 then g.drains + 1 else g.drains)
  }

  /** The channel has been closed once if the group is closed and empty, and not
      at all otherwise. */
  predicate Settled(g: Group) {
    g.active >= 0 && g.drains == if g.closed && g.active == 0 then 1 else 0
  }

  /** Whether a connect or a disconnect may still be announced, the timers that
      still may, and how many announcements run. */
  datatype Gate = Gate(closed: bool, disconnects: set<nat>, emitting: int)

  function Announced(p: Gate): Option<Gate> {
    if p.closed then None else Some(p.(emitting := p.emitting + 1))
  }

  function Debounced(p: Gate, timer: nat): Gate {
    if p.closed then p else p.(disconnects := p.disconnects + {timer})
  }

  /** The locked part of a timer's callback. */
  function Fired(p: Gate, timer: nat): Gate {
    if timer in p.disconnects then p.(disconnects := p.disconnects - {timer}, emitting := p.emitting + 1) else p
  }

  function Emitted(p: Gate): Gate { p.(emitting := p.emitting - 1) }

  function GateShut(p: Gate): Gate { p.(closed := true, disconnects := {}) }

  // ---- The worker group ----

  /** What Admit hands out; calling it again does nothing. */
  class Release {
    var used: bool

    constructor ()
      ensures !used
    {
      used := false;
    }
  }

  class WorkerGroup {
    var active: int
    var closed: bool
    var drained: bool
    ghost var holders: set<Release>
    ghost var drains: nat

    ghost function Value(): Group
      reads this
    {
      Group(active, closed, drains)
    }

    /** The count is the number of unused releases, and the channel is closed
        exactly when the group is closed and empty. */
    ghost predicate Valid()
      reads this, holders
    {
      && active == |holders| && Settled(Value())
      && (drained <==> drains == 1)
      && forall r :: r in holders ==> !r.used
    }

    constructor ()
      ensures Valid() && fresh(this) && Value() == Group(0, false, 0) && holders == {}
    {
      active, closed, drained, holders, drains := 0, false, false, {}, 0;
    }

    method CloseDrained()
      requires !drained
      modifies this`drained, this`drains
      ensures drained && drains == old(drains) + 1
    {
      drained, drains := true, drains + 1;
    }

    method Admit() returns (r: Release?)
      requires Valid()
      modifies this
      ensures Valid() && (r == null <==> Entered(old(Value())).None?)
      ensures r == null ==> Value() == old(Value()) && holders == old(holders)
      ensures r != null ==> Entered(old(Value())) == Some(Value()) && fresh(r) && holders == old(holders) + {r}
    {
      if closed {
        return null;
      }
      active := active + 1;
      r := new Release();
      holders := holders + {r};
    }

    method Close()
      requires Valid()
      modifies this
      ensures Valid() && Value() == Shut(old(Value())) && holders == old(holders)
    {
      if closed {
        return;
      }
      closed := true;
      if active == 0 {
        CloseDrained();
      }
    }

    /** A release counts down at most once, and the count never goes negative. */
    method Call(r: Release)
      requires Valid() && (r in holders || r.used)
      modifies this, r
      ensures Valid() && r.used && holders == old(holders) - {r}
      ensures Value() == if old(r.used) then old(Value()) else Left(old(Value()))
    {
      if r.used {
        return;
      }
      r.used := true;
      holders := holders - {r};
      active := active - 1;
      if closed && active == 0 {
        CloseDrained();
      }
    }

    /** Wait returns without an error only once nobody is admitted and nobody can
        be. */
    method Wait(cancelled: bool) returns (ok: Option<bool>)
      requires Valid()
      ensures ok == Some(true) ==> holders == {} && closed
      ensures ok == Some(false) ==> cancelled
      ensures ok == None ==> !cancelled && !drained
    {
      if cancelled {
        return Some(false);
      }
      ok := if drained then Some(true) else None;
    }
  }

  // ---- The presence gate ----

  class PresenceGate {
    var presenceClosed: bool
    var disconnects: set<nat>
    var emitting: int

    ghost function Value(): Gate
      reads this
    {
      Gate(presenceClosed, disconnects, emitting)
    }

    constructor ()
      ensures Value() == Gate(false, {}, 0)
    {
      presenceClosed, disconnects, emitting := false, {}, 0;
    }

    method EnterPresence() returns (ok: bool)
      modifies this
      ensures ok <==> Announced(old(Value())).Some?
      ensures Value() == if ok then Announced(old(Value())).value else old(Value())
    {
      if presenceClosed {
        return false;
      }
      emitting := emitting + 1;
      ok := true;
    }

    method Done()
      modifies this
      ensures Value() == Emitted(old(Value()))
    {
      emitting := emitting - 1;
    }

    /** Arms the timer, unless presence is closed. */
    method DebounceDisconnect(timer: nat) returns (armed: bool)
      modifies this
      ensures Value() == Debounced(old(Value()), timer) && (armed <==> !old(presenceClosed))
    {
      if presenceClosed {
        return false;
      }
      disconnects := disconnects + {timer};
      armed := true;
    }

    method Fire(timer: nat) returns (pending: bool)
      modifies this
      ensures Value() == Fired(old(Value()), timer) && (pending <==> timer in old(disconnects))
    {
      pending := timer in disconnects;
      disconnects := disconnects - {timer};
      if pending {
        emitting := emitting + 1;
      }
    }

    /** The locked part of ClosePresence; the timers that it stops. */
    method CloseGate() returns (stopped: set<nat>)
      modifies this
      ensures Value() == GateShut(old(Value())) && stopped == old(disconnects)
    {
      presenceClosed := true;
      stopped := disconnects;
      disconnects := {};
    }
  }
}
