/** The store's operations as the daemon calls them: each transaction updates the
    tables in place and is proved against its function on the tables. */
module Database {
  import opened Records
  import Directives
  import EventLog
  import Agents

  datatype Result<+T> = Ok(value: T) | NotFound

  class Store {
    var agents: Agents.Table
    var directives: seq<Directive>
    var events: seq<EventRow>

    constructor ()
      ensures agents == Agents.EmptyTable && directives == [] && events == []
    {
      agents, directives, events := Agents.EmptyTable, [], [];
    }

    /** Observes the addressed agent's status and inserts, in one transaction. */
    method EnqueueDirective(k: Key, origin: Origin, text: string, now: int)
      returns (r: Result<(Directive, Status)>)
      modifies this`directives
      ensures r.NotFound? <==> k.agent != TopLevel && k !in agents.rows
      ensures r.NotFound? ==> directives == old(directives)
      ensures r.Ok? ==>
        && r.value.0 == Directives.Enqueued(old(directives), k, origin, text, now, |events|)
        && directives == old(directives) + [r.value.0]
        && r.value.1 == if k.agent != TopLevel then agents.rows[k].status else Running
    {
      var status := Running;
      if k.agent != TopLevel {
        if k !in agents.rows {
          return NotFound;
        }
        status := agents.rows[k].status;
      }
      var d := Directives.Enqueued(directives, k, origin, text, now, |events|);
      directives := directives + [d];
      return Ok((d, status));
    }

    method HasPendingDirectives(k: Key, exclude: Option<Origin>) returns (pending: bool)
      ensures pending <==> Directives.HasPending(directives, k, exclude)
    {
      pending := false;
      var i := 0;
      while i < |directives| && !pending
        invariant 0 <= i <= |directives|
        invariant pending <==>
          exists j :: 0 <= j < i && Directives.IsPending(directives[j], k) && Some(directives[j].origin) != exclude
      {
        pending := Directives.IsPending(directives[i], k) && Some(directives[i].origin) != exclude;
        i := i + 1;
      }
    }

    /** Marks and returns the pending directives, oldest first. */
    method DrainDirectives(k: Key) returns (drained: seq<Directive>)
      modifies this`directives
      ensures drained == Directives.Drained(old(directives), k)
      ensures directives == Directives.MarkDelivered(old(directives), k)
    {
      var rows := directives;
      var pending := [];
      drained := [];
      for i := 0 to |rows|
        invariant pending == Directives.Pending(rows[..i], k)
        invariant drained == Directives.Sort(pending)
        invariant directives == rows
      {
        assert rows[..i + 1][..i] == rows[..i];
        if Directives.IsPending(rows[i], k) {
          assert (pending + [rows[i]])[..|pending|] == pending;
          pending := pending + [rows[i]];
          drained := Directives.Insert(drained, rows[i]);
        }
      }
      assert rows[..|rows|] == rows;
      directives := Directives.MarkDelivered(rows, k);
    }

    /** Allocates the next per-subject seq and appends, unless deduplicated. */
    method AppendEvent(e: Event) returns (seqNo: nat)
      modifies this`events
      ensures events == EventLog.Appended(old(events), e)
      ensures seqNo == EventLog.AppendedSeq(old(events), e)
    {
      if EventLog.Duplicated(events, e) {
        return EventLog.OriginalSeq(events, e);
      }
      seqNo := EventLog.MaxSeq(events, e.subject) + 1;
      events := events + [EventRow(seqNo, e)];
    }

    method EventsSince(subject: string, cursor: int, exclude: Option<Origin>) returns (out: seq<EventRow>)
      ensures out == EventLog.EventsSince(events, subject, cursor, exclude)
    {
      out := [];
      for i := 0 to |events|
        invariant out == EventLog.EventsSince(events[..i], subject, cursor, exclude)
      {
        assert events[..i + 1][..i] == events[..i];
        if EventLog.Matches(events[i], subject, cursor, exclude) {
          out := out + [events[i]];
        }
      }
      assert events[..|events|] == events;
    }

    method RegisterAgent(k: Key, agentType: string) returns (created: bool)
      modifies this`agents
      ensures agents == Agents.Registered(old(agents), k, agentType)
      ensures created <==> k !in old(agents).rows
    {
      created := k !in agents.rows;
      if created {
        agents := Agents.Table(agents.rows[k := Agent(agentType, Running)], agents.order + [k]);
      } else {
        agents := agents.(rows := agents.rows[k := Agent(agentType, Running)]);
      }
    }

    /** True for the one call that makes the running-to-done transition. */
    method CloseAgent(k: Key) returns (r: Result<bool>)
      modifies this`agents
      ensures agents == Agents.Closed(old(agents), k)
      ensures r == if k !in old(agents).rows then NotFound else Ok(Agents.IsRunning(old(agents), k))
    {
      if Agents.IsRunning(agents, k) {
        agents := agents.(rows := agents.rows[k := agents.rows[k].(status := Done)]);
        return Ok(true);
      }
      if k !in agents.rows {
        return NotFound;
      }
      return Ok(false);
    }

    method ListRunningAgentsByType(subject: string, agentType: string) returns (keys: seq<Key>)
      ensures keys == Agents.RunningOfType(agents, agents.order, subject, agentType)
    {
      keys := [];
      var order := agents.order;
      for i := 0 to |order|
        invariant keys == Agents.RunningOfType(agents, order[..i], subject, agentType)
      {
        assert order[..i + 1][..i] == order[..i];
        if Agents.InGroup(agents, order[i], subject, agentType) {
          keys := keys + [order[i]];
        }
      }
      assert order[..|order|] == order;
    }
  }
}
