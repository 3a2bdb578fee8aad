/** The rows and values of the steering plane's tables, with the repository's
    own vocabulary (agent/agent.go, event/event.go). */
module Records {

  datatype Option<+T> = None | Some(value: T)

  /** A participant: an agent within a subject. Agent "" is the top-level agent,
      which never has an agents row. */
  datatype Key = Key(subject: string, agent: string)

  const TopLevel := ""

  datatype Status = Running | Done

  /** Who produced an event or a directive. A consumer may record producers of
      its own beside the five the library names. */
  datatype Origin =
    | OriginAgent
    | OriginHuman
    | OriginSystem
    | OriginEvent
    | OriginSupersede
    | OriginOther(name: string)

  datatype Agent = Agent(agentType: string, status: Status)

  /** One row of the directives table. `loggedBefore` is a history value: how
      many events the log held when the row was inserted. */
  datatype Directive = Directive(
    id: nat,
    key: Key,
    origin: Origin,
    text: string,
    created: int,
    delivered: bool,
    loggedBefore: nat)

  /** What an event says. Everything but Domain is an `agent.*` lifecycle event
      that the steering plane appends by itself; whatever else a handler appends
      (agent-report's agent.launched and agent.result included) is Domain.
      `close` numbers the running-to-done transition that a Stopped event
      reports; it stands for the event's otherwise opaque payload. */
  datatype Body =
    | Started(agent: string)
    | Stopped(agent: string, close: nat)
    | Directed(agent: string, id: nat)
    | Delivered(agent: string, ids: seq<nat>)
    | Relay(agent: string)
    | ForcedAllow(agent: string)
    | Domain(eventType: string, payload: string)

  /** An event's dedup key; an agent.started key never equals a tool-use key. */
  datatype Dedup = NoDedup | StartedOnce(agent: string) | ToolUse(id: string)

  datatype Event = Event(subject: string, origin: Origin, body: Body, dedup: Dedup)

  /** One row of the events table: an event and its per-subject seq. */
  datatype EventRow = EventRow(seqNo: nat, event: Event)

  function StartedEvent(k: Key): Event {
    Event(k.subject, OriginSystem, Started(k.agent), StartedOnce(k.agent))
  }

  function StoppedEvent(k: Key, close: nat): Event {
    Event(k.subject, OriginSystem, Stopped(k.agent, close), NoDedup)
  }

  /** agent.directed carries the directive's own origin. */
  function DirectedEvent(d: Directive): Event {
    Event(d.key.subject, d.origin, Directed(d.key.agent, d.id), NoDedup)
  }

  function DeliveredEvent(k: Key, ids: seq<nat>): Event {
    Event(k.subject, OriginSystem, Delivered(k.agent, ids), NoDedup)
  }

  function RelayEvent(k: Key): Event {
    Event(k.subject, OriginSystem, Relay(k.agent), NoDedup)
  }

  function ForcedAllowEvent(k: Key): Event {
    Event(k.subject, OriginSystem, ForcedAllow(k.agent), NoDedup)
  }

  ghost predicate Distinct<T>(s: seq<T>) {
    forall i, j :: 0 <= i < j < |s| ==> s[i] != s[j]
  }

  /** `s` lists exactly the members of `members`, each once, in any order. */
  ghost predicate Enumerates<T(!new)>(s: seq<T>, members: set<T>) {
    && Distinct(s)
    && (forall x :: x in s <==> x in members)
  }
}
