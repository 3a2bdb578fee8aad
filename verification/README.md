# cc-interact: a verified model

cc-interact is a daemon through which windows of a coding agent, their helper
agents and a browser work on one subject. This project models its core in Dafny
and proves what that core is for:

- **The steering plane.** Directives go into per-agent mailboxes, and hooks, stop
  gates and long-polling awaits drain them, while agents register, are superseded,
  stop, and the daemon crashes and reboots. `Steering.dfy` gives each call a
  continuation of atomic steps over one database and the daemon's memory; any
  number of calls interleave, any step may fail, and the process may be killed at
  any point. The theorems (`SteeringMail`, `SteeringBoot`, `SteeringAwait`,
  `SteeringSingleton`, `SteeringStops`, `SteeringRegistry`, `SteeringGate`) hold in
  every state of every run; `SteeringWitnesses` holds the runs that reach the failing
  side of their conditions. `Database`, `Parks`, `Registry`, `Bus` and `FanOut` are the tables and
  registries as classes that are updated in place; their contracts name the
  functions that the protocol uses.
- **The event pipeline.** `EventLog`, `Streams` (an edge wakeup loses no event),
  `Delivery` (at-least-once across drops, failures and restarts), `Text` and `Codec`
  (the text on the wire is the frames that were written, also when it is cut off).
- **The optimistic journal** of the browser client: `Journal` is the meaning,
  `QueryClient` the code that pushes, splices and sets flags.
- **The shutdown fence**: `Workers` and `Shutdown`.
- **Subject ownership**: `Subjects` and `Resolver`.
- **Three self-contained cores**: `Graphite` (stack order), `Archive` (single-flight
  archiving of a store with another schema) and `Quoting` (a shell command inside an
  AppleScript string).

## How to read it

History variables (`hist`, `delivered` of `ResetGate`, `loggedBefore`, `withheld`,
`passed`, `archived`, `broken`, `history`, `issued`) record what happened so that
theorems can speak of it; no step reads them to decide anything. An error unwinds a
call the way an early return does, and every abandoned step goes into `dropped`, so a
theorem can say exactly which errors it needs to be absent.

## What the code does not do

Some properties hold with a condition only. Each is stated with its exact condition,
or with a run that shows why the condition is there.

- Restart transparency (`SteeringRegistry.RestartTransparent`) fails in four ways,
  and at rest in no other. An agent that a boot pruned as the older of two keeps
  running without a subscription, and the next boot subscribes it once the newer one
  has stopped (`SteeringWitnesses.PrunedAgentOutlivesWinner`). A registration that
  cannot append agent.started, or fails elsewhere before it sets the subscription,
  leaves a running row without it, unless an earlier registration had left the same
  one (`SteeringWitnesses.RegistrationLosesSubscription`).
  A registration that comes between a stop's close and its removal from the registry
  loses its new entry to that removal, and so does an agent that a sweep unsubscribed
  and then failed to close (`SteeringWitnesses.StartOvertakesStop`). A stop that comes
  between a registration's row and its subscription leaves an entry for a done agent
  (`SteeringWitnesses.StopOvertakesStart`).
- `Resolver.SettledIsFound`: the comment at subject/resolver.go:123-129 says that a
  lookup under either id finds the one subject. With a second younger subject, or a
  later row created in the same second, the boot session finds another one
  (`Resolver.SecondYounger`, `Resolver.SameSecond`).
- `Archive.SingleFlight`: the comment at store/store.go:187-190 says exactly one
  archive. If the archiving opener cannot create the fresh schema, the empty file it
  leaves is archived by the next one (`Archive.FailedCreationIsArchived`,
  `Archive.BoundIsReached`).
- `Shutdown.TimedOutDrainLosesTheWorkers`: when the drain's wait times out, the store
  closes with workers still admitted. The presence half of the fence holds all the same.
- `SteeringStops.StartedPrecedesSweptStop`: a registration whose agent.started could
  not be appended leaves a running row (without its subscription, as above), and a
  later sweep reports its stop (`SteeringWitnesses.SweptWithoutStart`). A later
  registration that appends it before the sweep mends this.
- A Direct whose agent.directed append fails releases no await (daemon/agents.go:237-240);
  `SteeringAwait.AwaitNeverSleepsOnADirective` names exactly that case, and
  `SteeringWitnesses.AwaitSleepsOnFailedDirect` reaches it.

## Model

| member | source | states |
|---|---|---|
| `Directives.SortIsOrdered` | store/directives.go:106-156 | A drain is a rearrangement of the pending rows (equal as multisets) in (created_at, id) order |
| `Directives.MarkedPending` | store/directives.go:128-150 | Marking a drained mailbox delivered empties that mailbox and leaves every other one as it was |
| `Directives.EnqueueConserves` | store/directives.go:40-85 | An enqueue keeps conservation: the new id is pending in exactly its own mailbox, every other id where it was |
| `Directives.DrainConserves` | store/directives.go:106-156 | A drain keeps conservation: it moves the ids of one mailbox from pending to drained, each once |
| `Directives.DrainKeepsOrder` | store/directives.go:106-156 | With non-decreasing enqueue times a drain keeps `drained so far + still pending = enqueue order` |
| `Directives.DrainedExactlyOnce` | store/directives.go:106-156 | Conservation means that an id occurs in the drains once if its row is delivered and never otherwise |
| `Directives.OnlyInOwnDrains` | store/directives.go:106-156 | Over all drains together an id occurs as often as over the drains of its own mailbox |
| `EventLog.AppendKeepsShape` | store/events.go:36-78 | An append keeps every subject's seqs exactly 1..n and every dedup key unique, and adds at most its own row |
| `EventLog.RepeatReturnsOriginal` | store/events.go:48-57 | A repeated dedup key returns the seq of the first append and adds nothing, whatever was appended in between |
| `EventLog.EventsSinceExact` | store/events.go:83-105 | The query returns exactly the rows past the cursor that are not excluded, in strictly ascending seq |
| `Database.Store.EnqueueDirective` | store/directives.go:40-85 | Inserts the row and reads the agent's status in one transaction; not found exactly for a non-top-level agent without a row |
| `Database.Store.HasPendingDirectives` | store/directives.go:90-102 | True exactly if an undelivered directive is there, of another origin than the excluded one if one is excluded |
| `Database.Store.DrainDirectives` | store/directives.go:106-156 | Returns the sorted pending rows and marks exactly those delivered |
| `Database.Store.AppendEvent` | store/events.go:36-78 | The rows become the deduplicated append and the result is the new or the original seq |
| `Database.Store.EventsSince` | store/events.go:83-105 | The read loop is the query of EventsSinceExact |
| `Database.Store.RegisterAgent` | store/agents.go:46-90 | Inserts or revives the row, keeping its place in the order; created exactly if there was none |
| `Database.Store.CloseAgent` | store/agents.go:100-137 | True for the one call that makes the running-to-done transition; not found exactly without a row |
| `Database.Store.ListRunningAgentsByType` | store/agents.go:219-238 | The row loop lists exactly the running agents of the group in rowid order |
| `Parks.ParkRegistry.Wait` | daemon/parks.go:37-48 | The new channel takes the slot, the displaced waiter is signalled, nobody else is touched |
| `Parks.ParkRegistry.Release` | daemon/parks.go:53-63 | Wakes exactly the registered waiter |
| `Parks.ParkRegistry.Done` | daemon/parks.go:68-75 | Deregisters only the caller's own channel |
| `Parks.ParkRegistry.Present` | daemon/parks.go:96-105 | Present exactly if parked or drained within the window |
| `Registry.SubscriptionRegistry.Set` | daemon/subscriptions.go:27-45 | The nested map, read as one map, gains or loses exactly this agent's types |
| `Registry.SubscriptionRegistry.Remove` | daemon/subscriptions.go:47-62 | Removes exactly this agent and keeps no empty level |
| `Registry.SubscriptionRegistry.Subscribers` | daemon/subscriptions.go:65-76 | Each agent subscribed to the type exactly once, in any order |
| `Registry.SubscriptionRegistry.Reconcile` | daemon/subscriptions.go:144-170 | The boot loop with its winners map computes the rebuilt registry |
| `Subscriptions.WinnersAreLast` | daemon/subscriptions.go:149-168 | The winners map holds, of each group, the last subscribed agent seen |
| `Subscriptions.RebuiltMeaning` | daemon/subscriptions.go:144-170 | Said without the loop: an agent ends up subscribed exactly if its type asks for it and, with the singleton knob, it is the last of its group |
| `FanOut.Server.Append` | daemon/events.go:15-23 | Persists and then tees, also when the event was deduplicated; the mutual recursion with Direct and tee terminates |
| `FanOut.Server.Direct` | daemon/agents.go:232-246 | Enqueues, records agent.directed and, for a done agent, agent.relay; fails exactly if the agent has no row |
| `FanOut.Server.TeeToSubscribers` | daemon/subscriptions.go:81-90 | Directs to each current subscriber once, in some order |
| `FanOut.AppendFansOutExactly` | daemon/subscriptions.go:81-90 | One append enqueues exactly one directive with the event's payload for each current subscriber whose row exists, none for anybody else and none for an agent-origin event |
| `Steering.StillInFlight` | daemon/agents.go:232-246 | A step that a call has yet to take is, after any step of any call, still to take, taken, or recorded as lost to an error |
| `SteeringMail.NoDirectiveStranded` | daemon/agents.go:232-246 | In every state of every run, a done agent's undelivered non-supersede directive has an agent.relay logged after it was enqueued, unless a step that announces it has yet to run, or was lost to an error or a crash after the directive was enqueued |
| `SteeringBoot.BootAnnouncesStranded` | daemon/server.go:367-377 | In every run, when a boot is about to serve, every undelivered non-supersede directive of a done agent has an agent.relay logged after it was enqueued, whatever errors and crashes came before |
| `SteeringMail.DirectivesConserved` | store/directives.go:106-156 | In every run each directive occurs once among all drains of all mailboxes if it is delivered and never otherwise, whichever of stop-gate, hook and await drains |
| `SteeringMail.DeliveredInOrder` | store/directives.go:106-156 | With non-decreasing enqueue times an agent's concatenated drains, followed by what is pending, are its enqueue order |
| `SteeringMail.LogKeepsShape` | store/events.go:36-78 | In every run the log has no gap and repeats no dedup key |
| `SteeringAwait.AwaitNeverSleepsOnADirective` | daemon/agents.go:543-580 | In every state of every run, an await asleep on its channel has a signal there, or every pending directive of its agent belongs to a Direct that has yet to come to its release, exactly unless it failed before it; however many later awaits displace it |
| `SteeringReleases.ReleaseDueOrLost` | daemon/agents.go:232-246 | A Direct's release is never both still to come and lost |
| `SteeringWitnesses.AwaitSleepsOnFailedDirect` | daemon/agents.go:237-240 | A run that ends with an await asleep and unsignalled on a pending directive whose agent.directed could not be appended |
| `SteeringLock.MutualExclusion` | daemon/agents.go:286-288 | Whoever is past the lock of registerMu and not past its unlock is the only one, and holds the lock |
| `SteeringSingleton.SettledGroupHasOneAgent` | daemon/agents.go:286-307 | From the completion of a subscribed registration to the beginning of the group's next one, no other agent of the (subject, type) runs, whatever stops, sweeps, errors and crashes come between |
| `SteeringSingleton.RegistrationCompletesAlone` | daemon/subscriptions.go:104-128 | A registration reaches its completion only when every rival is done |
| `SteeringSingleton.RegistrationsExclude` | daemon/agents.go:286-307 | No two registrations are between the lock and the unlock of registerMu together, in any run |
| `SteeringStops.ExactlyOneStopped` | daemon/agents.go:400-433 | Each running-to-done transition has exactly one agent.stopped in the log, even when sweeps race with stops, unless the step that appends it is still to run or was lost |
| `SteeringStops.NoStoppedWithoutTransition` | store/agents.go:100-137 | Every agent.stopped in the log reports a transition that happened |
| `SteeringStops.StartedPrecedesSweptStop` | daemon/agents.go:280-307 | A swept agent's agent.started precedes its agent.stopped if and only if the log held it when the sweep closed the agent; if not, a registration had lost the append |
| `SteeringWitnesses.SweptWithoutStart` | daemon/agents.go:289-295 | A run in which a registration cannot append agent.started, and a later sweep logs the agent's stop without it |
| `SteeringRegistry.RestartTransparent` | daemon/subscriptions.go:144-170 | From rest, with at most one running agent per group if the singleton knob is on, the registry that a restart rebuilds equals the lost one if and only if no running agent was pruned at boot, or registered over another entry without being subscribed since, or unsubscribed while it ran, and no done agent was subscribed after its close |
| `SteeringRegistry.UnsetWasLost` | daemon/agents.go:289-300 | At rest an agent that was registered without being subscribed had lost that step to an error |
| `SteeringWitnesses.RegistrationLosesSubscription` | daemon/agents.go:291-293 | A run that differs after a restart because a registration could not append agent.started and returned before it set the subscription |
| `SteeringWitnesses.PrunedAgentOutlivesWinner` | daemon/subscriptions.go:160-168 | A run that differs after a restart because of an agent that the boot pruned |
| `SteeringWitnesses.StartOvertakesStop` | daemon/agents.go:401-406 | A run that differs because a start came between a stop's close and its removal from the registry |
| `SteeringWitnesses.StopOvertakesStart` | daemon/agents.go:289-300 | A run that differs because a stop came between a registration's row and its subscription |
| `SteeringRegistry.BootKeepsLastOfEachGroup` | daemon/subscriptions.go:144-170 | Whatever state the crash interrupted, the boot loop leaves exactly the subscribed running agents and, with the singleton knob, only the last-inserted of each (subject, type) |
| `SteeringGate.RefusalsBounded` | daemon/agents.go:128-154 | In every interleaving at most the budget minus one refusals of an agent's stop fall between two resets of its counter |
| `SteeringGate.StopsEnd` | daemon/agents.go:372-411 | In every state of every run: since an agent's stop was last let through, or the daemon started, fewer than 3*(D+1) of its stops were answered otherwise, D of them with a delivery, however they interleave and whatever the gate says |
| `SteeringGate.SuccessiveStopsEnd` | daemon/agents.go:372-411 | The same bound for stops that run one after the other, from any value of the counter |
| `SteeringGate.GateBlockCounter.HandleAgentStop` | daemon/agents.go:372-411 | One stop's reply and the counter after it are those of the first of such a series |
| `Bus.Bus.Subscribe` | event/bus.go:30-41 | Adds one fresh empty channel to exactly this subject |
| `Bus.Bus.Cancel` | event/bus.go:43-56 | Removes exactly this channel and keeps no empty subject |
| `Bus.Bus.Publish` | event/bus.go:60-74 | Every current subscriber of the subject has a wakeup afterwards; nobody else is touched |
| `Streams.NeverSleepsOnAnEvent` | sse/sse.go:233-265 | In every state of every run, a parked stream with an admissible event past its cursor has a wakeup pending, or that event's Append has not finished publishing to it; subscribe, snapshot, send and query are separate steps |
| `Streams.FlushedPastAll` | sse/sse.go:280-283 | A flush moves the cursor past every row that it read |
| `Delivery.FlushSince` | sse/sse.go:273-300 | Writes one frame for each row that is not withheld and returns the high-water cursor, which passes withheld rows too |
| `Delivery.FlushCovers` | sse/sse.go:273-300 | Every seq between the two server cursors of a flush is on the wire, withheld, or of the excluded origin |
| `Delivery.AtLeastOnce` | consume/consume.go:75-130 | Over any run of commits, drops, handler failures, failed cursor writes, kills, restarts and reconnects, every event at or below the client's cursor was handled, or was withheld by the connection under which the cursor last passed it, or is of the excluded origin; the persisted cursor never passes the one in memory |
| `Delivery.PassedOnlyWhileWithheld` | sse/sse.go:280-295 | The cursor passes an event unhandled only under a connection that itself withheld it |
| `Delivery.CursorWithinLog` | consume/consume.go:184-221 | The client's cursor stays within the log and within what the connection has flushed |
| `Delivery.ControlFramesMoveNothing` | sse/sse.go:256-261 | Keepalives, markers and injected frames never move the client's cursor, even when their handler succeeds |
| `Text.DecimalRoundTrip` | consume/consume.go:214-216 | Reading the decimal text of a seq within the 64-bit range gives it back |
| `Text.ScanLine` | consume/consume.go:182-185 | Scanning a text that begins with one newline-free line yields that line, less a trailing carriage return, and then the rest's lines |
| `Codec.ReadStream` | consume/consume.go:165-226 | The scan loop's calls, cursors and stop signal are those of reading the lines one after the other |
| `Codec.TextIsFrames` | consume/consume.go:184-221 | Whatever the handler answers, the client that reads the text of a run of frames makes the calls, and moves the cursors, of a client that is handed the frames |
| `Codec.CutTextIsFewerFrames` | consume/consume.go:184-226 | A text cut anywhere is, for calls and cursors, the run of those frames that came whole |
| `Codec.CodecRoundTrip` | sse/sse.go:240-295 | The calls are exactly the log and injected payloads in order, log frames under their own seq and injected ones under the preceding id |
| `Codec.ReadFrameIsProtocolRead` | consume/consume.go:188-207 | Reading one frame from text moves the client as one step of the delivery protocol does |
| `Journal.ReplayIsHistory` | web/src/query/index.ts:134-137 | Replaying the steps that stand over the value that the journal opened with is the fold of all non-failed steps of the history |
| `Journal.PendingIsFound` | web/src/query/index.ts:132-133 | A pending mutation's key has an open journal that holds it |
| `Journal.TracksFailure` | web/src/query/index.ts:129-139 | Dropping one pending step and replaying the rest gives the history without that step |
| `Journal.TracksElsewhere` | web/src/query/index.ts:71-95 | What happens under one key is nothing to another |
| `Journal.AllSettledIsNonePending` | web/src/query/index.ts:83-87 | All entries of a journal are settled exactly if no mutation of its key is pending |
| `Journal.FailureLeavesNoTrace` | web/src/query/index.ts:129-139 | What a failed mutation would have done makes no difference to any value |
| `QueryClient.OpenJournal.Remove` | web/src/query/index.ts:133 | indexOf and splice take out exactly the given entry |
| `QueryClient.OpenJournal.Reduce` | web/src/query/index.ts:136 | The reduce loop is the replay of the journaled steps |
| `QueryClient.Client.EntryIsFound` | web/src/query/index.ts:131-133 | An unsettled mutation's entry is found in its key's open journal, at one place |
| `QueryClient.Client.ApplyCacheStep` | web/src/query/index.ts:89-95 | A stream frame keeps the cache equal to the history's fold, key by key |
| `QueryClient.Client.OnMutate` | web/src/query/index.ts:108-123 | An optimistic patch does too, and has an entry in an open journal exactly if its key had a value |
| `QueryClient.Client.OnSuccess` | web/src/query/index.ts:124-128 | A success does too, and changes no value |
| `QueryClient.Client.OnError` | web/src/query/index.ts:129-144 | A failure does too: the cache becomes the fold without the failed step |
| `Workers.WorkerGroup.Admit` | daemon/workers.go:31-40 | Refused exactly when closed; otherwise one more release is out and counted |
| `Workers.WorkerGroup.Close` | daemon/workers.go:42-52 | Closes the drained channel exactly if nobody is admitted, and never twice |
| `Workers.WorkerGroup.Call` | daemon/workers.go:63-73 | A release counts down once however often it is called; the count never goes negative and the channel is never closed twice |
| `Workers.WorkerGroup.Wait` | daemon/workers.go:54-61 | No error only when nobody is admitted and nobody can be |
| `Workers.PresenceGate.DebounceDisconnect` | sse/sse.go:392-416 | Arms a timer unless presence is closed |
| `Workers.PresenceGate.Fire` | sse/sse.go:399-409 | A timer that went off announces exactly if it is still pending |
| `Workers.PresenceGate.CloseGate` | sse/sse.go:353-360 | Shuts the gate, and stops and forgets every pending timer |
| `Shutdown.StoreClosesBehindTheFence` | daemon/server.go:332-337 | In every state of every run whose store is closed, no presence callback runs, the gate refuses every connect and no timer's callback can start one; if the drain's wait ended without an error, no admitted call, stream or worker is left, and none can be admitted |
| `Shutdown.ClosedForGood` | daemon/server.go:386-396 | A closed store stays closed, so the fence holds for the rest of the run |
| `Shutdown.DrainedClosesOnce` | daemon/workers.go:42-73 | In every run the drained channel has been closed once if the group is closed with nobody active, and otherwise not at all |
| `Shutdown.TimedOutDrainLosesTheWorkers` | daemon/server.go:311-330 | A run in which the drain's wait timed out and a worker is still admitted over the closed store: the wait is what the worker half hangs on |
| `Shutdown.Lifecycle.Dispatch` | daemon/server.go:596-606 | Admits exactly while serving with the group open |
| `Shutdown.Lifecycle.Drain` | daemon/server.go:311-324 | Stops serving and closes the group; without an error nobody is admitted |
| `Shutdown.Lifecycle.CloseAfterPresence` | daemon/server.go:332-337 | Closes the store only behind a shut gate with no callback running; gives up with the store open |
| `Subjects.FindBound` | store/subjectstore.go:43-54 | Finds a row with the session and scope if there is one; a blank session finds none |
| `Subjects.FindLatest` | store/subjectstore.go:56-68 | Finds the window's row that no other beats by (created_at, rowid); pid 0 finds none |
| `Subjects.OneAnswer` | store/store.go:47-48 | In an indexed table a lookup by id or binding has one answer |
| `Subjects.SubjectStore.Create` | store/subjectstore.go:70-79 | Inserts unless the id, the (session, scope) or the slug is taken, and keeps the indexes |
| `Subjects.SubjectStore.Rebind` | store/subjectstore.go:81-93 | Compare-and-swap on the pid; refused exactly if another row has the session and scope |
| `Subjects.SubjectStore.Detach` | store/subjectstore.go:104-111 | Clears exactly this row's session and pid |
| `Resolver.Resolver.Start` | subject/resolver.go:45-95 | Never refused for its session; attaches, unless fresh, to exactly what Find finds and otherwise creates; the whole new table |
| `Resolver.StartThenFind` | subject/resolver.go:20-95 | After any start, Find for the same window returns the started subject exactly if the window has a session or a pid |
| `Resolver.FindAfterAttach` | subject/resolver.go:60-92 | After a start that attached, Find for the same window finds the same row |
| `Resolver.FindAfterCreate` | subject/resolver.go:161-164 | After a start that created, Find finds the new row exactly if the window has a session or a pid, and nothing otherwise |
| `Resolver.AttachSparesLiveWindows` | subject/resolver.go:37-39 | A start that is not fresh changes no row that another live window holds |
| `Resolver.Resolver.Rotate` | subject/resolver.go:104-121 | Following a session rotation is never refused; the whole new table |
| `Resolver.RotationSparesOthers` | subject/resolver.go:97-103 | Following a rotation changes no row of another pid |
| `Resolver.Resolver.Settle` | subject/resolver.go:130-155 | Never refused; detaches the boot subject and moves the held one; the whole new table |
| `Resolver.BootIsYounger` | subject/resolver.go:139-148 | A settle detaches a subject exactly if the window has one strictly younger than the held one |
| `Resolver.SettledIsFound` | subject/resolver.go:123-129 | After a settle the session finds its subject, and the detached boot session finds it if and only if there was at most one strictly younger subject and no later row of the same second |
| `Resolver.SettleTwice` | subject/resolver.go:130-155 | A second settle moves nothing if and only if there was at most one strictly younger subject |
| `Resolver.SecondYounger` | subject/resolver.go:139-148 | With a second strictly younger subject the boot session finds that one, and the second settle detaches it |
| `Resolver.SameSecond` | subject/resolver.go:139-148 | With a later row of the held subject's very second the boot session finds that one |
| `Resolver.RotateTwice` | subject/resolver.go:135-137 | Nor does it when the session held nothing the first time |
| `Graphite.Children` | vcs/graphite.go:322-332 | The branches with this parent, each once, in name order, whatever order the map is read in |
| `Graphite.UpstackBranches` | vcs/graphite.go:320-347 | Ends by unvisited branches; success lists exactly the descendants in name-ordered preorder and marks exactly them; failure means that a descendant is on the walk down or the root itself |
| `Graphite.WalkDown` | vcs/graphite.go:294-312 | Ends by unvisited branches; succeeds if and only if the parent walk reaches trunk, and then returns that walk |
| `Graphite.StackBranches` | vcs/graphite.go:293-318 | Succeeds if and only if the parent walk reaches trunk and trunk does not descend from current; the order is the chain from the top down to current, then the descendants |
| `Graphite.StackOrderIsRight` | vcs/graphite.go:286-292 | That order has no branch twice, exactly the chain and the descendants, and each parent before its child |
| `Graphite.DoomedIffTrunkDescends` | vcs/graphite.go:337-339 | The walk up meets a branch that was visited if and only if trunk descends from current |
| `Archive.OpenersShareTheWantedStore` | store/store.go:144-237 | In every run every opener that succeeded has a handle to the one store with the wanted schema, which is the store at the path and was not archived |
| `Archive.VerifyingIsNeverArchived` | store/store.go:217-225 | Nothing is archived that verifies, then or later |
| `Archive.SingleFlight` | store/store.go:187-194 | At most one archive happens, and one more for each opener that failed between its archive and the end of its creation |
| `Archive.FailedCreationIsArchived` | store/store.go:225-236 | A run with a failed creation and two archives: the addition is needed |
| `Archive.BoundIsReached` | store/store.go:217-236 | For every number of failed creations there is a run with one archive more |
| `Quoting.AppleScriptReads` | channelsetup/channelsetup.go:144-146 | Reading an escaped AppleScript string gives the text back and stops at its closing quote |
| `Quoting.QuoteReads` | channelsetup/channelsetup.go:148-158 | By the shell's quoting rules a quoted path joins the word under way unchanged, whatever it is made of |
| `Quoting.CommandSplits` | channelsetup/channelsetup.go:139-140 | The shell splits the command into exactly the intended words |
| `Quoting.AdminScriptReads` | channelsetup/channelsetup.go:138-142 | Undoing the AppleScript string and then splitting as the shell does yields the intended words, each path unchanged |

## Left out

- The handlers of daemon/agents.go are programs of steps in `Steering.dfy`, not methods, since it is their interleaving that matters; FanOut.Server and SteeringGate.GateBlockCounter have their sequential cores in place.
- HTTP, sockets, MCP framing, TLS, launch services and subprocesses: steps that succeed, fail or drop.
- SQL text, pragmas and hashing: tables are sequences and maps, each transaction is one atomic step, and a commit either happens or reports an error.
- JSON: payloads are opaque text, except that a stored payload is not empty.
- Git and jj capture, patch parsing, the turn ledger and user interface: they would add only thin members.
- The scanner's limit of 4 MB a line, and consume.go's seeding of a cursor from older files.
- Window liveness checks of the stream client: they only end its loop.
- SteeringRegistry.RestartTransparent: is about states where no call is under way.
- The consumer's own boot hook (daemon/server.go:367-371) runs before the directive sweep and may append and direct; the boot of `Steering.dfy` starts with the sweep.
- Streams.NeverSleepsOnAnEvent: does not model a failing EventsSince, which consumes the wakeup.
- Delivery.AtLeastOnce: whether a connection should have withheld an event is not part of it. The presence flag's own accuracy is left out as well, as the source accepts its races.
- FanOut.Server.Append: one clock reading an append, and no error but a missing agent row; errors are in the steering machine.
- Parks.ParkRegistry.Present: the mute that uses it is a predicate of the delivery model, not computed from it.
- Codec.CodecRoundTrip: for payloads that are not empty, have no newline and are trimmed, as the client reads them; the text of others is changed by the client's trimming.
- QueryClient.Client.SetQueryData: writes past the journal happen only while it is closed; a refetch that lands on an open journal is outside what the code guarantees. Steps are pure functions.
- Resolver.Resolver.Start: one call at a time, so the branch that re-reads after a missed compare-and-swap is not there; one clock reading a call; ids are fresh unless the insert is refused.
- Archive.SingleFlight: openers of one schema that all opt into archiving; the database file stands for its sidecars, so a crash between the renames of one archive is not modelled.
- Shutdown.StoreClosesBehindTheFence: daemonkit's calls into Handle are not admitted through the worker group; what keeps them from the store is not part of this model.
- Quoting.AdminScriptReads: filepath.Dir is a parameter; unquoted operators, expansions, patterns, comments and tildes are not read at all, which the command never needs.
- subscribe == nil is a function that answers no types; tool-use dedup keys never equal an agent.started key.
