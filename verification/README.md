# Verified models of the agent runtime

A Dafny 4.11 model of the stateful cores of the repository, with proofs about every run of them:

- the live-session protocol of the server: acquiring, sharing and disposing session runtimes (`SessionModel`, `SessionProofs`, `SessionTheorems`, `SessionAttachments`, `SessionFailures`,
  `SessionOutcomes`, `Sessions`);
- server snapshots from the publisher through the handshake to the client's cache (`Snapshots`, `SnapshotOutcomes`, `Publisher`, `ClientStore`);
- the agent loop with its tools, queues and three transcripts (`AgentTrace`, `Agent`);
- session leases and the connection lifecycle of the client (`Leases`, `LeaseOutcomes`, `Connection`,
  `ConnectionOutcomes`);
- generation-checked publication of provider models (`Publication`, `PublicationOutcomes`);
- wire framing and message decoding (`FrameSpec`, `FrameDecoder`, `Codec`);
- screen search, transcript packing, event watching, fuzzy matching and proxy reassembly (`Search`, `Packing`, `Watch`, `Fuzzy`, `Proxy`).

`dafny verify dfyconfig.toml` checks the whole project.

Asynchronous code is modelled as a state machine whose steps are the stretches of code between two awaits; the
environment chooses the next step, so a statement about `Run(events)` is about every interleaving. Beside each such
machine stands a class with the original's fields, whose methods are proved to take the state exactly where the step
functions take it. What a step brings about (who is served, who is refused, who waits and for what) is proved in the
`Outcomes` modules for every reachable state, beside what every run keeps. The agent loop and the smaller algorithms are methods with the original's loops; the agent's
environment (model, tools, hooks, listeners, callers of `steer`, `followUp` and `abort`) is chosen nondeterministically.
Reentrant callbacks (`Connection`, `Watch`) follow a script, and statements quantify over all scripts.

## What does not hold

Some properties one would expect fail. The model keeps the code as it is, shows a run, and says exactly when they hold.

- `attach` does not look at the session again after waiting for it (`packages/server/src/sessions.ts:300-307`). When two
  connections wait for one create and the first goes away, its own attach disposes the session and the other connection is
  attached to it all the same: `AttachCanStrand`. Attachments stand all through a run exactly if no attach meets a
  session whose disposal has begun, a check the code could make (`AttachmentsStand`, `AttachmentsKept`). Nor does it look
  whether the runtime has failed meanwhile, so a failed session can stay mapped: `FailedSessionStays`, with the exact
  condition in `AttendedThroughout` and `FailedSessionsGo`.
- A broadcast requested while no connection is ready is skipped without a new revision
  (`packages/server/src/snapshots.ts:54`), so a client in its handshake that has already listed older content never
  learns of the change: `UpdateIsLost`, with the exact condition in `ContentIsCurrent`, whose mark `MissedExactlyBySkip`
  defines.
- A service call that throws during a broadcast (`packages/server/src/snapshots.ts:55-58`) leaves the revision raised and
  nothing sent: `BroadcastIsAbandoned`, with the exact condition in `CatchUp`, whose mark `AbandonedExactlyByFailure`
  defines. Otherwise the revision is always caught up.
- `#releaseSessionLease` does not compare generations (`packages/client/src/client.ts:395-400`), and a handle takes the
  generation of the moment it is made rather than of its reservation: `TwoExclusiveReservations` and `TwoExclusiveHandles`.
  The books that exclusion rests on are right all through a run exactly if neither happens to a token of an earlier
  generation (`AlwaysRightIffClean`, `ReleaseCounts`, `HandleIsBacked`), in particular if invalidations come while nothing
  is in flight (`QuietRunsAreClean`).
- The message loop of the connection looks only whether the lifecycle is disconnected
  (`packages/client/src/connection.ts:156-159`): `ReconnectInMessageCallback`. A message acts on another connection exactly
  if a callback before the last of its chunk leaves another one up (`StraysOnlyOnReconnect`, `StraysOnOtherConnection`).
- `continue()` on queued follow-ups polls for steering at once, so in one-at-a-time mode the first turn may inject one
  message of each queue (`packages/agent/src/agent.ts:389-393`): `ContinueSteered`, `BothInFirstTurn`. `Continue` says
  exactly when: a steering message is waiting at the run's first poll, on follow-ups alone.
- Something that throws out of a run while a tool is running, outside of a turn, or inside a user or tool message leaves
  a trace that is not complete, since `handleRunFailure` ends no tool and begins no turn
  (`packages/agent/src/agent.ts:524-540`): `FailRun` says exactly when the trace is complete.
- A model stream that starts its message again leaves a partial message in the context and a message_start without its
  message_end; `StreamLeavesFinal` and `StreamKeepsGrammar` say that only such streams do, and how often.
- A publication that is superseded between its write and its update leaves the store ahead of memory: `StoreAhead`, with
  the exact condition in `MemoryFollows` for the step and `StoreAgrees` for the run.

## Model

| member | source | states |
|---|---|---|
| SessionTheorems.ExclusiveOpen | packages/server/src/sessions.ts:186-246 | In every run the service is asked to open an id only by acquire, when no create for that id is pending and dispose has been called on every runtime acquired for it earlier; until close has emptied the session map, all of these have finished disposing. |
| SessionTheorems.OneRuntimePerSession | packages/server/src/sessions.ts:186-246 | Before close has emptied the map, at most one runtime of an id is not disposed; once it has, dispose has been called on every runtime. |
| SessionTheorems.DisposedOnce | packages/server/src/sessions.ts:152-169 | dispose is called at most once on every runtime, and exactly once on every one of them when a closed server has drained. |
| SessionTheorems.NoDisposalUnderUse | packages/server/src/sessions.ts:171-184 | No operation on a session is in flight once its disposal has begun, nor, until close clears the map, once dispose was called on its runtime by anyone; clearing the map disposes runtimes in use. |
| SessionTheorems.ListedConnectionsHold | packages/server/src/sessions.ts:122-132 | A connection listed by a mapped live session holds that session's id and is not disconnected. |
| SessionTheorems.NoIdleOrphan | packages/server/src/sessions.ts:320-345 | When no invocation waits and every idle event that has a listener was delivered, a mapped session that is not being disposed has a connection, or is busy and not terminal: nobody forgets a disposable session. |
| SessionAttachments.AttachmentsStand | packages/server/src/sessions.ts:38-346 | In every run, until close clears the map: every id a connection holds has always been mapped to a session that lists the connection, and no session in disposal ever listed anyone, exactly if no attach met a session whose disposal had begun. |
| SessionAttachments.AttachmentsKept | packages/server/src/sessions.ts:300-307 | Of all steps only an attach that meets a session in disposal breaks these attachments, and it always does. |
| SessionAttachments.HeldSessionsServe | packages/server/src/sessions.ts:309-318 | In a run without such an attach a connection is admitted to every session whose id it holds, exactly unless its runtime has failed. |
| SessionAttachments.AttachLeavesUsable | packages/server/src/sessions.ts:300-318 | After attach the session mapped under the id lists the connection and can be used exactly if that was so before, or the session waited for is still the mapped one, not terminal and not being disposed. |
| SessionAttachments.DisconnectAttached | packages/server/src/sessions.ts:122-132 | A disconnect keeps the attachments of all other connections. |
| SessionTheorems.AttachCanStrand | packages/server/src/sessions.ts:300-307 | Such an attach happens: a run of thirteen steps ends quietly with a connected connection holding the id of a session that no longer exists. |
| SessionFailures.FailedSessionsGo | packages/server/src/sessions.ts:265-274 | When no invocation waits and every idle event that has a listener was delivered, a mapped session whose runtime has failed is being disposed, in every run in which no attach added a connection to a failed session behind the back of terminate. |
| SessionFailures.AttendedThroughout | packages/server/src/sessions.ts:38-346 | All through a run terminate is about to disconnect every connection that a failed mapped session lists, exactly if there was no such attach. |
| SessionFailures.AttendedKept | packages/server/src/sessions.ts:300-307 | Of all steps only an attach that adds a connection to a failed mapped session breaks this, and it does unless that connection is about to be disconnected anyway. |
| SessionFailures.TerminateAttended | packages/server/src/sessions.ts:265-274 | A connection that terminate has disconnected is listed by no mapped session any more, and the others are still to be disconnected. |
| SessionFailures.FailedSessionStays | packages/server/src/sessions.ts:300-307 | Such an attach happens: a run of eight steps ends quietly with a failed session that is not being disposed and keeps its id. |
| SessionOutcomes.AcquireOutcome | packages/server/src/sessions.ts:186-207 | In every reachable state: a command that asks for an id has the mapped session exactly if that has neither failed nor begun to be disposed, waits for a disposal exactly if that has begun on a session that has not failed, and is refused exactly if the session has failed; with none mapped it waits for exactly the invocation that is creating one, and asks the service exactly if there is none. Nothing else changes. |
| SessionOutcomes.DisposalFailed | packages/server/src/sessions.ts:191-194 | A command that waited for a disposal that failed is refused. |
| SessionOutcomes.OpenOutcome | packages/server/src/sessions.ts:209-214 | The runtime that the service returns runs, and is asked for its first snapshot, exactly if the server is not closing; else dispose is called on it. |
| SessionOutcomes.SnapshotOutcome | packages/server/src/sessions.ts:215-246 | A session that nobody holds yet is mapped exactly if its first snapshot is accepted; else dispose is called on its runtime. |
| SessionOutcomes.RejectOutcome | packages/server/src/sessions.ts:209-246 | A create that failed, or whose runtime was discarded, is rejected. |
| SessionOutcomes.CreateOutcome | packages/server/src/sessions.ts:197-206 | The invocation that asked the service and all that joined it get the same session, or are all refused, by whether it was created. |
| SessionOutcomes.AttachOutcome | packages/server/src/sessions.ts:300-307 | A command that has its session attaches exactly its own connection to exactly that session, exactly if the connection is still usable. |
| SessionOutcomes.DetachOutcome | packages/server/src/sessions.ts:75-89 | detach gives up exactly the hold of that connection on that session; the others are told if there are any and the session can be used, and it begins to be disposed exactly if it now may be. |
| SessionOutcomes.DisconnectOutcome | packages/server/src/sessions.ts:122-132 | A disconnected connection holds nothing and is listed by no mapped session; all others keep what they have. |
| SessionOutcomes.OperateOutcome | packages/server/src/sessions.ts:171-178 | An operation is admitted exactly for a holder of the id of a mapped session that can be used, which then counts one more in flight. |
| SessionOutcomes.OperationEndOutcome | packages/server/src/sessions.ts:180-183 | An operation that ends is no longer in flight, and its session begins to be disposed exactly if it was the only one, nobody is attached, and the session has failed or its runtime is idle. |
| SessionOutcomes.FailureOutcome | packages/server/src/sessions.ts:265-270 | A runtime error makes its session terminal and puts terminate in charge of exactly the connections it listed, unless it was terminal already. |
| SessionOutcomes.DisposalOutcome | packages/server/src/sessions.ts:336-342 | A settled disposal frees exactly its own id, and lets everyone go on who waited for it. |
| SessionOutcomes.ClearOutcome | packages/server/src/sessions.ts:157-168 | Clearing leaves nothing mapped, with dispose called once on every runtime. |
| SessionOutcomes.DisposalsSpare | packages/server/src/sessions.ts:324-335 | No step of any run begins to dispose a session that somebody is attached to, that has an operation in flight, or that has not failed and whose runtime is at work. |
| SessionOutcomes.NewSessionServes | packages/server/src/sessions.ts:66-74 | From every reachable state of a server that is not closing: a client that can be reached and asks for an id that nobody holds is served once the service has opened it. |
| SessionOutcomes.LiveSessionServes | packages/server/src/sessions.ts:66-74 | From every reachable state: a client that can be reached and asks for a session in use is served by that same session. |
| SessionTheorems.RunInv | packages/server/src/sessions.ts:38-346 | Every interleaving of commands, disconnects, runtime events and close keeps the whole invariant (ownership, openings, counts, attachments, and who will look after disposable sessions). |
| SessionTheorems.EnabledIsPossible | packages/server/src/sessions.ts:38-346 | No step the environment can take is excluded from a run: the references a resumed invocation follows are sound in every reachable state. |
| SessionTheorems.OpenerAcquires | packages/server/src/sessions.ts:186-207 | Only acquire makes an invocation wait for the service, and only for an id that is neither mapped nor being opened. |
| SessionProofs.MaybeDisposeKeeps | packages/server/src/sessions.ts:324-345 | maybeDispose keeps ownership, attachments and counts. |
| SessionProofs.AcquireKeeps | packages/server/src/sessions.ts:186-207 | One round of the acquire loop keeps the invariant in each of its five branches; which of them it takes is AcquireOutcome. |
| SessionProofs.AcceptSnapshotKeeps | packages/server/src/sessions.ts:215-236 | A created session takes over its runtime from the invocation that held it, and becomes the mapped one. |
| SessionProofs.RejectSnapshotKeeps | packages/server/src/sessions.ts:237-245 | A rejected first snapshot disposes the runtime exactly once and leaves the id held until that has finished. |
| SessionProofs.OpenRuntimeKeeps | packages/server/src/sessions.ts:209-214 | A runtime that arrives while the server is closing is disposed at once and stays owned by its invocation. |
| SessionProofs.AttachKeeps | packages/server/src/sessions.ts:300-307 | Attaching keeps the invariant, both for a usable connection and for one that is gone. |
| SessionProofs.DetachKeeps | packages/server/src/sessions.ts:75-89 | Detaching keeps the invariant, including the disposal it may start. |
| SessionProofs.EndOperationKeeps | packages/server/src/sessions.ts:180-183 | An operation that ends was counted, and the disposal it may start is not under another operation. |
| SessionProofs.DisconnectKeeps | packages/server/src/server.ts:282-291 | A disconnect removes the connection from every mapped session it holds and disposes the sessions left without use, all in one stretch. |
| SessionProofs.ReturnDisposalKeeps | packages/server/src/sessions.ts:336-343 | A settled disposal, failed or not, unmaps its own session only. |
| SessionProofs.TerminateKeeps | packages/server/src/sessions.ts:265-274 | A runtime error makes its session terminal once and keeps the invariant. |
| SessionProofs.ClearSessionsKeeps | packages/server/src/sessions.ts:157-168 | Emptying the map disposes every mapped runtime that no disposal has taken, and leaves none unowned. |
| SessionProofs.MaybeDisposeObliged | packages/server/src/sessions.ts:324-345 | After maybeDispose on a session that nobody looked after, every disposable session is looked after again. |
| SessionProofs.DisconnectObliged | packages/server/src/sessions.ts:122-132 | A disconnect leaves no disposable session without an invocation or event that will dispose it. |
| Sessions.LiveSessionManager.MaybeDispose | packages/server/src/sessions.ts:324-345 | The method on shared session records takes the represented state exactly where the protocol step takes it, which spares sessions at work (DisposalsSpare). |
| Sessions.LiveSessionManager.Acquire | packages/server/src/sessions.ts:186-207 | Same, for one round of the acquire loop, whose answers are those of AcquireOutcome. |
| Sessions.LiveSessionManager.Attach | packages/server/src/sessions.ts:300-307 | Same, for attach. |
| Sessions.LiveSessionManager.Detach | packages/server/src/sessions.ts:75-89 | Same, for detach up to its first await. |
| Sessions.LiveSessionManager.Operate | packages/server/src/sessions.ts:171-178 | Same, for the start of an operation. |
| Sessions.LiveSessionManager.EndOperation | packages/server/src/sessions.ts:180-183 | Same, for the end of an operation. |
| Sessions.LiveSessionManager.OpenRuntime | packages/server/src/sessions.ts:209-214 | Same, for create after the service has answered. |
| Sessions.LiveSessionManager.ReturnSnapshot | packages/server/src/sessions.ts:215-246 | Same, for create after the first snapshot. |
| Sessions.LiveSessionManager.ResumeCreate | packages/server/src/sessions.ts:199-205 | Same, for acquire after its own create has settled. |
| Sessions.LiveSessionManager.ReturnDisposal | packages/server/src/sessions.ts:336-343 | Same, for a disposal that has settled. |
| Sessions.LiveSessionManager.Terminate | packages/server/src/sessions.ts:265-270 | Same, for terminate up to its first await. |
| Sessions.LiveSessionManager.ClearSessions | packages/server/src/sessions.ts:157-168 | The loop over the mapped sessions disposes exactly those the one-step form disposes. |
| Sessions.LiveSessionManager.Disconnect | packages/server/src/sessions.ts:122-132 | The two loops of disconnect, remove from all and then maybeDispose on each, equal the one-step form for every order of the sessions. |
| Snapshots.CatchUp | packages/server/src/snapshots.ts:34-61 | In every run, once its handshake and the broadcast under way have settled: a ready connection has been sent the current revision, and the client that applies what arrives in order ends with it, exactly if the last broadcast to the connection was not abandoned by a service call that threw; nothing newer was sent. |
| Snapshots.BroadcastIsAbandoned | packages/server/src/snapshots.ts:55-58 | It happens: a call that throws during a broadcast leaves the only client behind the raised revision. |
| Snapshots.ContentIsCurrent | packages/server/src/server.ts:221-250 | Once moreover every change was announced and every queued broadcast performed, the client of a connection whose last broadcast was not abandoned shows the current content exactly if its connection missed no broadcast. |
| Snapshots.UpdateIsLost | packages/server/src/server.ts:242-248 | It happens: a change announced during the only handshake never reaches that client, because the revision did not move. |
| Snapshots.StoredIsLatest | packages/client/src/state.ts:100-104 | However stale and fresh snapshots interleave, the client ends with the last one of the highest revision. |
| Snapshots.RunKeeps | packages/server/src/server.ts:185-250 | Every interleaving of handshakes, broadcasts, changes and closing connections keeps the revision and content invariants. |
| Snapshots.BeginStep | packages/server/src/snapshots.ts:50-55 | Both outcomes of the check for ready connections keep the invariants: targeting all of them, and skipping. |
| Snapshots.FinishHelloIsGood | packages/server/src/server.ts:232-249 | A connection that becomes ready behind the current revision is on its way to a second snapshot; one that is not behind has the current revision. |
| Snapshots.RefetchStored | packages/server/src/server.ts:242-248 | A late answer of the second get() is kept by the client unless a broadcast has overtaken it. |
| SnapshotOutcomes.BroadcastOutcome | packages/server/src/snapshots.ts:50-57 | A broadcast begins, with the next revision and for exactly the ready connections, exactly if there is one and the server is not closing. |
| SnapshotOutcomes.SendOutcome | packages/server/src/snapshots.ts:58-60 | A target that can be reached is sent the current revision, the others are left alone. |
| SnapshotOutcomes.HelloOutcome | packages/server/src/server.ts:230-237 | A hello is answered exactly if the connection can still be reached and is still shaking hands, before anything else is sent. |
| SnapshotOutcomes.ReadyOutcome | packages/server/src/server.ts:238-243 | Once its hello has gone out a connection becomes ready exactly if it is still there and shaking hands, and fetches again exactly if the revision has risen since. |
| SnapshotOutcomes.RefetchOutcome | packages/server/src/server.ts:243-248 | What was fetched again is sent exactly if the connection can be reached. |
| SnapshotOutcomes.HelloServes | packages/server/src/server.ts:221-250 | From every reachable state of a server that is not closing: a client that says hello becomes ready with the current revision and content. |
| SnapshotOutcomes.BroadcastServes | packages/server/src/snapshots.ts:44-61 | From every reachable state without a broadcast under way: a ready client that can be reached ends with the current content under a new revision after the next broadcast. |
| Publisher.ServerSnapshotPublisher.PerformBroadcast | packages/server/src/snapshots.ts:50-55 | The publisher's method takes exactly the protocol's step: skipped without a ready connection, else the next revision for all ready ones. |
| Publisher.ServerSnapshotPublisher.ReadyConnections | packages/server/src/snapshots.ts:51-53 | The filter loop returns exactly the ready, not disconnected connections. |
| Publisher.ServerSnapshotPublisher.AbandonBroadcast | packages/server/src/snapshots.ts:55-58 | A service call that throws ends the broadcast with the revision raised, as the protocol's step says. |
| Publisher.ServerSnapshotPublisher.SendBroadcast | packages/server/src/snapshots.ts:60 | One send of the broadcast loop is the protocol's step. |
| Publisher.ServerSnapshotPublisher.SendServerHello | packages/server/src/server.ts:230-237 | The hello is sent, or the handshake dropped, exactly as the protocol's step says. |
| Publisher.ServerSnapshotPublisher.FinishHandshake | packages/server/src/server.ts:238-249 | Becoming ready, and fetching again if the revision has moved, is the protocol's step. |
| ClientStore.CacheIsLatest | packages/client/src/state.ts:77-113 | For every session and any interleaving: the cache holds, of the snapshots received since the last removal, the last one of the highest revision; the session counts as attached exactly if the last snapshot taken in says so and no detach or removal came since. |
| ClientStore.ClientState.ApplyServerSnapshot | packages/client/src/state.ts:100-104 | The stored snapshot is replaced exactly unless the new one is older. |
| ClientStore.ClientState.ApplySessionSnapshot | packages/client/src/state.ts:106-113 | The reducer for session snapshots, with and without force. |
| ClientStore.ClientState.ApplyDetach | packages/client/src/state.ts:79-84 | A detach leaves the snapshot in the cache, marked as not attached. |
| AgentTrace.TranscriptIsPayloads | packages/agent/src/agent.ts:557-604 | For any events, the agent's transcript grows by exactly the messages that ended, in order. |
| AgentTrace.StateShowsPhase | packages/agent/src/agent.ts:557-595 | For any trace that follows the grammar, a call shown as pending is running, and a message is shown as streaming exactly while it streams. |
| AgentTrace.NothingPendingAtTurnEnd | packages/agent/src/agent.ts:572-593 | No tool call is pending and nothing is streaming at any turn_end or agent_end, even with repeated call ids. |
| AgentTrace.PendingExactly | packages/agent/src/agent.ts:571-584 | For any events: a call is shown as pending exactly if it has started and not ended since. |
| AgentTrace.StreamingIsLatest | packages/agent/src/agent.ts:559-566 | While a message streams the agent shows exactly its latest form. |
| AgentTrace.Balanced | packages/agent/src/agent-loop.ts:97-274 | A trace that follows the grammar starts and ends a run once; turns are balanced and never nested, and messages are balanced but for one start per restart of a message by the model. |
| AgentTrace.ExecutionsBalanced | packages/agent/src/agent-loop.ts:393-575 | Per call id, tool executions end exactly as often as they start, but for those still running. |
| AgentTrace.CompleteTrace | packages/agent/src/agent-loop.ts:97-274 | A complete trace starts with agent_start, ends with its only agent_end and leaves nothing open. |
| AgentTrace.FailureEnds | packages/agent/src/agent.ts:524-541 | After any events that follow the grammar, those of a failure add exactly the failure message and leave nothing streaming; the trace is then complete exactly if it stood inside a turn with no tool running and no user or tool message open. |
| AgentTrace.SharedTurn | packages/agent/src/agent.ts:389-393 | A complete trace in which one message of each queue is injected in the same turn, at most one per queue: one-at-a-time modes do not rule it out. |
| AgentTrace.ContextIsTranscript | packages/agent/src/agent-loop.ts:157-259 | For any trace that follows the grammar, the loop's context is what it was last replaced by and all messages that ended since, exactly if no message started again since, and one message longer for each that did; if no turn replaced it, it is the transcript the run started from and all messages of the run exactly if no message started again. |
| AgentTrace.AfterTurn | packages/agent/src/agent-loop.ts:212-256 | What follows a turn: the end of the run at once if the model failed or the hook asks to stop; else the next turn if a tool call of it did not ask to stop. |
| AgentTrace.WhyTurns | packages/agent/src/agent-loop.ts:170-256 | A turn after one without tool results for the model has injected a queued message. |
| Agents.Agent.RunLoop | packages/agent/src/agent-loop.ts:157-274 | For any model, tools, listeners and abort, and any answers of the hooks, after any number of turns: the loop's context is the one determined by the trace and by what prepareNextTurn returned, the new messages are those that ended, and what was taken from a queue is injected but for what is about to be. No turn begins after one to stop after; the run ends after a turn with tool results for the model only if the model failed or the hook asked for it; it ends of itself only when both queues have just been found empty; every turn but the first answers tool results or injects a queued message; and turn_end and agent_end carry their messages (`Reasoned`, `Exhaustive`). A turn injects from both queues exactly if follow-ups were announced and a steering message waits at the first poll. |
| Agents.Agent.RunTurns | packages/agent/src/agent-loop.ts:173-259 | The inner loop, over every exit and after any number of turns: it comes to rest only when no tool result is left to answer, the turn was none to stop after, and a poll of the steering queue has just found nothing; it ends the run only after a turn to stop after. |
| Agents.Agent.PrepareTurn | packages/agent/src/agent-loop.ts:177-199 | The context becomes what prepareNextTurn returned, if anything, and stays as it is otherwise; messages of the first poll stay as they are and the queue is not drained again; if there were none, it is drained once more. |
| Agents.Agent.Inject | packages/agent/src/agent-loop.ts:202-210 | Pending messages are injected in order; what was taken from a queue equals what was injected and what is still pending. |
| Agents.Agent.Respond | packages/agent/src/agent-loop.ts:213-244 | One response with its tool calls adds the same messages to context, new messages and trace, the response first; there is more to do exactly if a tool call of the turn did not ask to stop; after an error or abort of the model, or without calls, nothing else is added and there is not. |
| Agents.Agent.AnswerCalls | packages/agent/src/agent-loop.ts:222-242 | The calls of a failed response are not touched, those of a truncated one all fail; the others are delivered as their batch says. There is more to do exactly if there are results and not every call asked to stop. |
| Agents.Agent.EndTurn | packages/agent/src/agent-loop.ts:216-244 | turn_end carries the response of the turn and exactly its tool results. |
| Agents.Agent.ExecuteToolCalls | packages/agent/src/agent-loop.ts:423-437 | If the configuration or a tool of the batch asks for it no two calls overlap; either way the batch is delivered as its calls and an abort demand. |
| Agents.Agent.StreamAssistantResponse | packages/agent/src/agent-loop.ts:280-384 | Whatever a model streams, the trace and the new messages gain exactly the final message, what is emitted is exactly what the stream calls for, and the context is what streaming leaves, which is what the trace leads to. |
| Agents.StreamLeavesFinal | packages/agent/src/agent-loop.ts:326-383 | For any stream: nothing of what was streamed stays in the context exactly if the message was started at most once before the stream finished. |
| Agents.StreamKeepsGrammar | packages/agent/src/agent-loop.ts:326-383 | For any stream: what is emitted follows the grammar, with a message started inside a message as often as the stream starts it again, so never exactly if it starts it at most once. |
| Agents.Agent.FailToolCalls | packages/agent/src/agent-loop.ts:393-418 | Every call of a truncated message gets a start, an end and an error result, in order. |
| Agents.Agent.ExecuteToolCallsSequential | packages/agent/src/agent-loop.ts:445-499 | Results for a source-order prefix of the calls; without an abort every call's own result, and termination exactly if all asked for it; in a run already aborted the first call alone, unexecuted; never two calls at once. |
| Agents.Agent.ExecuteToolCallsParallel | packages/agent/src/agent-loop.ts:501-575 | The same contract for every interleaving of updates and every completion order: parallel equals sequential unless aborted. |
| Agents.Agent.PrepareAll | packages/agent/src/agent-loop.ts:511-559 | Calls that need no execution end at once, the others are deferred; exactly the deferred ones are still running afterwards. |
| Agents.Agent.RunAll | packages/agent/src/agent-loop.ts:536-563 | Deferred calls start in order, each unless the run is aborted by then, when its outcome is that; a call that starts may abort, queue messages and send updates, as those started before may, and every execution ends once. |
| Agents.Agent.Complete | packages/agent/src/agent-loop.ts:561-563 | However executions interleave, each ends once and its updates come before that. |
| Agents.Agent.ExecutePrepared | packages/agent/src/agent-loop.ts:691-732 | Updates of an execution come only while it runs. |
| Agents.Agent.Emit | packages/agent/src/agent.ts:557-604 | Every event is reduced into the agent's state before listeners see it: the state is always the reduction of the trace. |
| Agents.Agent.RunPromptMessages | packages/agent/src/agent.ts:420-434 | After a finished run agent_end's messages, the messages that ended and the growth of the agent's transcript agree, and the loop's context is what prepareNextTurn last put in its place and all messages since, exactly if no message started again since; if it never replaced the context, that is the old transcript and all new messages. The prompts come first, both queues are conserved in FIFO order, one-at-a-time modes inject at most one message per turn and queue, and messages of both queues share a turn exactly if the prompts are follow-ups and the run's first drain of the steering queue finds a message. |
| Agents.Agent.FailRun | packages/agent/src/agent.ts:499-548 | When something throws out of a run at any await, the transcript has gained exactly the messages that ended by then and the failure, nothing is pending or streaming and the agent can run again; the trace is complete exactly if no tool was running and no user or tool message open inside a turn. |
| Agents.Agent.HandleRunFailure | packages/agent/src/agent.ts:524-541 | Wherever the run stood, exactly the four events of the failure follow, whose message is marked as an abort exactly if the run was aborted. |
| Agents.Agent.RunContinuation | packages/agent/src/agent-loop.ts:122-145 | Refused, with nothing changed, exactly on an empty transcript or one that ends with an assistant message; otherwise as for a prompt run. |
| Agents.Agent.Prompt | packages/agent/src/agent.ts:358-369 | A prompt run, in which no turn injects from both queues. |
| Agents.Agent.Continue | packages/agent/src/agent.ts:371-399 | From an assistant message what is drained of the steering queue goes first, else what is drained of the follow-ups; nothing is taken from a queue that the run does not inject; refused exactly when there is nothing to go on with. No turn injects from both queues, except that on follow-ups alone the first turn does exactly if the run's first poll finds a steering message. |
| Agents.Agent.ContinueSteered | packages/agent/src/agent.ts:389-393 | That exception happens to any agent that continues on follow-ups alone: when a listener of their announcement steers and the model fails in the first turn, that turn injects messages of both queues, whatever else the environment does. |
| Agents.BothInFirstTurn | packages/agent/src/agent.ts:389-393 | There is such a run with both queues in one-at-a-time mode. |
| Agents.PendingMessageQueue.Drain | packages/agent/src/agent.ts:148-161 | What is drained is a prefix of the queue: all of it, or one message if there is any, by its mode; nothing is lost, and what was found waiting, and when, is on record. |
| Leases.LeaseAccounting | packages/client/src/client.ts:381-400 | In every run without a stale release the count is the number of tokens reserved in the current generation and not released, and an exclusive token is the only one. |
| Leases.MutualExclusion | packages/client/src/client.ts:209-293 | If moreover no handle was made for a token of an earlier generation, an exclusive handle in use is the only handle in use. |
| Leases.AlwaysRightIffClean | packages/client/src/client.ts:151-412 | All through a run the count is right and every handle in use holds a counted token, so that exclusion holds, exactly if no token of an earlier generation was released into a positive count and no handle was made for one. |
| Leases.HandleIsBacked | packages/client/src/client.ts:209-211 | Making a handle keeps every handle in use backed by a counted token exactly if its token is of the current generation. |
| Leases.RightBooksExclude | packages/client/src/client.ts:381-393 | While that is so, an exclusive handle in use is the only one. |
| Leases.QuietRunsAreClean | packages/client/src/client.ts:402-412 | Both hypotheses hold in every run whose disconnects and removals come while nothing is being acquired or given back. |
| Leases.ReleaseCounts | packages/client/src/client.ts:395-400 | Releasing a token keeps the count right exactly if the token is of the current generation or nothing is counted. |
| Leases.DetachOnlyByLast | packages/client/src/client.ts:231-250 | A detach is requested only by the last holder: nobody else has the session reserved. |
| Leases.NeverActiveAgain | packages/client/src/client.ts:214-225 | A handle that was invalidated or released is never active again, whatever happens, even if the session is attached again. |
| Leases.InvalidationIsFinal | packages/client/src/client.ts:402-412 | In a clean run a disconnect or a removal of the session invalidates every handle there is. |
| Leases.TwoExclusiveHandles | packages/client/src/client.ts:151-177 | Without the hypothesis it fails: a removal during an attach ends with two exclusive handles in use. |
| Leases.TwoExclusiveReservations | packages/client/src/client.ts:237-250 | Without the hypothesis it fails: a removal during a detach ends with two exclusive reservations. |
| Leases.RunKeeps | packages/client/src/client.ts:151-412 | Every interleaving of acquisitions, releases, requests, disconnects and removals keeps the books. |
| LeaseOutcomes.GrantOutcome | packages/client/src/client.ts:381-393 | In every run without a stale release: an exclusive lease is granted exactly if no token is live, a shared one exactly if no live token is exclusive; a refusal changes nothing. |
| LeaseOutcomes.TwoSharedHandles | packages/client/src/client.ts:381-393 | Sharing happens: a run ends with two shared handles in use. |
| LeaseOutcomes.AcquisitionBegins | packages/client/src/client.ts:151-172 | A granted acquisition has its handle at once exactly if the session is attached, no detach is under way and none is outstanding; else it waits for the detach, the cleanup or the attach, joining the one under way if there is one. |
| LeaseOutcomes.AcquisitionGoesOn | packages/client/src/client.ts:155-176 | After a detach an acquisition goes on whatever became of that, after a cleanup it is attached anew, once attached it has its handle; it gives its token back exactly if the cleanup or attach it waited for failed. |
| LeaseOutcomes.NoTokenIsLost | packages/client/src/client.ts:151-177 | Every token is being acquired, or held by a handle, or released. |
| LeaseOutcomes.AcquisitionsCanGoOn | packages/client/src/client.ts:151-177 | Nobody waits for ever: a request under way can settle, and once it has, whoever waits for it can go on. |
| LeaseOutcomes.AcquisitionServes | packages/client/src/client.ts:151-177 | From every such state of a connected client: a lease that may be granted on a session that is not attached is in use once the server has attached it. |
| LeaseOutcomes.ReleaseBegins | packages/client/src/client.ts:231-252 | In clean runs: the release of a handle in use gives its token back at once exactly if others hold the session, and asks for a detach exactly if it is the last; any other release changes neither books nor requests. |
| LeaseOutcomes.ReleaseEnds | packages/client/src/client.ts:240-266 | What a settled detach leaves: the handle released if it succeeded, invalid if it is of an earlier generation, in use again after a failed detach(), and given up with the detach outstanding after a failed dispose(). |
| LeaseOutcomes.SettleOutcome | packages/client/src/client.ts:363-379 | The outstanding detach is settled exactly if the cleanup that asked for it succeeds. |
| LeaseOutcomes.LossOutcome | packages/client/src/client.ts:321-340 | A disconnect or a removal leaves no token live, no handle in use and no detach outstanding; a disconnect fails every request under way. |
| Leases.LeaseBooks.ReserveLease | packages/client/src/client.ts:381-393 | An exclusive lease is refused exactly if any is counted, a shared one exactly if an exclusive one is held; no other session is touched. |
| Leases.LeaseBooks.ReleaseLease | packages/client/src/client.ts:395-400 | One less for that session; no other session is touched. |
| Leases.LeaseBooks.InvalidateAllLeases | packages/client/src/client.ts:409-412 | The loop starts a new generation for every session with a positive count and only for those; all cleanups are forgotten. |
| Publication.MutationsAreSerial | packages/ai/src/models.ts:338-365 | In every mix of refreshes and provider changes store operations never overlap, and the generations of those begun never decrease. |
| Publication.UpdatesAreCurrent | packages/ai/src/models.ts:345-358 | Whenever an update runs its generation is current, its signal is not aborted, and the store holds exactly what it persisted. |
| Publication.StoreAgrees | packages/ai/src/models.ts:338-365 | The store holds what the last effective store operation wrote; memory last saw a publication that stores something, and it is that same one exactly if that one went through. |
| Publication.StoreAhead | packages/ai/src/models.ts:355-357 | The two do come apart: a provider replaced between write and update leaves its models in the store and not in memory. |
| Publication.MemoryFollows | packages/ai/src/models.ts:349-357 | When an effective store operation returns, memory comes to see that publication exactly if the operation succeeded and its refresh is neither aborted nor superseded by then. |
| Publication.UpdatesAreOrdered | packages/ai/src/models.ts:338-365 | Memory sees publications in queue order, with generations that never decrease. |
| Publication.WakeKeeps | packages/ai/src/models.ts:346-353 | A publication takes its turn only after all earlier ones have settled, and order, generations and store are kept whatever it comes to (WakeOutcome). |
| Publication.RunKeeps | packages/ai/src/models.ts:320-446 | Every interleaving keeps the order of publications, the generations and the store. |
| PublicationOutcomes.CurrentExactly | packages/ai/src/models.ts:347-355 | What publish checks twice, told from the events alone: no other refresh has begun since, the provider was not replaced, and the caller has not aborted. |
| PublicationOutcomes.LatestOnly | packages/ai/src/models.ts:320-336 | A refresh that begins passes the check, and none that began before it ever does again. |
| PublicationOutcomes.TurnComes | packages/ai/src/models.ts:344-346 | The turn of a publication has come exactly if it waits and all queued before it have settled: none waits for ever. |
| PublicationOutcomes.QueueOutcome | packages/ai/src/models.ts:338-362 | A publication is queued behind all others, and nothing else happens to it then. |
| PublicationOutcomes.WakeOutcome | packages/ai/src/models.ts:346-357 | When its turn comes: a publication without persist reaches memory, once, exactly if it passes the check; for any other a store operation begins exactly then; otherwise publish answers no and nothing sees it. |
| PublicationOutcomes.StoreOutcome | packages/ai/src/models.ts:349-353 | A store operation that takes effect leaves what was to be written, or nothing after a delete. |
| PublicationOutcomes.ReturnOutcome | packages/ai/src/models.ts:355-357 | When a store operation returns the publication reaches memory, once, exactly if it succeeded and passes the second check, which is what publish answers. |
| Publication.ModelsImpl.SupersedeProviderRefresh | packages/ai/src/models.ts:320-329 | A new generation begins, the refresh of the old one is aborted, and no other provider notices. |
| Publication.ModelsImpl.BeginProviderRefresh | packages/ai/src/models.ts:331-336 | A refresh owns the new generation. |
| Publication.ModelsImpl.ClearProviders | packages/ai/src/models.ts:279-284 | Every known provider and every provider being refreshed starts a new generation, and no refresh goes on. |
| Connection.Lifecycles | packages/client/src/connection.ts:66-235 | For every sequence of calls and whatever the callbacks do in turn, the announced states are (connecting, optional connected, disconnected) over and over, no promise of connect() is settled twice, that of an established connection is resolved, and all are settled once the lifecycle is disconnected. |
| Connection.SupersededForever | packages/client/src/connection.ts:119-147 | Once a connection has ended or been superseded, nothing its transport does changes anything ever again, whatever else happens. |
| Connection.StraysOnlyOnReconnect | packages/client/src/connection.ts:142-160 | Messages of an established connection act on another one exactly if the callback of a message before the last of the chunk leaves another connection up, for all callbacks that deliver no data themselves. |
| Connection.StraysOnOtherConnection | packages/client/src/connection.ts:156-160 | In any state and for any messages: one acts on another connection exactly if another connection is up when its turn comes, for such callbacks. |
| Connection.StraysExactly | packages/client/src/connection.ts:156-160 | For all callbacks whatever: exactly if another connection is up when its turn comes, or a callback handling it delivers data that goes astray. |
| Connection.ReconnectInMessageCallback | packages/client/src/connection.ts:156-160 | It happens: after a message callback that reconnects, the next message of the old connection ends the new one. |
| ConnectionOutcomes.ConnectingEnds | packages/client/src/connection.ts:119-235 | In every reachable state and whatever the callbacks do: a disconnect, a failure of the transport, a rejected chunk, data before the transport is open, or a first message that is no hello ends a connection that is being established, rejects its promise and is announced. |
| ConnectionOutcomes.ConnectedEnds | packages/client/src/connection.ts:92-235 | The same calls, and a message of the handshake, end an established connection. |
| ConnectionOutcomes.IdleCalls | packages/client/src/connection.ts:66-160 | A connect while there is a connection, a disconnect while there is none, whatever concerns another connection, and empty data change nothing. |
| ConnectionOutcomes.TransportArrives | packages/client/src/connection.ts:127-132 | The opened transport is noted on the connection that waits for it, and nothing else changes. |
| ConnectionOutcomes.ConnectBegins | packages/client/src/connection.ts:66-90 | connect() without a connection begins and announces the next one, which waits for its transport exactly if the callback does not end it. |
| ConnectionOutcomes.HelloEstablishes | packages/client/src/connection.ts:177-196 | A hello establishes the connection, announces it and resolves its promise exactly if the handshake callback neither throws nor ends it and the announcement does not end it; else it is over and its promise rejected. |
| ConnectionOutcomes.MessagesDelivered | packages/client/src/connection.ts:156-203 | Every message of an established connection reaches the application, once, as long as no callback ends it. |
| Connection.PerformKeeps | packages/client/src/connection.ts:66-235 | Any calls, with any reentrant callbacks, keep lifecycle, trace and promises in step. |
| Connection.GreetKeeps | packages/client/src/connection.ts:164-197 | The handshake, whose callbacks may throw, disconnect or reconnect, keeps them in step. |
| Connection.ClientConnection.PerformAll | packages/client/src/connection.ts:66-235 | The object's reentrant methods take its state exactly where the functions take it. |
| Connection.ClientConnection.HandleMessages | packages/client/src/connection.ts:156-160 | The message loop is the recursive form, whatever each message does to the lifecycle. |
| Connection.ClientConnection.HandleHello | packages/client/src/connection.ts:162-197 | The handshake method is its functional form, through all four exits. |
| FrameSpec.ChunkIndependence | packages/protocol/src/framing.ts:73-144 | However a byte stream is split into chunks, pushing them gives the frames of the whole stream, and fails exactly if the whole stream declares an oversized frame. |
| FrameSpec.EverySplitDecodes | packages/protocol/src/framing.ts:28-144 | Every splitting of the concatenated encodings of some payloads into chunks yields exactly these payloads and nothing pending. |
| FrameSpec.ParseSound | packages/protocol/src/framing.ts:73-144 | The frames and the rest of a parsed stream spell the stream, and every frame is within the limit. |
| FrameSpec.ParseAppend | packages/protocol/src/framing.ts:73-144 | What arrives later only extends the result. |
| FrameSpec.EncodingIsUnique | packages/protocol/src/framing.ts:28-39 | Two payload lists with the same encoding are the same. |
| FrameSpec.HeaderRoundTrip | packages/protocol/src/framing.ts:31-36 | The four header bytes read back as the length, for every 32-bit length. |
| FrameSpec.BigEndianRoundTrip | packages/protocol/src/framing.ts:88-89 | Every four bytes are the header of the length they declare. |
| Framing.EncodeFrame | packages/protocol/src/framing.ts:28-39 | The frame in a fresh array; refused exactly beyond the 32-bit limit. |
| Framing.AssertCompleteFrame | packages/protocol/src/framing.ts:42-53 | Accepted exactly if the bytes are one frame within the limit; each error exactly in its case. |
| Framing.FrameDecoder.Push | packages/protocol/src/framing.ts:73-144 | The in-place decoder with its blocks delivers exactly the frames of pending and new bytes, keeps the rest pending, and fails exactly on an oversized header. |
| Framing.FrameDecoder.End | packages/protocol/src/framing.ts:146-153 | Succeeds exactly if nothing is pending; afterwards the decoder has ended or failed. |
| Framing.FrameDecoder.AllocationBound | packages/protocol/src/framing.ts:107-123 | Block memory never exceeds the received payload bytes plus 65535, whatever length a header declares. |
| Framing.FrameDecoder.ReadPayload | packages/protocol/src/framing.ts:107-123 | The inner copy loop moves exactly the next bytes of the chunk into the blocks. |
| Framing.FrameDecoder.JoinBlocks | packages/protocol/src/framing.ts:128-134 | Several blocks are joined into exactly the payload. |
| Codec.MessageRoundTrip | packages/protocol/src/codec.ts:60-115 | End to end: however the encoded messages are split, exactly these messages come out. |
| Codec.MessageChunkIndependence | packages/protocol/src/codec.ts:102-115 | For every chunking a message decoder fails exactly when the stream declares an oversized frame or holds an invalid payload, and else delivers exactly the stream's messages. |
| Codec.FailureLatches | packages/protocol/src/codec.ts:102-115 | A failed decoder delivers nothing more. |
| Codec.EncodeMessage | packages/protocol/src/codec.ts:60-76 | A message is encoded exactly if it is valid and fits the limit. |
| Codec.MessageDecoder.Push | packages/protocol/src/codec.ts:102-115 | The decoder object delivers the messages of a chunk or latches its failure. |
| Search.FindMatches | packages/tui/src/alt-screen-search.ts:113-145 | The scan with one pointer that never moves back finds for every match exactly the segments that looking at all spans would find. |
| Search.SegmentsAreSeparated | packages/tui/src/alt-screen-search.ts:129-138 | Segments follow one another on the screen and are strictly separated within a row. |
| Search.SegmentsLight | packages/tui/src/alt-screen-search.ts:119-140 | The segments of a match light exactly the columns that show some part of it: each character its own column on ASCII lines, each grapheme all of its columns. |
| Search.MatchesAreAll | packages/tui/src/alt-screen-search.ts:119-144 | There is one match for each occurrence in the text, in order. |
| Search.BuildCorpus | packages/tui/src/alt-screen-search.ts:33-103 | The text is exactly the words of the screen joined by single spaces, and every span is the text of its word or grapheme, by its columns; spans follow one another in text order and screen order. |
| Search.WordsHoldAll | packages/tui/src/alt-screen-search.ts:47-100 | Those words hold every character of the screen that is not white space, in order and nothing else. |
| Search.WordsOfRows | packages/tui/src/alt-screen-search.ts:46-100 | No word reaches from one row into the next: the words of the screen are those of its rows. |
| Search.JoinedSplits | packages/tui/src/alt-screen-search.ts:39-44 | The text read back gives exactly the words, with one space between any two. |
| Search.AsciiCharacters | packages/tui/src/alt-screen-search.ts:50-75 | Of an ASCII line exactly the characters other than spaces are searched. |
| Search.GraphemeCharacters | packages/tui/src/alt-screen-search.ts:76-98 | Of any other line exactly the graphemes that are no white space are searched. |
| Search.MatchIsShown | packages/tui/src/alt-screen-search.ts:113-145 | For printable ASCII lines the characters under the segments of a match are the match without its spaces. |
| Search.AltScreenSearchIndex.Search | packages/tui/src/alt-screen-search.ts:153-175 | After any history of calls the cached answer is that of a fresh search, and a change is reported exactly when the lines or the normalized query differ from the last call. |
| Packing.Pack | scripts/session-transcripts.ts:196-241 | The files joined by blank lines are the transcripts so joined; each is within the limit or a single transcript; no order-preserving partition under the rule has fewer files. |
| Packing.TakeNext | scripts/session-transcripts.ts:201-233 | One transcript of the loop: what was gathered is written at most once, so the flush before an oversized transcript never happens. |
| Packing.GreedyIsOptimal | scripts/session-transcripts.ts:201-233 | A partition in which no file could take the next transcript has the fewest files. |
| Packing.GreedyStaysAhead | scripts/session-transcripts.ts:201-233 | After as many files a greedy partition is never behind another. |
| Watch.Watcher.Start | packages/agent/src/harness/events.ts:87-95 | The two-level flush delivers exactly what a first-in-first-out queue would, whatever the listener emits meanwhile, and ends with everything received delivered. |
| Watch.Watcher.Receive | packages/agent/src/harness/events.ts:78-81 | Before the start events are buffered in order; after it, nothing received stays undelivered, whatever the listener emits in turn. |
| Watch.FifoIsInOrder | packages/agent/src/harness/events.ts:87-95 | Buffered events are delivered first, then the emitted ones in the order of their emission. |
| Watch.BatchIsFifo | packages/agent/src/harness/events.ts:89-93 | Delivering a whole batch before looking at the buffer again comes to the same order. |
| Fuzzy.FuzzyMatch | packages/tui/src/fuzzy.ts:12-94 | A match is reported exactly if the query, or its swapped form, is a subsequence of the text. |
| Fuzzy.MatchQuery | packages/tui/src/fuzzy.ts:16-69 | The greedy scan reports a match exactly if the query is a subsequence, with the score of the leftmost embedding. |
| Fuzzy.GreedyIsComplete | packages/tui/src/fuzzy.ts:30-58 | Taking leftmost characters never misses an embedding. |
| Fuzzy.ExactIsBest | packages/tui/src/fuzzy.ts:30-66 | The text that is the query itself scores at least 100 better than any other that matches it. |
| Fuzzy.ExactScore | packages/tui/src/fuzzy.ts:38-66 | The score of a word that is its own text, in closed form. |
| Fuzzy.GapScore | packages/tui/src/fuzzy.ts:34-58 | The score of two characters matched apart: 2 for each character skipped, a tenth of each place, and what word starts are worth. |
| Fuzzy.WordStarts | packages/tui/src/fuzzy.ts:34 | Words start after white space and after - _ . / and :, but not within letters and digits. |
| Fuzzy.SwapsRuns | packages/tui/src/fuzzy.ts:76-82 | One run of letters and one of digits are swapped, in either order; twice gives the query back. |
| Fuzzy.SwappedIsRuns | packages/tui/src/fuzzy.ts:76-82 | Nothing else is swapped. |
| Fuzzy.FuzzyFilter | packages/tui/src/fuzzy.ts:100-138 | With at least one token, exactly the items that every token matches, ascending by total score and stable; else all items unchanged. |
| Fuzzy.TokensOfWords | packages/tui/src/fuzzy.ts:105-108 | Words with a space, a slash or a line break between any two are read back as the tokens. |
| Fuzzy.TotalIsSum | packages/tui/src/fuzzy.ts:119-129 | The total score is the sum of the scores of the tokens. |
| Fuzzy.ScoredIffAllMatch | packages/tui/src/fuzzy.ts:121-129 | An item has a total score exactly if every token matches. |
| Proxy.StreamProxy | packages/agent/src/proxy.ts:181-250 | Without an abort what is pushed does not depend on the chunking; with one it is what the complete lines until then give, and one error. |
| Proxy.SplitOn | packages/agent/src/proxy.ts:206-212 | Splitting piecewise with a carried rest is splitting at once. |
| Proxy.EndsOnce | packages/agent/src/proxy.ts:226-237 | Without exceptions or abort the stream ends with the server's own terminal events, or with exactly one error of its own. |
| Proxy.BlocksAreSums | packages/agent/src/proxy.ts:264-334 | However indices interleave, a text or thinking block holds exactly the deltas for its index since it last started, and is of the kind that last started there. |
| Proxy.StreamShowsSums | packages/agent/src/proxy.ts:186-334 | Every text or thinking block that the stream shows is that sum, over the events that its lines carried up to then. |
| Proxy.StreamRoundTrip | packages/agent/src/proxy.ts:186-239 | What a server sends as one data line for each of its events is pushed, in order and whatever the chunks; if none of them is terminal one error follows. |
| Proxy.OtherLines | packages/agent/src/proxy.ts:186-189 | Lines that are no data lines, and blank ones, carry nothing. |
| Proxy.ThrowsExactly | packages/agent/src/proxy.ts:276-374 | An event throws exactly if it is a delta or an end for an index at which no block of its kind started last (a tool call may end so). |
| Proxy.PushesExactly | packages/agent/src/proxy.ts:264-395 | Every other event is pushed once, in its turn, with the block it leaves at its index, but for unknown ones and the end of a tool call that is none. |
| Proxy.CallsAreSums | packages/agent/src/proxy.ts:346-358 | The partial JSON of a tool call that has not ended is the sum of its deltas. |

## Left out

- Sockets, timers, HTTP and process I/O: connections, transports and the service are environment steps; the CBOR codec and the schema check are parameters with the round trip of one message as a hypothesis.
- Sessions: progress events, snapshots sent to connections, metadata listing; a session runtime is a handle with a status and an idle flag, which may still deliver an event or an error to a session that has unsubscribed. Events that a runtime emits synchronously while it is being subscribed to are not modelled.
- SessionTheorems.ExclusiveOpen: after close has emptied the session map, says only that dispose has been called on the earlier runtimes, not that it has settled, because the model lets commands begin and resume arbitrarily late.
- SessionTheorems.NoIdleOrphan: assumes, as the runtime's contract does, that a runtime emits an event after it has become idle, unless its session has unsubscribed.
- Sessions.LiveSessionManager.Terminate: the connections found are disconnected one per step, in any order; the awaited transport closes are not modelled.
- Server: protocol errors and handshake timeouts are one step that moves a connection to its closing stage; listener start and stop are left out.
- Snapshots.ContentIsCurrent: a listing shows the version at the moment it returns; that listing sessions is itself several awaits is not modelled. After an abandoned broadcast it says nothing of the content until a later one is sent.
- ClientStore.CacheIsLatest: covers what the server sends; the client's own forgetting and restoring of a snapshot around an attach request, and the clearing of attachments on disconnect, are left out.
- Agents.Agent.RunLoop: terminates after a given number of turns so that every run is finite. Hooks and listeners that throw are not steps of it but of FailRun. What prepareNextTurn and shouldStopAfterTurn answer is any function of the run's new messages, which differ from turn to turn, so any sequence of answers; hooks that change the messages they are given in place, and clearing the queues during a run, are left out.
- Agents.Agent.FailRun: lets the run have emitted any events that follow the grammar and polled its queues at any time, so it does not say which queued messages are lost with the run; what executions still running emit after the failure is left out.
- Agents.Agent.ExecuteToolCallsParallel: says of an aborted batch only which calls have results, since an aborted tool may return anything.
- Agent: prompts carry a mark of the queue they came from, which the original does not need; model choice, thinking level, telemetry and listener errors are left out.
- Leases.AlwaysRightIffClean: is about the books, which exclusion follows from; with the books wrong no two handles need meet.
- Leases.MutualExclusion: is about one session id, since ids do not interact except through disconnects; dispose of the client is a disconnect after which nothing more is asked for.
- Connection.StraysOnlyOnReconnect: is about callbacks of the application, which deliver no data of a transport from within; StraysExactly covers those that do.
- ConnectionOutcomes.HelloEstablishes: is about callbacks that deliver no data of a transport from within; so are ConnectBegins, for what its callback does, and MessagesDelivered.
- Connection: sending, and closing the transport of a connection that is over, are left out; errors are not told apart, and a message callback that throws out of the transport's handler is not modelled.
- Publication: the provider's own refresh code and the credential lookups are left out; a store operation takes effect at one moment between its call and its return, or not at all if it fails before.
- Framing.FrameDecoder.Push: the type checks on non-array arguments have no counterpart in a typed language.
- Search: control sequences are stripped before the model begins; graphemes carry a given width; the matches of the regular expression are given as disjoint, increasing intervals.
- Fuzzy.FuzzyMatch: starts from a query and a text already in lower case; scores are real numbers, so floating-point rounding is not modelled; white space beyond ASCII is not a separator.
- Proxy: the byte decoder, JSON parsing and the request itself are parameters or left out; signatures, usage and partial tool arguments are not modelled.
- Packing: directory scanning, file names and the analysis run are left out.
- The rest of the repository (provider catalogs, authentication, terminal rendering, key bindings, settings, migrations) is tables, user interface and file handling. Merging headers lets a later name replace an earlier one whatever its case, and the cost of a call is its token counts at the rates of the highest tier reached.
