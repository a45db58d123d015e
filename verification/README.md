# A verified model of the session manager

The session manager sits between MCP agents and 1C client sessions. Sessions connect over WebSocket, register their tools
and receive calls; agents see one catalog of tools and call them through the manager; a masking service decides what may
pass in either direction. The program is a set of small concurrent state machines around one registry. This project models
those machines in Dafny and proves what holds over all of their runs.

| file | what it models |
|---|---|
| `Json.dfy` | JSON values, equality up to the order of keys, the canonical form |
| `Wire.dfy` | JSON-RPC 2.0 messages, parsed and printed |
| `Terminal.dfy`, `Outbox.dfy`, `OutboxFormats.dfy`, `OutboxRuns.dfy`, `OutboxDeliveries.dfy`, `OutboxSimulation.dfy` | terminal events, the durable outbox as an object, its file formats, its runs with crashes, and how the two go together |
| `Pipeline.dfy`, `PipelineLaws.dfy`, `PipelineContents.dfy` | a proxied call through preflight, dispatch and finalize: its order, and what it says to whom |
| `Registry.dfy`, `Lifecycle.dfy`, `LifecycleLaws.dfy`, `LifecycleDrains.dfy` | the registry as an object; sockets, shutdowns and sweeps interleaved over it |
| `Connection.dfy`, `ConnectionLaws.dfy`, `Dispatcher.dfy`, `DispatcherLaws.dfy` | request correlation on one socket; the first-in-first-out queue of calls above it |
| `Sorting.dfy`, `Router.dfy`, `RouterLaws.dfy`, `RouterOrder.dfy`, `RouterSchema.dfy`, `RouterContents.dfy` | the published view, its schemas and the resolver |
| `ToolsCache.dfy`, `Listing.dfy`, `Catalog.dfy`, `CatalogContents.dfy`, `Visibility.dfy`, `Notify.dfy`, `Announcement.dfy` | the tools cache, the list shown to agents, its changes and their announcement |
| `Admission.dfy` | HTTP session capacity |
| `Adapter.dfy`, `AdapterLaws.dfy`, `AdapterCancels.dfy` | the calls of the stdio adapter |

An object whose methods update its fields is a class, and each method is specified by a function on values. Most machines
step those functions. The outbox's machine has steps of its own, which its methods are shown to simulate; the connection's
is finer than its methods, a step for each lock. What runs between two locks or two awaits is one step, and a schedule is
any sequence of steps. What a definition computes is also stated without naming it, in the terms of the source: in answers,
codes, members of messages and files, and in the steps of a run. The answers of the service, of 1C, of the disk and of the clock are arguments of steps, so every
theorem holds for all of them.

Some expected properties are false of the code. Each such case has a concrete run or input, and the exact condition:

- an outbox event may be posted twice, after a crash (`DeliveredTwice`) or by the retry of a post whose reply was lost
  (`RetriedTwice`), exactly when a post after which it did not leave is followed by another (`SentTwiceIff`); the service
  receives it twice exactly when two of those posts arrive (`ReceivedTwiceIff`);
- a drain may leave an entry behind (`LeakyDrain`), exactly when a dispatch is between its check and the table
  (`DrainCleanIff`); the dispatcher's call can then wait on with the permit in hand (`DrainedYetWaiting`), exactly when the
  sender was not yet taken either (`CanHangIff`);
- the table may keep a call's entry that nobody awaits (`DroppedEntryStays`), exactly when the future of the call was
  dropped (`EntriesAreAwaited`);
- a stale socket can rewrite the tools of a newer registration (`StaleSocketRewritesTools`), exactly when it reads on after
  a shutdown of its own generation has finished (`StaleRewriteIff`);
- the dispatcher of a session that has ended may stay open (`ByeLeavesDispatcherOpen`), exactly when its socket said bye
  and no shutdown drained it (`EndedYetOpenIff`);
- a published schema differs from the resolver (`AskingSchemaDisagrees`, `TwoSchemasDisagree`), exactly when the only
  client schema requires the selector itself (`SchemaAgreesWithResolver`) or, with `oneOf` read as exactly one, a session
  published the name with two schemas (`AgreesExactlyIff`);
- the list may change while the epoch stays (`UnmarkedChangeIsSilent`), only while a change is between its write and its
  mark (`SilentOnlyUntilMarked`);
- a JSON-RPC error may not survive a round trip (`NullDataLost`), exactly when its `data` is an explicit null
  (`RoundTripIff`);
- live HTTP sessions may exceed the limit, by no more than are live of requests that were given back after they had made
  their session (`LiveWithinLimit`, `NoOrphansWithinLimit`), and by as many as that for every limit (`LimitIsTight`);
- a call of the adapter may finish without an answer (`DroppedUnanswered`, `CancelledInTheSend`), exactly when its wait is
  cancelled from inside and no handler reaches it, or its answer is lost between mark and send; or a handler is still about
  to send it (`UnansweredIff`);
- a call of the adapter may be stopped while its SDK request goes on (`DisconnectCancelsNothing`), exactly when nobody but
  a disconnect asked, and only after the id was known (`CancelledInSdkIff`);
- a call of the adapter may take another's SDK request id for its own (`LateIdIsForeign`), exactly when that request went
  out after its own call had finished (`CapturedIdIsOwnIff`).

Where code and comments disagree the code is followed. The comment on eviction (`src/session_manager/tools_cache.rs:196-198`)
says that reading does not notify; the code runs the hook on every eviction, and so does the model.

## Model

| member | source | states |
|---|---|---|
| `Json.CanonicalIffSame` | src/session_manager/router.rs:31-45 | canonical forms are equal exactly when two values are equal up to the order of object keys at every depth |
| `Json.CanonicalMeansSame` | src/session_manager/router.rs:31-45 | canonicalising keeps the meaning and the uniqueness of keys |
| `Json.CanonicalIdempotent` | src/session_manager/router.rs:31-45 | canonicalising twice is canonicalising once |
| `Json.SameEquivalence` | src/session_manager/router.rs:31-45 | equality up to key order is an equivalence |
| `Json.SortedEqualIffSame` | src/session_manager/router.rs:31-45 | values whose keys are sorted mean the same exactly when they are equal |
| `Wire.PrintThenParse` | src/session_manager/protocol.rs:136-224 | every message printed and parsed comes back, an explicit null `data` being dropped |
| `Wire.RoundTripIff` | src/session_manager/protocol.rs:136-224 | the round trip is the identity exactly on messages without an explicit null `data` |
| `Wire.NullDataLost` | src/session_manager/protocol.rs:136-224 | an error whose `data` is an explicit null comes back without it |
| `Wire.ParsePrintParse` | src/session_manager/protocol.rs:136-224 | what was parsed once is stable under printing and parsing |
| `Wire.AcceptedIffOneShape` | src/session_manager/protocol.rs:136-178 | exactly the version-2.0 objects of one of three disjoint shapes are messages (sections 4, 4.1, 5 and 5.1 of the JSON-RPC 2.0 Specification) |
| `Wire.ParsedSays` | src/session_manager/protocol.rs:136-178 | a parsed message has the id, method, parameters, result or error that the object says, member by member |
| `Wire.RefusedBecause` | src/session_manager/protocol.rs:136-178 | which refused objects are refused for their version, for a result beside an error, for a malformed error, and for their shape |
| `Wire.PrintedSays` | src/session_manager/protocol.rs:180-224 | a printed message says them, member by member |
| `Terminal.LabelAlwaysValid` | src/session_manager/masking/gate.rs:48-74 | every label made from a caller passes the outbox's validation of callers |
| `Terminal.LabelReads` | src/session_manager/masking/gate.rs:48-74 | the label is `name/version #session`, as far as each is known, with the first eight characters of the session, cut after 256, control characters replaced |
| `Terminal.UuidForms` | src/session_manager/masking/gate.rs:268-319 | the four written forms of a UUID are accepted as call and correlation ids |
| `Terminal.EventRoundTrip` | src/session_manager/masking/client.rs:87-113 | a terminal event written as JSON reads back as itself |
| `Terminal.ScopeRoundTrip` | src/session_manager/masking/client.rs:98-113 | so does its scope |
| `Outbox.SnapshotRoundTrip` | src/session_manager/masking/gate.rs:120-160 | the snapshot of a well-kept outbox reads back as the same events |
| `OutboxFormats.EventOnDisk` | src/session_manager/masking/client.rs:87-97 | an event is written with exactly its six members, each under its own name |
| `OutboxFormats.ScopeOnDisk` | src/session_manager/masking/client.rs:98-113 | so is its scope |
| `OutboxFormats.SnapshotOnDisk` | src/session_manager/masking/gate.rs:120-130 | the snapshot is version 1 and the events, oldest first |
| `OutboxFormats.AcceptedFilesSay` | src/session_manager/masking/gate.rs:131-160 | an accepted file says version 1 and a list of events and nothing else, and stands for a well-kept outbox |
| `OutboxFormats.RetiredFormatReads` | src/session_manager/masking/gate.rs:215-257 | whatever events were written with whatever chats, they are read without the chats and without the retired ones, in order, exactly when that is a well-kept outbox |
| `OutboxFormats.AdmitsExactly` | src/session_manager/masking/gate.rs:162-186 | what `enqueue` does with an event, by its validity, its call id, and the limit of 10000 |
| `Outbox.ConvertLegacy` | src/session_manager/masking/gate.rs:215-257 | the loop over a legacy file yields exactly the converted events, and nothing at the first one that cannot be kept |
| `Outbox.LoadStable` | src/session_manager/masking/gate.rs:131-160 | whatever `load` accepts, converted or not, reloads to the same events and is then left alone |
| `Outbox.PostTerminal` | src/session_manager/masking/client.rs:218-248 | one post, and a second exactly when the first failed in transport before the deadline; the answer is the last one |
| `Outbox.LeavesExactly` | src/session_manager/masking/gate.rs:678-688 | a turn has the head leave exactly when the first post, or the one retry after a transport failure, was answered `recorded` or 409 TERMINAL_ALREADY_RECORDED in time, and the write succeeds |
| `Outbox.TerminalOutbox.Persist` | src/session_manager/masking/gate.rs:197-213 | the file becomes the snapshot of memory or stays as it was |
| `Outbox.TerminalOutbox.Load` | src/session_manager/masking/gate.rs:131-160 | memory and file after loading; a refused file changes nothing |
| `Outbox.TerminalOutbox.Enqueue` | src/session_manager/masking/gate.rs:162-186 | invalid, colliding and overflowing events are refused, a repeated one is accepted without a write, a failed write is rolled back exactly |
| `Outbox.TerminalOutbox.AcknowledgeFirst` | src/session_manager/masking/gate.rs:188-195 | the head leaves memory and file together, or neither |
| `Outbox.TerminalOutbox.DeliverFirst` | src/session_manager/masking/gate.rs:512-522 | the head leaves exactly when the service answered `recorded` or 409 TERMINAL_ALREADY_RECORDED and the shorter file was written |
| `Outbox.TerminalOutbox.Flush` | src/session_manager/masking/gate.rs:512-522 | the longest run of leaving deliveries goes from the head, the rest stays, in memory and in the file |
| `Outbox.TerminalOutbox.RecordTerminal` | src/session_manager/masking/gate.rs:502-510 | enqueue, then flush; when it returns an error nothing has changed |
| `OutboxRuns.RunKeepsInv` | src/session_manager/masking/gate.rs:131-257 | in every run with failing writes, crashes and reloads: memory is disk, ids are unique, at most 10000 events, leaving in order |
| `OutboxRuns.ConfirmedNeverLost` | src/session_manager/masking/gate.rs:131-257 | after any run every event whose enqueue returned Ok is in the file, or was delivered, acknowledged and only then removed; what counts as acknowledged is in the next two rows |
| `OutboxDeliveries.LeftIffRecorded` | src/session_manager/masking/gate.rs:678-688 | over every run, an event has left if and only if some post of it was answered `recorded` (version 1) or 409 TERMINAL_ALREADY_RECORDED and the write then happened |
| `OutboxDeliveries.ConfirmedUntilRecorded` | src/session_manager/masking/gate.rs:131-257 | after any run a confirmed event is in the file, or the service answered so to a post of that event |
| `OutboxDeliveries.KeptUntilRecorded` | src/session_manager/masking/gate.rs:512-522 | after any run the file is what was written from the first event on that was not answered so: no other answer removes one |
| `OutboxRuns.FileIsNewestPart` | src/session_manager/masking/gate.rs:162-213 | the file is always the newest part of all that was ever written, in order, across crashes |
| `OutboxRuns.WrittenGrows` | src/session_manager/masking/gate.rs:162-213 | what was written, removed and confirmed only grows along a run |
| `OutboxSimulation.EnqueueSimulates` | src/session_manager/masking/gate.rs:162-186 | the object's `enqueue`, which pops what it pushed when the write fails, is the machine's step on memory and disk |
| `OutboxSimulation.DeliverSimulates` | src/session_manager/masking/gate.rs:188-195 | one turn of the flush on the object, which puts the head back when the write fails, is the machine's step |
| `OutboxSimulation.ReloadSimulates` | src/session_manager/masking/gate.rs:131-160 | a crash and `load` of the file it left are the machine's two steps |
| `OutboxDeliveries.SentOncePerFailureAndOnceMore` | src/session_manager/masking/client.rs:218-248 | over every run, retries counted, an event that left was posted once more than there were posts after which it stayed; one that has not left, exactly that often |
| `OutboxDeliveries.SentTwiceIff` | src/session_manager/masking/client.rs:218-248 | over every run, no event is posted twice if and only if every post that another follows was acknowledged and its write happened |
| `OutboxDeliveries.ReceivedTwiceIff` | src/session_manager/masking/gate.rs:512-522 | over every run, the service receives an event twice if and only if it receives two posts and no post from the first to before the second was acknowledged and written |
| `OutboxDeliveries.DeliveredTwice` | src/session_manager/masking/gate.rs:512-522 | a run in which the process dies between acknowledgement and write, and the event is posted again |
| `OutboxDeliveries.RetriedTwice` | src/session_manager/masking/client.rs:218-248 | a run without crash or failed write in which the service receives an event twice: the first reply is lost, the retry is told 409 |
| `Pipeline.MaskingGate.Call` | src/mcp/server.rs:573-661 | the call as the object performs it: answer and effects are those of the specification, and the outbox changes only by the recorded event and the longest oldest part whose deliveries left |
| `Pipeline.OutboxDetermined` | src/session_manager/masking/gate.rs:502-522 | old contents, recorded event and deliveries determine what the outbox holds after a call |
| `Pipeline.MaskingGate.DoPreflight` | src/session_manager/masking/gate.rs:545-608 | allows, or refuses with a recorded terminal |
| `Pipeline.MaskingGate.DoFinalize` | src/session_manager/masking/gate.rs:610-675 | makes one finalize request, posted at most twice, and returns the service's public result or a recorded failure; what it posts is in `PipelineContents.ServiceIsTold` |
| `PipelineLaws.FailClosed` | src/mcp/server.rs:573-661 | with masking on, 1C is called only after the service allowed the same call id, with the service's arguments; each exit after a dispatch passes one finalize; the agent never gets the raw outcome |
| `PipelineLaws.RawOutcomeDoesNotLeak` | src/mcp/server.rs:632-661 | two runs that differ only in what 1C answered, with equal answers of the service, give the agent the same answer and leave the same outbox |
| `PipelineLaws.OversizeResultStaysHome` | src/session_manager/masking/client.rs:290-317 | a result over the limit is replaced by one bounded outcome that depends on nothing of the result |
| `PipelineLaws.FallbackCodeAllowed` | src/session_manager/masking/gate.rs:690-707 | the list of codes the fallback keeps and the list that validation of verified terminals allows are the same, and every other string maps into it |
| `PipelineLaws.TerminalValidIff` | src/session_manager/masking/gate.rs:268-319 | the terminal a failing call records is valid exactly when the names of its target fit the limits |
| `PipelineLaws.EveryFailureAccounted` | src/session_manager/masking/gate.rs:569-605 | a masking failure has one terminal recorded under its call id as its last effect; the record succeeds exactly when the names fit, the outbox has room and the write succeeds; otherwise the agent sees HISTORY_UNAVAILABLE |
| `PipelineLaws.RecordedMeansDurable` | src/session_manager/masking/gate.rs:502-522 | a recorded event is in the outbox when the call returns, or was acknowledged during it |
| `PipelineContents.ServiceIsTold` | src/mcp/server.rs:714-767 | what the finalize posts, for every call: of an envelope its `result` and its `field_sources`, each in its place; of a result that claims none the whole; of a broken one RESULT_INVALID; of each dispatcher error its code; all under the call's own identity, and shortened when over 8 MiB |
| `PipelineContents.CallMeans` | src/mcp/server.rs:573-661 | every call with masking on, word by word: what goes to the service and to 1C, what the agent is answered and which terminal event is recorded, for each answer of the service and of 1C |
| `PipelineContents.UnmaskedIsDirect` | src/mcp/server.rs:632-661 | with masking off the call goes to 1C as it came, and the outcome to the agent as it came |
| `Registry.SessionRegistry.RegisterWithGeneration` | src/session_manager/registry.rs:215-297 | a collision changes nothing; a reconnect keeps id and first registration, raises the generation and gets an open dispatcher |
| `Registry.SessionRegistry.MarkDisconnectedIfGeneration` | src/session_manager/registry.rs:355-384 | only the active record of that generation is disconnected, its handles drained |
| `Registry.SessionRegistry.RemoveIfGeneration` | src/session_manager/registry.rs:404-423 | only the record of that generation is removed |
| `Registry.SessionRegistry.UpdateTools` | src/session_manager/registry.rs:432-458 | tools are replaced, and the epoch raised, only when they differ |
| `Registry.SessionRegistry.SweepExpiredDisconnects` | src/session_manager/registry.rs:462-483 | exactly the records disconnected for the grace period are removed and returned |
| `Registry.SessionRegistry.BumpLastCall` | src/session_manager/registry.rs:338-347 | only the time of the last call changes |
| `Registry.RegisteredSound` | src/session_manager/registry.rs:215-297 | registration keeps the shape of the registry and its distinct generations |
| `Lifecycle.RunKeepsInv` | src/session_manager/transport.rs:154-181 | in every interleaving of sockets, shutdowns and sweeps: generations, connections and dispatchers correspond one to one, and nothing is drained without a cause in its own generation |
| `LifecycleLaws.ShapeEverywhere` | src/session_manager/registry.rs:191-297 | the registry has its shape in every reachable state |
| `LifecycleLaws.OnlyItsOwnEnds` | src/session_manager/registry.rs:355-423 | a step that ends generation g is one of the socket holding g, of a shutdown that snapshotted g, of the sweep past grace, or, once disconnected, a new registration |
| `LifecycleLaws.GenerationSafety` | src/session_manager/registry.rs:355-423 | over any run: a record of generation g that was there and later is gone or no longer active was ended by such a step in between |
| `LifecycleLaws.DrainSafety` | src/session_manager/lifecycle.rs:69-148 | in every state that keeps the invariant, so in every reachable one, a step drains only handles of the acting socket or of the generation its shutdown snapshotted |
| `LifecycleLaws.LiveSessionSurvives` | src/session_manager/transport.rs:452-587 | over any run, a live session whose socket stays and that nobody shuts down stays active under its generation with open handles, whatever its past does |
| `LifecycleLaws.UndisturbedIsOpen` | src/session_manager/lifecycle.rs:69-148 | an undisturbed live session's connection and dispatcher are not drained |
| `LifecycleLaws.ReadersEverywhere` | src/session_manager/transport.rs:154-181 | in every reachable state a socket that has not closed has its Active record or was shut down to the end, and a generation that was shut down never comes back |
| `LifecycleLaws.StaleRewriteIff` | src/session_manager/transport.rs:603-636 | over every run, a `session.tools_changed` changes the tools of a generation its socket did not register if and only if the socket reads on after a finished shutdown of its own generation, the uid was registered again and the tools differ |
| `LifecycleLaws.StaleSocketRewritesTools` | src/session_manager/transport.rs:603-636 | a run in which that happens |
| `LifecycleDrains.DrainedExactly` | src/session_manager/lifecycle.rs:69-148 | in every reachable state a dispatcher is drained if and only if its generation's socket closed under its identity or a shutdown of it got past both drains; a connection if and only if its socket drained it or a shutdown of its generation has begun to |
| `LifecycleDrains.ShutdownDone` | src/session_manager/lifecycle.rs:69-148 | a shutdown that is through its drains has drained the dispatcher and the connection of the generation it snapshotted, and a finished one has removed it |
| `LifecycleDrains.EndedYetOpenIff` | src/session_manager/transport.rs:561-586 | in every reachable state the dispatcher of a generation that is no longer live is open if and only if its socket said bye and no shutdown of it got past both drains |
| `LifecycleDrains.ByeLeavesDispatcherOpen` | src/session_manager/transport.rs:561-586 | a run in which that happens |
| `LifecycleDrains.SweptExactly` | src/session_manager/registry.rs:462-483 | a sweep removes exactly the sessions disconnected for the grace period or longer, and changes no other |
| `LifecycleDrains.DisconnectedSince` | src/session_manager/registry.rs:355-384 | over every run, a session is disconnected since its own socket closed |
| `LifecycleDrains.GraceWaited` | src/session_manager/registry.rs:462-483 | over every run, what a sweep removes is a session whose own socket closed at least the grace period ago |
| `LifecycleDrains.RegisteredAnew` | src/session_manager/registry.rs:215-297 | after every registration the record says what the client said, under a new generation with open handles; a reconnect keeps the times of first registration and last call, and the host and process it was not told anew |
| `Connection.ConnectionHandle.DispatchRequest` | src/session_manager/connection.rs:97-131 | a refused dispatch leaves no entry; an accepted one gets a fresh id, an entry and a frame |
| `Connection.ConnectionHandle.CompleteResponse` | src/session_manager/connection.rs:162-173 | the waiter of that id, once; nothing for an unknown id |
| `Connection.ConnectionHandle.CancelPending` | src/session_manager/connection.rs:133-137 | exactly that entry goes |
| `Connection.ConnectionHandle.DrainPending` | src/session_manager/connection.rs:176-186 | inactive, empty, and the writer gone |
| `Connection.AnswersCorrelate` | src/session_manager/connection.rs:88-173 | in every run each id is issued once and goes out at most once, and an answer carries its waiter's id |
| `Connection.MailIsFinal` | src/session_manager/connection.rs:162-173 | a waiter's result, once there, never changes over any further run |
| `Connection.StrayResponseIgnored` | src/session_manager/connection.rs:162-173 | unknown, late and repeated responses change nothing |
| `Connection.LateDispatchRefused` | src/session_manager/connection.rs:97-110 | after any drain stored its flag, every later dispatch is refused at its check |
| `Connection.LeakyDrain` | src/session_manager/connection.rs:102-186 | with a dispatch between check and table, a schedule lets the drain end with an entry left |
| `Connection.DrainCleanIff` | src/session_manager/connection.rs:102-186 | every schedule of a drain ends with an empty table exactly when nobody was between check and table when the flag was stored |
| `ConnectionLaws.TableIsExact` | src/session_manager/connection.rs:97-186 | over every run the table holds exactly the callers that entered it and have had no answer |
| `ConnectionLaws.ResponseArrives` | src/session_manager/connection.rs:162-173 | a response reaches the one caller that awaits its id, with its value, and takes the entry out |
| `ConnectionLaws.DeadlineAndDrainArrive` | src/session_manager/connection.rs:133-186 | a deadline takes the caller's own entry out, and a drain tells every caller in the table |
| `ConnectionLaws.DispatchGoesOut` | src/session_manager/connection.rs:97-131 | while the connection is up a dispatch gets a new id, an entry and a frame |
| `Dispatcher.RunKeepsInv` | src/session_manager/dispatcher.rs:111-249 | permit, queue, wire, table and answers are consistent in every schedule of calls, cancels, deadlines, dropped futures and drains, lock by lock |
| `DispatcherLaws.CallsGoOutInOrder` | src/session_manager/dispatcher.rs:111-160 | `tool.call` frames go out in order of arrival, each once, each after those before it have ended |
| `DispatcherLaws.InflightIsExact` | src/session_manager/dispatcher.rs:140-230 | the count is 0 or 1, is 1 exactly while a counted call runs, and is back at 0 when none holds the permit |
| `DispatcherLaws.QueuedEndsAreSilent` | src/session_manager/dispatcher.rs:111-145 | a call cancelled, timed out or dropped in the queue, or that could not be sent, put nothing on the wire |
| `DispatcherLaws.CancelFollowsItsCall` | src/session_manager/dispatcher.rs:160-249 | a `tool.cancel` follows its own `tool.call`, carries its id, and there is at most one per call |
| `DispatcherLaws.ResultBelongsToCall` | src/session_manager/dispatcher.rs:160-213 | a completed call's value is the one accepted for its own request id |
| `DispatcherLaws.EndsAsAnswered` | src/session_manager/dispatcher.rs:155-213 | over every run, a call that went out and was neither dropped nor out of time ends Completed(v), InvalidResult, Cancelled or ClientError if and only if the response accepted for its own id was that value, a value that does not parse, the error -32800, or another error; and SessionGone if and only if a drain cleared its entry |
| `DispatcherLaws.UnsentHasNoResult` | src/session_manager/dispatcher.rs:111-160 | a call that did not go out has no result and no error of the client |
| `DispatcherLaws.FirstInLineGoesOut` | src/session_manager/dispatcher.rs:111-160 | a free permit goes to the call that arrived first, and its `tool.call` is the next frame on the wire |
| `DispatcherLaws.ResponseEndsCall` | src/session_manager/dispatcher.rs:155-213 | a response to a call that waits ends it as the response says, and frees permit and count |
| `DispatcherLaws.DeadlineEndsCall` | src/session_manager/dispatcher.rs:165-176 | so does its deadline, which takes its entry out of the table |
| `DispatcherLaws.DrainEndsCall` | src/session_manager/dispatcher.rs:155-205 | so does a drain, as SessionGone |
| `DispatcherLaws.CancelGoesOut` | src/session_manager/dispatcher.rs:241-249 | a call asked to cancel while it waits sends one `tool.cancel` with its own id |
| `DispatcherLaws.CancelBegunOnce` | src/session_manager/dispatcher.rs:160-199 | over every schedule a call that has begun its `tool.cancel` begins no other, whether or not the first went out |
| `DispatcherLaws.WriterGoneEndsCall` | src/session_manager/dispatcher.rs:150-153 | a call that finds the writer gone leaves no entry and no frame |
| `DispatcherLaws.EntriesAreAwaited` | src/session_manager/dispatcher.rs:150-205 | in every run a call that waits for its response has its entry in the table, and an entry that a call made is unawaited exactly when that call's future was dropped |
| `DispatcherLaws.DroppedEntryStays` | src/session_manager/dispatcher.rs:150-205 | a run in which a dropped call leaves its entry behind, with permit and count given back |
| `DispatcherLaws.CanHangIff` | src/session_manager/dispatcher.rs:150-205 | once a drain has cleared the table, some schedule leaves a call waiting, the permit in hand, if and only if the call was between check and table and the sender was still there |
| `DispatcherLaws.DrainedYetWaiting` | src/session_manager/dispatcher.rs:150-205 | a run in which that happens |
| `Router.BucketsAreMeanings` | src/session_manager/router.rs:22-45 | under an injective digest the schema buckets are exactly the classes of schemas that mean the same |
| `Router.GroupTools` | src/session_manager/router.rs:72-101 | the nested maps hold, for each name and hash, exactly the publications of active sessions' public tools |
| `Router.BuildProxyView` | src/session_manager/router.rs:71-154 | the loops over nested maps compute the declared view of what was published; what its schemas hold is in `RouterContents` |
| `RouterLaws.ViewExact` | src/session_manager/router.rs:71-154 | one slot per name that an active session publishes publicly, in order; its candidates are sorted and hold each session once per public descriptor |
| `RouterLaws.ResolutionExact` | src/session_manager/router.rs:250-280 | the resolver's answer in terms of the registry: the requested session exactly when it is active and publishes the tool, otherwise the only one |
| `RouterLaws.RefusalExact` | src/session_manager/router.rs:250-280 | why a call is refused, in terms of the registry, and which sessions the refusal lists |
| `RouterLaws.TargetCheckAgrees` | src/mcp/server.rs:854-879 | the check of an explicit target and the resolver accept the same sessions and tools in every registry |
| `RouterOrder.KindsExact` | src/session_manager/router.rs:107-116 | the kinds of a slot, sorted and each once, are those of the sessions that publish the name |
| `RouterSchema.SelectorAddsOnlyItself` | src/session_manager/router.rs:159-213 | every other key, property and required name of the client's schema is kept, and a missing type becomes `object` |
| `RouterOrder.SelectorKeepsMeaning` | src/session_manager/router.rs:159-213 | schemas that mean the same get selectors that mean the same |
| `RouterOrder.ViewIgnoresOrder` | src/session_manager/router.rs:71-154 | two orders of one snapshot give the same view but for descriptions and key order inside schemas |
| `RouterOrder.ViewDependsOnLive` | src/session_manager/router.rs:71-154 | the view depends on kinds and tools of active sessions only |
| `RouterContents.SchemaIsPublished` | src/session_manager/router.rs:103-154 | whatever public tool an active session declares, the slot of that name publishes that tool's own schema with the selector, or an alternative that is, for the sessions that declare a schema of the same meaning |
| `RouterContents.SoleSchemaPublished` | src/session_manager/router.rs:115-117 | one meaning: the slot carries every publication's schema, up to key order, with all candidates, and requires the selector when there are several |
| `RouterContents.VariantsPublished` | src/session_manager/router.rs:118-154 | several meanings: each publication has an alternative that carries its schema and lists the sessions that published it, and each alternative is for some publication |
| `RouterSchema.SelectorAdmits` | src/session_manager/router.rs:159-213 | a schema with the selector admits exactly the listed sessions, and a missing selector unless it is required |
| `RouterSchema.VariantsAdmit` | src/session_manager/router.rs:118-129 | a schema with alternatives admits exactly the candidates: the enums cover them |
| `RouterSchema.SchemaAgreesWithResolver` | src/session_manager/router.rs:115-129 | published schema and resolver accept the same selectors if and only if there are several candidates or the only client schema does not itself require the selector |
| `RouterSchema.AgreesExactlyIff` | src/session_manager/router.rs:115-129 | with `oneOf` read as exactly one, they accept the same selectors if and only if, besides, no session published the name with two schemas |
| `RouterSchema.AskingSchemaDisagrees` | src/session_manager/router.rs:195-211 | a client schema that requires the selector makes them differ |
| `RouterSchema.TwoSchemasDisagree` | src/session_manager/router.rs:118-129 | so does a session that published the name with two schemas, with `oneOf` read as exactly one |
| `RouterSchema.BranchesExclusiveIff` | src/session_manager/router.rs:118-129 | two alternatives admit the same session exactly when it published the name with two schemas |
| `RouterSchema.DeclaredOnceExclusive` | src/session_manager/router.rs:118-129 | a session that declares a name once is admitted by at most one alternative |
| `ToolsCache.ListingRoundTrip` | src/session_manager/tools_cache.rs:221-294 | the cache written out and read back is the same cache |
| `ToolsCache.ToolsCacheStore.EvictExpired` | src/session_manager/tools_cache.rs:199-219 | drops what is older than the cache's life, and then writes and notifies |
| `ToolsCache.ToolsCacheStore.Upsert` | src/session_manager/tools_cache.rs:100-140 | evicts, records the tools and the time, and notifies exactly when the tools changed |
| `ToolsCache.ToolsCacheStore.ListAll` | src/session_manager/tools_cache.rs:143-156 | exactly the entries alive now, sorted |
| `ToolsCache.ToolsCacheStore.ResetCache` | src/session_manager/tools_cache.rs:160-194 | drops exactly the matching entries |
| `ToolsCache.CacheRefinesLog` | src/session_manager/tools_cache.rs:100-219 | after any sequential run within one life, whether or not its writes succeed, the listing of a key is exactly the latest upsert that no matching reset followed and that is not too old |
| `ToolsCache.DiskFollows` | src/session_manager/tools_cache.rs:100-246 | with successful writes, in every run with restarts, disk has the keys and tools of memory, seen no later |
| `ToolsCache.ListedIsInLog` | src/session_manager/tools_cache.rs:259-294 | with restarts anywhere, every listed entry is visible in the log with the same tools |
| `ToolsCache.RestartsShowASubset` | src/session_manager/tools_cache.rs:259-294 | a restart shows a subset with identical tools |
| `ToolsCache.RepeatedUpsertIsQuiet` | src/session_manager/tools_cache.rs:100-140 | after any run an upsert of the tools already there, when nothing has expired, neither writes nor announces |
| `ToolsCache.ResetDropsExactly` | src/session_manager/tools_cache.rs:160-194 | after any run a reset by configuration drops the entries of that configuration, of every kind, and no other; it is written and announced exactly when it drops something |
| `Listing.ListAllTools` | src/mcp/server.rs:449-487 | the loops with the set of seen names compute the declared list |
| `Listing.ShownExact` | src/mcp/server.rs:449-487 | a name is listed exactly when the server, the view or a public cached descriptor offers it; cached tools repeat no name |
| `CatalogContents.ShownContents` | src/mcp/server.rs:449-487 | the list tool by tool: the server's own, one for each slot with the slot's schema, and the cached ones, each from the first entry that has the name, with its schema and an optional selector |
| `Catalog.NormalizeTools` | src/session_manager/masking/gate.rs:389-399 | in place, each descriptor becomes its normal form |
| `Catalog.RunAnnounced` | src/session_manager/registry.rs:170-180 | within one life of the process the epoch only grows, and while it stays the same nothing the list can see changes |
| `Catalog.NoSilentChange` | src/mcp/server.rs:449-487 | two reads that leave the same epoch returned the same tools, over any run of registry and cache operations |
| `CatalogContents.RegisteredIsCached` | src/session_manager/registry.rs:215-309 | an accepted registration keeps the frame's tools in the record, and the public ones in the cache under kind and configuration; a refused one changes nothing |
| `CatalogContents.ChangedIsCached` | src/session_manager/registry.rs:432-458 | so does a notification that changes the tools, under the record's kind and configuration; any other changes nothing |
| `Visibility.NormalizedSurvivors` | src/session_manager/masking/gate.rs:389-399 | what stays public after normalising is what was declared public under names that are not configured, untouched and in order |
| `Visibility.RunTraced` | src/session_manager/registry.rs:301-309 | in every run, with a gate or without, a record's tools come from a frame of its own session, and cached and written lists are the public part of some frame |
| `Visibility.LiveToolsWereSent` | src/mcp/server.rs:854-879 | over every such run, a candidate, a resolved session, a session that passes the explicit-target check and one that reports a tool each sent it themselves, as public and under a name that is not configured internal |
| `Visibility.CachedToolsWereSent` | src/session_manager/registry.rs:301-309 | so was every descriptor in the cache and its file |
| `Visibility.InternalNamesInvisible` | src/session_manager/router.rs:80-83 | over every run from an empty cache with the gate attached, an internal name reaches neither view, resolver, explicit-target check, session list, cache nor file |
| `Visibility.ShownWasSent` | src/mcp/server.rs:464-484 | so was every listed tool beside the server's own |
| `Notify.NoLostWakeup` | src/session_manager/notify.rs:99-122 | between marks, an epoch newer than the last broadcast means a stored permit or a debounce under way |
| `Notify.SignalledIsBroadcast` | src/session_manager/notify.rs:99-122 | three moves of the notifier after a signal, in any schedule, begin a broadcast that covers it |
| `Notify.NoMoreBroadcastsThanSignals` | src/session_manager/notify.rs:99-122 | signals collapse: in every run there are no more broadcasts than signals |
| `Announcement.SilentOnlyUntilMarked` | src/session_manager/registry.rs:170-180 | with a change and its mark as two steps, over any run: if a read shows other tools than an earlier one, the epoch has gone up since, or more changes are between write and mark than were then |
| `Announcement.UnmarkedChangeIsSilent` | src/session_manager/registry.rs:170-180 | after the write of a registration and before its mark the session is in the catalog while the epoch is the old one |
| `Announcement.ChangeIsOnItsWay` | src/session_manager/notify.rs:99-122 | in one machine of catalog and notifier: if a read now would show other tools than when the last broadcast began, a permit is stored, a debounce runs, a mark is about to signal or a change is about to be marked |
| `Admission.HttpSessionAdmission.ReserveInitialize` | src/mcp/server.rs:1590-1613 | prunes dead sessions, and reserves exactly when there is room |
| `Admission.HttpSessionReservation.Drop` | src/mcp/server.rs:1655-1662 | gives back what was not settled, and does nothing after a settlement |
| `Admission.HttpSessionReservation.Settle` | src/mcp/server.rs:1755-1769 | one request settles its reservation exactly once |
| `Admission.CapacityConserved` | src/mcp/server.rs:1568-1662 | in every run reserved is the number of unsettled reservations, active and reserved stay within the limit, each reservation is settled once, the counter never saturates |
| `Admission.ReservedIffRoom` | src/mcp/server.rs:1590-1613 | over every run a request gets a reservation if and only if the confirmed sessions still live and the requests under way are fewer than the limit |
| `Admission.SettledIsCounted` | src/mcp/server.rs:1614-1662 | a confirmed session is counted, a request given back is not, and a deleted session no longer is |
| `Admission.LiveWithinLimit` | src/mcp/server.rs:1590-1662 | live sessions stay within the limit but for those whose request was given back after making its session |
| `Admission.NoOrphansWithinLimit` | src/mcp/server.rs:1590-1662 | they stay within it whenever no session of a request that was given back is live |
| `Admission.LimitIsTight` | src/mcp/server.rs:1655-1662 | for every limit and every n a run has n such sessions live and max + n live in all: the bound cannot be improved |
| `Adapter.RunKeepsInv` | adapters/stdio-ws/provider.py:528-753 | flags, queue, pending map, answers in hand, wire and SDK ids are consistent in every interleaving, an answer being marked in one step and sent or lost in another |
| `AdapterLaws.OneCallPending` | adapters/stdio-ws/provider.py:528-549 | at most one call is pending |
| `AdapterLaws.AnsweredAtMostOnce` | adapters/stdio-ws/provider.py:405-417 | each request id gets at most one response, and an answered call has no other answer waiting to be sent |
| `AdapterLaws.UnansweredIff` | adapters/stdio-ws/provider.py:405-417 | over every run, a finished call is unanswered if and only if its wait was cancelled from inside and no cancel, shutdown or disconnect handler reached it, or its answer was lost between mark and send, or a handler still has it to send |
| `AdapterLaws.DroppedUnanswered` | adapters/stdio-ws/provider.py:686-687 | a run of the first kind |
| `AdapterLaws.CancelledInTheSend` | adapters/stdio-ws/provider.py:405-417 | a run of the second: a cancel arrives while the refused call waits for the send lock, finds the answer taken in hand and cancels the task |
| `AdapterLaws.CapturedIdIsOwnIff` | adapters/stdio-ws/provider.py:377-387 | over every run, a captured SDK request id belongs to the call that captured it if and only if its request did not go out after its own call had finished |
| `AdapterLaws.LateIdIsForeign` | adapters/stdio-ws/provider.py:377-387 | a run in which a call captures the id of an earlier one |
| `AdapterLaws.CancelledAtMostOnce` | adapters/stdio-ws/provider.py:388-399 | at most one SDK cancel per call, only when asked for, with the id that call captured, which is its own exactly as above |
| `AdapterCancels.CancelledInSdkIff` | adapters/stdio-ws/provider.py:377-399 | over every run, a call that has its SDK id has its cancellation sent under that id, or a task about to, if and only if a timeout, a `tool.cancel` or a shutdown asked for it, or the call had been asked to cancel before the id was known |
| `AdapterCancels.DisconnectCancelsNothing` | adapters/stdio-ws/provider.py:377-399 | a run in which a disconnect stops a call and leaves its SDK request alone |
| `AdapterLaws.HandledIsStopped` | adapters/stdio-ws/provider.py:551-562 | over every run, a call that a handler has reached has its task cancelled and its answer taken in hand |
| `AdapterLaws.TakenOnIff` | adapters/stdio-ws/provider.py:528-549 | a call is taken on exactly when none is pending, no task runs and no shutdown has begun; any other is refused |

## Left out

- JSON text: lexing, duplicate keys in a text and serde's array form of structs; a file or frame is a JSON value here.
- The terminal scope without a database ignores extra fields on reading; the model follows serde there, not the comment beside it.
- Key order: serde's maps are sorted here (`Cargo.lock` has no `preserve_order`), so the values the program compares are too; registry and cache compare values as they are, which on sorted values is `Json.SortedEqualIffSame`.
- SHA-256 is a function argument, assumed injective on canonical values where a theorem needs it.
- UUIDs: call, correlation and session ids are arguments, assumed fresh where a theorem needs it.
- Clocks are natural numbers that do not go back; 64-bit counters are unbounded.
- Resolution of databases through RAS, config and its validation, command line, logging and metrics, which would only add easy members.
- Sockets, HTTP headers, bearer authentication, ping timers and signals: frames and answers are inputs of steps.
- Concurrent writes of the cache file, which happen outside its lock; the claims about disk are for sequential runs.
- The notifier's fan-out to peers; only the start of a broadcast is modelled.
- The idle sweeper's choice of sessions: a shutdown of any session may begin at any time, and no claim is made that a session is still idle when it is shut down.
- A call whose future is dropped half way is modelled in the dispatcher and not in the pipeline.
- Dispatcher.RunKeepsInv: the check of the connection's flag and the taking of an id are one step, and the dispatcher is the only user of its connection; `Connection` has these apart and any number of users.
- Catalog.NoSilentChange: the lists are equal up to descriptions of live tools and the order of keys in their schemas; a registry change and its mark are one step there and two in `Announcement.SilentOnlyUntilMarked`.
- Announcement.SilentOnlyUntilMarked: the registry write and the cache update of one registration are one step; only their marks are apart.
- Visibility.InternalNamesInvisible: the configured internal names do not change between restarts.
- AdapterLaws.CapturedIdIsOwnIff: private invocations by the debugger adapter are not modelled.
- Adapter.RunKeepsInv: the provider's flags and queues are values stepped between awaits, not fields of an object; policy, binding and schema checks are one choice between failing and invoking. A frame handed to the socket counts as sent.
- RouterSchema.VariantsAdmit: reads `oneOf` as at least one alternative; `RouterSchema.AgreesExactlyIff` has the exact reading.
- RouterSchema.SchemaAgreesWithResolver: reads `oneOf` as at least one alternative, as above; and of JSON Schema only `required`, `properties`, `enum` and `oneOf` are read, and only as they bear on the selector.
- The debugger, service and policy modules of the adapter, and process supervision.
