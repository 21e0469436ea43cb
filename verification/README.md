# Verification of the nas host-side protocols

A Dafny 4.11 model of the parts of the repository whose behaviour is hard to see from one
function: the approval protocol of the host-exec broker, the gateway execution and its
readers, the history and audit databases, the Pkl printer, and a handful of graph, index
and quoting algorithms. `dafny verify dfyconfig.toml` checks everything.

## How it is modelled

**Concurrency.** The programs are single-threaded and yield at each `await`. One event of a
model is the code between two awaits of one running async function, and a run is any
interleaving of events that the awaits permit. In the broker the resumption after a
cancellation check and the head of the loop of `resolveGroup` are events of their own; this
only adds interleavings. Registry reads and writes, policy, integrity, audit writes and
socket writes are answers of an event, and may fail.

| files | what they model |
|---|---|
| `broker.dfy` | the broker as a state machine: connections, groups, running calls, the log |
| `broker_tables.dfy`, `broker_waiters.dfy`, `broker_loss.dfy`, `broker_settle.dfy`, `broker_lost.dfy`, `broker_index.dfy`, `broker_reservation.dfy`, `broker_decisions.dfy`, `broker_grants.dfy`, `broker_progress.dfy`, `broker_paths.dfy`, `broker_cleanup.dfy` | what every run keeps of its tables, waiters, index, reservations and decisions, where the leave to start comes from, that decisions are carried out, how requests fare that nobody is asked about, and what is cleared away |
| `broker_traces.dfy` | runs of the code as written that break an expectation |
| `broker_objects.dfy` | the classes whose methods perform the table steps |
| `gateway_execution.dfy`, `gateway_safety.dfy`, `gateway_progress.dfy`, `gateway_objects.dfy` | one execution with its writer and pipelines |
| `read_ahead.dfy`, `line_reader.dfy`, `line_stream.dfy` | the buffered reader, the chunk-queue reader and the byte stream |
| `marker_scanner.dfy` | the streaming marker scanner |
| `history_*.dfy` | tables, upserts, ingest, retention, token usage |
| `audit_bodies.dfy`, `audit_query.dfy` | the body store and the bounded query |
| `pkl_printer.dfy`, `pkl_text.dfy`, `pkl_source.dfy`, `pkl_file.dfy` | the Pkl printer on lines, on text and as a file, and when the file reads back |
| `wrappers.dfy`, `sequences.dfy` | `Option`, and facts about sequences |
| `suites.dfy`, `shell_quoting.dfy`, `approval_watch.dfy`, `sidecar_usage.dfy`, `port_forwards.dfy` | the algorithms named |

Where the program updates objects, arrays or maps step by step there is a class or a method
with the same loop, proved against a function; the properties are proved of the function.

## What the code does not do

Each of these is shown by a lemma at a state or an input that the code can meet, together
with the exact condition under which the code behaves.

- `resolveGroup` deletes `groups[approvalKey]` without asking whether it is still its group
  (broker.ts:1189, unlike 1136): a third request can lose its waiter for good.
- A registry removal that fails inside `resolveGroup` or `removePendingRequest` leaves the
  waiters that the call still owed unsettled for good (broker.ts:1132, 1187). These two are
  the only events after which some waiter has no way left to be settled.
- An id that is used again while its first request is still on a worklist is registered but
  no longer found (broker.ts:1186); one that is used again under another key while its first
  group still lists it, as after a failed registry write, hides that listing
  (broker.ts:977-999). No other event breaks the index.
- `startMonitor` during a read makes the frame come back twice (gateway_execution.ts:375-416),
  unless the source has failed that read; the broker starts it between reads.
- A log record without a time is filed under the epoch, and such a record can make every
  later prune fail on a foreign key (ingest_logs.ts:196). A prune fails exactly if a
  surviving record belongs to a conversation that does not survive.
- A block under a Pkl key named `new` reads like a list element, and an array directly in
  an array is printed as text (migrate.ts:131, 164-186). Among the trees whose printed
  texts are of one line, exactly the others read back.
- Negative token attributes are stored as they are read, so that an above-200k bucket can
  exceed its total (otlp_semantics.ts:165-172). Without one on a lower-tier span it never does.

## Model

| member | source | states |
|---|---|---|
| `BrokerTables.TablesAgree` | src/hostexec/broker.ts:966-1002 | at every await point of every interleaving of arrivals, approvals, denials, timeouts and cancellations, a registered group has one key set in `requests`, `requestIds`, `waiters` and `pendingEntries`, and each waiter in it is unsettled and listed under its own id |
| `BrokerTables.StepInv` | src/hostexec/broker.ts:1117-1265 | every single event keeps the table invariant, including that no two running calls hold or list the same waiter |
| `BrokerLoss.LosesExactlyOnDrop` | src/hostexec/broker.ts:1117-1192 | from a state that owns all its waiters, an event loses one if and only if a registry removal fails under a call that still owes a waiter, or the unguarded delete of line 1189 hits a group other than the one that ran empty |
| `BrokerLoss.WaitersOwnedIffNothingDrops` | src/hostexec/broker.ts:1117-1265 | over whole runs: every unsettled waiter stays reachable or on a worklist at every await point, if and only if no event of the run is one of those |
| `BrokerLoss.GuardedKeepsEveryWaiter` | src/hostexec/broker.ts:1133-1140 | with the identity test of line 1136 in both places and no failing registry removal, every unsettled waiter is in a registered group whose timer runs, or in the hands of a running call |
| `BrokerLoss.GuardedTimeoutIsOwn` | src/hostexec/broker.ts:1014-1020 | with that test, a timer that fires always finds the group it was started for |
| `BrokerLost.LostStaysLost` | src/hostexec/broker.ts:1117-1265 | an unsettled waiter that no registered group with a running timer, no worklist and no running call owns stays unsettled and unowned after every event |
| `BrokerLost.LostIsForGood` | src/hostexec/broker.ts:1117-1265 | so no continuation settles it, and in none is it owned again |
| `BrokerSettle.SafeCanSettle` | src/hostexec/broker.ts:1156-1265 | an unsettled waiter that somebody owns has a way to be settled: from every such state some continuation settles it |
| `BrokerLost.OwnedIffCanSettle` | src/hostexec/broker.ts:1117-1265 | so to be owned is exactly to have such a continuation |
| `BrokerLost.DropsExactlyForGood` | src/hostexec/broker.ts:1117-1192 | from a state that owns all its waiters, an event is one of the two dropping ones if and only if no continuation after it settles some unsettled waiter |
| `BrokerLost.WaitersCanSettleIffNothingDrops` | src/hostexec/broker.ts:1117-1265 | over whole runs: at every await point every unsettled waiter has a continuation that settles it, if and only if no event of the run drops one |
| `BrokerTraces.UnguardedLosesAWaiter` | src/hostexec/broker.ts:1187-1192 | the code as written: two approvals of one group and a third request of the same key between their resumptions reach a state after which nothing, in any continuation, settles the third waiter, though no operation failed |
| `BrokerTraces.FailingRegistryLosesAWaiter` | src/hostexec/broker.ts:1172-1192 | a request is approved once and the registry fails to remove its entry: a reachable step after which nothing, in any continuation, settles its waiter, with the identity test or without |
| `BrokerIndex.BreaksExactlyOnUnmap` | src/hostexec/broker.ts:977-997 | an event leaves every listed id leading back through `requestToApprovalKey` to its group, if and only if it does not join under an id that another group lists and does not forget an id that a group lists again |
| `BrokerIndex.IndexCompleteIffNothingUnmaps` | src/hostexec/broker.ts:1176-1186 | the same over whole runs |
| `BrokerIndex.FreshIdsMapBack` | src/hostexec/broker.ts:1275-1279 | if no request id arrives twice, every id of a registered group is found by `findGroupByRequestId` and gives that group, at every await point |
| `BrokerCleanup.IndexedIsListed` | src/hostexec/broker.ts:977-985 | the other direction of the index: an id that leads to a key is listed by a group object with that key, registered or detached, at every await point of every run |
| `BrokerTraces.ReusedIdIsNotFound` | src/hostexec/broker.ts:1176-1186 | an id used again while its cancelled first request is on the worklist of an approval: the new request is registered and `findGroupByRequestId` does not find it |
| `BrokerTraces.FailedWriteHidesARequest` | src/hostexec/broker.ts:977-999 | the registry fails to write the entry of a request and the id is used again under another key: both groups list the id, and `findGroupByRequestId` finds the second only |
| `BrokerGrants.KeysAreApproved` | src/hostexec/broker.ts:1066-1093 | in every run a key is in `approvedKeys` if and only if a user has approved, in the scope of the session, given or by default, a request of a group that was registered with that key: no denial, timer or other event adds one, and none is taken away |
| `BrokerGrants.WaitersAreNamed` | src/hostexec/broker.ts:1066-1093 | and the waiters that have leave by the user are exactly those that such an approval named, under their own id or with their whole group |
| `BrokerGrants.EveryAllowHasLeave` | src/hostexec/broker.ts:848-946 | every allow on record goes back to earlier events: the rule of the request was found and allows, and then its integrity was confirmed; or that was confirmed for a key that a user had approved for the session while prompting is enabled; or a user approved the waiter |
| `BrokerGrants.StartsOnlyWithLeave` | src/hostexec/broker.ts:903-1093 | in every run a started request has a decision on record, every decision it has is an allow, and it has leave in one of these three ways; so a denial never lets a later request start |
| `BrokerDecisions.StartsOnlyWhenAllowed` | src/hostexec/broker.ts:903-1064 | and what the request and the broker remember when it starts agrees with that: the rule allows and integrity passed, or the key is approved, prompting is enabled and integrity passed, or the approval named it |
| `BrokerPaths.DeniedByPolicy` | src/hostexec/broker.ts:827-846 | a request that its rule denies, that is not cancelled and for which nothing fails: once it has left its path its one entry is the denial by policy, it is terminal, and it is not started |
| `BrokerPaths.UnruledFallsBack` | src/hostexec/broker.ts:817-826 | one that no rule matches is answered without any entry, is terminal, and is not started |
| `BrokerPaths.RuledIsJudged` | src/hostexec/broker.ts:848-856 | for any other answer its integrity is looked up next |
| `BrokerPaths.DeniedByVerdict` | src/hostexec/broker.ts:856-933 | after that it is denied, with one entry and not started, as an integrity error if the lookup fails; as an integrity mismatch if it did not pass and prompting is off; as prompting disabled if it passed, the rule asks, and prompting is off |
| `BrokerPaths.AskedWaits` | src/hostexec/broker.ts:947-1003 | every other request that its verdict does not allow waits for the user: it has joined the group that is registered under its key, unless that group lists its id already, and stays there until it is settled |
| `BrokerProgress.ApprovedOnceIsStarted` | src/hostexec/broker.ts:1066-1265 | in every run, whatever else happens in between: a request that is approved once and not cancelled, by a call that nothing fails under, is recorded as allowed by the user, started, settled and terminal when that call has returned |
| `BrokerProgress.DeniedIsRecorded` | src/hostexec/broker.ts:1095-1223 | likewise one that is denied is recorded as denied by the user, settled and terminal, and not started |
| `BrokerProgress.WholeGroupIsDecided` | src/hostexec/broker.ts:1014-1020 | in every run, a group that an approval for the session or its timer takes off the table: when its call has returned or its list is empty, every waiter that was not cancelled is recorded with the decision of that event, started exactly if approved, settled and terminal |
| `BrokerProgress.WholeGroupIsDecidedInOrder` | src/hostexec/broker.ts:1172-1265 | and of any two such waiters the one that the group listed earlier is recorded, and started if approved, before the other |
| `BrokerProgress.AllowedIsStarted` | src/hostexec/broker.ts:903-946 | in every run, a request that needs no asking, is not cancelled and has nothing fail that it awaits is recorded with its reason and started once it has left its path, and runs until it is terminal |
| `BrokerDecisions.OneDecisionOneStart` | src/hostexec/broker.ts:1193-1265 | no request is decided twice and none is started twice |
| `BrokerDecisions.CancelledNeverStarts` | src/hostexec/broker.ts:809-813 | a request that is cancelled before its last cancellation check is never started afterwards |
| `BrokerCleanup.CancelledIsLeftAlone` | src/hostexec/broker.ts:809-940 | once a connection is cancelled and nobody is just then recording, answering or running it, it never gets an entry, an answer or a start in the rest of the run |
| `BrokerCleanup.CancelledIsTakenOut` | src/hostexec/broker.ts:974-1002 | a cancelled request does not stay in a registered group: at every await point at which it is listed there a removal of its id is still to look for it, or the connection itself will start one, as long as the index is complete and its pending entry was written |
| `BrokerCleanup.CancelledIsForgotten` | src/hostexec/broker.ts:1117-1131 | nor does `requestToApprovalKey` keep its id, if no request id arrives twice |
| `BrokerCleanup.EmptyGroupIsDropped` | src/hostexec/broker.ts:1133-1140 | a group that ran empty does not stay registered: at every await point some call is about to look, and its next step drops the group, unless a file removal before such a look has failed |
| `BrokerCleanup.AwaitsWhileAsked` | src/hostexec/broker.ts:947-957 | a connection that is not cancelled awaits approval from the verdict that asks until it leaves its registered group, and is in preflight before |
| `BrokerCleanup.TerminalStays` | src/hostexec/broker.ts:193-207 | terminal is the end: in every run no cancellation, decision or step of its own takes a connection out of it |
| `BrokerReservation.ReservationIsExact` | src/hostexec/broker.ts:659-712 | an id is in `activeRequestIds` if and only if a connection with that id still runs, and then exactly one does |
| `BrokerObjects.PendingGroup.Add` | src/hostexec/broker.ts:981-998 | adding a request puts it into all four tables of the group |
| `BrokerObjects.PendingGroup.Remove` | src/hostexec/broker.ts:1127-1131 | removing one takes it out of all four and returns its waiter, if it had one |
| `BrokerObjects.HostExecBroker.CreatePendingGroup` | src/hostexec/broker.ts:1021-1047 | a new group is registered under its key and its first request under its id; no other entry changes |
| `BrokerObjects.HostExecBroker.JoinGroup` | src/hostexec/broker.ts:976-998 | a duplicate id is refused without any change; otherwise exactly this group and this id change |
| `BrokerObjects.HostExecBroker.BeginRemove` | src/hostexec/broker.ts:1117-1131 | the id leaves the index always, and its group if that group is registered |
| `BrokerObjects.HostExecBroker.DropGroup` | src/hostexec/broker.ts:1134-1138 | an emptied group stops its timer; its key is freed by the guarded form only if it is still the registered group |
| `BrokerObjects.HostExecBroker.DetachGroup` | src/hostexec/broker.ts:1162-1169 | a group that is resolved as a whole stops its timer and leaves the table |
| `BrokerObjects.HostExecBroker.FindGroupByRequestId` | src/hostexec/broker.ts:1275-1279 | it finds a group exactly when the id has a key and the key a group |
| `BrokerObjects.GatewayRequestLifecycle.Cancel` | src/hostexec/broker.ts:197-207 | a cancellation takes effect once, never after the request ended, and starts the cleanup only if one is set |
| `BrokerObjects.GatewayRequestLifecycle.MarkAwaitingApproval` | src/hostexec/broker.ts:174-181 | the state advances from preflight only, and a deferred monitor event is handed over once |
| `GatewaySafety.MessagesAreInOrder` | src/hostexec/gateway_execution.ts:603-780 | in every run the messages that reach the gateway begin with the only `start`; a `result` is the last one and carries the reported exit code; there is at most one `kill`, none beside a `result`, and none once a `process_exit` was accepted |
| `GatewaySafety.AcceptedInOrder` | src/hostexec/gateway_execution.ts:662-703 | what is accepted from the gateway is `spawned`, raw chunks, then one `process_exit` |
| `GatewaySafety.BytesArriveInOrder` | src/hostexec/gateway_execution.ts:690-748 | before a `result`, the masked bytes per descriptor are exactly the raw bytes received, in order (without a filter), or exactly what the filter wrote, which has read exactly the raw bytes; without a `result` they are a prefix |
| `GatewaySafety.DoneMeansReported` | src/hostexec/gateway_execution.ts:740-749 | an execution that is done has sent the result with the exit code of its process |
| `GatewayProgress.FrameIsAcceptedIffDue` | src/hostexec/gateway_execution.ts:655-739 | a frame is accepted if and only if it is of this request and due, first `spawned`, then chunks or the exit, and then does what its type says; every other frame is refused, and the command is killed |
| `GatewayProgress.SuccessNeverFails` | src/hostexec/gateway_execution.ts:603-755 | as long as nothing that is awaited fails and the gateway sends what is due, an execution never kills, stops or fails |
| `GatewayProgress.FailureIsFinal` | src/hostexec/gateway_execution.ts:603-780 | and one failure of a read, of the start of a filter, of a write to it or of what follows the exit is enough: from then on the execution is only killed and stopped, or has failed |
| `GatewayProgress.FailedWriteEndsReading` | src/hostexec/gateway_execution.ts:690-712 | without filters no frame is accepted once a write has failed |
| `GatewayProgress.RestsOnlyAtItsEnd` | src/hostexec/gateway_execution.ts:603-780 | an execution whose writer works never hangs: with no main step, write or pump left to do it is done or has failed |
| `GatewayProgress.ExitIsReported` | src/hostexec/gateway_execution.ts:713-749 | once a `process_exit` is accepted and nothing fails afterwards, the execution never kills or fails, and when nothing is left to do it is done and the result with that code is the last message written |
| `GatewayProgress.PumpedIffStarted` | src/hostexec/gateway_execution.ts:662-689 | what a filter writes is forwarded if and only if that filter was started, also if the other one fails to start |
| `GatewayProgress.ResultWaitsForTheFilters` | src/hostexec/gateway_execution.ts:722-744 | with filters the result is sent only after both filters have closed their output |
| `GatewaySafety.WritesAreLegal` | src/hostexec/gateway_protocol.ts:268-300 | the state check in front of every write never rejects a message of an execution, with or without filters |
| `GatewaySafety.FailureKills` | src/hostexec/gateway_execution.ts:756-768 | an execution that fails after `start` and before the exit has sent a `kill`, which is written unless its own or an earlier write failed |
| `GatewayObjects.MessageWriter.Send` | src/hostexec/gateway_execution.ts:427-438 | a send appends to the chain and disturbs nothing in it |
| `GatewayObjects.MessageWriter.Turn` | src/hostexec/gateway_execution.ts:427-438 | messages are written in the order of their sends; after one fails no later one is written |
| `GatewayObjects.Execution.HandleMessage` | src/hostexec/gateway_execution.ts:655-755 | one turn of the main loop: which frames are refused, and the new state, pipeline send and pending await of each accepted one |
| `GatewayObjects.Execution.Catch` | src/hostexec/gateway_execution.ts:756-768 | a kill is sent exactly if the start was sent, the command may exist and the state is running |
| `GatewayObjects.Slices` | src/hostexec/gateway_execution.ts:572-580 | the slices of a chunk of filter output make up the chunk; all are full but the last, and none is empty or too long |
| `GatewayObjects.SlicesAreUnique` | src/hostexec/gateway_execution.ts:572-580 | there is only one way to cut a chunk like that |
| `ReadAhead.ReadsAreTheSourceFrames` | src/hostexec/gateway_execution.ts:348-417 | for every interleaving in which the monitor does not start during a read that the source has not failed, the reads return the frames of the source in order, none lost and none twice, with at most one held back and one source read open |
| `ReadAhead.MonitoredFrameIsReadNext` | src/hostexec/gateway_execution.ts:360-373 | a frame the monitor saw is what the next read returns, also after an abort |
| `ReadAhead.FailedIffSomethingFailed` | src/hostexec/gateway_execution.ts:375-412 | a failure is recorded if and only if the reader was aborted or the monitor learnt that its source read failed, and for good |
| `ReadAhead.FailureRefusesReads` | src/hostexec/gateway_execution.ts:366-371 | after that, a read without a queued frame is refused: it returns nothing and opens no source read; so is one that waited for the monitor |
| `ReadAhead.FewFramesAfterFailure` | src/hostexec/gateway_execution.ts:360-412 | at most the queued frame, that of a read on its way and that of the monitor are still returned |
| `ReadAhead.WaitingReadIsOwed` | src/hostexec/gateway_execution.ts:367-373 | a read that waits can always be taken further by the source, the monitor or itself |
| `ReadAhead.OverlapReturnsTwice` | src/hostexec/gateway_execution.ts:375-416 | if the monitor starts while a read is pulling, and the source answers or has answered that pull with a frame, both take the answer and the frame is returned twice, from every such state and for every frame |
| `ReadAhead.StartIsHarmlessIff` | src/hostexec/gateway_execution.ts:375-416 | from every state the program can be in, every continuation after the monitor starts returns the frames of the source in order and none twice, if and only if the start is not during a pull that is unanswered or answered with a frame |
| `ReadAhead.RunsAreFaithfulIff` | src/hostexec/gateway_execution.ts:348-417 | the same over whole runs, for all runs that share the history up to that start |
| `ReadAhead.BufferedGatewayLineReader.Read` | src/hostexec/gateway_execution.ts:360-373 | a read takes the queued line, fails, waits for the monitor or pulls, in this order, and changes nothing else |
| `ReadAhead.BufferedGatewayLineReader.StartMonitor` | src/hostexec/gateway_execution.ts:375-395 | the monitor is started once and shares a pull that is in flight |
| `LineStream.ReadsAreTheLines` | src/hostexec/gateway_execution.ts:128-340 | in every legal run with one outstanding read, until a transport error rejects one, the reads are those of the complete stream: the newline-terminated lines, the rest, then null, or the failure at the first frame that is too long |
| `LineStream.ChunkingIsInvisible` | src/hostexec/gateway_execution.ts:128-136 | two runs over the same bytes, however chunked and timed, have the same reads |
| `LineStream.BytesAreConserved` | src/hostexec/gateway_execution.ts:309-340 | returned bytes plus queue are the bytes received, in every run, transport errors included |
| `LineStream.FlowsExactlyForAParkedRead` | src/hostexec/gateway_execution.ts:162-183 | in every legal run an open socket flows if and only if a read is parked, and then neither a line nor a partial frame over the limit is queued |
| `LineStream.ChunkSettlesAParkedRead` | src/hostexec/gateway_execution.ts:128-136 | so a parked read never stalls: the next chunk can arrive, and settles it exactly if the queue with the chunk has a line or is over the limit, with what the stream says |
| `LineStream.EndSettlesAParkedRead` | src/hostexec/gateway_execution.ts:137-140 | the end of the stream can arrive, and gives a parked read the unterminated rest, or null |
| `LineStream.ErrorRejectsAParkedRead` | src/hostexec/gateway_execution.ts:142-153 | a transport error can arrive, and rejects it |
| `LineStream.ReadIsAnsweredOrParked` | src/hostexec/gateway_execution.ts:162-183 | a read is answered at once with what the stream says, or parked with the socket flowing |
| `LineStream.ReferenceFrames` | src/hostexec/gateway_execution.ts:197-230 | a delivered frame is a non-empty line within the limit, or the unterminated rest at the end of the stream |
| `LineStream.ReferenceRefusesIff` | src/hostexec/gateway_execution.ts:197-230 | a read of the complete stream is rejected if and only if more than the limit is left and no newline stands within it, and gives null if and only if nothing is left |
| `LineStream.ReferenceSplits` | src/hostexec/gateway_execution.ts:197-230 | the reads of a complete stream and what is left of it make up the stream |
| `LineReader.RawLineReader.FindNewline` | src/hostexec/gateway_execution.ts:282-290 | the chunk queue is searched for the first newline of the byte queue it stands for |
| `LineReader.RawLineReader.Consume` | src/hostexec/gateway_execution.ts:309-324 | consuming takes exactly that many bytes off the front of the queue |
| `LineReader.RawLineReader.TakeLine` | src/hostexec/gateway_execution.ts:197-230 | without a newline nothing happens; the first line is returned and consumed if it fits; otherwise the reader fails for good |
| `LineReader.RawLineReader.AssertPartialBounded` | src/hostexec/gateway_execution.ts:291-308 | it rejects exactly an unterminated queue over the limit |
| `LineReader.RawLineReader.OnData` | src/hostexec/gateway_execution.ts:128-136 | a chunk is appended, the socket paused, and a waiting read settled if it can be |
| `LineReader.RawLineReader.Read` | src/hostexec/gateway_execution.ts:162-183 | a read settles at once or waits, as the specification reader does |
| `MarkerScanner.OutputIsRemoveFirst` | src/benchmark/startup.ts:24-71 | for every non-empty marker and every chunk sequence, all output together is the input without its first marker, or the input if it has none |
| `MarkerScanner.ChunkingIsInvisible` | src/benchmark/startup.ts:36-64 | the output does not depend on the chunking |
| `MarkerScanner.HitExactlyOnCompletion` | src/benchmark/startup.ts:36-55 | `push` returns true exactly on the chunk that first completes an occurrence |
| `MarkerScanner.HitAtMostOnce` | src/benchmark/startup.ts:36-55 | and never again |
| `MarkerScanner.AfterTracks` | src/benchmark/startup.ts:32-64 | until then `pending` is the longest suffix of the whole stream that is a proper prefix of the marker |
| `MarkerScanner.FindRetainedLength` | src/benchmark/startup.ts:72-80 | the decrementing loop finds that suffix of its input |
| `MarkerScanner.Scanner.Push` | src/benchmark/startup.ts:36-64 | what a push emits, keeps and reports, for every state and chunk |
| `MarkerScanner.Scanner.Finish` | src/benchmark/startup.ts:65-70 | what is pending is flushed |
| `HistoryStore.TransactKeepsReferences` | src/history/store.ts:189-356 | no transaction leaves a dangling foreign key |
| `HistoryReplay.RedeliveryChangesNothing` | src/history/store.ts:239-356 | a batch of telemetry writes delivered twice leaves what one delivery leaves, also if the batch is refused |
| `HistoryIngest.IngestTwiceIsOnce` | src/history/ingest.ts:322-360 | ingesting any trace payload twice, or any log payload twice, equals ingesting it once |
| `HistoryReplay.SeenAreExtremes` | src/history/store.ts:239-249 | first and last seen are the least and the greatest of the times before and those all accepted deliveries bring |
| `HistoryReplay.SeenIgnoresOrder` | src/history/store.ts:239-249 | they do not depend on the order of the writes |
| `HistoryReplay.TraceIdentityIsStable` | src/history/store.ts:259-275 | deliveries never change the invocation or the start of a trace, nor its conversation once it has one |
| `HistoryReplay.FirstWriteStays` | src/history/store.ts:301-356 | a log record keeps its first text, an invocation its start, and a marked end stays marked |
| `HistoryReplay.AgentIsLastNamed` | src/history/store.ts:239-249 | the agent of a conversation is the last one that a write names |
| `HistoryReplay.ConversationIsFirstNamed` | src/history/store.ts:259-275 | the conversation of a trace without one is the first that a write names |
| `HistoryReplay.SpanIsLastWritten` | src/history/store.ts:281-310 | a span is as its last write left it |
| `HistoryReplay.LogIsFirstWritten` | src/history/store.ts:333-356 | a new log record is as its first write brought it |
| `HistoryReplay.ProfileIsLastNamed` | src/history/store.ts:189-210 | the profile of an invocation is the last one that a write names |
| `HistoryReplay.SecondEndChangesNothing` | src/history/store.ts:219-229 | marking an end twice is marking the first |
| `HistoryIngest.PlanCoversItsSpans` | src/history/ingest.ts:224-352 | once a trace is stored, its conversation spans every start and end of its spans |
| `HistorySpans.EverySpanIsStored` | src/history/ingest.ts:183-352 | after any payload whose transaction succeeds, in any database, every valid span of a resource with a session is stored |
| `HistorySpans.StoredSpanIsTheLast` | src/history/ingest.ts:247-302 | its row has the trace, start and rest of the last such span with that id in write order, and its usage by the sources of the whole trace of that span |
| `HistorySpans.StoredUsageIsRead` | src/history/ingest.ts:262-290 | attribute by attribute: the stored usage is what the named attributes of that span hold, without the cached part of the input for copilot, or nothing where its kind, name and trace say so |
| `HistorySpans.SpanIsPlaced` | src/history/ingest.ts:183-222 | every valid span of a resource with a session is written, with the agent of the resource and with all valid spans of its trace there |
| `HistorySpans.PlacedIsASpan` | src/history/ingest.ts:183-222 | and nothing else is |
| `HistorySpans.GroupKeepsOrder` | src/history/ingest.ts:183-222 | spans of one trace are written in the order of the payload |
| `HistorySpans.OtherSpansStay` | src/history/ingest.ts:322-352 | a stored span whose id no valid span of the payload has stays as it was |
| `HistorySpans.PayloadIsCovered` | src/history/ingest.ts:224-352 | every trace of the payload is there, with a conversation if its spans name one, and that conversation spans every start and end of them |
| `HistorySpans.NewTraceIsOfTheFirstGroup` | src/history/ingest.ts:232-243 | a new trace belongs to the session of its first group and starts with the least start of that group, or else its greatest end |
| `HistorySpans.PayloadIsRefusedIffStrange` | src/history/ingest.ts:332-352 | a payload is refused as a whole if and only if a group of it names a trace that neither is stored nor was named by an earlier group, for a session that is not stored |
| `HistoryTraces.TracesAreOfTheirGroups` | src/history/ingest.ts:224-352 | after any such payload every trace has its first conversation, the end of its last group that has one, and the invocation and start it had; a trace without a group is as it was |
| `HistoryTraces.ConversationsAreOfTheirGroups` | src/history/ingest.ts:332-343 | and every conversation has the agent that its groups name last and, as its times, the extremes of theirs and of what was known; one that no group names is as it was |
| `HistoryLogs.RecordsAreStored` | src/history/ingest_logs.ts:137-250 | after any log payload whose transaction succeeds, in any database, the first record kept under a new key is stored with its own prompt, time and rest and the invocation of the delivery; stored records stay; and nothing else is there |
| `HistoryLogs.ConversationsHearOfRecords` | src/history/ingest_logs.ts:219-245 | every conversation has, as its times, the extremes of those of the records kept for it and of what was known, and the agent it had; one without such a record is as it was |
| `HistoryLogs.CountsAreExact` | src/history/ingest_logs.ts:146-190 | the counts reported are the number of records with everything required, and of those with an event that is on neither list |
| `HistoryLogs.PayloadIsRefusedIff` | src/history/ingest_logs.ts:215-251 | a log payload is refused as a whole if and only if it brings a kept record under a new key for an invocation that is not stored |
| `HistoryIngest.PickedIsFirst` | src/history/otlp_semantics.ts:111-144 | a canonical conversation id anywhere in the trace beats every fallback id, and the first one wins |
| `HistoryTraces.PickedFallbackIsFirst` | src/history/otlp_semantics.ts:111-144 | without a canonical id it is the first fallback id, or none |
| `HistoryIngest.GroupsAreComplete` | src/history/ingest.ts:183-222 | every valid span of a resource is in the group of its trace |
| `HistoryIngest.GroupsAreDistinct` | src/history/ingest.ts:183-222 | no trace has two groups and none is empty |
| `HistoryIngest.GroupsAreOfTheirTrace` | src/history/ingest.ts:183-222 | a group holds spans of its trace only, each as often as the payload does |
| `HistoryIngest.EarliestIsLeast` | src/history/ingest.ts:209-215 | the accumulated start is the least start in the group |
| `HistoryIngest.LatestIsGreatest` | src/history/ingest.ts:216-220 | the accumulated end is the greatest end in the group |
| `HistoryObjects.Accum.Push` | src/history/ingest.ts:208-220 | one span more keeps order, minimum and maximum |
| `HistoryObjects.GroupSpans` | src/history/ingest.ts:183-222 | the loop builds one accumulator per trace, in the order of first spans |
| `HistoryObjects.HistoryDatabase.UpsertConversation` | src/history/store.ts:239-249 | a conflicting row keeps the agent unless a new one is named and widens its times |
| `HistoryObjects.HistoryDatabase.UpsertTrace` | src/history/store.ts:259-275 | a conflicting row keeps invocation, start and a known conversation; an unknown reference is refused without a change |
| `HistoryObjects.HistoryDatabase.InsertSpans` | src/history/store.ts:281-310 | all spans are written, later ones over earlier ones, or none |
| `HistoryObjects.HistoryDatabase.InsertLogRecords` | src/history/store.ts:333-356 | all records with new keys are written, or none |
| `HistoryObjects.HistoryDatabase.ApplyIngestPlans` | src/history/ingest.ts:322-360 | the plans are one transaction; a refusal restores every table, and the count is that of the written spans |
| `HistoryObjects.HistoryDatabase.IngestLogRecords` | src/history/ingest_logs.ts:121-255 | every record is accepted or counted as dropped, and the conversations are written before the records, in one transaction |
| `HistoryObjects.ConversationTimes` | src/history/ingest_logs.ts:219-240 | the map holds the least and the greatest time of each conversation of the batch |
| `HistoryIngest.LogBatchKeepsBounded` | src/history/ingest_logs.ts:216-251 | ingesting logs keeps `last_seen_at` at or after every record of the conversation |
| `HistoryIngest.TraceBatchKeepsBounded` | src/history/ingest.ts:332-352 | so does ingesting traces |
| `HistoryRetention.PruneKeepsExactlyTheSurvivors` | src/history/retention.ts:76-119 | a prune succeeds if and only if no surviving log record belongs to a conversation that is neither seen since the cutoff nor traced, and then exactly the invocations at or after the cutoff survive with all their traces, spans and records |
| `HistoryRetention.PruneKeepsReferences` | src/history/retention.ts:76-119 | a successful prune leaves no dangling foreign key |
| `HistoryRetention.PruneSucceeds` | src/history/retention.ts:76-119 | it succeeds wherever records are not older than their invocation and `last_seen_at` bounds them |
| `HistoryIngest.TimelyHistoriesPrune` | src/history/retention.ts:48-126 | in every history of invocations, deliveries and prunes with timely records, references hold throughout and every prune succeeds |
| `HistoryRetention.EpochLogBlocksPruning` | src/history/retention.ts:76-119 | a record at the epoch breaks this: for every later invocation start there is a refused prune |
| `HistoryIngest.MissingTimeBlocksPruning` | src/history/ingest_logs.ts:194-196 | an invocation starts, any acceptable record without a time is delivered to it, and every prune between the epoch and that start is refused |
| `HistoryRetention.PruningInStepsIsPruningOnce` | src/history/retention.ts:76-119 | pruning at an earlier cutoff first makes no difference to what a later cutoff keeps |
| `HistoryObjects.HistoryDatabase.PruneHistory` | src/history/retention.ts:48-126 | the deletes run in one transaction, and a refused one restores the database |
| `HistoryObjects.PruneThrottle.PruneWithThrottle` | src/history/retention.ts:143-171 | a prune is skipped exactly within the interval after the last success, and only a success moves the baseline |
| `HistoryUsage.OneTierUnlessDoubled` | src/history/otlp_semantics.ts:185-321 | the counted usage of a trace comes from at most one of token-usage, response and turn spans, if and only if no chat response span with turn keys stands beside a turn span with tokens in a trace without a better source |
| `HistoryUsage.OneTierWithoutTurnKeys` | src/history/otlp_semantics.ts:247-272 | so always where response spans carry no turn keys |
| `HistoryUsage.ColumnsAreRead` | src/history/otlp_semantics.ts:287-321 | which attribute fills which column: model, input, output, cache reads and cache writes each come from the first of their own keys that holds a value of the right type |
| `HistoryUsage.KeepsIffPromoted` | src/history/otlp_semantics.ts:247-272 | a turn span keeps its usage if and only if its trace has neither a token-usage span nor a response span with tokens; any other span if and only if it is a chat span that is no response beside a token-usage span |
| `HistoryUsage.AnalyzeTraceUsageSources` | src/history/otlp_semantics.ts:225-245 | the two flags say exactly whether such a span exists |
| `HistoryTotals.ModelTotalsSumUp` | src/history/store.ts:851-875 | per-model totals, NULL as a group of its own, add up to the totals of the conversation |
| `HistoryTotals.BucketWithinTotal` | src/history/store.ts:775-784 | each above-200k bucket is at most its total exactly when the spans below the threshold do not sum to less than nothing, as for counts that are not negative |
| `HistoryTotals.BoundHoldsIffNoneNegative` | src/history/store.ts:775-784 | for all lists of rows over a set of spans the bound holds, if and only if no span of the set at or below the threshold has a negative count |
| `HistoryIngest.OneSpanIsStored` | src/history/ingest.ts:224-352 | a span delivered to a session that has just begun is stored with the usage columns it was read with |
| `HistoryTotals.NegativeTokensBreakTheBound` | src/history/otlp_semantics.ts:165-321 | a chat span with a negative input-token attribute, read, delivered and stored, breaks that bound |
| `AuditBodies.InsertEvictsShortestPrefix` | src/audit/store.ts:299-343 | after an insertion the total is within the budget; the evicted rows are the shortest prefix in the order of capture time, session and request that makes the body fit; all other unexpired rows stay |
| `AuditBodies.EvictedAreOlder` | src/audit/store.ts:307-326 | whatever is evicted is older than whatever stays |
| `AuditBodies.OtherWritesChangeNothing` | src/audit/store.ts:271-297 | a write that does not insert changes nothing beyond expiry |
| `AuditBodies.RepeatedWriteIsIdempotent` | src/audit/store.ts:271-290 | repeating a write reports the same and changes nothing beyond expiry; another body under its key is refused |
| `AuditBodies.BudgetHolds` | src/audit/store.ts:266-349 | under one limit the budget holds after any number of writes |
| `AuditBodies.ResultIsExact` | src/audit/store.ts:228-297 | what a write answers, if and only if: a body that is not what its metadata say, then limits that are not positive, then a row under its key that has not expired and differs, then one too large |
| `AuditBodies.StoredBodyIsReadBack` | src/audit/store.ts:257-387 | an inserted body is fetched, with what came with it, at every time before its capture plus the retention, and at no later time |
| `AuditBodies.FetchesDoNotDisturb` | src/audit/store.ts:363-387 | a fetch takes nothing away from a later fetch |
| `AuditBodies.BodyStore.EvictOldest` | src/audit/store.ts:306-326 | the loop over the candidates deletes what the definition of eviction deletes, and stops there |
| `AuditBodies.BodyStore.StoreRequestBody` | src/audit/store.ts:228-354 | the transaction as a whole: checks, expiry, duplicate, capacity, eviction, insertion |
| `AuditBodies.BodyStore.GetRequestBody` | src/audit/store.ts:363-387 | a fetch deletes what has expired and then looks the key up |
| `AuditQuery.BoundedIsNewestOfUnbounded` | src/audit/store.ts:530-554 | a bounded query returns exactly the last rows of the unbounded result, in its order |
| `PklPrinter.PrintedLinesParseBack` | src/config/migrate.ts:116-194 | for every tree the printed lines parse back to the object, up to dropped nulls, renamed kebab-case keys and the empty list being the empty object, if and only if no array stands directly in an array; otherwise they parse to the object with such arrays as text |
| `PklPrinter.NestedArrayIsFlattened` | src/config/migrate.ts:116-145 | for instance, an array of one array of one scalar prints like the array of that scalar as text |
| `PklPrinter.ObjectToLines` | src/config/migrate.ts:147-194 | the loop prints what the recursion defines |
| `PklPrinter.ArrayToLines` | src/config/migrate.ts:116-145 | and so does the loop over arrays |
| `PklText.EscapeIsPerCharacter` | src/config/migrate.ts:63-70 | the five replacements one after the other escape every character once |
| `PklSource.KebabWords` | src/config/migrate.ts:59-61 | two words joined by a dash become camel case |
| `PklSource.KebabKeysAreIdents` | src/config/migrate.ts:22-61 | every renamed key is an identifier, and none is `new` |
| `PklText.LiteralRoundTrip` | src/config/migrate.ts:63-76 | a string literal reads back to its text, whatever follows it |
| `PklText.LineRoundTrip` | src/config/migrate.ts:99-114 | a rendered line scans back with its indentation, except that a block under the bare key `new` and without a type scans as an element |
| `PklFile.SourceReadsBack` | src/config/migrate.ts:211-221 | for every tree whose numbers and booleans are words and whose arrays in arrays have texts of one line, empty ones included, the file text reads back to its header and to the printed object, up to the same three identifications, if and only if no array stands directly in an array and no block without a type stands under a key printed as the bare word `new` |
| `PklFile.NewCollides` | src/config/migrate.ts:164-186 | for instance, an object with one non-empty block under `new` prints the same text as the list of that block |
| `Suites.ExpandsIffSound` | scripts/run_tests.ts:12-37 | expansion terminates on every script table, and throws exactly when some path from the names leads to an unknown script or runs into itself |
| `Suites.ErrorsAreReal` | scripts/run_tests.ts:20-29 | the error names an unknown script at the end of a path, or the path that closes a cycle |
| `Suites.ResultIsTheReachableLeaves` | scripts/run_tests.ts:17-36 | the result is the duplicate-free list of the reachable leaves in the order of first visits |
| `Suites.ExpandIsOneDedupe` | scripts/run_tests.ts:17-36 | nested deduplication equals one deduplication at the end |
| `ShellQuoting.EscapedArgsComeBack` | src/dtach/client.ts:271-280 | word splitting and quote removal by sections 2.2.1, 2.2.2, 2.3 and 2.6.7 of the POSIX.1-2017 Shell Command Language give back exactly the arguments |
| `ShellQuoting.EscapeIsInjective` | src/dtach/client.ts:271-280 | two argument lists never share a command line |
| `ApprovalWatch.WatchReplays` | src/cli/approval_watch.ts:162-204 | folding everything written over the empty set gives the pending set the watch holds, and the events of each key alternate, beginning with `added`, whatever polls failed |
| `ApprovalWatch.StateIsLastPoll` | src/cli/approval_watch.ts:177-190 | that set is the one of the last successful poll |
| `ApprovalWatch.DiffReplays` | src/cli/approval_watch.ts:50-86 | one diff turns the earlier pending set into the later one |
| `ApprovalWatch.KeysIdentify` | src/cli/approval_watch.ts:33-36 | for session ids without a slash a key identifies session and request |
| `ApprovalWatch.DiffPending` | src/cli/approval_watch.ts:50-86 | removals in the order of the earlier poll, then additions in the order of this one |
| `ApprovalWatch.RunApprovalWatch` | src/cli/approval_watch.ts:162-204 | a session watch stops by itself exactly at the first turn at which the session, seen alive before, is reported dead, with the events of that turn written |
| `SidecarUsage.IndexAgrees` | src/container_clean.ts:119-205 | a sidecar is in use by the index exactly when it runs and a running non-sidecar joins its namespace, is a member of one of its managed networks, or joins the namespace of a container on one |
| `SidecarUsage.BuildSidecarUsageIndex` | src/container_clean.ts:119-159 | the one pass records exactly the joiners of every owner and of every network of an owner |
| `SidecarUsage.IsUnusedNasSidecar` | src/container_clean.ts:161-205 | the loops over networks and members decide as the index says |
| `SidecarUsage.CleanSidecars` | src/container_clean.ts:55-71 | exactly the sidecars that are not in use in the snapshot are removed |
| `SidecarUsage.OrderIsIrrelevant` | src/container_clean.ts:55-71 | the listing order of the containers does not change which |
| `PortForwards.NoErrorsIffConsistent` | src/config/port_forwards.ts:34-83 | no error is reported if and only if all ports are in 1..65535, no remote listener is reserved, no key has two host ports and no local host port two container ports |
| `PortForwards.EntriesAreTheInputs` | src/config/port_forwards.ts:57-83 | then every input pair is an entry, in the order of first occurrence, with unique keys and unique local listeners |
| `PortForwards.EntriesAreANormalForm` | src/config/port_forwards.ts:85-105 | and the entries, written back as local and remote forwards, normalise to themselves |
| `PortForwards.Normalizer.AddSpec` | src/config/port_forwards.ts:34-83 | one call of `add`: the errors it appends and the one entry it may add |
| `PortForwards.NormalizePortForwards` | src/config/port_forwards.ts:22-105 | the three loops add local, remote and legacy pairs in this order, and warn exactly for legacy ones |

## Left out

- `BrokerTables.TablesAgree`: the diagnostics and the entry shown by `listPending` are not part of the tables; a pending entry is represented by the connection it belongs to.
- `BrokerLoss.GuardedKeepsEveryWaiter`: `closeNotification` is taken not to fail, and `HostExecBroker.close` is no event, because shutdown settles all waiters by other means.
- `BrokerDecisions.StartsOnlyWhenAllowed`: an audit directory is taken to be set, since `recordAudit` writes nothing without one; integrity and rule evaluation are answers, not computations.
- `GatewaySafety.BytesArriveInOrder`: the transformation made by the mask filter, its process and its signals are left out; what it writes is any byte sequence. Base64 and JSON are taken to be faithful.
- `GatewaySafety.MessagesAreInOrder`: a message counts as sent when its write has succeeded; a failing write is taken to deliver nothing.
- `LineStream.ReadsAreTheLines`: two reads at once, which share one promise, and `close` are not events.
- `LineReader.RawLineReader.Consume`: chunks are values; that the program returns views into them is not modelled.
- `ReadAhead.ReadsAreTheSourceFrames`: `close` is left out; an abort is an event, the failing source read it causes is an answer of the source.
- `HistoryReplay.RedeliveryChangesNothing`: SQLite is represented by serialised transactions with immediate foreign keys; times are integers, as the ISO strings in use are ordered like them; ids and texts are numbers of which only equality matters.
- `HistoryIngest.IngestTwiceIsOnce`: attribute flattening, the PII filter and JSON are part of the span or record that arrives.
- `HistoryObjects.HistoryDatabase.PruneHistory`: the two counts of deleted rows are not returned.
- `HistoryUsage.OneTierUnlessDoubled`: `classifySpan` is a field of the span, and the statement holds for any classification; which tier counts is judged by the input and output columns.
- `AuditBodies.BodyStore.StoreRequestBody`: the digest is a flag of the input that says whether it matches, and the stored texts of capture times are represented by their rank.
- `AuditQuery.BoundedIsNewestOfUnbounded`: the filter conditions are left out; both listings are those of one filter.
- `PklFile.SourceReadsBack`: `normalizeRetiredSettings` is applied before and not modelled; the text of a number or boolean is given and taken to be one word; an array directly in an array whose text has a line break is left out, since its text can imitate further source; the parser reads the printed subset, keeps duplicate keys in order where Pkl would reject them, and accepts keys such as `class` or `import`, which are keywords of Pkl and which the printer leaves bare.
- `ShellQuoting.EscapedArgsComeBack`: reserved words, aliases and assignments before a command name are no part of the sections followed.
- `Suites.ExpandsIffSound`: how a command text is split into the names of an aggregate is left out, and so is running the suites.
- `SidecarUsage.CleanSidecars`: the removal of networks and volumes, which looks at one item at a time.
- `PortForwards.NormalizePortForwards`: the wording of messages.
- Process spawning, sockets, Docker, dtach, notifications, approval-key hashing and file writes are abstract steps or left out.
- Config loading, trust prompts, OAuth, agent mounts, argument parsing, the UI, the extension and the release scripts: single-branch facts or plumbing.
- `decideIntegrity`, `compareSemver` and the label predicates: too easy alone.
