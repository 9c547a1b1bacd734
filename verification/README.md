# Durable chat runs, guarded memory and approval routing

This project models the parts of a teaching-assistant service that keep facts in several places at once and
update them in separate steps: a chat run (token buffer, Redis stream, Redis output string, SQL row, browser
cursor), long-term memory (guard row, Store item, job queue), the server-sent-event wire format, the artifact
revision table, and the approval routing of the conversation graph. `dafny verify dfyconfig.toml` checks all of it.

How the model is cut:

- Each Lua script, each SQL transaction and each Store write is one step. A crash, a lost reply, a timer or
  another actor may come between any two steps. An attempt to reach Redis is `NotReached`, `ReplyLost` (the
  script ran, nobody was told) or `Answered`; a client call is given a list of such attempts.
- Objects that the program updates in place are classes. Their methods are proved against functions on
  values (`State()`, `View()`, `CellOf()`), and the theorems over whole histories are about those functions.
- Network behaviour, model answers, user choices, clock values, white-space stripping and case folding are
  parameters, so every theorem holds for all of them.

| file | what it holds |
|---|---|
| Events.dfy | statuses, event kinds, token text |
| EventStore.dfy | the append and terminal scripts, the retrying client, batched reads, snapshots |
| TokenBuffer.dfy | publisher, token buffer, event loop; coalescing as a refinement |
| RunLifecycle.dfy | SQL row, finalization, restart reconciliation, a run from start to end |
| RunMachine.dfy | all interleavings of one run: worker, cancel requests, restarts, repeated finalization |
| RunTable.dfy | all runs of all threads and the jobs they leave behind |
| Subscription.dfy | the server's event loop and the reconnecting client |
| Sse.dfy | formatter, block splitter, event parser |
| TornSse.dfy | what the parser makes of a frame whose end is missing |
| ClientBody.dfy | the client's reader of a response body, and its cursor over bodies that end anywhere |
| MemoryGuard.dfy | the guarded mutations of one memory, crash and retry |
| MemoryMachine.dfy | manual edits, jobs, crashes and restarts over time |
| LostUpdates.dfy | what an accepted automatic update overwrites |
| ArtifactTree.dfy | revision tree and current artifacts |
| ApprovalGraph.dfy | reviews, generation and revision rounds, fan-in |

## Where the code does not keep the expected property

Each of these has a counterexample at a concrete input or history, and an exact condition for all of them; the
last one names the extractions behind which nothing but the contents of the item decides.

- A lost reply makes an append run twice. The stream equals the events received exactly when every reply told
  the truth about its executions (`CoalescingRefines`, `CloseDrains`), the output text exactly when that holds
  for the publications that carry text (`OutputAgainstLocal`); `LostReplyDoublesOutput` shows the failure.
- A finalization whose snapshot is not answered, and whose publisher missed a reply, names a number that an
  event already holds; the terminal script then reports a done that is not there (`FinalizationFitsExactly`,
  `StaleCountHidesDone`).
- So does a restart whose error event was written but never acknowledged (`ReconcileFitsExactly`,
  `UnacknowledgedErrorHidesDone`).
- An entry can follow a done, or take its number, in two races: `schedule` overtakes a cancellation that found no
  live worker (`CancellationOvertaken`), or a timer flush outlives its worker, which a second cancellation ended
  while it waited for that flush, and a third cancellation finishes the run (`TimerOutlivesRun`,
  `TimerTakesNumber`). Over all histories nothing ever follows a done exactly when no publication reaches a closed
  stream, and only these two races lead to such a publication (`OrderKeptExactly`, `NothingFollowsDone`).
- A synthesised done skips events unless the cursor stands right below the row's number
  (`SynthesisedDoneSkipsExactly`, `SynthesisedDoneMaySkip`).
- A live snapshot followed by a replay shows tokens twice exactly when token text was written between its two
  reads (`SnapshotThenReplay`, `SnapshotShowsTwice`).
- Chunked parsing agrees with parsing the whole text exactly when the text holds no CR LF (`TornCrLf`,
  `ChunkInvarianceExactly`); the server's own frames never hold one (`StreamRoundTrip`).
- A body that ends inside a frame may hand the client part of that frame as an event, against section 9.2.6 of
  the WHATWG HTML Standard. Every event handled is one the server sent exactly when no body ended, without an
  error, between the last needed digit of a frame's number and the end of its data (`FollowTextExactly`);
  `LastCharacterCounts` has the failing cut for every frame, `TornFrame` and `EndOfFrame` say what each cut does.
- A crash between a Store put and its guard commit lets an automatic update overwrite an item it was not
  extracted from (`CrashLosesUpdate`). For an item seen beside a guard of its version, and for one seen without a
  guard row, this happens exactly when the item is gone or carries another version than its guard
  (`LostUpdateExactly`), and without crashes never (`NoLostUpdate`). An item seen in what an interrupted write
  left escapes the condition (`ResidueLosesUpdate`): a mutation must have been committed since (`AcceptedSince`),
  but guard, versions and marks do not tell whether the item is still the one seen (`OnlyContentsTell`). They do
  not tell either once an item seen without a guard row was deleted in the Store only (`DeadDeleteLosesUpdate`).

## Model

| member | source | states |
|---|---|---|
| EventStore.AppendScriptFits | backend/app/core/chat_run_events.py:44-56 | on a well-formed store the append script always succeeds: one entry, numbered one above the counter, its token text added to the output |
| EventStore.TerminalScriptKeeps | backend/app/core/chat_run_events.py:58-81 | the terminal script's answer for every counter and target, its only possible effect, and that it keeps ids contiguous and the output equal to the stream's text |
| EventStore.TerminalScriptAnswers | backend/app/core/chat_run_events.py:58-81 | on any keys, torn ones included: when the terminal script writes, when it reports the done as already there, when it fails, and that it leaves the keys alone otherwise |
| EventStore.AppendCallCopies | backend/app/core/chat_run_events.py:443-490 | a retried call leaves exactly as many copies as the script ran, is acknowledged only if it ran, and returns the counter |
| EventStore.AppendAllKeeps | backend/app/core/chat_run_events.py:44-81 | appending any list keeps the store invariant: ids an interval ending at the counter, output the concatenated token texts |
| EventStore.AppendAllSplit | backend/app/core/chat_run_events.py:44-56 | appending two lists one after the other is appending their concatenation |
| EventStore.ChatRunRedis.EvalAppend | backend/app/core/chat_run_events.py:44-56 | HINCRBY, XADD and APPEND change the three keys as the script function says, a refused XADD included |
| EventStore.ChatRunRedis.Append | backend/app/core/chat_run_events.py:211-260 | done events are refused without effect; otherwise the retry loop computes the call that `AppendCallCopies` speaks of |
| EventStore.ChatRunRedis.AppendDone | backend/app/core/chat_run_events.py:330-369 | one attempt; sequence below 1 refused, a repeat answers false, an inconsistent sequence is an error without effect |
| EventStore.AfterIsSuffix | backend/app/core/chat_run_events.py:262-313 | what lies above a cursor is a contiguous end of the stream |
| EventStore.ChatRunRedis.ReadBatch | backend/app/core/chat_run_events.py:262-313 | the filled list is the first `limit` entries above the cursor, in order |
| EventStore.ChatRunRedis.GetSnapshot | backend/app/core/chat_run_events.py:315-328 | counter from the first read and output from the second, whatever is written in between; None for an untouched run, an error when Redis does not answer |
| TokenBuffer.ExpandAgainstAcked | backend/app/core/chat_run_events.py:457-473 | the store holds the acknowledged events exactly when every reply was truthful, strictly more otherwise |
| TokenBuffer.TextAgainstAcked | backend/app/core/chat_run_events.py:457-473 | the same for the text alone: only publications that carry text matter |
| TokenBuffer.FlushMoves | backend/app/core/chat_runs.py:90-113 | a flush moves held fragments to the stream or keeps them: nothing lost, doubled or reordered, and it empties the buffer when it returns |
| TokenBuffer.AddMoves | backend/app/core/chat_runs.py:51-61 | an add takes over exactly the given text, whether or not it triggers a size flush that fails |
| TokenBuffer.TimerMoves | backend/app/core/chat_runs.py:77-88 | a timer flush moves nothing in or out, and a failure stays recorded for the next caller |
| TokenBuffer.FlushAnswer | backend/app/core/chat_runs.py:90-113 | an empty buffer publishes nothing; otherwise all held text goes out in one token event, and only an acknowledgement empties the buffer |
| TokenBuffer.TimerAnswer | backend/app/core/chat_runs.py:77-113 | an armed timer publishes exactly one token event with the text held; acknowledged it leaves no fragments, else they stay and the failure is recorded |
| TokenBuffer.AddAnswer | backend/app/core/chat_runs.py:51-61 | text below the limit is held under an armed timer without a publication, text that reaches it is published with everything held; empty text is nothing, a recorded failure is raised |
| TokenBuffer.CloseAnswer | backend/app/core/chat_runs.py:63-75 | a recorded failure is raised, else everything held is published and the timer dropped |
| TokenBuffer.HeldIsArmed | backend/app/core/chat_runs.py:51-113 | in every reachable state whose publications were acknowledged, held fragments mean an armed timer and fewer characters than the limit |
| TokenBuffer.RunFaithful | backend/app/core/chat_runs.py:275-302 | in every reachable state acknowledged publications and held fragments are the events taken over, and the worker's own text is never behind |
| TokenBuffer.RunTakesAll | backend/app/core/chat_runs.py:275-302 | a worker still in its loop took over every event it received, in order |
| TokenBuffer.LocalIsHeard | backend/app/core/chat_runs.py:293-295 | the worker's own text is the text of all events handed to it, the one that ended the loop included |
| TokenBuffer.FlagsTell | backend/app/core/chat_runs.py:273-302 | while the loop runs, its two flags tell exactly whether an approval and whether an error was received |
| TokenBuffer.CoalescingRefines | backend/app/core/chat_runs.py:51-113 | coalescing refines the event stream under any interleaving of adds, flushes, timers and failures; the stream itself shows it exactly when no reply lied |
| TokenBuffer.CloseMoves | backend/app/core/chat_runs.py:68-75 | a close moves nothing in or out; when it returns the buffer is empty, the timer gone and no failure waits |
| TokenBuffer.CloseDrains | backend/app/core/chat_runs.py:68-75 | after a normal loop and a close every received event is published in order; the stream shows exactly these if and only if no reply lied |
| TokenBuffer.OutputAgainstLocal | backend/app/core/chat_runs.py:293-315 | when the output string equals the worker's own text, and when after an interruption it is a prefix of it or all of it |
| TokenBuffer.LostReplyDoublesOutput | backend/app/core/chat_run_events.py:457-473 | counterexample: one lost reply, one token received, twice in the output of a successful run |
| TokenBuffer.RunPublisher.Publish | backend/app/core/chat_runs.py:25-29 | the counter follows the acknowledged number and nothing else changes |
| TokenBuffer.TokenEventBuffer.Add | backend/app/core/chat_runs.py:51-61 | fields after an add: empty text ignored, an old failure raised first, the size flush at the limit |
| TokenBuffer.TokenEventBuffer.Flush | backend/app/core/chat_runs.py:63-66 | fields after a boundary flush |
| TokenBuffer.TokenEventBuffer.FlushLocked | backend/app/core/chat_runs.py:90-113 | the timer is dropped first, fragments and count only after an acknowledged publication |
| TokenBuffer.TokenEventBuffer.Close | backend/app/core/chat_runs.py:68-75 | fields after a close |
| TokenBuffer.TokenEventBuffer.FlushAfterInterval | backend/app/core/chat_runs.py:77-88 | fields after a timer flush, its failure kept |
| TokenBuffer.RunWorker.Handle | backend/app/core/chat_runs.py:275-302 | one turn of the event loop: text into the buffer, a boundary flush before any other event, the two flags |
| TokenBuffer.RunWorker.Consume | backend/app/core/chat_runs.py:275-302 | the loop computes the history that the refinement theorems speak of |
| RunLifecycle.ConcludeFitsExactly | backend/app/services/chat_run_service.py:192-220 | a committed plan's done event lands one above the counter, once, exactly when the plan names the counter |
| RunLifecycle.FinalizationFitsExactly | backend/app/core/chat_runs.py:377-469 | a finalization's number fits exactly when the snapshot answered or the publisher's counter was current; repeats are no-ops |
| RunLifecycle.StaleCountHidesDone | backend/app/core/chat_runs.py:387-396 | counterexample: an unanswered snapshot and a publisher that missed a reply; the row names the number of a step event and the done is never written |
| RunLifecycle.ReconcileFitsExactly | backend/app/core/chat_runs.py:128-161 | a restart's done event lands exactly when the error event was acknowledged or left no trace, or without an answer when the store was empty |
| RunLifecycle.UnacknowledgedErrorHidesDone | backend/app/core/chat_runs.py:128-161 | counterexample: the stream ends in an error event at the number the row calls terminal |
| RunLifecycle.PlannedFrom | backend/app/core/chat_runs.py:387-410 | text and number a finalization plans: the stored text of a known run unless the own one is preferred, and the higher number; the own ones otherwise |
| RunLifecycle.RestartKeepsText | backend/app/core/chat_runs.py:128-161 | a restart finishes the run as failed with the stored text, or the row's when the snapshot does not answer or knows nothing; which error events it leaves and which number it commits |
| RunLifecycle.SuccessPersistsOutput | backend/app/core/chat_runs.py:303-322 | the status tells what was received: waiting exactly with an approval, else failed exactly with an error, else succeeded; the row carries the text of all received events exactly when the snapshot failed or no text was published twice; when number and done event fit |
| RunLifecycle.FailurePersistsOutput | backend/app/core/chat_runs.py:339-375 | after an exception in the loop, the close or the finalization the row carries the text of all events handed to the worker whatever Redis holds, its number is one above the error event of the handler, and when the done event fits; when that commit fails too it stays running |
| RunLifecycle.FailureIsTold | backend/app/core/chat_runs.py:362-367 | the acknowledged error event of the exception handler is the last event before the done |
| RunLifecycle.CancellationPersistsPrefix | backend/app/core/chat_runs.py:323-338 | after a cancellation, on clean replies, the row carries a prefix of the text of all events handed to the worker, and when it carries all; when number and done event fit |
| RunLifecycle.LateCancellationPersistsOutput | backend/app/core/chat_runs.py:323-338 | a cancellation that strikes inside the finalization keeps all the text a success would have kept, and its done event fits |
| RunLifecycle.StopLeavesRunning | backend/app/core/chat_runs.py:323-338 | a stop of the server, in the loop or inside the finalization, closes the buffer and leaves the row running |
| RunLifecycle.FailedCommitLeavesRunning | backend/app/core/chat_runs.py:323-375 | a handler whose commit fails leaves the row running, whatever ended the run |
| RunLifecycle.AgentRun.MarkRunning | backend/app/services/chat_run_service.py:179-189 | only a queued run starts; the caller learns whether it runs |
| RunLifecycle.AgentRun.FinalizeChatRun | backend/app/services/chat_run_service.py:192-220 | a status that is not terminal is refused, a finished row stays, an active one gets max(last, 0) + 1 |
| RunLifecycle.ChatRunManager.Finalize | backend/app/core/chat_runs.py:377-469 | row and store after a finalization, for every answer of Redis; when the commit fails it raises and leaves both alone |
| RunLifecycle.ChatRunManager.Reconcile | backend/app/core/chat_runs.py:128-161 | row and store after the restart path, for every answer of Redis |
| RunLifecycle.ChatRunManager.FinishFailure | backend/app/core/chat_runs.py:340-375 | row and store after the exception path |
| RunLifecycle.ChatRunManager.FinishCancelled | backend/app/core/chat_runs.py:323-338 | row and store after the cancellation path: close again, then finalize as cancelled |
| RunLifecycle.ChatRunManager.ExecuteRun | backend/app/core/chat_runs.py:217-375 | row and store after a scheduled run, for every schedule of events and every ending, a cancellation or an SQL error inside the finalization included |
| RunMachine.TerminalAgreement | backend/app/core/chat_run_events.py:58-81 | in every interleaving, crashes, races, any number of cancel requests and repeated finalizations included, at most one done entry, at the number and with the status of a finished row |
| RunMachine.FinishedRowStays | backend/app/services/chat_run_service.py:207-208 | a finished row is never written again, over all continuations |
| RunMachine.NothingFollowsDone | backend/app/core/chat_runs.py:171-215 | when `schedule` is not entered while a cancel request is between its look-up and its commit, and no cancel request looks up a run while a timer flush of its lost worker still publishes, nothing ever follows a done entry |
| RunMachine.TerminalNumberFits | backend/app/core/chat_runs.py:387-396 | under the same discipline a row finished from an answered snapshot names the next number; one answered done call settles it and more change nothing |
| RunMachine.OrderKeptExactly | backend/app/core/chat_runs.py:77-215 | over every history nothing ever stands behind a done exactly when no publication reaches a closed stream; such a history holds a look-up, a schedule and the commit of a cancellation in this order, or a timer flush, the loss of its worker, a look-up and a commit |
| RunMachine.CancellationOvertaken | backend/app/core/chat_runs.py:197-210 | counterexample: an event behind the done of a cancellation that `schedule` overtook |
| RunMachine.TimerOutlivesRun | backend/app/core/chat_runs.py:77-113 | counterexample: the token of a timer flush that outlived its worker stands behind the done |
| RunMachine.TimerTakesNumber | backend/app/core/chat_runs.py:387-396 | counterexample: the same token takes the number that the row named from an answered snapshot, and the done is never written |
| RunMachine.RowStep | backend/app/services/chat_run_service.py:179-220 | the row moves only while the run is under way: to running by a schedule, to failed and empty by a rejected one, to the plan of a commit |
| RunMachine.StoreStep | backend/app/core/chat_run_events.py:44-81 | the store moves by acknowledged and unacknowledged executions of publications, by the error event of a restart, by done calls and by expiry |
| RunMachine.Choices | backend/app/core/chat_runs.py:128-375 | what the holder of a run may do next, in each phase |
| RunMachine.PlainRun | backend/app/core/chat_runs.py:217-322 | the undisturbed run exists for every event and final status: its row, and event and done in the stream |
| RunMachine.RejectedRun | backend/app/api/chat.py:134-160 | a run that cannot be scheduled ends failed and empty, with its done event as the only entry |
| RunMachine.CancelledRun | backend/app/core/chat_runs.py:197-210 | a cancellation before the schedule, by a second request after a first one failed, and the expiry of the keys |
| RunMachine.RestartedRun | backend/app/core/chat_runs.py:128-161 | a crash and the restart behind it: stored text, error event and done for every event published before |
| RunMachine.ReplannedRun | backend/app/core/chat_runs.py:310-338 | a cancellation inside the finalization plans again and its plan is the one committed |
| RunTable.AtMostOneActiveRun | backend/app/services/chat_run_service.py:76-90 | a thread of a user has at most one active run in every interleaving |
| RunTable.JobsMatchOutcome | backend/app/services/memory_reflection_service.py:45-142 | jobs tell how their run ended even when finalizations raced: none for cancelled or failed runs |
| RunTable.JobAppearsExactly | backend/app/services/chat_run_service.py:207-217 | a job appears exactly in the step that finishes its run, exactly when that step's candidates name it, and no job disappears or changes |
| RunTable.JobsOfFinish | backend/app/services/memory_reflection_service.py:45-142 | exactly these jobs are added by a finishing transaction: a profile job when the run waits or succeeded, its message is not blank and it resumes no approval; an experience job for a success with results, or with a plan when one was asked for |
| RunTable.FinishedRunIsFrozen | backend/app/services/chat_run_service.py:207-208 | a finished run keeps its record and its set of jobs for good |
| RunTable.RegisterAdds | backend/app/services/memory_reflection_service.py:145-226 | registration adds exactly the missing keys and touches no old job |
| RunTable.AcceptedExactly | backend/app/services/chat_run_service.py:65-137 | a creation adds a queued, empty run exactly when the thread is owned and none of its runs is under way |
| RunTable.FinishedExactlyOnce | backend/app/services/chat_run_service.py:192-220 | a run under way gets the plan's status and text and the number behind the plan's; any other run, and any other row, stays |
| RunTable.ChatRunTables.CreateChatRun | backend/app/services/chat_run_service.py:65-137 | accepted exactly for an owned thread without active run; a conflict names the active run |
| RunTable.ChatRunTables.RegisterCandidates | backend/app/services/memory_reflection_service.py:145-226 | the registration loop computes the registration function |
| RunTable.ChatRunTables.FinalizeChatRun | backend/app/services/chat_run_service.py:192-220 | run row and jobs change together or not at all |
| Subscription.SendBatch | backend/app/api/chat.py:272-281 | a batch is sent up to and including its first done, and the cursor follows |
| Subscription.EventStream | backend/app/api/chat.py:258-302 | the generator's frames, cursor and ending for every sequence of reads and looks at the row |
| Subscription.ServeInOrder | backend/app/api/chat.py:258-302 | a connection sends consecutive entries from its cursor, and whatever closes the run comes last |
| Subscription.StartsAboveBoth | backend/app/api/chat.py:239-247 | with query parameter and header a connection sends nothing that either of them has and skips nothing that both miss |
| Subscription.StreamState.HandleFrames | frontend/src/components/ChatPanel/index.vue:1695-1711 | the client handles exactly the frames above its cursor and stops behind a done |
| Subscription.FollowExactly | frontend/src/api/chatRunStream.js:44-46 | over any reads, connections lost between frames, and resumptions the handled frames are exactly the entries above the start, once, in order |
| Subscription.StoredDoneMeansAll | backend/app/api/chat.py:258-302 | a client closed by the stored done handled every entry above its start |
| Subscription.DisciplinedRunIsNumbered | backend/app/core/chat_runs.py:377-469 | every disciplined run finished from an answered snapshot satisfies what the next three rows ask of row and stream |
| Subscription.SynthesisedDoneSkipsExactly | backend/app/api/chat.py:286-297 | a synthesised done loses nothing exactly when the cursor stands right below the row's number |
| Subscription.SynthesisedDoneMaySkip | backend/app/api/chat.py:286-297 | counterexample: a read, then the end of the run, then the look at the row |
| Subscription.SettledServeEnds | backend/app/api/chat.py:258-302 | once the row is finished, and whatever is still being written, the loop ends within last id - cursor + 1 turns |
| Subscription.ServeAnnounces | backend/app/api/chat.py:272-297 | stored or synthesised, every frame that closes the run carries the row's number and status, whatever the reads and looks |
| Subscription.SubscriberTerminates | backend/app/api/chat.py:258-302 | a subscriber of a finished run, the done event still on its way or not, ends: below the row's number with one closing frame as its last, at or above it with none |
| Subscription.OneClosingFrame | backend/app/api/chat.py:286-297 | the case of a store that no longer grows: at most the last frame closes the run, with the row's number and status |
| Subscription.QuiescentServe | backend/app/api/chat.py:268-302 | the case of a store that no longer grows: the loop ends within counter - cursor + 1 turns, having sent exactly what remains |
| Subscription.SnapshotThenReplay | backend/app/core/chat_run_events.py:315-328 | a snapshot carries the text of a prefix at least as long as its number; replay completes it exactly when no text fell between the two reads |
| Subscription.SnapshotShowsTwice | backend/app/core/chat_run_events.py:315-328 | counterexample: a token written between the two reads is shown twice |
| Sse.FormatSseEvent | backend/app/api/chat.py:33-42 | the payload is the id line, the event line, one data line a line of normalized data, and an empty line |
| Sse.FormatData | backend/app/api/chat.py:39-41 | the loop appends one terminated data line for each line |
| Sse.TwoReplacements | frontend/src/api/chatRunStream.js:1-3 | the two successive replacements are one scan over line ends |
| Sse.ParseSseEvent | frontend/src/api/chatRunStream.js:14-37 | the parser's loop folds the line rule over the lines |
| Sse.SplitConcat | frontend/src/api/chatRunStream.js:5-12 | splitting can be resumed from the last part |
| Sse.FeedSplitsOnce | frontend/src/api/chatRunStream.js:5-12 | feeding chunks, each behind the rest of the one before, is splitting the concatenation of the normalized chunks |
| Sse.FeedStream | frontend/src/components/ChatPanel/index.vue:1688-1693 | the reader loop computes that feeding |
| Sse.TornCrLf | frontend/src/api/chatRunStream.js:1-12 | counterexample for every CR LF: a cut inside it changes the result |
| Sse.ChunkInvarianceExactly | frontend/src/api/chatRunStream.js:1-12 | all cuts of a text give the blocks of the whole text exactly when it holds no CR LF |
| Sse.ParseItem | frontend/src/api/chatRunStream.js:14-37 | parsing a formatted frame returns its id, its name and its newline-normalized data, for every data string |
| Sse.StreamRoundTrip | backend/app/api/chat.py:33-42 | frames and keep-alives, cut anyhow into chunks, parse to exactly what was sent, one block an item, nothing left |
| TornSse.TornFrame | frontend/src/api/chatRunStream.js:5-37 | every proper prefix of a numbered frame stays in the buffer and parses to the digits of its number that arrived and a prefix of its data; it parses to the whole frame exactly when all data arrived |
| Sse.SequenceRoundTrip | frontend/src/api/chatRunStream.js:39-42 | the client reads back every positive number the server writes, and none for zero |
| Sse.KindNamesAreNames | backend/app/services/chat_run_service.py:30-40 | all event names in use survive the wire format |
| ClientBody.BodyReader.HandleBlocks | frontend/src/components/ChatPanel/index.vue:1694-1711 | cursor, numbered and plain events handled, and stop after a list of blocks: a number not above the cursor is skipped, a stop ends the loop |
| ClientBody.BodyReader.HandleRest | frontend/src/components/ChatPanel/index.vue:1713-1727 | what is left over at the end of a body is taken exactly when it is not blank and has a number above the cursor |
| ClientBody.BodyReader.Read | frontend/src/components/ChatPanel/index.vue:1686-1728 | the reader loop over any chunks, an error at the end included, computes the reading of one body |
| ClientBody.AnyChunks | frontend/src/components/ChatPanel/index.vue:1688-1693 | any prefix of what a connection sent, cut anyhow into chunks, is read as that prefix |
| ClientBody.PlainEventsAreComments | frontend/src/components/ChatPanel/index.vue:1694-1711 | wherever a connection breaks off, the events handled without a number are keep-alive comments, empty messages to the client |
| ClientBody.EndOfFrame | frontend/src/components/ChatPanel/index.vue:1713-1727 | for every frame, cursor and number of characters that arrived: the end of a body ignores the frame, handles it as it was sent, or handles an event that nobody sent |
| ClientBody.TakenExactly | frontend/src/components/ChatPanel/index.vue:1713-1727 | when the part of a frame that arrived is taken at all: exactly when the digits that arrived make a number above the cursor |
| ClientBody.LastCharacterCounts | frontend/src/components/ChatPanel/index.vue:1713-1727 | counterexample for every frame above the cursor: one missing character of its data is enough |
| ClientBody.FollowTextExactly | frontend/src/components/ChatPanel/index.vue:1688-1728 | over any connections, each broken or ended at any character, the client handles only events of the run exactly when no end did damage, and then exactly the entries above its start, once, in order |
| MemoryGuard.CrashThenRetry | backend/app/services/memory_service.py:121-198 | an interrupted automatic write, retried any number of times, ends as one uninterrupted write, with or without a guard row before |
| MemoryGuard.AutomaticAnswer | backend/app/services/memory_service.py:121-198 | a committed attempt without a mark of its job is applied, with the fields laid over the old ones one version further under the job's mark, exactly when no later manual time, no tombstone, no twin of a creation and no other base version of an update stands against it; otherwise it is stale and nothing changes |
| MemoryGuard.RepeatedAnswer | backend/app/services/memory_service.py:139-150 | where the job's mark stands, the attempt is applied again without touching the item, and the guard takes mark and highest version |
| MemoryGuard.CrashLeaves | backend/app/services/memory_service.py:121-198 | an interrupted attempt answers nothing, leaves the guard row, and leaves in the Store what the whole one puts there or what was there |
| MemoryGuard.ManualCells | backend/app/services/memory_service.py:86-119 | version, time, tombstone, marks and fields after each committed manual mutation |
| MemoryGuard.MemoryService.DuplicateIsTwin | backend/app/services/memory_service.py:151-161 | a duplicate is another item found with the same title, stripped and folded, and the same content, stripped |
| MemoryGuard.MemoryService.HasDuplicate | backend/app/services/memory_service.py:151-166 | true exactly when another found item has the same folded title and stripped content |
| MemoryGuard.MemoryService.PutItem | backend/app/core/memory.py:346-368 | new fields are laid over the old ones, other items stay |
| MemoryGuard.MemoryService.CreateManual | backend/app/services/memory_service.py:86-96 | guard and item after a creation, for a crash before the Store put, after it, or none |
| MemoryGuard.MemoryService.UpdateManual | backend/app/services/memory_service.py:98-108 | guard and item after an edit, for every crash point |
| MemoryGuard.MemoryService.DeleteManual | backend/app/services/memory_service.py:110-119 | guard and item after a delete, for every crash point |
| MemoryGuard.MemoryService.ApplyAutomatic | backend/app/services/memory_service.py:121-198 | the cell and the answer of an automatic proposal on every branch and crash point; all other cells stay |
| MemoryMachine.ManualEditsWin | backend/app/services/memory_service.py:142-179 | after a committed manual mutation and any actions behind it, crashes included, a job captured before that mutation changes nothing and is never reported as applied |
| MemoryMachine.TombstoneHolds | backend/app/services/memory_service.py:98-119 | after a committed delete only a manual update can bring an item back, whatever jobs and crashes follow |
| LostUpdates.CommittedMoves | backend/app/services/memory_service.py:86-198 | every committed mutation raises the version by one or leaves the item alone, and keeps item and guard in step |
| LostUpdates.NoLostUpdate | backend/app/core/memory.py:761-783 | without crashes an accepted update overwrites exactly the item its proposal was extracted from |
| LostUpdates.LostUpdateExactly | backend/app/services/memory_service.py:168-198 | with crashes, an update extracted from an item beside a guard of its version, or without a guard row and no delete dead behind the Store since, overwrites what it saw exactly when the item is there and carries its guard's version |
| LostUpdates.CrashLosesUpdate | backend/app/services/memory_service.py:98-108 | counterexample: an edit interrupted after its Store put is overwritten |
| LostUpdates.AcceptedSince | backend/app/services/memory_service.py:168-198 | an update extracted beside a guard of another version is accepted only if a mutation of that memory was committed in between |
| LostUpdates.ResidueLosesUpdate | backend/app/services/memory_service.py:168-198 | counterexample: extraction from what a dead edit left, guard and item in step when it writes, and another job's item overwritten |
| LostUpdates.OnlyContentsTell | backend/app/services/memory_service.py:98-108 | for every text an interrupted edit is retried with: same guard, versions and marks, the update between is accepted, and it overwrites what it saw exactly when the text is the same |
| LostUpdates.DeadDeleteLosesUpdate | backend/app/services/memory_service.py:110-119 | without a guard row a delete that died behind the Store lets versions start again: for every text of an edit behind it the update is accepted, and it overwrites what it saw exactly when the text is the old one |
| MemoryMachine.JobLifecycle | backend/app/services/memory_reflection_service.py:229-319 | a job is taken at most once, owns its key, and if it succeeded names a committed write |
| MemoryMachine.AppliedMeansCommitted | backend/app/core/memory_worker.py:202-223 | an applied answer means the guard was committed with the job's mark and that version |
| MemoryMachine.SucceededIsDurable | backend/app/core/memory_worker.py:202-223 | in every reachable state a succeeded job names a memory whose guard has reached its version and, as long as it stands there, carries the job's mark |
| MemoryMachine.FinishStep | backend/app/core/memory_worker.py:219-224 | the record of a finished call: applied becomes succeeded under the memory and version named, stale becomes skipped, a job that does not run stays |
| MemoryMachine.StopStep | backend/app/services/memory_reflection_service.py:262-280 | declined jobs are skipped and failing ones failed, as long as they run; no other job moves |
| MemoryMachine.RestartStep | backend/app/services/memory_reflection_service.py:282-296 | a restart fails exactly the jobs that were running |
| MemoryMachine.TakenOnce | backend/app/services/memory_reflection_service.py:229-261 | no history takes a job twice, and the jobs taken are exactly those that are not pending any more |
| MemoryMachine.CreationSucceeds | backend/app/core/memory_worker.py:202-224 | an undisturbed job that creates a memory stores exactly its fields with version 1 and succeeds, for all fields |
| MemoryMachine.UpdateSucceeds | backend/app/core/memory_worker.py:202-224 | an undisturbed job that updates what it saw lays its fields over the old ones one version further and succeeds |
| ArtifactTree.RevisionTree | backend/app/services/artifact_service.py:276-362 | walking up revision - 1 times from any artifact ends at its root, a parentless artifact of its group |
| ArtifactTree.StepKeepsOneCurrent | backend/app/services/artifact_service.py:365-424 | every step keeps at most one ready and current artifact a group |
| ArtifactTree.LatestByKind | backend/app/services/artifact_service.py:241-257 | the scan keeps for every kind a newest entry of that kind |
| ArtifactTree.LatestIsAll | backend/app/services/artifact_service.py:217-257 | after any history the scan's values are exactly the ready current artifacts of the thread and user |
| ArtifactTree.ReadyBecomesCurrent | backend/app/services/artifact_service.py:365-424 | after a completion the artifact is ready and the only current one of its group, and other groups are untouched |
| ArtifactTree.CreationAddsOne | backend/app/services/artifact_service.py:276-362 | a creation or revision adds one generating artifact under the next id, current only when it revises nothing |
| ArtifactTree.ListedWhileStanding | backend/app/services/artifact_service.py:217-238 | over every history an artifact is listed, for its own thread and user only, exactly from its completion until it fails or another one of its group is completed |
| ArtifactTree.StandingIsLatest | backend/app/services/artifact_service.py:241-257 | and as long as it stands, the scan of its thread holds it under its kind |
| ArtifactTree.ArtifactTable.CreateRunning | backend/app/services/artifact_service.py:276-341 | the new row, and the root id that a crash before the second commit leaves open |
| ArtifactTree.ArtifactTable.CreateRevision | backend/app/services/artifact_service.py:344-362 | parent, root and revision number of a revision |
| ArtifactTree.ArtifactTable.MarkArtifactReady | backend/app/services/artifact_service.py:365-424 | the loop clears exactly the other current artifacts of the group |
| ArtifactTree.ArtifactTable.MarkArtifactFailed | backend/app/services/artifact_service.py:443-456 | only the status of the failed artifact changes |
| ApprovalGraph.SelectedIsNormal | backend/app/core/graph.py:484-493 | the normalized selection holds exactly the known selected types, no selection means all, and normalizing again changes nothing |
| ApprovalGraph.StartRound | backend/app/core/graph.py:496-530 | a reset makes exactly the chosen types wait and leaves the others |
| ApprovalGraph.NothingWithoutApproval | backend/app/core/graph.py:1133-1166 | wherever generation branches run, filled-in metadata and the plan are those last approved and reviewed |
| ApprovalGraph.FanOutIsSelection | backend/app/core/graph.py:1133-1166 | plan approval starts exactly the selected known types, and ends the turn unchanged when there are none |
| ApprovalGraph.LessonRuns | backend/app/core/graph.py:1133-1166 | every lesson with filled-in metadata gets through both reviews to the branches of exactly the selected known types, on the approved metadata and the written plan |
| ApprovalGraph.SubmitExactly | backend/app/core/graph.py:798-832 | metadata go to review, stripped, exactly when subject, grade and topic are filled in |
| ApprovalGraph.Edges | backend/app/core/graph.py:761-895 | the edges of the graph that only move on, and what they record |
| ApprovalGraph.Choices | backend/app/core/graph.py:1500-1559 | what may happen at each node of the graph |
| ApprovalGraph.RouteTakesAsked | backend/app/core/graph.py:1169-1233 | the router takes exactly the catalog entries of the hinted types, or of the inferred ones when no known hint is given, in catalog order; it ends the turn exactly when there are none, and asks exactly without a known hint and with an unclear wish |
| ApprovalGraph.ClarifyTakesAll | backend/app/core/graph.py:1290-1324 | the answer that takes everything revises the whole catalog |
| ApprovalGraph.RevisionStartsKnown | backend/app/core/graph.py:1246-1287 | a prepared revision starts exactly the branches of the known types among its sources |
| ApprovalGraph.RoundFinishes | backend/app/core/graph.py:1342-1369 | whatever the order in which the running branches end, the round is then at fan-in, with each branch's own outcome and all other results untouched |
| ApprovalGraph.FanInReportsThisRound | backend/app/core/graph.py:1342-1369 | after any history fan-in reports exactly one finished result of this round for each chosen type, no type twice, in order; other types are untouched |
| ApprovalGraph.ExecKeeps | backend/app/core/graph.py:1547-1559 | the approval and round invariants hold in every reachable state of the graph |

## Left out

- A Redis command that runs only after its client gave up: a script that ran did so before the next attempt.
- Reloading a script after NOSCRIPT, malformed stream entries, `created_at`, JSON encoding and payload size checks.
- Key expiry while a run is active; the keys may vanish at any time once it is finished.
- Cancelling a task that never started.
- `schedule`'s map of in-process tasks: the run machine schedules a run at most once.
- `finalize_chat_run` failing after its commit: it is one step that happens or does not.
- Runtime event types that are not supported and payloads that are not objects, which the loop skips.
- The metadata event is not a step of its own: it is the first event of a schedule.
- RunTable.Candidates: snapshot contents beyond the idempotency key are not modelled, because jobs are compared by key only.
- RunTable.ChatRunTables.CreateChatRun: which active run a conflict names is left open, because `RunTable.AtMostOneActiveRun` leaves one; recovery of a model snapshot from an earlier run is not modelled.
- Retention and cleanup of finished jobs, error messages and categories of runs and jobs.
- MemoryGuard.DeterministicId: the hash is replaced by its argument, so equal ids mean equal jobs; the hash itself is not part of this model.
- The user's advisory lock, which SQLite does not take: every service call is one step up to its crash points.
- The limit of the Store search behind the duplicate check: what it returns is a parameter.
- LostUpdates.LostUpdateExactly: items seen in what an interrupted write left are `LostUpdates.AcceptedSince`, for items seen without a guard row and deleted in the Store only since then, only contents decide (`LostUpdates.DeadDeleteLosesUpdate`).
- LostUpdates.AcceptedSince: goes one way, because behind such an extraction guard, versions and marks do not decide (`LostUpdates.OnlyContentsTell`).
- Timestamps and default tags of Store items, semantic indexing.
- Subscription.FollowExactly: connections break between frames; `ClientBody.FollowTextExactly` has breaks at any character.
- ClientBody.FollowTextExactly: the JSON encoder is a parameter of which only `WritesObjects` is used: it writes objects, each on one line, and a proper prefix of one is not one.
- TornSse.TornFrame: frames without an id or with an empty data string are not covered; the server sends none but the keep-alive, which is.
- The client's stop after a connection that ended without a closing frame when the run row it fetches is finished, and the per-run cursor kept in frontend/src/store/session.js.
- Sse.SequenceRoundTrip: spellings of numbers other than decimal digits and numbers above 2^53 are not modelled.
- Sse.StreamRoundTrip: byte decoding is not modelled; text arrives as characters.
- ApprovalGraph.SubmitExactly: length limits of the metadata fields are not modelled; a field that is too long is asked for like a blank one.
- ApprovalGraph.RouteTakesAsked: the inference of targets from the words of a message is a parameter.
- ApprovalGraph.FanInReportsThisRound: the catalog of a turn names no type twice, as backend/app/core/agent.py:1278-1283 builds it from the latest artifact of each type.
- Storage of artifact files, titles, sorting of artifact lists, overlapping transactions of `mark_artifact_ready`, the OnlyOffice callback.
- The character budget of intake messages and context compression: single-call arithmetic outside the protocols above.
- Model access, prompts, retrieval, embeddings, speech, video, subprocesses, authentication, metrics and logging.
