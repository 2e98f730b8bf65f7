# Verified model of the Codex A2A server's execution core

The server turns requests of the A2A protocol into turns of a Codex child process and streams what the
child reports back to the caller. This project models three connected machines of that server and proves
what holds over all their runs.

**The streaming pipeline.** `StreamState`, `Coalescing`, `StreamOutput`, `StreamChunks` and `StreamRun` describe, as
functions on values, how an arbitrary list of upstream events becomes a numbered queue of updates: deltas wait until
the type of their part is known, snapshots are reconciled with deltas, small chunks are merged, an echoed prompt is
dropped, tool states and interrupts are de-duplicated. `PartSteps` says what each part event does, `PartHistory`,
`HeldDeltas` and `ToolHistory` what whole histories of a part do, and `Transcript` what the caller then reads.
`StreamEventProcessor`, `StreamLoop` and `Completion` are the objects and loops of the source, each proved to compute
those functions.

**Upstream framing and fan-out.** `Framing` splits the child's output into lines, `FanOut` hands events to
bounded subscriber queues, `TurnTracking` collects the answer of a turn from the notifications that also feed
the stream, `TurnHistory` says what the client keeps of a turn and passes on, and `EndToEnd` compares the two ends: the
answer and what was streamed.

**Session ownership.** `TtlCache` is the bounded cache, `SessionRuntime` the locked sections that bind
contexts to sessions and sessions to identities, `SessionRequests` any number of chat and control requests
whose steps interleave in any order, `RequestSteps` what each of those steps does and where every request has its
session from, and `Executor` the life of one request as its coroutine is written.

What the functions of the model mean is said by laws on their arguments and results, field by field: `PartSteps`,
`RequestSteps`, `TurnHistory` and the lemmas whose name ends in `Exactly`. Where a row below says that a method
computes a function, these laws say what that is.

How to read it:

- A whole run is a sequence: of inputs (`StreamRun.Run`), of broadcasts and reads (`FanOut.Replay`), of
  steps of a client that is already running (`TurnTracking.TrackersAfter`), of cache calls (`TtlCache.Reached`), of locked sections
  (`SessionRuntime.RunAfter`) or of actions of requests (`SessionRequests.After`). Disabled actions change
  nothing, so that every sequence is a run.
- Each reading of the monotonic clock is a real number supplied from outside. A locked section takes one
  reading; where a statement needs the clock not to go back it says so.
- A Python dictionary whose order matters (the cache) is modelled with its insertion order.
- A tool payload is one non-empty line of JSON text, equal for equal payloads.

Six properties one might expect do not hold of the code. For each, a lemma gives an input or run on which it
fails, and another the exact condition, on the state and the step at hand, under which it holds:

- One chat per session: `finally` releases the session lock whenever it is locked
  (`src/codex_a2a_server/execution/executor.py:277-278`), so a request cancelled while queued unlocks it under
  its holder. See `SessionRequests.LocksKept`, `SessionRequests.ExclusiveExactly` and
  `SessionRequests.ExclusionCanBreak`.
- No leaked claims: a second cancellation, while `finally` waits to release the claim, skips the release
  (`src/codex_a2a_server/execution/executor.py:265-272`), and a pending claim never expires. See
  `SessionRequests.ClaimsKept`, `SessionRequests.NoLeakedClaims` and `SessionRequests.ClaimCanBeStranded`.
- Claims exclude other owners: recording a created session does not look at the pending claims
  (`src/codex_a2a_server/execution/session_runtime.py:212-224`), so it takes a session that is claimed and not
  yet owned. See `SessionRuntime.ExclusiveKept` and `SessionRuntime.CreateIgnoresClaims`.
- A bound session has an owner: reading the owner refreshes its entry but not the binding's, so the two caches
  may evict different sessions. It fails exactly when a section stores a new owner while the owner cache is full
  of live entries, and the session whose entry is the earliest to expire has a live binding that the section
  neither replaces nor evicts. See `SessionRuntime.AgreementKept`, `SessionRuntime.AgreementExactly` and
  `SessionRuntime.EvictedOwnerBreaksAgreement`.
- Early deltas are replayed when the part's update arrives (`docs/guide.md:326-328`): the code replays them only
  if the update types the part as text or reasoning and its role is not the user's or the system's; an update
  without a type drops them (`src/codex_a2a_server/execution/stream_processor.py:425-430`), and so does one that
  types the part as a tool call (`src/codex_a2a_server/execution/stream_processor.py:437-447`). The model
  follows the code. See `HeldDeltas.ReplayedExactly`, `HeldDeltas.NoDeltaTextIsLost`,
  `HeldDeltas.UntypedUpdateLosesDeltas` and `HeldDeltas.ToolTypingLosesDeltas`.
- The stream repeats the whole answer: it does exactly when no text of the turn preceded its first item id. See
  `EndToEnd.StreamedTextIsWhole` and `EndToEnd.AnswerCanBeRepeated`.

## Model

| member | source | states |
|---|---|---|
| Framing.IterStreamLines | src/codex_a2a_server/upstream/client.py:304-324 | For every sequence of reads the lines yielded are exactly the newline-separated fields of everything read, an empty last field omitted |
| Framing.FieldsAreUnique | src/codex_a2a_server/upstream/client.py:316-324 | A byte sequence has only one list of newline-free fields that joins back to it, so the fields are well defined |
| Framing.FramingIsChunkIndependent | src/codex_a2a_server/upstream/client.py:304-324 | However the same bytes are cut into reads the lines are the same, hold no newline, and give the bytes back when each is followed by a newline, up to a missing last newline |
| FanOut.BoundedQueue.Offer | src/codex_a2a_server/upstream/client.py:415-423 | The event always gets in; a full queue loses its oldest event and nothing else |
| FanOut.EventHub.EnqueueStreamEvent | src/codex_a2a_server/upstream/client.py:411-423 | Every subscriber's queue is offered the event exactly once, whatever the order of iteration, and stays bounded |
| FanOut.EventHub.Subscribe | src/codex_a2a_server/upstream/client.py:651-652 | A new subscriber starts with an empty queue of its own |
| FanOut.OfferOk | src/codex_a2a_server/upstream/client.py:414-423 | Offering an event keeps the queue a suffix of what arrived, of at most 2048 events; everything before it was delivered or dropped, once, and drops only happen behind a full queue |
| FanOut.ActionOnQueue | src/codex_a2a_server/upstream/client.py:411-423 | What one action means for one subscriber: a broadcast puts the event behind its queue, at the price of the oldest if 2048 are waiting, reading hands out the oldest, and nothing else touches it |
| FanOut.Replay | src/codex_a2a_server/upstream/client.py:646-663 | In every interleaving of subscribing, broadcasting, reading and leaving, that holds of every subscriber, with respect to the events broadcast since it subscribed |
| FanOut.ArrivedIsBroadcast | src/codex_a2a_server/upstream/client.py:646-663 | After any actions what has arrived at a subscriber is exactly what was broadcast since it came, in order |
| FanOut.NoLossMeansNoGap | src/codex_a2a_server/upstream/client.py:646-663 | A subscriber that lost nothing and whose queue is empty has been handed exactly the events broadcast since it subscribed, in order |
| TurnTracking.TurnTracker.Text | src/codex_a2a_server/upstream/models.py:45-47 | The text of a turn is its deltas joined in order |
| TurnTracking.CodexClient.GetOrCreateTracker | src/codex_a2a_server/upstream/client.py:425-431 | Returns the tracker of the turn, creating an empty one only if there is none, and disturbs no other |
| TurnTracking.CodexClient.AddAgentDelta | src/codex_a2a_server/upstream/client.py:446-451 | The delta is appended to its own turn only, and the last non-blank item id is remembered |
| TurnTracking.CodexClient.CompleteTurn | src/codex_a2a_server/upstream/client.py:538-557 | Completing a turn keeps its text and an earlier error that is not replaced |
| TurnTracking.CodexClient.AwaitTurn | src/codex_a2a_server/upstream/client.py:808-810 | Beginning to wait for a turn keeps what has been received of it |
| TurnTracking.CodexClient.HandleNotification | src/codex_a2a_server/upstream/client.py:433-564 | A notification updates the trackers as `Handle` says and offers every subscriber the event of `Handle`, if it makes one; what `Handle` means is in TurnHistory |
| TurnTracking.CodexClient.CollectTurn | src/codex_a2a_server/upstream/client.py:810-828 | The answer is the tracker's text unless the turn failed or the wait timed out; in any case the tracker is dropped and no other is |
| TurnHistory.TurnIsRecorded | src/codex_a2a_server/upstream/client.py:433-557 | Whatever else the client is told, until a turn is collected its text grows by exactly the string deltas of its thread and turn, in order and blank ones included; its message id is the last non-blank item id among them; it is complete once its end was reported; and its error is the last one reported |
| TurnHistory.CollectingForgets | src/codex_a2a_server/upstream/client.py:826-828 | Collecting a turn leaves its tracker as new and every other as it was |
| TurnHistory.TurnsNeedNames | src/codex_a2a_server/upstream/client.py:442-446 | Deltas, starts and ends without a thread or a turn touch no tracker and enqueue nothing |
| TurnHistory.DeltaIsPassedOn | src/codex_a2a_server/upstream/client.py:442-467 | Every string delta that names a thread and a turn is enqueued whole, as assistant text of that session under the last item id; every other is passed over |
| TurnHistory.NotificationIsPassedOn | src/codex_a2a_server/upstream/client.py:469-564 | What every other notification enqueues, as a processor reads it: reasoning, tool payloads, interrupts, token usage and errors; and that only those about turns touch trackers |
| StreamState.EventIdInjective | src/codex_a2a_server/execution/stream_state.py:193-194 | Different sequence numbers give different event ids, and none is the id of the final status |
| StreamState.StreamOutputState.RegisterChunk | src/codex_a2a_server/execution/stream_state.py:159-170 | The in-place registration computes `Register` |
| StreamState.StreamOutputState.MarkInterruptPending | src/codex_a2a_server/execution/stream_state.py:199-206 | True exactly when the stripped id is new, and then it is pending |
| StreamState.StreamOutputState.ClearInterruptPending | src/codex_a2a_server/execution/stream_state.py:208-213 | True exactly when the stripped id was pending, and then it no longer is |
| Coalescing.CoalescingKeepsProvenance | src/codex_a2a_server/execution/stream_processor.py:210-278 | For all chunk lists, clocks and flush points ending in a flush, the characters forwarded, each with block type, part, message, role and source, and the unmerged chunks among them, are those put in, in the same order |
| Coalescing.BufferStaysBelowLimit | src/codex_a2a_server/execution/stream_state.py:94-116 | Between calls the buffer is empty or holds some prose, less than 120 characters, or 240 of reasoning |
| Coalescing.BufferStaysFresh | src/codex_a2a_server/execution/stream_state.py:113-116 | Text left in the buffer had waited less than 0.2 seconds at the last chunk, or 0.35 if it is reasoning |
| Coalescing.LikeChunksMerge | src/codex_a2a_server/execution/stream_processor.py:257-275 | Pieces of text or reasoning that differ only in what they say are merged while they stay below both limits: none is forwarded and the buffer holds their text, aged from the first |
| StreamOutput.EmitAllKeeps | src/codex_a2a_server/execution/stream_processor.py:217-252 | Emitting chunks keeps the numbering, the append flags, the mirror of the streamed text, the roles and the interrupt balance, and counts each chunk as emitted or suppressed |
| StreamOutput.UpdateShowsChunk | src/codex_a2a_server/execution/stream_processor.py:235-251 | An update shows its chunk's part, type, source and role, and its message id stripped, or the request's stable id if that is blank |
| StreamOutput.SuppressedExactly | src/codex_a2a_server/execution/stream_state.py:143-170 | A piece of text or reasoning is passed over if and only if it is text without a role that equals the prompt up to surrounding white space, before any update has been queued |
| StreamOutput.EchoOnlyBeforeFirstUpdate | src/codex_a2a_server/execution/stream_state.py:143-157 | Once an update has been queued, every later piece of text or reasoning is shown |
| StreamOutput.AttributedTextIsStreamed | src/codex_a2a_server/execution/stream_processor.py:217-252 | Text with a role, and all reasoning, is shown: the streamed text of that type grows by exactly the text of the chunks |
| StreamOutput.ToolChunkShown | src/codex_a2a_server/execution/stream_state.py:159-170 | A tool chunk becomes one update unless it is its part's first and equals the whole tool buffer |
| StreamOutput.StatusBalances | src/codex_a2a_server/execution/stream_state.py:199-213 | An accepted status keeps the statuses of every request alternating and asked minus resolved equal to the number of pending requests |
| StreamOutput.AnnounceKeeps | src/codex_a2a_server/execution/stream_processor.py:280-315 | An accepted interrupt queues the buffered text first and its status last, and keeps everything a queue keeps |
| StreamChunks.GenerateOk | src/codex_a2a_server/execution/stream_processor.py:366-500 | No event makes a part id both pending and known, and no chunk of a user or system role is generated |
| StreamChunks.StepSlotOk | src/codex_a2a_server/execution/stream_processor.py:379-500 | An event of a part generates well-formed chunks of that part, typed and attributed as the part then is |
| PartSteps.IdsExactly | src/codex_a2a_server/execution/stream_chunks.py:51-115 | Which of the ids of an event count, and in which order: the first that is not blank, stripped |
| PartSteps.OthersArePassedOver | src/codex_a2a_server/execution/stream_processor.py:366-377 | An event of another type or session, or without a part id, changes and generates nothing |
| PartSteps.DeltaExactly | src/codex_a2a_server/execution/stream_processor.py:379-414 | A text delta waits while its part is unknown, and adds one piece to a part that shows text; for a tool call, for the user or the system, or of another field it is ignored |
| PartSteps.UntypedExactly | src/codex_a2a_server/execution/stream_processor.py:425-427 | An update that does not resolve the type makes the part forget the deltas that waited, and nothing else |
| PartSteps.PrivateExactly | src/codex_a2a_server/execution/stream_processor.py:428-430 | An update of a part of the user or the system is remembered and generates nothing |
| PartSteps.ToolExactly | src/codex_a2a_server/execution/stream_chunks.py:330-413 | A tool update generates the payload it brings as one chunk, on a line of its own after the first, unless it repeats the last state of the part |
| PartSteps.TextExactly | src/codex_a2a_server/execution/stream_processor.py:432-497 | An update of a part that shows text generates the deltas that waited, one piece each, and then its own delta or the part of its full text that is new; type, role, message ids, buffer and sources are stated for each |
| PartSteps.PartIsAsLastDescribed | src/codex_a2a_server/execution/stream_chunks.py:229-257 | Over all runs a part is known from its first typed update on, with the type and the role that such updates gave it last |
| PartHistory.PartsAreIndependent | src/codex_a2a_server/execution/stream_processor.py:379-500 | A part's state, held-back deltas and chunks depend on its own events only, whatever other parts do |
| PartHistory.SnapshotExtends | src/codex_a2a_server/execution/stream_chunks.py:287-327 | A snapshot becomes the buffer; it generates the missing suffix exactly if it extends the buffer, and nothing if it equals it |
| PartHistory.StepReconciles | src/codex_a2a_server/execution/stream_processor.py:432-497 | An event adds to the buffer exactly the text it generates if and only if it is not a snapshot that fails to extend what was received |
| PartHistory.GeneratedTextIsBuffer | src/codex_a2a_server/execution/stream_chunks.py:260-327 | Over any mix of events, until a first non-prefix snapshot, the text generated for a part equals its buffer |
| PartHistory.TypingCommutes | src/codex_a2a_server/execution/stream_processor.py:384-456 | An update that reveals a part's type after its deltas ends in the same state and chunks as the same update before them |
| PartHistory.LateTypingIsHarmless | src/codex_a2a_server/execution/stream_processor.py:379-456 | The same wherever the update falls among the part's first deltas, whatever the part receives afterwards and whatever other parts do |
| PartHistory.BlockedTypingIsSilent | src/codex_a2a_server/execution/stream_processor.py:428-430 | If an update says that the part is the user's or the system's and no later one takes that back, nothing is generated, wherever the update falls |
| HeldDeltas.ReplayedExactly | src/codex_a2a_server/execution/stream_processor.py:425-456 | An update of a part known only by held-back deltas generates first exactly those deltas if it types the part as text or reasoning that may be shown, and otherwise their text is not generated |
| HeldDeltas.StepAccounts | src/codex_a2a_server/execution/stream_processor.py:379-456 | An event leaves all delta text generated or held back exactly if it does not find deltas held back without revealing the part, nor bring a delta to a part that shows no text; otherwise text is gone |
| HeldDeltas.NoDeltaTextIsLost | src/codex_a2a_server/execution/stream_processor.py:379-456 | Over all runs the delta text of a part is what was generated from it followed by what is held back, if and only if no such event came |
| HeldDeltas.UntypedUpdateLosesDeltas | src/codex_a2a_server/execution/stream_processor.py:425-427 | A delta, an update without a type, an update with one: no chunks and an empty buffer |
| HeldDeltas.ToolTypingLosesDeltas | src/codex_a2a_server/execution/stream_processor.py:437-447 | A delta and an update that types the part as a tool call: no chunks and an empty buffer |
| ToolHistory.ToolChunksAreKept | src/codex_a2a_server/execution/stream_chunks.py:330-413 | Over any history of a tool part the chunks are the payloads received, in order, without states that repeat the state before them; all output deltas stay, and all chunks but the first append |
| ToolHistory.ToolPartShowsPayloads | src/codex_a2a_server/execution/stream_processor.py:434-478 | The same for one part among the events of all parts |
| ToolHistory.RunShowsTools | src/codex_a2a_server/execution/stream_processor.py:217-278 | After any run the queue's tool updates are, in order, the tool chunks generated from the events, without those that open their part by repeating the whole tool buffer of that moment |
| StreamRun.RunOk | src/codex_a2a_server/execution/stream_processor.py:321-500 | After any events, clocks and flush points the parts, the buffer and the queue are in order; in particular the TEXT and REASONING buffers are the concatenations of the streamed updates of their types |
| StreamRun.RunIsWellNumbered | src/codex_a2a_server/execution/stream_processor.py:226-251 | After any run the queue is numbered 1, 2, 3, ..., event ids are the namespace and the number and distinct, exactly the first artifact update replaces, none is marked last, and none has role user or system |
| StreamRun.InputEmits | src/codex_a2a_server/execution/stream_processor.py:210-358 | An event or flush point emits exactly the chunks it forwards, and at most the status of an accepted interrupt after them |
| StreamRun.EchoPrecedesEveryUpdate | src/codex_a2a_server/execution/stream_state.py:143-157 | Over all runs a piece of text that reaches the output is passed over only if it is the prompt, has no role, and no update has been queued yet |
| StreamRun.InterruptsAlternate | src/codex_a2a_server/execution/stream_processor.py:337-358 | After any run the statuses of each request are asked, resolved, asked, ...; it is pending exactly when the last is asked; asked minus resolved is the number pending |
| StreamRun.AskedExactly | src/codex_a2a_server/execution/stream_processor.py:337-347 | A question of the session with a new, non-blank id queues the buffered text and then one status with phase asked, the stripped id, its kind and its details, and the id is pending; any other changes nothing |
| StreamRun.AnsweredExactly | src/codex_a2a_server/execution/stream_processor.py:348-358 | An answer to a pending id queues the buffered text and then one status with phase resolved, its kind and its resolution, and the id is no longer pending; any other changes nothing |
| StreamRun.StatusesAreRequests | src/codex_a2a_server/execution/stream_processor.py:332-358 | After any run the statuses of an id are the phases that the events of the session request for it, without those that repeat the one before and without an answer that comes first |
| StreamRun.InterruptFlushesFirst | src/codex_a2a_server/execution/stream_processor.py:280-315 | An interrupt is accepted exactly if it is news; then the buffered text precedes its status, which comes last, and otherwise nothing changes |
| StreamRun.SessionsDoNotInterfere | src/codex_a2a_server/execution/stream_processor.py:332-373 | Removing all events for which neither extractor yields the session changes no output and no state |
| StreamRun.ToolPayloadGenerated | src/codex_a2a_server/execution/stream_chunks.py:330-358 | A tool update generates its payload and nothing else, except that a state repeating the part's last state generates nothing |
| StreamRun.ToolPayloadShown | src/codex_a2a_server/execution/stream_processor.py:458-500 | The payload reaches the queue as exactly one update after the buffered text, with two exceptions: a repeated state, and a first payload equal to the whole tool buffer |
| Transcript.RunShowsText | src/codex_a2a_server/execution/stream_processor.py:210-278 | Over all runs, clocks and flush points, the text of a type that is shown or waits in the buffer is the text of that type generated from the events, for all reasoning and for text with roles |
| Transcript.ReasoningIsShown | src/codex_a2a_server/execution/stream_processor.py:210-278 | In every run that ends in a flush the reasoning updates are all the reasoning generated, in order |
| StreamEventProcessor.StreamPartState.AddSnapshot | src/codex_a2a_server/execution/stream_chunks.py:287-327 | The in-place update computes `SnapshotChunks` |
| StreamEventProcessor.StreamPartState.AddToolPayload | src/codex_a2a_server/execution/stream_chunks.py:330-358 | The in-place update computes `ToolChunks` |
| StreamEventProcessor.StreamPartState.Replay | src/codex_a2a_server/execution/stream_processor.py:432-456 | The loop over the held-back deltas computes `ReplayPending` |
| StreamEventProcessor.StreamEventProcessor.EmitChunkNow | src/codex_a2a_server/execution/stream_processor.py:217-252 | Computes `EmitNow` on the output state, the queue and the counters |
| StreamEventProcessor.StreamEventProcessor.FlushBufferedTextChunk | src/codex_a2a_server/execution/stream_processor.py:210-215 | Empties the buffer into the queue |
| StreamEventProcessor.StreamEventProcessor.EmitChunkList | src/codex_a2a_server/execution/stream_processor.py:257-278 | The loop forwards and buffers what `Coalesce` says, in that order |
| StreamEventProcessor.StreamEventProcessor.HandleInterruptEvent | src/codex_a2a_server/execution/stream_processor.py:337-358 | Marks or clears the request and announces it exactly if that changed something |
| StreamEventProcessor.StreamEventProcessor.UpsertPart | src/codex_a2a_server/execution/stream_chunks.py:229-257 | Updates or creates the state object of one part and no other |
| StreamEventProcessor.StreamEventProcessor.HandleDelta | src/codex_a2a_server/execution/stream_processor.py:379-414 | A delta event computes `StepSlot` on its part |
| StreamEventProcessor.StreamEventProcessor.HandleUpdate | src/codex_a2a_server/execution/stream_processor.py:416-497 | A part update computes `StepSlot` on its part |
| StreamEventProcessor.StreamEventProcessor.HandleEvent | src/codex_a2a_server/execution/stream_processor.py:321-500 | The processor object computes the machine `StreamRun.HandleEvent`, of which all runs are described above |
| StreamLoop.ConsumeCodexStream | src/codex_a2a_server/execution/streaming.py:49-153 | For every script of arrivals, timeouts, failures and stops the processor ends as after the inputs of the script, and the sleeps are exactly the back-offs of the failures handled, one each; InputsExactly and FailuresExactly say which these are |
| StreamLoop.InputsExactly | src/codex_a2a_server/execution/streaming.py:83-149 | If the first n rounds are not stopped, ended or timed out after completion, they give n inputs, the event that arrived or a flush; the round that is one of these gives a last flush, and nothing follows |
| StreamLoop.FailuresExactly | src/codex_a2a_server/execution/streaming.py:131-147 | The failures slept off are exactly those of the rounds before the loop is left |
| StreamLoop.BackoffGrows | src/codex_a2a_server/execution/streaming.py:63-64 | The back-offs are 0.5, 1, 2 and 4 seconds and then always 5 |
| StreamLoop.ReadStream | src/codex_a2a_server/execution/streaming.py:84-149 | One opened stream handles its events in order and ends flushed, or reports the failure after which the rest of the script remains |
| StreamLoop.NothingIsLost | src/codex_a2a_server/execution/streaming.py:83-149 | Every event that arrives before the loop is left is handled once and in order, across timeouts and reopened streams |
| StreamLoop.LoopEndsFlushed | src/codex_a2a_server/execution/streaming.py:148-149 | However the loop is left, no text stays in the buffer |
| Completion.EmitStreamingCompletion | src/codex_a2a_server/execution/response_emitter.py:24-70 | Computes `Complete` on the output state and the queue |
| Completion.CompletionClosesQueue | src/codex_a2a_server/execution/response_emitter.py:36-70 | The closed queue is numbered without gaps, has distinct event ids, one first update and one final status at its end |
| Completion.CompletionShowsAnswer | src/codex_a2a_server/execution/response_emitter.py:36-53 | A non-blank answer was streamed, up to surrounding white space, or is the last artifact update: whole, of type TEXT, marked last, numbered next, under the message id; and never both. The final status of the same message closes the queue |
| Completion.AnswerIsShownOnce | src/codex_a2a_server/execution/response_emitter.py:24-70 | The same over all runs of the pipeline |
| EndToEnd.RunText | src/codex_a2a_server/execution/stream_processor.py:416-500 | Whatever the clock and the flush points, the text and the reasoning delivered are the text and the reasoning shown or waiting in the buffer |
| EndToEnd.TrackerText | src/codex_a2a_server/upstream/client.py:442-467 | From any state of the client in which nothing of the turn was received, with one turn on the thread, the tracker holds the text that came before any item id, then exactly the text of the events enqueued |
| EndToEnd.StreamMatchesTracker | src/codex_a2a_server/upstream/client.py:442-467 | In any turn of a running client, for a subscriber that joined before the turn and lost nothing, drained and flushed, the final answer is all deltas of the turn, joined, and it is the text before the first item id followed by exactly the streamed text, whatever is interleaved |
| EndToEnd.AnswerIsNotRepeated | src/codex_a2a_server/execution/response_emitter.py:36-53 | If all deltas carry item ids the streamed text is the final answer, and completion queues the final status only |
| EndToEnd.StreamedTextIsWhole | src/codex_a2a_server/upstream/client.py:449-459 | The streamed text is the whole answer if and only if no text preceded the first item id |
| EndToEnd.ReasoningReachesCaller | src/codex_a2a_server/upstream/client.py:469-488 | All reasoning reported for parts of the session is streamed, in order and exactly once, whatever else happens and whoever else talks |
| EndToEnd.AnswerCanBeRepeated | src/codex_a2a_server/upstream/client.py:449-459 | A turn whose first delta has no item id: the stream misses its text, and completion sends the whole answer |
| EndToEnd.CanBeDelivered | src/codex_a2a_server/upstream/client.py:646-663 | Every such turn has a subscriber and inputs that meet the hypotheses |
| TtlCache.SortSorts | src/codex_a2a_server/execution/session_runtime.py:61 | The order in which entries are evicted is by expiry |
| TtlCache.EvictionIsOk | src/codex_a2a_server/execution/session_runtime.py:52-63 | A pass leaves at most maxsize entries; a live entry goes only if all that stay are live and expire no earlier, and, one entry over size, only if no entry was expired |
| TtlCache.EarliestIsEvicted | src/codex_a2a_server/execution/session_runtime.py:60-63 | One live entry too many: exactly the earliest to expire goes, ties broken by insertion |
| TtlCache.SetOk | src/codex_a2a_server/execution/session_runtime.py:42-47 | After `set` the size is kept and the key just set is there: it survives its own eviction pass |
| TtlCache.GetRefines | src/codex_a2a_server/execution/session_runtime.py:27-40 | `get` answers nothing the unbounded timed map would not, and the same while both hold the same live entries |
| TtlCache.SetRefines | src/codex_a2a_server/execution/session_runtime.py:42-47 | After `set` cache and map hold the same live entries if and only if `set` evicted no live one |
| TtlCache.EvictsVictim | src/codex_a2a_server/execution/session_runtime.py:42-63 | `set` evicts a live entry exactly if the key is new and the cache is full of live entries, and then it is the earliest to expire, the first inserted among several |
| TtlCache.EvictsLiveExactly | src/codex_a2a_server/execution/session_runtime.py:42-63 | Whether `set` evicts a live entry can be told from the cache before it |
| TtlCache.PopRefines | src/codex_a2a_server/execution/session_runtime.py:49-50 | `pop` keeps the agreement |
| TtlCache.CacheRefinesTimedMap | src/codex_a2a_server/execution/session_runtime.py:27-63 | Over all runs of calls the cache is bounded and holds no live entry the map does not, and all of them if none had to be evicted |
| TtlCache.AgreesUntilLoss | src/codex_a2a_server/execution/session_runtime.py:27-63 | Cache and map agree after every call of a run if and only if no call set a new key while the cache was full of live entries |
| TtlCache.DisabledForgets | src/codex_a2a_server/execution/session_runtime.py:27-47 | Without a positive time-to-live and size a cache stays empty and answers nothing |
| TtlCache.AnswersRefine | src/codex_a2a_server/execution/session_runtime.py:27-40 | The answers of `get` after any run |
| TtlCache.ExpiryIsLastTouch | src/codex_a2a_server/execution/session_runtime.py:38-46 | An entry expires the time-to-live after it was last set or, under refresh_on_get, last asked for |
| TtlCache.LeastRecentlyTouchedGoes | src/codex_a2a_server/execution/session_runtime.py:52-63 | A live entry that is evicted was touched no later than any entry that stays, and no entry was expired |
| TtlCache.TTLCache.Get | src/codex_a2a_server/execution/session_runtime.py:27-40 | The in-place lookup computes `Lookup` |
| TtlCache.TTLCache.Set | src/codex_a2a_server/execution/session_runtime.py:42-47 | The in-place update computes `Stored` |
| TtlCache.TTLCache.EvictIfNeeded | src/codex_a2a_server/execution/session_runtime.py:52-63 | The loops compute `Evicted` |
| SessionRuntime.StepEffects | src/codex_a2a_server/execution/session_runtime.py:144-293 | Every locked section adds at most the caller's own binding, and then the caller owns the session at least as long; and it writes at most the owner entry of its session, which keeps naming a live owner |
| SessionRuntime.AgreementKept | src/codex_a2a_server/execution/session_runtime.py:168-280 | A locked section keeps bindings and owners in agreement if and only if it does not store a new owner into a full cache of live entries whose earliest-expiring session has a live binding that the section neither replaces nor evicts |
| SessionRuntime.OwnerLostExactly | src/codex_a2a_server/execution/session_runtime.py:42-63 | A section evicts a live owner entry exactly if it stores a new owner and that entry is the earliest to expire in a cache full of live ones |
| SessionRuntime.BindingKeptExactly | src/codex_a2a_server/execution/session_runtime.py:212-246 | Such a section keeps a live binding of another session exactly if it is neither the caller's own nor the binding cache's victim |
| SessionRuntime.BoundExactly | src/codex_a2a_server/execution/session_runtime.py:144-246 | What any locked section does to any live binding: it goes only by cancelling its own context or as the victim of a section that binds another, changes only when its own context is bound anew, and otherwise stays as it is |
| SessionRuntime.CachesAreBounded | src/codex_a2a_server/execution/session_runtime.py:52-63 | After any interleaving each cache is within its size, and only a full one gives up a live entry |
| SessionRuntime.AgreementExactly | src/codex_a2a_server/execution/session_runtime.py:168-280 | Bindings and owners agree throughout an interleaving if and only if no section of it did that |
| SessionRuntime.BindingsAgreeWithOwners | src/codex_a2a_server/execution/session_runtime.py:168-280 | In every interleaving that never had to evict a live owner, each live binding (identity, context) to s has an owner entry of s naming the identity and expiring no earlier |
| SessionRuntime.OneIdentityPerSession | src/codex_a2a_server/execution/session_runtime.py:168-280 | So no session has live bindings of two identities |
| SessionRuntime.EvictedOwnerBreaksAgreement | src/codex_a2a_server/execution/session_runtime.py:27-63 | Without that hypothesis it fails: four sections after which a bound session may be claimed by anybody |
| SessionRuntime.SeparateReadingsLag | src/codex_a2a_server/execution/session_runtime.py:178-189 | If the binding is stored with a later clock reading than the owner's refresh, the owner entry expires first by exactly the difference, so one reading per section is needed |
| SessionRuntime.NeverStolen | src/codex_a2a_server/execution/session_runtime.py:212-222 | After any locked section a live owner entry still names the same owner, unless it was evicted |
| SessionRuntime.AskedOwnerIsRefreshed | src/codex_a2a_server/execution/session_runtime.py:36-40 | A section that asks for the owner of an owned session lets the entry live a full time again, and leaves no entry of one that is not, unless it makes the caller its owner |
| SessionRuntime.OwnershipNeverStolen | src/codex_a2a_server/execution/session_runtime.py:168-280 | Between any two points of any interleaving the owner changes only if the entry expired or was evicted in between |
| SessionRuntime.RefusedExactly | src/codex_a2a_server/execution/session_runtime.py:303-314 | Claiming and finalizing are refused if and only if another identity is the live owner or holds the claim; recording looks at the owner alone |
| SessionRuntime.ClaimedExactly | src/codex_a2a_server/execution/session_runtime.py:187-192 | A claim is left to settle if and only if nobody owns the session |
| SessionRuntime.FinalizedOwns | src/codex_a2a_server/execution/session_runtime.py:243-246 | A finalization settles the claim, makes the caller the owner and binds the context |
| SessionRuntime.RecordedOwns | src/codex_a2a_server/execution/session_runtime.py:212-224 | Recording a created session makes the caller its owner, binds the context and leaves the claims alone |
| SessionRuntime.LookedUpExactly | src/codex_a2a_server/execution/session_runtime.py:196-198 | A context finds a session if and only if it has a live binding to it |
| SessionRuntime.CancelForgets | src/codex_a2a_server/execution/session_runtime.py:152-160 | Cancelling removes the context's binding and touches no owner and no claim |
| SessionRuntime.ClaimsAreKept | src/codex_a2a_server/execution/session_runtime.py:248-251 | No step of one identity removes or overwrites the pending claim of another |
| SessionRuntime.ClaimsAreMine | src/codex_a2a_server/execution/session_runtime.py:253-266 | A new claim is the caller's, on the session it asked for |
| SessionRuntime.ClaimBlocked | src/codex_a2a_server/execution/session_runtime.py:303-314 | A pending claim shuts every other identity out, at any time |
| SessionRuntime.ExclusiveKept | src/codex_a2a_server/execution/session_runtime.py:212-224 | A locked section keeps owners and claims exclusive if and only if it does not record an unowned session that somebody else is claiming |
| SessionRuntime.ClaimCanBeFinalized | src/codex_a2a_server/execution/session_runtime.py:227-280 | In every interleaving whose created ids are fresh, the holder of a claim can finalize it at any time |
| SessionRuntime.CreateIgnoresClaims | src/codex_a2a_server/execution/session_runtime.py:212-224 | Without freshness the holder of a claim is refused |
| SessionRuntime.VerdictPredictsClaim | src/codex_a2a_server/execution/session_runtime.py:285-293 | While owners and claims are exclusive, `session_owner_matches` answers no exactly when claiming would be refused |
| SessionRuntime.VerdictExactly | src/codex_a2a_server/execution/session_runtime.py:285-293 | `session_owner_matches` answers yes exactly if the identity owns the session, or claims it while nobody does, and nothing exactly if nobody does either |
| SessionRuntime.RegisterEffects | src/codex_a2a_server/execution/session_runtime.py:194-224 | Locked sections add a create only under an unregistered key of the caller, and remove one only if it is still the caller's |
| SessionRuntime.SessionRuntime.PreferSession | src/codex_a2a_server/execution/session_runtime.py:177-192 | The section of a preferred session computes its step |
| SessionRuntime.SessionRuntime.LookUpSession | src/codex_a2a_server/execution/session_runtime.py:194-202 | The first section of the create path computes its step |
| SessionRuntime.SessionRuntime.CreateFails | src/codex_a2a_server/execution/session_runtime.py:206-210 | The section after a failed create computes its step |
| SessionRuntime.SessionRuntime.RecordSession | src/codex_a2a_server/execution/session_runtime.py:212-225 | The last section of the create path computes its step |
| SessionRuntime.SessionRuntime.FinalizePreferredSession | src/codex_a2a_server/execution/session_runtime.py:227-246 | The finalization of a preferred session computes its step |
| SessionRuntime.SessionRuntime.ReleaseClaim | src/codex_a2a_server/execution/session_runtime.py:248-251 | The release computes its step |
| SessionRuntime.SessionRuntime.ClaimSession | src/codex_a2a_server/execution/session_runtime.py:253-266 | The claim computes its step |
| SessionRuntime.SessionRuntime.FinalizeSessionClaim | src/codex_a2a_server/execution/session_runtime.py:268-280 | The finalization of a claim computes its step |
| SessionRuntime.SessionRuntime.SessionOwnerMatches | src/codex_a2a_server/execution/session_runtime.py:285-293 | The ownership question computes its step |
| SessionRuntime.SessionRuntime.CancelRunningRequest | src/codex_a2a_server/execution/session_runtime.py:144-166 | Removes the binding and the registered create of whoever runs the request, and reports them |
| SessionRequests.RuntimeIsRun | src/codex_a2a_server/execution/executor.py:163-282 | Requests change the runtime through locked sections only: any interleaving of requests is, for the runtime, an interleaving of sections |
| SessionRequests.RequestsShareNoSession | src/codex_a2a_server/execution/session_runtime.py:168-280 | Over every interleaving of requests that never evicted a live owner, no session is bound to two identities |
| RequestSteps.BeginsPreferred | src/codex_a2a_server/execution/session_runtime.py:177-192 | A chat request that names a session gets exactly that session, or is refused exactly if another identity owns or claims it; it has a claim to settle exactly if nobody owns it |
| RequestSteps.BeginsAnyhow | src/codex_a2a_server/execution/session_runtime.py:194-202 | A chat request that names none gets exactly the session its context is bound to; if there is none it waits for the registered create of its context, and starts one exactly if there is none either |
| RequestSteps.BeginsControl | src/codex_a2a_server/execution/session_runtime.py:253-266 | A control request claims the session it names, or is refused exactly if another identity owns or claims it |
| RequestSteps.Wakes | src/codex_a2a_server/execution/session_runtime.py:204-225 | A request whose create returned gets what it returned, unless somebody else owns that by then; if the create failed or was stopped the request ends |
| RequestSteps.TakesLock | src/codex_a2a_server/execution/executor.py:171-172 | A request takes the lock of its session if it is free and queues for it otherwise |
| RequestSteps.Finalizes | src/codex_a2a_server/execution/executor.py:208-214 | A claim is settled by the section for its kind of request; a refusal ends the request with its claim still to be released |
| RequestSteps.Leaves | src/codex_a2a_server/execution/executor.py:265-272 | How a request reaches its `finally` block, and when a second cancellation can end it there |
| RequestSteps.GivesBack | src/codex_a2a_server/execution/executor.py:265-278 | The `finally` block releases an unsettled claim and then the lock, if the request ever asked for one |
| RequestSteps.Cancels | src/codex_a2a_server/execution/executor.py:163-172 | Cancelling a request that waits for a running create asks the create to stop and nothing else; at any other await it ends the request |
| RequestSteps.CreatesEnd | src/codex_a2a_server/execution/session_runtime.py:144-160 | A create ends once and is stopped only if asked to; cancelling a context asks its registered create |
| RequestSteps.OutOfTurn | src/codex_a2a_server/execution/session_runtime.py:168-225 | A request that is not at the point in question is not moved on |
| RequestSteps.SessionsAreSourced | src/codex_a2a_server/execution/session_runtime.py:168-225 | In every interleaving each request talks to the session it named, or else to the one its context was bound to when it began, or to the one the create of its context returned |
| SessionRequests.NoLeakedClaims | src/codex_a2a_server/execution/executor.py:163-282 | Throughout an interleaving, whatever fails or is cancelled, every pending claim is held by an unfinished request of that identity that has not finalized it, if and only if no claim's only holder was cancelled again while it waited to release it |
| SessionRequests.ClaimsKept | src/codex_a2a_server/execution/executor.py:265-272 | The same for one action, on the state before it |
| SessionRequests.ClaimCanBeStranded | src/codex_a2a_server/execution/executor.py:265-272 | A run in which that happens: all requests are over, and nobody but the identity can ever claim the session |
| SessionRequests.NothingClaimedAtRest | src/codex_a2a_server/jsonrpc/session_control.py:72-163 | When all chat and control requests are done nothing is claimed |
| SessionRequests.OneCreatePerContext | src/codex_a2a_server/execution/session_runtime.py:194-202 | At most one create per identity and context is under way that is not being cancelled, and it is the registered one |
| SessionRequests.NoSecondCreate | src/codex_a2a_server/execution/session_runtime.py:199-202 | While a create is registered, no action starts another for its key |
| SessionRequests.WaitersAgree | src/codex_a2a_server/execution/session_runtime.py:204-225 | All requests that got their session from the same create have the same session |
| SessionRequests.OldWaiterSparesNewer | src/codex_a2a_server/execution/session_runtime.py:206-224 | A waiter on an old create never unregisters a newer one |
| SessionRequests.StoppedCreateStays | src/codex_a2a_server/execution/session_runtime.py:204-210 | A create cancelled through its waiter stays registered, whatever happens, until the context is cancelled |
| SessionRequests.LocksKept | src/codex_a2a_server/execution/executor.py:277-278 | An action keeps mutual exclusion if and only if it does not release a lock its request never got |
| SessionRequests.ExclusiveExactly | src/codex_a2a_server/execution/executor.py:171-278 | Mutual exclusion holds throughout a run if and only if no action of it did that |
| SessionRequests.OneChatPerSession | src/codex_a2a_server/execution/executor.py:171-278 | In every interleaving in which nobody is cancelled while queued, no two chat requests talk to the same session |
| SessionRequests.NothingLockedAtRest | src/codex_a2a_server/execution/executor.py:265-282 | And when all requests are done every session lock is free |
| SessionRequests.QueuedCancelBreaksExclusion | src/codex_a2a_server/execution/executor.py:277-278 | Cancelling a queued request lets a third one in beside the holder |
| SessionRequests.ExclusionCanBreak | src/codex_a2a_server/execution/executor.py:277-278 | Such states are reached, with any limits |
| Executor.GetOrCreateSession | src/codex_a2a_server/execution/session_runtime.py:168-225 | A preferred session is got exactly if no other identity owns or claims it, and leaves a claim exactly if nobody owns it; otherwise it is the live binding, or else the created session exactly if nobody else owns it; the runtime is as after the locked sections run |
| Executor.Execute | src/codex_a2a_server/execution/executor.py:148-282 | It completes exactly if it gets a session and its lock and the upstream answers; whatever fails it leaves no claim of its own and releases the session; a completed claim is owned and bound |
| Executor.FinalizeBinding | src/codex_a2a_server/execution/executor.py:208-214 | The holder of a claim finalizes it: owned, bound and no longer claimed |
| Executor.CleanUp | src/codex_a2a_server/execution/executor.py:265-278 | `finally` gives back the claim and the lock, whoever holds it |
| Executor.HandleSessionControl | src/codex_a2a_server/jsonrpc/session_control.py:72-163 | It is forbidden exactly if the caller has an identity and another one owns or claims the session, and succeeds exactly if it is not and the upstream answers; it leaves no claim of its own, success makes a claimed session the caller's, and a caller without an identity changes nothing |

## Left out

- Executor.Execute: runs one request by itself, with the outcomes of its awaits given, among them whether the holder of the session lock hands it over; what other requests do meanwhile is in SessionRequests. The streaming task and the status events it starts are in StreamLoop and Completion.
- SessionRuntime.BindingsAgreeWithOwners: takes one clock reading per locked section, where the code takes one per cache call; SeparateReadingsLag says how far apart the two expiries then are.
- PartHistory.GeneratedTextIsBuffer: holds up to the first snapshot that does not extend the buffer, which the source takes over silently.
- Asynchronous execution: coroutines are state machines whose steps interleave (SessionRequests), sequences of inputs (StreamRun, FanOut) or straight-line methods (Executor); scheduling, timers and retry sleeps are inputs.
- The 0.05 s wait after completion: that all queued events are drained by then is a hypothesis of the end-to-end statements.
- An exception raised by the event queue in the middle of handling an event.
- Token usage, metrics, idle logging and the other diagnostics.
- JSON and HTTP: decoding, validation, error mapping and the shape of the metadata; events and notifications come with decoded fields.
- Role normalization, classification of part types and recognition of tool payloads: their results are fields of the events.
- Details and questions of interrupts, which are passed through, and the replies to them.
- Sessions' lock objects: a lock is an element of the set of locked sessions; the order of its waiters is not modelled.
- Requests to the child process, their correlation and their own time-outs.
- The part of `consume_codex_stream` that computes how long to wait: any wait may time out.
- Non-streaming completion, the agent card, settings, the command line and directory policy.
