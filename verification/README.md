# Verified model of the protocol-rewriting core

The proxy rewrites LLM response streams and conversation histories between two protocols. This project models the
small transducers that do it, and the run-time state machines around them, and proves what they guarantee over every
run.

The centre is `StreamContract.Contract`, the shape every Anthropic event stream must have. It is the repository's own
stream checker (`CheckContract` is proved to decide it), and every producer below is proved to meet it.

| module | what it models |
|---|---|
| `Basics` | options, joining, collecting over sequences, Python's white space and `find` |
| `StreamContract`, `ContractMeaning` | events, the contract, the checker, the text and thinking a client reads; the contract said by the places of events |
| `NativeBlockPolicy`, `NativeBlockTracking`, `NativeBlockTheorems`, `NativeBlockMeaning`, `NativeBlockRestarts` | overlapping upstream blocks in, contract-abiding stream out |
| `ThinkTags` | the incremental think-tag parser against one pass over the whole text |
| `SseFraming`, `EmittedTracker` | SSE frames (WHATWG HTML Living Standard, section 9.2.6), their reader, and the recovery tail after a failure |
| `NativeRelay` | the native stream end to end: policy, formatting, relaying by lines or events, failure, recovery |
| `OpenAiInput`, `SseBuilder`, `OpenAiStream`, `OpenAiResponse`, `TaggedResponse` | OpenAI-compatible chunks in, Anthropic stream out, for any ending |
| `ToolOpening`, `ToolCallTheorems`, `OpenAiMeaning` | what a client is told: how a tool call is started, its name, a Task's arguments; what a chunk and an ending show |
| `Conversion`, `ConversionTheorems`, `ConversionMeaning` | conversation histories converted to OpenAI messages; what each message becomes |
| `SlidingWindow`, `MessageQueue`, `SessionManager`, `ProviderHealth` | rate limiter, compacting queue, session ids, circuit breaker |
| `TranscriptBuffer`, `TranscriptMeaning`, `TranscriptShown`, `TranscriptRender`, `MessageLog` | chat transcript, said by the events it is for, its truncation, message-id log |

Code that changes fields is a class whose methods equal a step function on values; the guarantees are lemmas about
runs of that function, or about inputs alone. Yielding an event is appending it to a sequence. Raising is `None` or
a `false` out-parameter. JSON, ids, clocks and the outcome of a submitted function are parameters. The modules named
`...Meaning`, with `ToolOpening` and `TranscriptShown`, say what comes out in terms of the inputs, the fields of events and
literal texts.

Where code and documentation or expectation differ, the code is modelled and the difference is proved:

- `core/rate_limit.py` promises at most `rate_limit` acquisitions in *any* interval of one window. Half-open intervals
  hold that many; a closed one can hold more, exactly when two acquisitions `rate_limit` places apart are exactly one
  window apart (`SlidingWindow.ClosedWindowsHoldLimitIff`, `SlidingWindow.ClosedWindowCanHoldMore`).
- `core/anthropic/conversion.py` repeats deferred assistant content after every tool result that follows the
  completing one in the same user turn (`ConversionTheorems.ContentIsNeverLost`, `ConversionTheorems.RepeatedByLaterResult`).
- `core/anthropic/native_sse_block_policy.py` abandons an open block when its upstream index is started again. On streams
  that keep its other rules the output meets the contract if and only if this never happens and every block is closed
  (`NativeBlockTheorems.ContractExactlyWhenSettled`, `NativeBlockRestarts.RestartWhileOpenBreaksContract`;
  `NativeBlockRestarts.RestartIsWhatBreaksIt` has the shortest case). However any stream goes on, the abandoned block is
  closed exactly by a stop whose upstream index was never used and equals the block's downstream index
  (`NativeBlockRestarts.AbandonedUntilRawStop`, `NativeBlockRestarts.RawStopClosesAbandoned`).
- It also loses the text of a block whose index it has dropped before: text is preserved if and only if none arrives for a
  dropped index (`NativeBlockTheorems.TextPreservedIff`, `NativeBlockTheorems.DroppedIndexHearsNothing`).
- The same file lets thinking through that is disabled, exactly that of deltas without an index
  (`NativeBlockTheorems.ThinkingPolicyHolds`, `NativeBlockTheorems.NoThinkingExactlyWhenIndexed`,
  `NativeBlockTheorems.UnindexedThinkingGetsThrough`).
- A tool name that arrives in pieces is shown cut: the client is told the first one, which is the final name if and only
  if no later fragment changes it (`ToolCallTheorems.NameIsFinalIff`, `ToolCallTheorems.SplitNameIsShownCut`).
- A call shown as Task may run in the background: its arguments are sent as they come whenever its name is not exactly
  Task, because of white space or because it has grown since it was shown
  (`ToolCallTheorems.ShownTaskRunsInForegroundIff`, `ToolCallTheorems.SpacedTaskIsNotOne`,
  `ToolCallTheorems.RenamedTaskIsSentRaw`).
- `core/anthropic/emitted_sse_tracker.py` raises on a start or stop without an index, which the policy passes on. On a
  stream sent by lines (`providers/anthropic_messages.py:310-324`) all of that event but its empty line has then been
  sent, and the first recovery event is spoiled for the client; on a stream sent by events it is not. A failing upstream
  never does this (`NativeRelay.StreamNative`, `NativeRelay.ClientReadsStream`, `NativeRelay.IndexlessStopSpoils`).
- A stream that fails after something was sent but before `message_start` was is ended without one
  (`EmittedTracker.RecoveryCompletesStream`, `NativeRelay.FailedStreamCompletes`).
- A session is removed by an id that leads to it if and only if that is not its temporary id after it has got a real one
  (`SessionManager.RemoveStopsExactlyUnregisteredIds`, `SessionManager.TempIdDoesNotRemove`).
- Under a cap, a chat's message log differs from the newest part of the uncapped one if and only if an id is recorded
  again after at least `cap` newer ones (`MessageLog.CappedIsNewestIff`, `MessageLog.ReturnedIdComesBack`). Loading does
  not cut; the next new record does (`MessageLog.NewRecordCutsToCap`).
- The circuit breaker is cleared by a query. It is available if and only if it is not blocked or a query has cleared it
  (`ProviderHealth.AvailableUnlessBlocked`); on a clock that does not go back that changes no answer
  (`ProviderHealth.QueriesDoNotMatter`), on one that does it can (`ProviderHealth.ClockSetBack`).

## Model

| member | source | states |
|---|---|---|
| StreamContract.CheckContract | core/anthropic/stream_contracts.py:109-174 | the checker accepts exactly the streams that meet the contract |
| StreamContract.TextContent | core/anthropic/stream_contracts.py:181-193 | the text of a stream: eager text of starts and text deltas, in order |
| StreamContract.ThinkingContent | core/anthropic/stream_contracts.py:196-202 | the thinking of a stream: thinking deltas, in order |
| ContractMeaning.ContractMeans | core/anthropic/stream_contracts.py:109-174 | the contract by places: a start first, a stop last, some block; no index started twice, each block of a known kind and stopped, each delta within a block of the kind that takes it |
| ContractMeaning.ReadsTextAndThinking | core/anthropic/stream_contracts.py:181-202 | a client reads the text of a text start and of text deltas, the thinking of thinking deltas, and nothing of other events |
| NativeBlockPolicy.BlockPolicy.SyntheticCloseOtherOpenBlocks | core/anthropic/native_sse_block_policy.py:129-150 | closes every open block but one and remembers to swallow their stops |
| NativeBlockPolicy.BlockPolicy.AllocateNewSegment | core/anthropic/native_sse_block_policy.py:153-169 | a fresh downstream index for an upstream block |
| NativeBlockPolicy.BlockPolicy.Transform | core/anthropic/native_sse_block_policy.py:172-313 | one upstream event changes the policy state and is answered as the step function says |
| NativeBlockPolicy.TransformStream | core/anthropic/native_sse_block_policy.py:172-313 | a whole stream through the policy is the run of that step function the theorems are about |
| NativeBlockTheorems.PolicyMeetsContract | core/anthropic/native_sse_block_policy.py:129-313 | for every upstream stream whose blocks each start and stop in order, however they overlap, the output meets the whole contract |
| NativeBlockTheorems.ContractExactlyWhenSettled | core/anthropic/native_sse_block_policy.py:129-313 | for every tracked stream that ends with `message_stop`: the output meets the contract if and only if the input has a start (and no error, unless allowed), all its blocks are closed, and none was started again while open |
| NativeBlockTracking.RunAgrees | core/anthropic/native_sse_block_policy.py:172-313 | at every moment the checker's open blocks are exactly the policy's open segments, with matching kinds; anything else open is a block abandoned by a restart |
| NativeBlockTheorems.IndicesCountUp | core/anthropic/native_sse_block_policy.py:153-169 | downstream indices are 0, 1, 2, ... in start order, never reused |
| NativeBlockTheorems.StartStandsAlone | core/anthropic/native_sse_block_policy.py:129-150 | right after a forwarded start, its block is the only open one |
| NativeBlockTheorems.DeltasKeepTheirBlock | core/anthropic/native_sse_block_policy.py:213-289 | per upstream block, the deltas over all its downstream segments are those upstream sent, in order, minus dropped thinking |
| NativeBlockTheorems.TextPreserved | core/anthropic/native_sse_block_policy.py:172-313 | on tracked streams the client's text is upstream's text |
| NativeBlockTheorems.TextHeardIsShown | core/anthropic/native_sse_block_policy.py:172-313 | on any input the client's text is that of all events but the deltas for dropped indices |
| NativeBlockTheorems.TextPreservedIff | core/anthropic/native_sse_block_policy.py:189-222 | on any input the text is preserved if and only if no text arrives for a dropped index |
| NativeBlockTheorems.ThinkingPolicyHolds | core/anthropic/native_sse_block_policy.py:121-126 | on any input: with thinking enabled all of it gets through; disabled, exactly that of deltas without an index |
| NativeBlockTheorems.NoThinkingExactlyWhenIndexed | core/anthropic/native_sse_block_policy.py:213-220 | disabled, none gets through if and only if no delta without an index has any |
| NativeBlockTheorems.UnindexedThinkingGetsThrough | core/anthropic/native_sse_block_policy.py:218-220 | an input where disabled thinking gets through |
| NativeBlockMeaning.WhatIsDropped | core/anthropic/native_sse_block_policy.py:121-126 | with thinking disabled exactly the kinds with "thinking" in them are dropped; enabled, none |
| NativeBlockMeaning.KindsOfThinking | core/anthropic/native_sse_block_policy.py:121-126 | thinking, redacted_thinking and thinking_delta are such kinds; signature, text and tool kinds are not |
| NativeBlockMeaning.StartIsShownIff | core/anthropic/native_sse_block_policy.py:189-211 | after any input an indexed start with a string kind is sent unless thinking is disabled and its kind has "thinking" in it: under the next index, its block unchanged, after the stops of exactly the other open blocks, which then swallow their own |
| NativeBlockMeaning.DeltaIsShownIff | core/anthropic/native_sse_block_policy.py:213-289 | after any input a delta is sent unchanged unless its index was hidden or its kind has "thinking" in it: in the open block of its index, else in a new empty one of its kind; of unknown kinds, and thinking never started, as it is |
| NativeBlockMeaning.DeltasAreShown | core/anthropic/native_sse_block_policy.py:213-289 | the deltas of any input come out once each, unchanged and in order, but for the hidden ones |
| NativeBlockMeaning.StopIsShownIff | core/anthropic/native_sse_block_policy.py:291-311 | after any input a stop is sent under its block's downstream index if and only if that block is open and no synthetic stop is owed; for an index never used only with thinking enabled, as it is |
| NativeBlockMeaning.UnstartedDelta | core/anthropic/native_sse_block_policy.py:258-289 | a delta for an index never started: text and tool arguments get a block, the tool with an id made from the index and empty name and input; thinking passes as it is |
| NativeBlockMeaning.UnknownDeltaPasses | core/anthropic/native_sse_block_policy.py:222-224 | a delta of an unknown kind passes as it is |
| NativeBlockTheorems.OtherEventsPassThrough | core/anthropic/native_sse_block_policy.py:172-313 | events that are not about blocks pass unchanged, in order, and none is added |
| NativeBlockTheorems.OtherEventsStayInPlace | core/anthropic/native_sse_block_policy.py:172-313 | such an event keeps its place among all others: without it the output is the same but for it |
| NativeBlockTheorems.ReopenedToolKeepsIdentity | core/anthropic/native_sse_block_policy.py:85-118 | a tool call cut in two reopens with the id, name and input it was started with |
| NativeBlockMeaning.ReopenedToolIsCompleted | core/anthropic/native_sse_block_policy.py:85-118 | on any input and field by field, with what a missing id, name or input, or a block that was no tool, is replaced by |
| NativeBlockRestarts.RestartWhileOpenBreaksContract | core/anthropic/native_sse_block_policy.py:202-209 | for every tracked stream: once an open block is started again, the output breaks the contract however the stream goes on |
| NativeBlockRestarts.AbandonedUntilRawStop | core/anthropic/native_sse_block_policy.py:291-311 | whatever follows a restart, tracked or not: the abandoned block stays open until a stop comes whose index is unused, not dropped, and the block's downstream index; without one the contract is broken |
| NativeBlockRestarts.RawStopClosesAbandoned | core/anthropic/native_sse_block_policy.py:309-311 | an untracked stream whose restart is repaired that way |
| NativeBlockRestarts.RestartWhileOwedNeedsTwoStops | core/anthropic/native_sse_block_policy.py:296-304 | a block started again while its old stop is still to come is closed by the second stop, not the first |
| NativeBlockRestarts.RestartIsWhatBreaksIt | core/anthropic/native_sse_block_policy.py:202-209 | a stream that meets the contract without its second start and breaks it with it |
| NativeBlockTheorems.DroppedIndexHearsNothing | core/anthropic/native_sse_block_policy.py:189-222 | once an index has been dropped, taking its later deltas and stops out of any input changes neither state nor output; yet a new start for it is sent |
| ThinkTags.ParseInPieces | core/anthropic/thinking.py:42-140 | any chunking, then flush, gives character by character what one pass over the joined text gives |
| ThinkTags.ReadsTags | core/anthropic/thinking.py:29-140 | the scan on the tags written out: text before a tag, thinking from `<think>` to the next `</think>` or the end, a lone `</think>` left out |
| ThinkTags.HeldBack | core/anthropic/thinking.py:84-99 | the list of all beginnings of tags that can be held back |
| ThinkTags.ThinkTagParser.ParseOutsideThink | core/anthropic/thinking.py:58-99 | what is yielded outside a tag is settled whatever text follows; only the beginning of a tag is kept back |
| ThinkTags.ThinkTagParser.ParseInsideThink | core/anthropic/thinking.py:101-129 | the same inside a tag |
| ThinkTags.ThinkTagParser.Feed | core/anthropic/thinking.py:42-56 | every feed terminates and adds what the text so far settles |
| ThinkTags.ThinkTagParser.Flush | core/anthropic/thinking.py:131-140 | with the held-back text, all that was said is the one-pass scan of all text fed |
| SseFraming.ParseSseLines | core/anthropic/stream_contracts.py:58-79 | the frames among some lines |
| SseFraming.ParseUndoesFormat | core/anthropic/sse.py:45-47 | a formatted frame reads back as itself |
| SseFraming.LinesRead | core/anthropic/stream_contracts.py:58-79 | several data lines make one frame, other lines are left out, the last frame needs no empty line |
| SseFraming.NothingRead | core/anthropic/stream_contracts.py:58-79 | empty lines make no frame; a field may be empty |
| SseFraming.LineEndsAtBreak | providers/anthropic_messages.py:322-323 | where `splitlines` ends a line, with and without its break |
| SseFraming.FormattedSplits | core/anthropic/emitted_sse_tracker.py:24-36 | a formatted stream splits into exactly its frames, nothing left over |
| SseFraming.SplitAppend | core/anthropic/emitted_sse_tracker.py:24-36 | splitting can stop after any prefix and resume with the rest |
| EmittedTracker.Tracker.Observe | core/anthropic/emitted_sse_tracker.py:38-61 | one event changes what is known of the stream sent |
| EmittedTracker.NotesAreLatest | core/anthropic/emitted_sse_tracker.py:38-61 | over any events: message id and model are the last given, the highest index is that of a block started |
| EmittedTracker.Tracker.Feed | core/anthropic/emitted_sse_tracker.py:24-36 | wherever text is cut, exactly the completed frames have been observed |
| EmittedTracker.WatchChunks | core/anthropic/emitted_sse_tracker.py:24-61 | however a formatted stream is cut, the tracker ends up knowing exactly the events sent |
| EmittedTracker.Tracker.CloseUnclosedBlocks | core/anthropic/emitted_sse_tracker.py:68-75 | stops for the open blocks, last started first |
| EmittedTracker.Tracker.MidstreamErrorTail | core/anthropic/emitted_sse_tracker.py:77-97 | the error as a text block under the next index, then the end of the message |
| EmittedTracker.RecoveryCompletesStream | core/anthropic/emitted_sse_tracker.py:64-97 | any prefix of a legal stream followed by the closing stops and the tail meets the whole contract if and only if `message_start` was in it (and no error, unless allowed) |
| EmittedTracker.RelayThenFail | core/anthropic/emitted_sse_tracker.py:24-97 | fed a legal prefix in any chunks, even with a frame not yet at its end, the tracker adds what completes the events fed whole |
| EmittedTracker.ClientReadsWhole | core/anthropic/emitted_sse_tracker.py:24-36 | text that ends between frames or after an event line does not disturb what is added |
| EmittedTracker.ClientReadsSpoiled | core/anthropic/emitted_sse_tracker.py:24-36 | text that lacks only the empty line of a frame spoils the data of the first frame added; all others are right |
| SseFraming.KeptLinesOfFrame | providers/anthropic_messages.py:322-323 | a formatted frame is sent as its event line, its data line and an empty one |
| NativeRelay.PolicyKeepsIndices | core/anthropic/native_sse_block_policy.py:172-313 | the policy passes a start or stop without an index on alone, and makes no other such event |
| NativeRelay.NotedUnlessIndexless | core/anthropic/emitted_sse_tracker.py:38-61 | the tracker fails on exactly those |
| NativeRelay.SendOutput | providers/anthropic_messages.py:384-396 | the tracker reads each chunk before it is sent; where it fails, by lines the frame but its last line has been sent, by events nothing of it |
| NativeRelay.StreamNative | providers/anthropic_messages.py:302-449 | for every stream, sent by lines or by events, ending or failing: the tracker fails if and only if some start or stop has no index, and the text sent is the events relayed, what is cut off, and what is added |
| NativeRelay.ClientReadsStream | providers/anthropic_messages.py:302-449 | the client reads the events relayed and those added; only when the tracker fails on a stream sent by lines the first added is spoiled |
| NativeRelay.FailedStreamCompletes | providers/anthropic_messages.py:406-449 | a failing stream, tracked until then, is completed to the contract if and only if nothing had been sent or the message had been started |
| NativeRelay.FailureIsTold | core/anthropic/emitted_sse_tracker.py:77-97 | whenever the stream fails, the text the client gets is the text relayed followed by the error message, then `end_turn` and `message_stop`; with nothing sent before, after a start with a fresh id and the model |
| NativeRelay.WholeStreamIsRelayed | providers/anthropic_messages.py:302-410 | a stream that does not fail is read by the client as the policy sends it, nothing added |
| NativeRelay.SpoiledBreaksContract | providers/anthropic_messages.py:322-323 | a client that finds no index in the spoiled start or stop sees the contract broken |
| NativeRelay.IndexlessStopSpoils | providers/anthropic_messages.py:389-395 | the shortest input where that happens |
| ToolCallTheorems.ExtendedNameIsLast | core/anthropic/sse.py:93-109 | of name fragments that extend each other, the last is the name |
| ToolCallTheorems.SplitNameIsWhole | core/anthropic/sse.py:93-109 | a name in pieces, none of which begins what came before or is begun by it, is all of them joined |
| ToolCallTheorems.NameIsMerged | core/anthropic/sse.py:93-109 | a call's name is its name fragments merged, whatever other calls do in between |
| ToolOpening.FirstNameIsShown | providers/openai_compat.py:257-263 | the client is shown the first name a call has, without surrounding white space |
| ToolOpening.OpeningStartsCall | core/anthropic/sse.py:305-319 | by fields: the block has the last non-empty id given until the first name came, or a fresh one, that name stripped, and an empty input |
| ToolOpening.IdIsLastGiven | providers/openai_compat.py:232-262 | the id kept for a call is the last non-empty one given, or none was given |
| OpenAiMeaning.DeltaIsForCall | providers/openai_compat.py:238-240 | a delta is for the index it gives, or without one for the next new call if none was left out |
| OpenAiMeaning.CallsAreShownWhenNamed | providers/openai_compat.py:245-262 | the calls shown are those of the deltas that first name one, in that order, each started with the id it has by then |
| OpenAiMeaning.TaskArguments | core/anthropic/sse.py:111-126 | arguments in two fragments: a Task's are sent once they are an object, run in the foreground, and raise when they are JSON but no object; other tools' are sent as they come |
| ToolCallTheorems.NameIsFinalIff | core/anthropic/sse.py:93-109 | a name is the final one if and only if every later fragment repeats it or its beginning |
| ToolCallTheorems.SplitNameIsShownCut | providers/openai_compat.py:257-263 | "Ba" and "sh" are shown as "Ba" |
| ToolCallTheorems.FragmentsAreReceived | providers/openai_compat.py:264-290 | the fragments handled for a call with a name are all that was received for it, in order |
| ToolCallTheorems.OthersAreVerbatim | providers/openai_compat.py:203-226 | a call never named Task carries exactly the arguments received, however the stream ends |
| ToolCallTheorems.AttemptsAreBeginnings | core/anthropic/sse.py:111-126 | what is tried to parse are beginnings of what is gathered while the name is Task |
| ToolCallTheorems.TaskIsFirstParse | core/anthropic/sse.py:111-158 | by the arguments alone, a call only ever named Task sends nothing, an empty object, or the first beginning that is JSON, an object made to run in the foreground |
| ToolCallTheorems.ForegroundOnly | core/anthropic/sse.py:111-126 | that object has `run_in_background` false and is otherwise unchanged |
| ToolCallTheorems.ShownTaskRunsInForegroundIff | providers/openai_compat.py:203-226 | whatever a call's names are, none of its arguments is sent as it comes if and only if all are handled while its name is exactly Task |
| ToolCallTheorems.FinalNameDecides | providers/openai_compat.py:203-207 | a call shown as Task whose name stays is treated as a Task always or never, by white space around its name |
| ToolCallTheorems.RenamedTaskIsSentRaw | providers/openai_compat.py:203-226 | "Task" that grows to "Tasks" is shown as Task and its arguments are sent as they come |
| ToolCallTheorems.SpacedTaskIsNotOne | providers/openai_compat.py:203-207 | " Task" is shown as "Task" and treated as any other tool |
| OpenAiInput.NoNameNoFragments | providers/openai_compat.py:254-276 | without a name no arguments are handled |
| OpenAiInput.RaisedStays | core/anthropic/sse.py:111-126 | once some Task's arguments have raised, every longer input raises |
| OpenAiInput.OnlyTasksRaise | providers/openai_compat.py:203-207 | a call that is never named Task cannot raise |
| SseBuilder.Builder.EnsureThinkingBlock | core/anthropic/sse.py:332-336 | closes text, opens thinking if needed; the stream stays legal |
| SseBuilder.Builder.EnsureTextBlock | core/anthropic/sse.py:338-342 | closes thinking, opens text if needed; the stream stays legal |
| SseBuilder.Builder.EmitHeuristicTool | providers/openai_compat.py:36-57 | a tool call found in text is one whole block; a Task runs in the foreground |
| SseBuilder.Builder.RegisterToolName | core/anthropic/sse.py:93-109 | name fragments extend or repeat what came before |
| SseBuilder.Builder.StartToolBlock | core/anthropic/sse.py:305-319 | a tool block under a fresh index |
| SseBuilder.Builder.EmitToolDelta | core/anthropic/sse.py:321-326 | an argument delta goes to the call's own open block and is recorded |
| SseBuilder.Builder.CloseAllBlocks | core/anthropic/sse.py:344-354 | after it nothing is open and every index below the next was started once |
| SseBuilder.Builder.EmitError | core/anthropic/sse.py:356-360 | the message as a text block under an unused index |
| SseBuilder.BlocksDiffer | core/anthropic/sse.py:305-330 | different tool calls stream into different blocks |
| OpenAiStream.BufferTaskArgs | core/anthropic/sse.py:111-126 | Task fragments gather until they parse; JSON that is no object raises |
| OpenAiStream.EmitToolArgDelta | providers/openai_compat.py:188-226 | one fragment is sent at once, or gathered for a Task |
| OpenAiStream.OpenNamedCall | providers/openai_compat.py:257-274 | a call that gets a name is opened with its id, or a fresh one, and sends what came before the name |
| OpenAiStream.ProcessToolCall | providers/openai_compat.py:228-290 | every delta, named or not yet, keeps each call's account of fragments received and sent; it fails exactly when it makes a Task raise |
| OpenAiStream.DeltaProcessed | providers/openai_compat.py:228-290 | the account of all calls after one delta, over the calls' states alone |
| OpenAiStream.OpenedByDelta | providers/openai_compat.py:245-262 | a delta opens its own call at most once and no other |
| OpenAiStream.StartingCallOk | providers/openai_compat.py:257-290 | fragments that came before the name are sent first, then the rest |
| OpenAiStream.StreamPiece | providers/openai_compat.py:398-457 | one chunk: reasoning, text, then tool calls, possibly ending in an exception half way |
| OpenAiResponse.FlushTaskArgs | core/anthropic/sse.py:132-158 | Task arguments that never became an object are closed off as an empty object |
| OpenAiResponse.FlushedDelivers | providers/openai_compat.py:292-295 | after the flush a call's deltas are what its fragments make, whatever names it had: those handled under other names as they came, and the one object in the place where those handled as Task first parse |
| OpenAiResponse.CompleteStream | providers/openai_compat.py:491-571 | a normal end: rest of the parser, filler, gathered arguments, closed blocks, stop reason |
| OpenAiResponse.FailStream | providers/openai_compat.py:461-489 | a failure at any point ends legally, as assistant text unless a tool was started |
| OpenAiResponse.StreamResponse | providers/openai_compat.py:336-571 | for every sequence of chunks and any ending: the contract holds; text, thinking, tools found in text and the starts of native calls come out whole and in the order received; each named native call has its own block, started once with its id and name and carrying what its argument fragments make, whatever names it had; it completes exactly when the provider finishes and no Task raises |
| OpenAiResponse.EndResponse | providers/openai_compat.py:461-571 | the ending by itself: stop reason, last text, tools delivered, for a stream begun in any way |
| OpenAiResponse.StopReasons | core/anthropic/sse.py:25-36 | the stop reason of each finish reason |
| OpenAiMeaning.NextPartShows | providers/openai_compat.py:413-445 | thinking and text of a chunk in their order, thinking only if enabled, text only if it says something, then the tools found in it |
| OpenAiMeaning.NextPieceShows | providers/openai_compat.py:398-457 | a chunk shows its content and then the calls it names |
| OpenAiMeaning.EndShows | providers/openai_compat.py:491-530 | what the parser still holds is shown last, then the tools found late |
| OpenAiMeaning.EventsAreRead | core/anthropic/sse.py:240-330 | how text, thinking, tools and their arguments are read off the events |
| OpenAiMeaning.FoundToolShows | providers/openai_compat.py:36-57 | a tool found in text has its own id and name and its whole input, a Task's in the foreground |
| TaggedResponse.PartsSpell | providers/openai_compat.py:413-436 | the parts streamed say what the parser's chunks spell |
| TaggedResponse.StreamTaggedText | providers/openai_compat.py:413-530 | however the provider cuts its text, the client gets the text outside and the thinking inside the tags of the joined text |
| TaggedResponse.TaggedTextReads | core/anthropic/thinking.py:42-140 | that text and thinking on the tags written out |
| TaggedResponse.FailTaggedText | providers/openai_compat.py:461-489 | a failing stream shows the same but for the beginning of a tag held back, and then the error |
| Conversion.ConvertAssistantMessage | core/anthropic/conversion.py:339-396 | text parts, calls and reasoning of assistant blocks; raises exactly on unsupported blocks |
| Conversion.ConvertAssistantMessageWithSplit | core/anthropic/conversion.py:282-336 | the message with the calls, and what has to wait for their results |
| Conversion.ConvertUserMessage | core/anthropic/conversion.py:470-503 | adjacent texts joined, results as tool messages; raises exactly on images |
| Conversion.ConvertUserMessageWithInjection | core/anthropic/conversion.py:411-467 | the same with waiting content put in after results that leave nothing outstanding; plain when nothing waits |
| Conversion.ConvertMessages | core/anthropic/conversion.py:165-279 | raises exactly when some turn holds an unsupported block; otherwise the run the theorems are about |
| ConversionTheorems.ContentIsNeverLost | core/anthropic/conversion.py:165-279 | every message converted in its place, deferred content of every turn put in between, exactly once each if and only if no user turn has results after its completing one |
| ConversionMeaning.HistoryBecomes | core/anthropic/conversion.py:165-279 | what every message of a history becomes, said by its role, texts, reasoning, calls and results alone, in place and order, with what is deferred put in between |
| ConversionMeaning.RolesAreKept | core/anthropic/conversion.py:217-235 | the user and system messages out have the roles and contents of the plain messages and the texts of user turns, in order |
| ConversionMeaning.ResultsAreKept | core/anthropic/conversion.py:55-73 | the tool messages have the ids and texts of the results, in order |
| ConversionMeaning.SerializedIs | core/anthropic/conversion.py:55-73 | what the content of a result is as text |
| ConversionMeaning.WaitsForItsCalls | core/anthropic/conversion.py:282-336 | a turn leaves something waiting if and only if it says something after its calls, and waits for their ids that are not blank |
| ConversionMeaning.WaitingComesFirst | core/anthropic/conversion.py:177-215 | what still waits is put in just before the next assistant turn or plain user message |
| ConversionMeaning.WaitingComesLast | core/anthropic/conversion.py:266-279 | or at the end |
| ConversionMeaning.AnswersById | core/anthropic/conversion.py:443-454 | a turn answers the ids of its results |
| ConversionMeaning.RaisesOnUnsupported | core/anthropic/conversion.py:144-161 | which messages raise |
| ConversionTheorems.AwaitingIsWaiting | core/anthropic/conversion.py:165-279 | the ids a history leaves unanswered, read off the history alone, are those the converter waits for |
| ConversionTheorems.AwaitingIsUnanswered | core/anthropic/conversion.py:165-279 | those are the ids the last deferring turn asked for less those answered since |
| ConversionTheorems.DeferredOnce | core/anthropic/conversion.py:411-467 | histories whose user turns answer each awaited call at most once and no unknown one get each deferred content exactly once |
| ConversionTheorems.DeferredFollowsLastResult | core/anthropic/conversion.py:443-461 | deferred content stands right after the result that answers the last of the turn's calls |
| ConversionTheorems.TimesEmitted | core/anthropic/conversion.py:455-461 | when a user turn puts the content in, and when more than once |
| ConversionTheorems.RepeatedByLaterResult | core/anthropic/conversion.py:455-461 | a history on which deferred content is repeated |
| ConversionTheorems.ToolsAreKept | core/anthropic/conversion.py:114-131 | tool calls out are the tool uses in, tool messages out are the results in, in order and with contents |
| ConversionTheorems.SplitTurnKeepsText | core/anthropic/conversion.py:282-336 | the two halves of a split turn hold all its text in order |
| ConversionTheorems.UserTurnKeepsText | core/anthropic/conversion.py:470-503 | the user messages of a turn say what its text blocks say |
| SlidingWindow.StrictSlidingWindowLimiter.TryAcquire | core/rate_limit.py:33-53 | the deque decides as the whole history would; the wait is exact |
| SlidingWindow.WindowHoldsAtMostLimit | core/rate_limit.py:13-16 | no half-open window holds more than the limit, whoever tries whenever |
| SlidingWindow.GrantedIff | core/rate_limit.py:33-53 | an attempt is granted if and only if there are fewer than `limit` acquisitions or the one `limit` places back is a window ago: nobody waits without need |
| SlidingWindow.GrantedIsSpaced | core/rate_limit.py:33-53 | acquisitions `limit` places apart are at least a window apart |
| SlidingWindow.ClosedWindowsHoldLimitIff | core/rate_limit.py:13-16 | exactly when closed intervals hold the limit too |
| SlidingWindow.AttemptKeepsClosedWindowsIff | core/rate_limit.py:33-53 | before each attempt: it keeps them within the limit unless it is granted exactly one window after the acquisition `limit` places back |
| SlidingWindow.ClosedWindowCanHoldMore | core/rate_limit.py:41-42 | an interval that holds more |
| MessageQueue.Queue.Enqueue | messaging/limiter.py:217-233 | submit, replacing the function and sharing the run of a queued key |
| MessageQueue.Queue.TakeNext | messaging/limiter.py:90-98 | take the oldest key; it always has an entry |
| MessageQueue.Queue.SetFutures | messaging/limiter.py:111-121 | the run's outcome goes to its futures that are not done |
| MessageQueue.ListMatchesMap | messaging/limiter.py:60-64 | the list has no repeats and lists exactly the map's keys, always |
| MessageQueue.LastFunctionAllFutures | messaging/limiter.py:219-224 | a key runs the last function submitted since it was last taken, for all futures submitted since then |
| MessageQueue.FuturesConserved | messaging/limiter.py:97-121 | futures submitted are those queued, running and finished: none lost, none duplicated |
| MessageQueue.EachFutureInOnePlace | messaging/limiter.py:97-121 | each future is in exactly one of the three |
| MessageQueue.FutureGetsItsRun | messaging/limiter.py:111-121 | a future gets the outcome of the run that carried it and keeps it |
| MessageQueue.KeyMoves | messaging/limiter.py:217-233 | where a queued key is after any operations: one place up per task taken, one down per new key inserted at the front |
| MessageQueue.KeyServedInTurn | messaging/limiter.py:97-98 | so the key at place p is taken after p others and those inserted before them at the front |
| MessageQueue.WorkerIsBusyIff | messaging/limiter.py:86-121 | the worker is busy exactly from taking a task until that has finished |
| SessionManager.CLISessionManager.GetOrCreateSession | cli/manager.py:69-111 | find a session by either id, or make one under a temporary id |
| SessionManager.CLISessionManager.RegisterRealSessionId | cli/manager.py:113-152 | move a session to its real id, replacing and stopping another one there |
| SessionManager.CLISessionManager.RemoveSession | cli/manager.py:154-170 | stop and forget a session by its key |
| SessionManager.CLISessionManager.StopEverything | cli/manager.py:172-198 | stop and forget all |
| SessionManager.ManagerIsConsistent | cli/manager.py:69-198 | for all calls: temp and real ids paired one to one, real ids those of active sessions, each session under one key or stopped |
| SessionManager.BothIdsLeadToSession | cli/manager.py:82-88 | both ids lead to the same session until it is removed, replaced or stopped |
| SessionManager.TempIdLeadsToNewSession | cli/manager.py:82-111 | a new session is found by its temporary id through any calls until it is registered or removed under it or all are stopped |
| SessionManager.RegistrationPairs | cli/manager.py:113-152 | registration makes both ids lead to the session that was waiting |
| SessionManager.UnknownIdLeadsNowhere | cli/manager.py:82-88 | an id never handed out or registered leads nowhere |
| SessionManager.DisturbedPairEnds | cli/manager.py:124-136 | and after that they do not |
| SessionManager.RemoveStopsExactlyUnregisteredIds | cli/manager.py:154-170 | in every reachable state, an id that leads to a session stops it if and only if it is not a registered temporary id; otherwise nothing changes |
| SessionManager.TempIdDoesNotRemove | cli/manager.py:154-170 | a run: create, register, remove by the temporary id; the session is still there |
| ProviderHealth.Health.IsAvailable | providers/health.py:24-32 | a query clears a circuit whose time is over |
| ProviderHealth.Health.RecordSuccess | providers/registry.py:275-282 | success closes the circuit |
| ProviderHealth.Health.RecordFailure | providers/registry.py:284-293 | the second failure in a row and every later one open the circuit for 60 seconds |
| ProviderHealth.UnavailableExactlyWhileBlocked | providers/health.py:24-32 | on a clock that does not go back: unavailable exactly when two failures since the last success and under 60 seconds since the latest |
| ProviderHealth.AvailableUnlessBlocked | providers/health.py:24-32 | on any clock: the same unless a query has cleared the circuit |
| ProviderHealth.QueriesDoNotMatter | providers/health.py:28-31 | clearing by queries never changes a later answer on such a clock |
| ProviderHealth.ClockSetBack | providers/health.py:28-31 | it does when the clock is set back |
| TranscriptBuffer.Buffer.Apply | messaging/transcript.py:343-524 | one event changes segments, open blocks and subagent stacks as the step function says |
| TranscriptBuffer.Buffer.SubagentPop | messaging/transcript.py:271-331 | a result closes the innermost matching Task and everything inside it, or nothing |
| TranscriptBuffer.TranscriptIsConsistent | messaging/transcript.py:256-331 | the two subagent stacks keep equal length; an open segment is the latest of its index |
| TranscriptMeaning.TranscriptSaysWhatWasHeard | messaging/transcript.py:343-406 | per index, the segments say exactly the deltas received while no Task runs, in order; which Tasks run is said by the events |
| TranscriptMeaning.RunningIsStack | messaging/transcript.py:256-331 | the stack holds exactly the Tasks the events leave running: opened and not ended since by a result with a related id, or by one that can be meant for a Task without id |
| TranscriptMeaning.RunningAreUnanswered | messaging/transcript.py:271-331 | where each Task is answered by its own id, innermost first, exactly the unanswered Tasks run: text is left out between a Task and its result and only there |
| TranscriptShown.TranscriptShowsEvents | messaging/transcript.py:343-524 | every segment is for one event, in order, with that event's heading, name, id, content and, for a Task, the calls made inside it; none is missing |
| TranscriptShown.TextGoesOnIff | messaging/transcript.py:343-440 | text goes on with the latest segment of its index if and only if that has not been stopped, else starts a new one; thinking too |
| TranscriptRender.Render | messaging/transcript.py:526-581 | everything if it fits, else the longest run of newest segments that fits, else the newest one's end filling the limit, else marker or status; over the limit only as a bare status |
| TranscriptRender.ShorterTailsAreShorter | messaging/transcript.py:556-564 | dropping segments never makes the text longer, so the first tail that fits is the longest |
| TranscriptRender.ShortTexts | messaging/transcript.py:541-581 | what the shortened texts hold |
| TranscriptRender.PartsAreShown | messaging/transcript.py:526-540 | segments that render to nothing leave no trace, the others keep their order |
| MessageLog.SessionStore.RecordMessageId | messaging/session.py:175-213 | a new id is appended and the log cut to its cap; ids and log stay in step |
| MessageLog.SessionStore.LoadLog | messaging/session.py:63-92 | the first item of each id per chat, replacing what was there |
| MessageLog.LoadedInOrder | messaging/session.py:63-92 | a loaded log is the first item of each id, in the order of the file |
| MessageLog.SessionStore.ClearAll | messaging/session.py:226-232 | nothing is left of any chat |
| MessageLog.IdsMatchLog | messaging/session.py:63-213 | through any loads, records and clears of all chats: each id set is the ids of its log, no id twice |
| MessageLog.LogIsNewestPart | messaging/session.py:175-213 | a log is in insertion order: the newest part of what was put in since it was loaded or cleared, shorter only by what exceeds the cap |
| MessageLog.NewRecordCutsToCap | messaging/session.py:202-213 | in every run, after each new record the log is exactly the newest `cap` of what was put in, even after an over-long load |
| MessageLog.CappedIsNewestIff | messaging/session.py:175-213 | on any operations: always the newest part of the uncapped log if and only if no id is recorded again after at least `cap` newer ones |
| MessageLog.ReturnedIdComesBack | messaging/session.py:202-209 | ids a, b, a under a cap of one |

## Left out

- NativeBlockTheorems.PolicyMeetsContract: like the other theorems about tracked streams, assumes of upstream no start of a dropped index (`DroppedIndexHearsNothing` says what becomes of one), known delta types matching their block, and no thinking delta or (thinking enabled) stop for an index never seen. Restarts are not assumed away but decided.
- SseFraming.ParseSseLines: the text of the lines is not kept beside the event and the data of a frame.
- SseFraming.ParseUndoesFormat: event names and JSON texts without line breaks and outer white space, which is what `json.dumps` gives; JSON itself is a codec with decode after encode the identity on the events sent.
- NativeRelay.StreamNative: events are frames of one event line and one data line, formatted as the proxy formats them; OpenRouter's own filter of what follows `message_stop` is not modelled.
- OpenAiStream.EmitToolArgDelta: transports without tool-argument aliases. The base transport supplies none; the alias buffers and the restoring of aliased names are not modelled.
- OpenAiStream.ProcessToolCall: the same, for the aliases passed through.
- OpenAiResponse.StreamResponse: cancellation, usage figures, token estimates and log output are not modelled; nor is `_handle_extra_reasoning`, which is empty in the base transport.
- TaggedResponse.StreamTaggedText: for text that the heuristic tool parser passes through unchanged, without reasoning fields or native calls beside it; in `StreamResponse` both are arbitrary, and what that parser finds is arbitrary input, because its own output depends on chunking and drops text.
- Conversion.ConvertAssistantMessage: JSON texts of tool inputs and structured results are given as text.
- ConversionTheorems.SplitTurnKeepsText: says nothing about `reasoning_content`, which can be replayed on both halves of a split turn.
- SlidingWindow.StrictSlidingWindowLimiter.TryAcquire: exact real time, no rounding; one passage through the lock at a time, with any interleaving of callers between passages.
- MessageQueue.Queue.TakeNext: one worker, no shutdown, no cancelled futures; the pause after a flood error and the rate limit only delay a step.
- SessionManager.ManagerIsConsistent: temporary ids are fresh and never look like real ones; `stop()` does not raise and no call is interrupted.
- ProviderHealth.Health.RecordFailure: one provider's record; the dictionary of records by provider id is not modelled.
- TranscriptBuffer.Buffer.Apply: the `closed` flag of tool segments, which nothing reads; rendering of single segments is a parameter of `Render`.
- MessageLog.SessionStore.LoadLog: a readable file; failures while reading it, disk writes, timers and the trees kept in the same store are not modelled.
- HTTP clients, SDK calls, retries, logging and trace events are I/O; a provider is an arbitrary sequence of chunks or a failure.
- The global rate limiter's reactive blocking, message trees, settings, routes, web tools and model catalogs would add no hard property.
