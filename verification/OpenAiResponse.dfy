/** A whole streamed response (`_stream_response_impl` in providers/openai_compat.py): pieces of provider output,
    then a normal end or a failure, as one Anthropic event stream. */
module OpenAiResponse {
  import opened Basics
  import opened StreamContract
  import opened OpenAiInput
  import opened SseBuilder
  import opened OpenAiStream
  import opened ToolOpening

  /** What `think_parser.flush()` returns. */
  datatype Rest = NoRest | RestThinking(content: string) | RestText(content: string)

  /** How the provider's stream ends; `lateTools` come from the heuristic parser's flush. */
  datatype Ending =
    | Failed
    | Finished(rest: Rest, lateTools: seq<HeuristicTool>, finishReason: Option<string>)

  function RestTexts(rest: Rest): seq<string> {
    if rest.RestText? then [rest.content] else []
  }

  function RestThoughts(rest: Rest, thinkingEnabled: bool): seq<string> {
    if rest.RestThinking? && thinkingEnabled then [rest.content] else []
  }

  function RestItems(rest: Rest, thinkingEnabled: bool): seq<Item> {
    match rest
    case NoRest => []
    case RestThinking(content) => if thinkingEnabled then [Thought(content)] else []
    case RestText(content) => [Said(content)]
  }

  /** At most one text. */
  function SaidOnce(texts: seq<string>): seq<Item> {
    if texts == [] then [] else [Said(texts[0])]
  }

  /** Some native tool call got a name, so its block was started. */
  ghost predicate AnyTool(calls: seq<ToolDelta>) {
    exists t :: !Blank(NameOf(calls, t))
  }

  /** A message without text or tools gets a one-space text block. */
  function Filler(texts: seq<string>, thoughts: seq<string>, anyTool: bool): seq<string> {
    if anyTool then []
    else if texts == [] && thoughts == [] then [" "]
    else if Blank(Concat(texts)) && !Blank(Concat(thoughts)) then [" "]
    else []
  }

  /** Text that the proxy adds when no tool has been shown: the error, or a space where nothing has been said. */
  function LastText(texts: seq<string>, thoughts: seq<string>, anyTool: bool, completed: bool, error: string): seq<string> {
    var silent := (texts == [] && thoughts == []) || (Blank(Concat(texts)) && !Blank(Concat(thoughts)));
    if anyTool then [] else if !completed then [error] else if silent then [" "] else []
  }

  lemma LastTextIs(texts: seq<string>, thoughts: seq<string>, anyTool: bool, error: string)
    ensures LastText(texts, thoughts, anyTool, true, error) == Filler(texts, thoughts, anyTool)
    ensures LastText(texts, thoughts, anyTool, false, error) == if anyTool then [] else [error]
  {}

  /** `map_stop_reason`. */
  function MapStopReason(reason: Option<string>): string {
    if reason == Some("length") then "max_tokens"
    else if reason == Some("tool_calls") then "tool_use"
    else "end_turn"
  }

  lemma StopReasons(reason: Option<string>)
    ensures MapStopReason(reason) == if reason == Some("length") then "max_tokens"
                                     else if reason == Some("tool_calls") then "tool_use"
                                     else "end_turn"
  {}

  // ---- Task arguments still gathered at the end ----

  function FlushedArgs(env: Env, buffer: string): string {
    match env.loads(buffer)
    case Some(json) => env.dumps(Normalize(json))
    case None => "{}"
  }

  function Flushed(env: Env, st: ToolCallState): ToolCallState {
    if st.taskArgBuffer == "" || st.taskArgsEmitted then st
    else st.(contents := st.contents + [FlushedArgs(env, st.taskArgBuffer)], taskArgBuffer := "", taskArgsEmitted := true)
  }

  /** `_flush_task_arg_buffers`: what is still gathered never parses, or it would have been emitted. */
  method FlushTaskArgs(b: Builder, env: Env, ghost calls: seq<ToolDelta>)
    requires b.Sound() && b.Ordered() && CallsOk(env, calls, b.toolStates, true)
    modifies b`toolOrder, b`toolStates, b`yielded
    ensures b.Sound() && b.Ordered() && Grows(old(b.yielded), b.yielded)
    ensures b.toolStates.Keys == old(b.toolStates).Keys
    ensures forall t | t in b.toolStates :: b.toolStates[t] == Flushed(env, old(b.toolStates)[t])
  {
    hide Builder.Sound, Builder.Ordered, Grows, Replay, StreamContract.Observe, CallOk, Flushed, FlushedUpTo;
    ghost var tools := b.toolStates;
    GrowsNot(b.yielded);
    var order := b.toolOrder;
    assert Distinct(order) && forall t :: t in order <==> t in tools by { OrderOf(b); }
    NothingFlushed(env, order, tools);
    for n := 0 to |order|
      invariant b.Sound() && b.Ordered() && Grows(old(b.yielded), b.yielded)
      invariant FlushedUpTo(env, order, n, tools, b.toolStates)
    {
      FlushNext(env, order, n, tools, b.toolStates);
      ghost var before := b.yielded;
      FlushTaskArg(b, order[n], env, calls);
      GrowsTwice(old(b.yielded), before, b.yielded);
    }
    AllFlushed(env, order, tools, b.toolStates);
  }

  lemma OrderOf(b: Builder)
    requires b.Ordered()
    ensures Distinct(b.toolOrder) && forall t :: t in b.toolOrder <==> t in b.toolStates
  {}

  ghost predicate FlushedUpTo(env: Env, order: seq<int>, n: nat, tools: map<int, ToolCallState>,
                              now: map<int, ToolCallState>)
  {
    && n <= |order| && now.Keys == tools.Keys && (forall k | 0 <= k < |order| :: order[k] in tools)
    && forall k | 0 <= k < |order| :: now[order[k]] == if k < n then Flushed(env, tools[order[k]]) else tools[order[k]]
  }

  lemma NothingFlushed(env: Env, order: seq<int>, tools: map<int, ToolCallState>)
    requires forall t :: t in order <==> t in tools
    ensures FlushedUpTo(env, order, 0, tools, tools)
  {
    forall k | 0 <= k < |order| ensures order[k] in tools {
      var t := order[k];
      assert t in order;
      assert t in tools;
    }
  }

  lemma FlushNext(env: Env, order: seq<int>, n: nat, tools: map<int, ToolCallState>, now: map<int, ToolCallState>)
    requires FlushedUpTo(env, order, n, tools, now) && n < |order| && Distinct(order)
    ensures order[n] in now && order[n] in tools && now[order[n]] == tools[order[n]]
    ensures FlushedUpTo(env, order, n + 1, tools, now[order[n] := Flushed(env, now[order[n]])])
  {
    hide Flushed;
    assert forall k | 0 <= k < |order| && k != n :: order[k] != order[n];
  }

  lemma AllFlushed(env: Env, order: seq<int>, tools: map<int, ToolCallState>, now: map<int, ToolCallState>)
    requires FlushedUpTo(env, order, |order|, tools, now) && forall t :: t in order <==> t in tools
    ensures now.Keys == tools.Keys && forall t | t in now :: now[t] == Flushed(env, tools[t])
  {
    hide Flushed;
    forall t | t in now ensures now[t] == Flushed(env, tools[t]) {
      var k :| 0 <= k < |order| && order[k] == t;
    }
  }

  method FlushTaskArg(b: Builder, t: int, env: Env, ghost calls: seq<ToolDelta>)
    requires b.Sound() && b.Ordered() && t in b.toolStates && CallOk(env, calls, t, b.toolStates[t])
    modifies b`toolOrder, b`toolStates, b`yielded
    ensures b.Sound() && b.Ordered() && Grows(old(b.yielded), b.yielded)
    ensures b.toolStates == old(b.toolStates)[t := Flushed(env, old(b.toolStates)[t])]
  {
    hide Builder.Sound, Builder.Ordered, Grows, Replay, StreamContract.Observe;
    GrowsNot(b.yielded);
    var state := b.toolStates[t];
    if state.taskArgBuffer == "" || state.taskArgsEmitted {
      assert b.toolStates == b.toolStates[t := state];
      return;
    }
    var out := FlushedArgs(env, state.taskArgBuffer);
    b.Remember(t, state.(taskArgBuffer := "", taskArgsEmitted := true));
    GrowsBy(b.yielded, [Delta(state.blockIndex, "input_json_delta", out)]);
    b.EmitToolDelta(t, out);
  }

  lemma {:induction false} GatheredDoesNotParse(env: Env, fs: seq<Fragment>)
    requires NoneParses(env, fs) && TaskText(fs) != ""
    ensures env.loads(TaskText(fs)).None?
  {
    var before, last := fs[..|fs| - 1], |fs| - 1;
    assert fs[..last + 1] == fs;
    if !fs[last].task {
      assert forall k | 0 <= k < last :: before[..k + 1] == fs[..k + 1] && before[k] == fs[k];
      assert TaskText(before) + "" == TaskText(before);
      GatheredDoesNotParse(env, before);
    }
  }

  /** What is streamed into the block of a call is what its fragments make. */
  lemma FlushedDelivers(env: Env, calls: seq<ToolDelta>, t: int, st: ToolCallState)
    requires CallOk(env, calls, t, st) && st.started && !Raises(env, Fragments(calls, t))
    ensures ContentsAre(env, Fragments(calls, t), Flushed(env, st).contents, true)
  {
    var fs := Fragments(calls, t);
    hide Fragments, TaskText, RawTexts;
    if NoneParses(env, fs) {
      if TaskText(fs) != "" { GatheredDoesNotParse(env, fs); }
      assert RawTexts(fs) + [] == RawTexts(fs);
    }
  }

  // ---- The chunks ----

  method Begin(id: string, model: string) returns (b: Builder)
    ensures fresh(b) && b.Sound() && b.Ordered() && b.Used() && b.yielded == [MessageStart(id, model)]
    ensures b.textParts == [] && b.reasoningParts == [] && b.items == [] && b.openedAs == map[] && b.toolStates == map[]
  {
    b := new Builder();
    ReplaySnoc(NO_BLOCKS, b.yielded, MessageStart(id, model));
    SilentEventRecorded(b.yielded, MessageStart(id, model), Told([], [], [], map[]), map[]);
    assert b.yielded + [MessageStart(id, model)] == [MessageStart(id, model)];
    b.Yield(MessageStart(id, model));
  }

  /** Text, thinking and tool calls in the order received, when `calls` are the tool-call deltas processed: each chunk shows
      its reasoning and text, then the calls that its deltas get opened. */
  function ItemsOf(env: Env, thinkingEnabled: bool, pieces: seq<Piece>, calls: seq<ToolDelta>): seq<Item> {
    if pieces == [] then []
    else
      var before, last := pieces[..|pieces| - 1], pieces[|pieces| - 1];
      var had := Collect(PieceCalls, before);
      ItemsOf(env, thinkingEnabled, before, had) + PieceItems(env, thinkingEnabled)(last)
      + CallItems(env, had, if |had| <= |calls| then calls[|had|..] else [])
  }

  lemma NoItems(env: Env, thinkingEnabled: bool)
    ensures ItemsOf(env, thinkingEnabled, [], []) == []
  {}

  lemma ItemsOfNext(env: Env, thinkingEnabled: bool, pieces: seq<Piece>, k: nat, had: seq<ToolDelta>, calls: seq<ToolDelta>)
    requires k < |pieces| && had == Collect(PieceCalls, pieces[..k]) && had <= calls
    ensures ItemsOf(env, thinkingEnabled, pieces[..k + 1], calls)
         == ItemsOf(env, thinkingEnabled, pieces[..k], had) + PieceItems(env, thinkingEnabled)(pieces[k])
            + CallItems(env, had, calls[|had|..])
  {
    assert pieces[..k + 1][..k] == pieces[..k];
  }

  /** The loop over chunks. `shown` chunks were streamed, the last perhaps only in part. */
  method StreamPieces(b: Builder, pieces: seq<Piece>, thinkingEnabled: bool, env: Env)
    returns (ok: bool, ghost shown: nat, ghost calls: seq<ToolDelta>)
    requires b.Sound() && b.Ordered() && b.Used()
    requires b.textParts == [] && b.reasoningParts == [] && b.items == [] && b.openedAs == map[] && b.toolStates == map[]
    modifies b
    ensures b.Sound() && b.Ordered() && b.Used() && Grows(old(b.yielded), b.yielded)
    ensures shown <= |pieces| && (ok ==> shown == |pieces|)
    ensures b.textParts == Collect(PieceTexts, pieces[..shown])
    ensures b.reasoningParts == Collect(PieceThoughts(thinkingEnabled), pieces[..shown])
    ensures b.items == ItemsOf(env, thinkingEnabled, pieces[..shown], calls)
    ensures CallsOk(env, calls, b.toolStates, ok) && OpenedOk(env, calls, b.toolStates, b.openedAs)
    ensures !ok ==> calls != [] && !Raised(env, calls[..|calls| - 1])
    ensures if ok then calls == Collect(PieceCalls, pieces) else calls <= Collect(PieceCalls, pieces[..shown])
  {
    hide Builder.Sound, Builder.Ordered, Builder.Used, Grows, CallsOk, OpenedOk, Raised, PieceTexts, PieceThoughts,
         PieceItems, PieceCalls, Collect, ItemsOf, CallItems, Replay, StreamContract.Observe;
    GrowsNot(b.yielded);
    NoCalls(env);
    ghost var f := PieceThoughts(thinkingEnabled);
    CollectPrefixes([], PieceTexts, pieces);
    CollectPrefixes([], f, pieces);
    PieceCallsPrefixes(pieces);
    NoItems(env, thinkingEnabled);
    assert pieces[..0] == [];
    ok, calls := true, [];
    for k := 0 to |pieces|
      invariant b.Sound() && b.Ordered() && b.Used() && Grows(old(b.yielded), b.yielded)
      invariant b.textParts == [] + Collect(PieceTexts, pieces[..k])
      invariant b.reasoningParts == [] + Collect(f, pieces[..k])
      invariant b.items == ItemsOf(env, thinkingEnabled, pieces[..k], calls)
      invariant OpenedOk(env, calls, b.toolStates, b.openedAs)
      invariant ok && CallsOk(env, calls, b.toolStates, true) && calls == Collect(PieceCalls, pieces[..k])
    {
      ghost var before := b.yielded;
      ghost var had := calls;
      ok, calls := StreamPiece(b, pieces[k], thinkingEnabled, env, calls);
      ItemsOfNext(env, thinkingEnabled, pieces, k, had, calls);
      GrowsTwice(old(b.yielded), before, b.yielded);
      if !ok {
        shown := k + 1;
        return;
      }
    }
    shown := |pieces|;
  }

  lemma NoCalls(env: Env)
    ensures CallsOk(env, [], map[], true) && OpenedOk(env, [], map[], map[])
  {}

  lemma PieceCallsPrefixes(pieces: seq<Piece>)
    ensures Collect(PieceCalls, pieces[..0]) == []
    ensures forall k | 0 <= k < |pieces| ::
              Collect(PieceCalls, pieces[..k + 1]) == Collect(PieceCalls, pieces[..k]) + pieces[k].toolCalls
  {
    CollectPrefixes([], PieceCalls, pieces);
    forall k | 0 <= k <= |pieces|
      ensures [] + Collect(PieceCalls, pieces[..k]) == Collect(PieceCalls, pieces[..k])
    {}
    assert forall k | 0 <= k < |pieces| :: PieceCalls(pieces[k]) == pieces[k].toolCalls;
  }

  // ---- A normal end ----

  method EmitRest(b: Builder, rest: Rest, thinkingEnabled: bool)
    requires b.Sound() && b.Used()
    modifies b`nextIndex, b`textIndex, b`thinkingIndex, b`thinkingStarted, b`textStarted, b`textParts, b`reasoningParts,
             b`yielded, b`items, b`live
    ensures b.Sound() && b.Used() && Grows(old(b.yielded), b.yielded)
    ensures b.textParts == old(b.textParts) + RestTexts(rest)
    ensures b.reasoningParts == old(b.reasoningParts) + RestThoughts(rest, thinkingEnabled)
    ensures b.items == old(b.items) + RestItems(rest, thinkingEnabled)
  {
    hide Builder.Sound, Builder.Used, Grows, Replay, StreamContract.Observe;
    GrowsNot(b.yielded);
    match rest {
      case NoRest =>
      case RestThinking(content) => if thinkingEnabled { EmitThought(b, content); }
      case RestText(content) => EmitText(b, content);
    }
  }

  method EmitFiller(b: Builder, env: Env, ghost calls: seq<ToolDelta>)
    requires b.Sound() && b.Used() && CallsOk(env, calls, b.toolStates, true)
    modifies b`nextIndex, b`textIndex, b`thinkingStarted, b`textStarted, b`textParts, b`yielded, b`items, b`live
    ensures b.Sound() && b.Used() && Grows(old(b.yielded), b.yielded)
    ensures b.textParts == old(b.textParts) + Filler(old(b.textParts), b.reasoningParts, AnyTool(calls))
    ensures b.items == old(b.items) + SaidOnce(Filler(old(b.textParts), b.reasoningParts, AnyTool(calls)))
    ensures b.nextIndex > 0
  {
    hide Replay, StreamContract.Observe, Agree, Recorded, Grows;
    GrowsNot(b.yielded);
    var hasStartedTool := exists t | t in b.toolStates :: b.toolStates[t].started;
    StartedTools(env, calls, b.toolStates, true);
    SomethingWasStarted(b);
    if b.textIndex == -1 && b.thinkingIndex == -1 && !hasStartedTool {
      EmitText(b, " ");
    } else if !hasStartedTool && Blank(Concat(b.textParts)) && !Blank(Concat(b.reasoningParts)) {
      EmitText(b, " ");
    }
  }

  lemma StartedTools(env: Env, calls: seq<ToolDelta>, tools: map<int, ToolCallState>, settled: bool)
    requires CallsOk(env, calls, tools, settled)
    ensures AnyTool(calls) <==> exists t | t in tools :: tools[t].started
  {
    if AnyTool(calls) {
      var t :| !Blank(NameOf(calls, t));
      assert t in tools && CallOk(env, calls, t, tools[t]);
    }
  }

  lemma SomethingWasStarted(b: Builder)
    requires b.Sound() && b.Used()
    ensures b.textIndex != -1 || b.thinkingIndex != -1 || (exists t | t in b.toolStates :: b.toolStates[t].started)
            ==> b.nextIndex > 0
  {
    BlocksDiffer(Replay(b.yielded).value, b.live);
  }

  /** Everything after the last chunk, up to closing the blocks. */
  method FinishContent(b: Builder, end: Ending, thinkingEnabled: bool, env: Env, ghost calls: seq<ToolDelta>)
    requires b.Sound() && b.Ordered() && b.Used() && CallsOk(env, calls, b.toolStates, true) && end.Finished?
    modifies b
    ensures b.Sound() && b.Ordered() && b.nextIndex > 0 && Grows(old(b.yielded), b.yielded)
    ensures b.reasoningParts == old(b.reasoningParts) + RestThoughts(end.rest, thinkingEnabled)
    ensures b.textParts == old(b.textParts) + RestTexts(end.rest)
                         + Filler(old(b.textParts) + RestTexts(end.rest), b.reasoningParts, AnyTool(calls))
    ensures b.items == old(b.items) + RestItems(end.rest, thinkingEnabled) + Collect(ToolItems(env), end.lateTools)
                       + SaidOnce(Filler(old(b.textParts) + RestTexts(end.rest), b.reasoningParts, AnyTool(calls)))
    ensures b.openedAs == old(b.openedAs)
    ensures b.toolStates.Keys == old(b.toolStates).Keys
    ensures forall t | t in b.toolStates :: b.toolStates[t] == Flushed(env, old(b.toolStates)[t])
  {
    hide *;
    EmitRest(b, end.rest, thinkingEnabled);
    ghost var before := b.yielded;
    EmitHeuristicTools(b, end.lateTools, env);
    GrowsTwice(old(b.yielded), before, b.yielded);
    before := b.yielded;
    EmitFiller(b, env, calls);
    GrowsTwice(old(b.yielded), before, b.yielded);
    before := b.yielded;
    FlushTaskArgs(b, env, calls);
    GrowsTwice(old(b.yielded), before, b.yielded);
  }

  // ---- The whole stream ----

  /** Started calls stream into different blocks. */
  ghost predicate Apart(tools: map<int, ToolCallState>) {
    forall t, u | t in tools && u in tools && tools[t].started && tools[u].started && t != u ::
      tools[t].blockIndex != tools[u].blockIndex
  }

  lemma SoundIsApart(b: Builder)
    requires b.Sound()
    ensures Apart(b.toolStates)
  {
    BlocksDiffer(Replay(b.yielded).value, b.live);
  }

  /** A legal, closed stream of at least one block ends with a stop reason and `message_stop`. */
  lemma EndedMeetsContract(events: seq<Event>, reason: string)
    requires events != [] && events[0].MessageStart?
    requires Replay(events).Some? && Replay(events).value.seen != {} && forall d :: d !in Replay(events).value.open
    ensures Contract(events + [MessageDelta(reason)] + [MessageStop], true)
    ensures NoErrors(events) ==> Contract(events + [MessageDelta(reason)] + [MessageStop], false)
  {
    var all := events + [MessageDelta(reason)] + [MessageStop];
    ReplaySnoc(NO_BLOCKS, events, MessageDelta(reason));
    ReplaySnoc(NO_BLOCKS, events + [MessageDelta(reason)], MessageStop);
    NoKeys(Replay(events).value.open);
    assert all[0].MessageStart?;
  }

  lemma EndRecorded(events: seq<Event>, reason: string, told: Told, tools: map<int, ToolCallState>)
    requires Recorded(events, told, tools)
    ensures Recorded(events + [MessageDelta(reason)] + [MessageStop], told, tools)
  {
    SilentEventRecorded(events, MessageDelta(reason), told, tools);
    SilentEventRecorded(events + [MessageDelta(reason)], MessageStop, told, tools);
  }

  method EndMessage(b: Builder, reason: string)
    requires b.yielded != [] && b.yielded[0].MessageStart? && Replay(b.yielded).Some?
    requires Replay(b.yielded).value.seen != {} && forall d :: d !in Replay(b.yielded).value.open
    modifies b`yielded
    ensures b.yielded == old(b.yielded) + [MessageDelta(reason)] + [MessageStop]
    ensures Contract(b.yielded, true) && (NoErrors(old(b.yielded)) ==> Contract(b.yielded, false))
    ensures forall told, tools | Recorded(old(b.yielded), told, tools) ::
              Recorded(b.yielded, told, tools)
  {
    hide *;
    EndedMeetsContract(b.yielded, reason);
    forall told, tools | Recorded(b.yielded, told, tools)
      ensures Recorded(b.yielded + [MessageDelta(reason)] + [MessageStop], told, tools)
    {
      EndRecorded(b.yielded, reason, told, tools);
    }
    b.Yield(MessageDelta(reason));
    b.Yield(MessageStop);
  }

  /** The part of `_stream_response_impl` after the loop. */
  method CompleteStream(b: Builder, end: Ending, thinkingEnabled: bool, env: Env, ghost calls: seq<ToolDelta>)
    requires b.Sound() && b.Ordered() && b.Used() && CallsOk(env, calls, b.toolStates, true) && end.Finished?
    requires b.yielded != [] && b.yielded[0].MessageStart? && NoErrors(b.yielded)
    modifies b
    ensures Contract(b.yielded, true) && Contract(b.yielded, false) && b.yielded[0] == old(b.yielded)[0]
    ensures |b.yielded| >= 2 && b.yielded[|b.yielded| - 2] == MessageDelta(MapStopReason(end.finishReason))
    ensures Recorded(b.yielded, b.SoFar(), b.toolStates) && Apart(b.toolStates)
    ensures b.reasoningParts == old(b.reasoningParts) + RestThoughts(end.rest, thinkingEnabled)
    ensures b.textParts == old(b.textParts) + RestTexts(end.rest)
                         + Filler(old(b.textParts) + RestTexts(end.rest), b.reasoningParts, AnyTool(calls))
    ensures b.items == old(b.items) + RestItems(end.rest, thinkingEnabled) + Collect(ToolItems(env), end.lateTools)
                       + SaidOnce(Filler(old(b.textParts) + RestTexts(end.rest), b.reasoningParts, AnyTool(calls)))
    ensures b.openedAs == old(b.openedAs)
    ensures b.toolStates.Keys == old(b.toolStates).Keys
    ensures forall t | t in b.toolStates :: b.toolStates[t] == Flushed(env, old(b.toolStates)[t])
  {
    hide Builder.Sound, Builder.Ordered, Builder.Used, CallsOk, CallOk, Recorded, Apart, Flushed, Contract, MapStopReason,
         StreamContract.Observe, Replay, ReplayFrom, NoErrors, Grows, AnyTool, Filler, Agree;
    ghost var before := b.yielded;
    FinishContent(b, end, thinkingEnabled, env, calls);
    GrowsKeeps(before, b.yielded);
    SoundIsApart(b);
    b.CloseAllBlocks();
    ClosedHasSeen(b);
    EndMessage(b, MapStopReason(end.finishReason));
  }

  lemma ClosedHasSeen(b: Builder)
    requires b.Closed()
    ensures Replay(b.yielded).Some? && (forall d :: d !in Replay(b.yielded).value.open)
    ensures Recorded(b.yielded, b.SoFar(), b.toolStates)
    ensures b.nextIndex > 0 ==> Replay(b.yielded).value.seen != {}
    ensures (exists t | t in b.toolStates :: b.toolStates[t].started) ==> b.nextIndex > 0
  {
    if b.nextIndex > 0 { assert 0 in Replay(b.yielded).value.seen; }
  }

  lemma ErrorTextRecorded(events: seq<Event>, d: nat, message: string, told: Told, tools: map<int, ToolCallState>)
    requires Recorded(events, told, tools) && forall t | t in tools && tools[t].started :: tools[t].blockIndex != d
    ensures Recorded(events + [BlockStart(Some(d), Some(PlainBlock("text")))] + [Delta(d, "text_delta", message)]
                       + [BlockStop(Some(d))], WithError(told, message, false), tools)
  {
    var start := BlockStart(Some(d), Some(PlainBlock("text")));
    SilentEventRecorded(events, start, told, tools);
    TextDeltaRecorded(events + [start], d, message, told, tools);
    SilentEventRecorded(events + [start] + [Delta(d, "text_delta", message)], BlockStop(Some(d)),
                        told.(texts := told.texts + [message], items := told.items + [Said(message)]), tools);
  }

  function WithError(told: Told, message: string, anyTool: bool): Told {
    if anyTool then told else told.(texts := told.texts + [message], items := told.items + [Said(message)])
  }

  /** The `except Exception` part: an error after a tool call must not become assistant text. */
  method FailStream(b: Builder, message: string, env: Env, ghost calls: seq<ToolDelta>, ghost settled: bool)
    requires b.Sound() && b.Ordered() && CallsOk(env, calls, b.toolStates, settled)
    requires b.yielded != [] && b.yielded[0].MessageStart? && NoErrors(b.yielded)
    modifies b
    ensures Contract(b.yielded, true) && b.yielded[0] == old(b.yielded)[0]
    ensures |b.yielded| >= 2 && b.yielded[|b.yielded| - 2] == MessageDelta("end_turn")
    ensures b.toolStates == old(b.toolStates) && Apart(b.toolStates)
    ensures Recorded(b.yielded, WithError(old(b.SoFar()), message, AnyTool(calls)), b.toolStates)
    ensures b.openedAs == old(b.openedAs)
    ensures if AnyTool(calls) then |b.yielded| >= 3 && b.yielded[|b.yielded| - 3] == Error(message)
            else Contract(b.yielded, false)
  {
    hide Builder.Sound, Builder.Ordered, Recorded, Apart, Contract, CallsOk, Builder.Closed,
         StreamContract.Observe, Replay, ReplayFrom, NoErrors, AnyTool, Agree;
    assert b.textParts + [] == b.textParts && b.items + [] == b.items;
    SoundIsApart(b);
    StartedTools(env, calls, b.toolStates, settled);
    b.CloseAllBlocks();
    ClosedHasSeen(b);
    var hasEmittedToolBlock := exists t | t in b.toolStates :: b.toolStates[t].started;
    if hasEmittedToolBlock {
      TopLevelError(b, message);
    } else {
      ErrorTextRecorded(b.yielded, b.nextIndex, message, b.SoFar(), b.toolStates);
      BlockEventsAreNoErrors(b.yielded, b.nextIndex, message);
      b.EmitError(message);
    }
    EndMessage(b, "end_turn");
  }

  lemma BlockEventsAreNoErrors(events: seq<Event>, d: nat, message: string)
    ensures NoErrors(events) ==>
              NoErrors(events + [BlockStart(Some(d), Some(PlainBlock("text")))] + [Delta(d, "text_delta", message)]
                         + [BlockStop(Some(d))])
  {}

  /** `emit_top_level_error`. */
  method TopLevelError(b: Builder, message: string)
    requires Replay(b.yielded).Some? && Recorded(b.yielded, b.SoFar(), b.toolStates)
    modifies b`yielded
    ensures b.yielded == old(b.yielded) + [Error(message)]
    ensures Replay(b.yielded) == Replay(old(b.yielded))
    ensures Recorded(b.yielded, b.SoFar(), b.toolStates)
  {
    SilentEventRecorded(b.yielded, Error(message), b.SoFar(), b.toolStates);
    b.Yield(Error(message));
  }

  /** The end of a stream, normal or not. */
  method EndResponse(b: Builder, end: Ending, thinkingEnabled: bool, env: Env, ghost calls: seq<ToolDelta>, ok: bool,
                     errorMessage: string)
    returns (completed: bool, ghost blocks: map<int, int>)
    requires b.Sound() && b.Ordered() && b.Used() && CallsOk(env, calls, b.toolStates, ok)
    requires OpenedOk(env, calls, b.toolStates, b.openedAs)
    requires b.yielded != [] && b.yielded[0].MessageStart? && NoErrors(b.yielded)
    modifies b
    ensures completed <==> ok && end.Finished?
    ensures Contract(b.yielded, true) && (completed || !AnyTool(calls) ==> Contract(b.yielded, false))
    ensures |b.yielded| >= 2 && b.yielded[0] == old(b.yielded)[0] && b.yielded[|b.yielded| - 2].MessageDelta?
    ensures b.yielded[|b.yielded| - 2].stopReason == if !completed then "end_turn"
                                                     else if end.finishReason == Some("length") then "max_tokens"
                                                     else if end.finishReason == Some("tool_calls") then "tool_use"
                                                     else "end_turn"
    ensures !completed && AnyTool(calls) ==> |b.yielded| >= 3 && b.yielded[|b.yielded| - 3] == Error(errorMessage)
    ensures var thoughts := old(b.reasoningParts) + if completed then RestThoughts(end.rest, thinkingEnabled) else [];
            var texts := old(b.textParts) + if completed then RestTexts(end.rest) else [];
            var items := old(b.items) + if completed then RestItems(end.rest, thinkingEnabled)
                                                          + Collect(ToolItems(env), end.lateTools) else [];
            var last := LastText(texts, thoughts, AnyTool(calls), completed, errorMessage);
            && Collect(ThinkingOf, b.yielded) == Concat(thoughts)
            && Collect(TextOf, b.yielded) == Concat(texts + last)
            && Collect(ItemOf(BlockSet(blocks)), b.yielded) == items + SaidOnce(last)
    ensures ToolsDelivered(env, calls, b.yielded, blocks, completed)
  {
    hide Builder.Sound, Builder.Ordered, Builder.Used, CallsOk, Recorded, Apart, Contract, Flushed, Replay, NoErrors, AnyTool,
         Collect, Filler, RestTexts, RestThoughts, RestItems, ToolsDelivered, StartedBlocks, BlockSet, OpenedOk, Concat,
         MapStopReason, ToolItems, LastText;
    ghost var tools, told := b.toolStates, b.SoFar();
    completed := ok && end.Finished?;
    if completed {
      CompleteStream(b, end, thinkingEnabled, env, calls);
      CompletedTools(env, calls, tools, b);
      StopReasons(end.finishReason);
      LastTextIs(told.texts + RestTexts(end.rest), b.reasoningParts, AnyTool(calls), errorMessage);
    } else {
      assert told.texts + [] == told.texts && told.thoughts + [] == told.thoughts && told.items + [] == told.items;
      FailStream(b, errorMessage, env, calls, ok);
      FailedTools(env, calls, WithError(told, errorMessage, AnyTool(calls)), ok, b);
      LastTextIs(told.texts, told.thoughts, AnyTool(calls), errorMessage);
    }
    blocks := StartedBlocks(b.toolStates);
  }

  /** Every run of the converter, whatever the provider sends and however its stream ends.
      `shown` chunks were streamed and the tool-call deltas `calls` processed; `blocks` maps each native tool call
      that got a name to its block. */
  method StreamResponse(env: Env, id: string, model: string, thinkingEnabled: bool, pieces: seq<Piece>, end: Ending,
                        errorMessage: string)
    returns (events: seq<Event>, completed: bool, ghost shown: nat, ghost calls: seq<ToolDelta>, ghost blocks: map<int, int>)
    ensures Contract(events, true) && (completed || !AnyTool(calls) ==> Contract(events, false))
    ensures events[0] == MessageStart(id, model)
    ensures |events| >= 2 && events[|events| - 2].MessageDelta?
            && events[|events| - 2].stopReason == if !completed || end.Failed? then "end_turn"
                                                  else if end.finishReason == Some("length") then "max_tokens"
                                                  else if end.finishReason == Some("tool_calls") then "tool_use"
                                                  else "end_turn"
    ensures completed ==> end.Finished? && shown == |pieces| && calls == Collect(PieceCalls, pieces)
    ensures !completed && AnyTool(calls) ==> |events| >= 3 && events[|events| - 3] == Error(errorMessage)
    ensures shown <= |pieces| && calls <= Collect(PieceCalls, pieces[..shown])
    ensures completed <==> end.Finished? && !Raised(env, Collect(PieceCalls, pieces))
    ensures if Raised(env, calls) then calls != [] && !Raised(env, calls[..|calls| - 1])
            else shown == |pieces| && calls == Collect(PieceCalls, pieces)
    ensures var thoughts := ShownThoughts(pieces[..shown], end, thinkingEnabled, completed);
            var texts := ShownTexts(pieces[..shown], end, completed);
            var last := LastText(texts, thoughts, AnyTool(calls), completed, errorMessage);
            && Collect(ThinkingOf, events) == Concat(thoughts)
            && Collect(TextOf, events) == Concat(texts + last)
            && Collect(ItemOf(BlockSet(blocks)), events)
               == ShownItems(env, pieces[..shown], calls, end, thinkingEnabled, completed) + SaidOnce(last)
    ensures ToolsDelivered(env, calls, events, blocks, completed)
  {
    hide Builder.Sound, Builder.Ordered, Builder.Used, CallsOk, Contract, Replay, NoErrors, AnyTool, Grows, Collect, PieceTexts,
         PieceThoughts, PieceItems, PieceCalls, RestTexts, RestThoughts, RestItems, ToolsDelivered, BlockSet, Raised, OpenedOk,
         ItemsOf, Concat, ToolItems, LastText;
    var b := Begin(id, model);
    ghost var first := b.yielded;
    JustStarted(id, model);
    var ok;
    ok, shown, calls := StreamPieces(b, pieces, thinkingEnabled, env);
    GrowsKeeps(first, b.yielded);
    assert pieces[..|pieces|] == pieces;
    Unsettled(env, calls, b.toolStates, ok);
    RaisedByPrefix(env, calls, pieces, shown);
    completed, blocks := EndResponse(b, end, thinkingEnabled, env, calls, ok, errorMessage);
    events := b.yielded;
  }

  function ShownThoughts(pieces: seq<Piece>, end: Ending, thinkingEnabled: bool, completed: bool): seq<string> {
    Collect(PieceThoughts(thinkingEnabled), pieces)
    + if completed && end.Finished? then RestThoughts(end.rest, thinkingEnabled) else []
  }

  function ShownTexts(pieces: seq<Piece>, end: Ending, completed: bool): seq<string> {
    Collect(PieceTexts, pieces) + if completed && end.Finished? then RestTexts(end.rest) else []
  }

  /** Text, thinking and tool calls, in the order received. */
  function ShownItems(env: Env, pieces: seq<Piece>, calls: seq<ToolDelta>, end: Ending, thinkingEnabled: bool,
                      completed: bool): seq<Item>
  {
    ItemsOf(env, thinkingEnabled, pieces, calls)
    + if completed && end.Finished? then RestItems(end.rest, thinkingEnabled) + Collect(ToolItems(env), end.lateTools) else []
  }

  function BlockSet(blocks: map<int, int>): set<int> {
    set t | t in blocks :: blocks[t]
  }

  lemma BlocksAreNative(tools: map<int, ToolCallState>)
    ensures BlockSet(StartedBlocks(tools)) == Native(tools)
  {
    var blocks := StartedBlocks(tools);
    forall d ensures d in BlockSet(blocks) <==> d in Native(tools) {
      if d in Native(tools) {
        var t :| t in tools && tools[t].started && tools[t].blockIndex == d;
        assert blocks[t] == d;
      }
      if d in BlockSet(blocks) {
        var t :| t in blocks && blocks[t] == d;
        assert tools[t].started && tools[t].blockIndex == d;
      }
    }
  }

  function StartedBlocks(tools: map<int, ToolCallState>): map<int, int> {
    map t | t in tools && tools[t].started :: tools[t].blockIndex
  }

  /** Exactly the calls that got a name have a block, each its own; it is started once, with the call's id and name, and
      carries what its argument fragments make. */
  ghost predicate ToolsDelivered(env: Env, calls: seq<ToolDelta>, events: seq<Event>, blocks: map<int, int>,
                                 completed: bool)
  {
    && (forall t :: t in blocks <==> !Blank(NameOf(calls, t)))
    && (forall t, u | t in blocks && u in blocks && t != u :: blocks[t] != blocks[u])
    && (forall t | t in blocks :: ContentsAre(env, Fragments(calls, t), ArgDeltas(events, blocks[t]), completed))
    && (forall t | t in blocks ::
          exists start :: StartsCall(env, calls, t, start) && Collect(StartOf(blocks[t]), events) == [start])
  }

  /** Calls that are started as named, opened and delivered as they should be. */
  lemma AllDelivered(env: Env, calls: seq<ToolDelta>, events: seq<Event>, told: Told, tools: map<int, ToolCallState>,
                     completed: bool)
    requires Recorded(events, told, tools) && Apart(tools)
    requires forall t :: !Blank(NameOf(calls, t)) <==> t in tools && tools[t].started
    requires forall t | t in tools && tools[t].started ::
               ContentsAre(env, Fragments(calls, t), tools[t].contents, completed)
               && Opening(env, calls, t) == StartOfCall(told.starts, t)
    ensures ToolsDelivered(env, calls, events, StartedBlocks(tools), completed)
    ensures Collect(TextOf, events) == Concat(told.texts) && Collect(ThinkingOf, events) == Concat(told.thoughts)
    ensures Collect(ItemOf(BlockSet(StartedBlocks(tools))), events) == told.items
  {
    hide ContentsAre, Fragments, Opening, NameOf, Blank, Collect, Concat, ArgDeltas, ItemOf, StartOf, StartsCall;
    BlocksAreNative(tools);
    forall t | t in tools && tools[t].started
      ensures exists start :: StartsCall(env, calls, t, start) && Collect(StartOf(tools[t].blockIndex), events) == [start]
    {
      assert Opening(env, calls, t).Some?;
      OpeningStartsCall(env, calls, t);
    }
  }

  lemma CompletedTools(env: Env, calls: seq<ToolDelta>, tools: map<int, ToolCallState>, b: Builder)
    requires CallsOk(env, calls, tools, true) && b.toolStates.Keys == tools.Keys
    requires forall t | t in b.toolStates :: b.toolStates[t] == Flushed(env, tools[t])
    requires OpenedOk(env, calls, tools, b.openedAs)
    requires Recorded(b.yielded, b.SoFar(), b.toolStates) && Apart(b.toolStates)
    ensures Collect(TextOf, b.yielded) == Concat(b.textParts) && Collect(ThinkingOf, b.yielded) == Concat(b.reasoningParts)
    ensures Collect(ItemOf(BlockSet(StartedBlocks(b.toolStates))), b.yielded) == b.items
    ensures ToolsDelivered(env, calls, b.yielded, StartedBlocks(b.toolStates), true)
  {
    hide ContentsAre, Fragments, Raises, NameOf, Received, Recorded, Apart, ToolsDelivered, Collect, Opening, StartedBlocks,
         BlockSet, Blank;
    NamedAreStarted(env, calls, tools, true);
    forall t | t in b.toolStates && b.toolStates[t].started
      ensures ContentsAre(env, Fragments(calls, t), b.toolStates[t].contents, true)
      ensures Opening(env, calls, t) == StartOfCall(b.openedAs, t)
    {
      assert CallOk(env, calls, t, tools[t]) && !Raises(env, Fragments(calls, t));
      FlushedDelivers(env, calls, t, tools[t]);
      assert OpeningOk(env, calls, t, Known(tools, t), StartOfCall(b.openedAs, t));
    }
    AllDelivered(env, calls, b.yielded, b.SoFar(), b.toolStates, true);
  }

  lemma FailedTools(env: Env, calls: seq<ToolDelta>, told: Told, settled: bool, b: Builder)
    requires CallsOk(env, calls, b.toolStates, settled)
    requires told.starts == b.openedAs && OpenedOk(env, calls, b.toolStates, b.openedAs)
    requires Recorded(b.yielded, told, b.toolStates) && Apart(b.toolStates)
    ensures Collect(TextOf, b.yielded) == Concat(told.texts) && Collect(ThinkingOf, b.yielded) == Concat(told.thoughts)
    ensures Collect(ItemOf(BlockSet(StartedBlocks(b.toolStates))), b.yielded) == told.items
    ensures ToolsDelivered(env, calls, b.yielded, StartedBlocks(b.toolStates), false)
  {
    hide ContentsAre, Fragments, NameOf, Received, Recorded, Apart, ToolsDelivered, Collect, Opening, StartedBlocks, BlockSet,
         Blank;
    NamedAreStarted(env, calls, b.toolStates, settled);
    forall t | t in b.toolStates && b.toolStates[t].started
      ensures ContentsAre(env, Fragments(calls, t), b.toolStates[t].contents, false)
      ensures Opening(env, calls, t) == StartOfCall(b.openedAs, t)
    {
      assert CallOk(env, calls, t, b.toolStates[t]);
      assert OpeningOk(env, calls, t, Known(b.toolStates, t), StartOfCall(b.openedAs, t));
    }
    AllDelivered(env, calls, b.yielded, told, b.toolStates, false);
  }

  lemma NamedAreStarted(env: Env, calls: seq<ToolDelta>, tools: map<int, ToolCallState>, settled: bool)
    requires CallsOk(env, calls, tools, settled)
    ensures forall t :: !Blank(NameOf(calls, t)) <==> t in tools && tools[t].started
  {
    forall t ensures !Blank(NameOf(calls, t)) <==> t in tools && tools[t].started {
      if t in tools { assert CallOk(env, calls, t, tools[t]); }
    }
  }

  /** The calls processed raise exactly when all calls do. */
  lemma RaisedByPrefix(env: Env, calls: seq<ToolDelta>, pieces: seq<Piece>, shown: nat)
    requires shown <= |pieces| && calls <= Collect(PieceCalls, pieces[..shown])
    ensures calls <= Collect(PieceCalls, pieces) && (Raised(env, calls) ==> Raised(env, Collect(PieceCalls, pieces)))
  {
    hide Raised, Collect;
    var all := Collect(PieceCalls, pieces);
    assert pieces[..shown] + pieces[shown..] == pieces;
    CollectAppend(PieceCalls, pieces[..shown], pieces[shown..]);
    assert all[..|calls|] == calls;
    if Raised(env, calls) { RaisedStays(env, all, |calls|); }
  }

  lemma Unsettled(env: Env, calls: seq<ToolDelta>, tools: map<int, ToolCallState>, settled: bool)
    requires CallsOk(env, calls, tools, settled)
    ensures settled <==> !Raised(env, calls)
  {}

  lemma JustStarted(id: string, model: string)
    ensures NoErrors([MessageStart(id, model)])
  {}
}
