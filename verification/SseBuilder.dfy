/** Building an Anthropic event stream (core/anthropic/sse.py). Yielding an event is appending it to `yielded`;
    the content-block manager's fields are the builder's own. */
module SseBuilder {
  import opened Basics
  import opened StreamContract
  import opened OpenAiInput

  datatype ToolCallState = ToolCallState(
    blockIndex: int, toolId: string, name: string, contents: seq<string>, started: bool,
    taskArgBuffer: string, taskArgsEmitted: bool, preStartArgs: string)

  const NEW_TOOL := ToolCallState(-1, "", "", [], false, "", false, "")

  /** Who has a downstream block open. */
  datatype Role = TextRole | ThinkingRole | ToolRole(tool: int)

  function RoleKind(r: Role): string {
    match r case TextRole => "text" case ThinkingRole => "thinking" case ToolRole(_) => "tool_use"
  }

  function PlainBlock(kind: string): ContentBlock {
    ContentBlock(Some(kind), "", None, None, None)
  }

  function ToolBlock(id: string, name: string): (b: ContentBlock)
    ensures b.kind == Some("tool_use") && b.text == "" && b.id == Some(id) && b.name == Some(name) && b.input == Some("{}")
  {
    ContentBlock(Some("tool_use"), "", Some(id), Some(name), Some("{}"))
  }

  function Delta(index: int, kind: string, content: string): Event {
    BlockDelta(Some(index), Some(DeltaBody(Some(kind), content)))
  }

  function ArgOf(e: Event, d: int): seq<string> {
    match e
    case BlockDelta(Some(i), Some(b)) => if i == d && b.kind == Some("input_json_delta") then [b.payload] else []
    case _ => []
  }

  /** The argument deltas sent for one downstream block. */
  function ArgDeltas(events: seq<Event>, d: int): seq<string> {
    if events == [] then [] else ArgDeltas(events[..|events| - 1], d) + ArgOf(events[|events| - 1], d)
  }

  lemma ArgDeltasSnoc(events: seq<Event>, e: Event, d: int)
    ensures ArgDeltas(events + [e], d) == ArgDeltas(events, d) + ArgOf(e, d)
  {
    assert (events + [e])[..|events|] == events;
  }

  /** What a client is shown, in order: text, thinking, and tool calls; of native calls, that they start. */
  datatype Item = Said(text: string) | Thought(text: string) | ToolShown(block: ContentBlock) | ToolArgs(args: string)

  /** Tool arguments count unless they belong to the native calls, whose blocks are `native`. */
  function ItemOf(native: set<int>): Event -> seq<Item> {
    (e: Event) =>
      match e
      case BlockDelta(Some(i), Some(b)) =>
        if b.kind == Some("text_delta") then [Said(b.payload)]
        else if b.kind == Some("thinking_delta") then [Thought(b.payload)]
        else if b.kind == Some("input_json_delta") && i !in native then [ToolArgs(b.payload)]
        else []
      case BlockStart(Some(i), Some(b)) => if b.kind == Some("tool_use") then [ToolShown(b)] else []
      case _ => []
  }

  /** A tool call found in text is shown whole; a Task is made to run in the foreground. */
  function ToolItems(env: Env): HeuristicTool -> seq<Item> {
    (tool: HeuristicTool) =>
      [ToolShown(ContentBlock(Some("tool_use"), "", Some(tool.id), Some(tool.name), Some("{}")))]
      + [ToolArgs(env.dumps(if tool.name == "Task" then Normalize(tool.input) else tool.input))]
  }

  /** The blocks of the native calls that have been started. */
  function Native(tools: map<int, ToolCallState>): set<int> {
    set t | t in tools && tools[t].started :: tools[t].blockIndex
  }

  lemma NativeKept(tools: map<int, ToolCallState>, i: int, state: ToolCallState)
    requires if i in tools then state.started == tools[i].started && state.blockIndex == tools[i].blockIndex else !state.started
    ensures Native(tools[i := state]) == Native(tools)
  {
    var tools' := tools[i := state];
    forall d ensures d in Native(tools') <==> d in Native(tools) {
      if d in Native(tools) {
        var t :| t in tools && tools[t].started && tools[t].blockIndex == d;
        assert tools'[t].started && tools'[t].blockIndex == d;
      }
      if d in Native(tools') {
        var t :| t in tools' && tools'[t].started && tools'[t].blockIndex == d;
        assert tools[t].started && tools[t].blockIndex == d;
      }
    }
  }

  lemma NativeGrows(tools: map<int, ToolCallState>, i: int, state: ToolCallState)
    requires state.started && (i in tools ==> !tools[i].started)
    ensures Native(tools[i := state]) == Native(tools) + {state.blockIndex}
  {
    var tools' := tools[i := state];
    assert tools'[i].started;
    forall d ensures d in Native(tools') <==> d in Native(tools) + {state.blockIndex} {
      if d in Native(tools) {
        var t :| t in tools && tools[t].started && tools[t].blockIndex == d;
        assert tools'[t].started && tools'[t].blockIndex == d;
      }
      if d in Native(tools') && d != state.blockIndex {
        var t :| t in tools' && tools'[t].started && tools'[t].blockIndex == d;
        assert tools[t].started && tools[t].blockIndex == d;
      }
    }
  }

  /** The blocks open downstream and who holds them; `blocks` maps started tool calls to their blocks. */
  datatype Live = Live(
    next: nat, open: map<int, Role>, text: Option<int>, thinking: Option<int>, blocks: map<int, int>)

  /** The checker sees exactly the open blocks, and every index below `next` has been started. */
  ghost predicate Agree(c: Blocks, l: Live) {
    && (forall d: int :: d in c.seen <==> 0 <= d < l.next)
    && (forall d: int :: d in c.open <==> d in l.open)
    && (forall d | d in l.open :: 0 <= d < l.next && c.open[d] == RoleKind(l.open[d]) && Holds(l, l.open[d]) == Some(d))
    && (l.text.Some? ==> l.text.value in l.open && l.open[l.text.value] == TextRole)
    && (l.thinking.Some? ==> l.thinking.value in l.open && l.open[l.thinking.value] == ThinkingRole)
    && (forall t | t in l.blocks :: l.blocks[t] in l.open && l.open[l.blocks[t]] == ToolRole(t))
  }

  function Holds(l: Live, r: Role): Option<int> {
    match r
    case TextRole => l.text
    case ThinkingRole => l.thinking
    case ToolRole(t) => if t in l.blocks then Some(l.blocks[t]) else None
  }

  function WithRole(l: Live, r: Role, at: Option<int>): Live {
    match r
    case TextRole => l.(text := at)
    case ThinkingRole => l.(thinking := at)
    case ToolRole(t) => l.(blocks := if at.Some? then l.blocks[t := at.value] else l.blocks - {t})
  }

  function OpenRole(l: Live, r: Role): Live {
    WithRole(l, r, Some(l.next)).(next := l.next + 1, open := l.open[l.next := r])
  }

  lemma OpensToolRole(l: Live, t: int)
    ensures var l' := OpenRole(l, ToolRole(t));
            l'.next == l.next + 1 && l'.text == l.text && l'.thinking == l.thinking && l'.blocks == l.blocks[t := l.next]
  {}

  function CloseRole(l: Live, r: Role): Live
    requires Holds(l, r).Some?
  {
    WithRole(l, r, None).(open := l.open - {Holds(l, r).value})
  }

  lemma OpenAgrees(c: Blocks, l: Live, r: Role, block: ContentBlock)
    requires Agree(c, l) && Holds(l, r).None? && block.kind == Some(RoleKind(r)) && block.text == ""
    ensures StreamContract.Observe(c, BlockStart(Some(l.next), Some(block))).Some?
    ensures Agree(StreamContract.Observe(c, BlockStart(Some(l.next), Some(block))).value, OpenRole(l, r))
  {
    assert l.next !in c.open && l.next !in l.open;
    ObserveStart(c, l.next, block);
    hide StreamContract.Observe, Storage;
    var l' := OpenRole(l, r);
    forall d | d in l'.open ensures 0 <= d < l'.next && Holds(l', l'.open[d]) == Some(d) {
      if d != l.next { HeldElsewhere(l, r, d); }
    }
  }

  lemma HeldElsewhere(l: Live, r: Role, d: int)
    requires d in l.open && d != l.next && Holds(l, r).None? && Holds(l, l.open[d]) == Some(d)
    ensures Holds(OpenRole(l, r), l.open[d]) == Some(d)
  {}

  lemma ObserveStart(c: Blocks, d: int, block: ContentBlock)
    requires d !in c.open && d !in c.seen && block.kind.Some? && block.kind.value in ALLOWED_KINDS
    ensures StreamContract.Observe(c, BlockStart(Some(d), Some(block))) == Some(Blocks(c.open[d := Storage(block)], c.seen + {d}))
    ensures block.text == "" ==> Storage(block) == block.kind.value
    ensures block.kind == Some("tool_use") ==> Storage(block) == "tool_use"
    ensures forall c': Blocks, args | d in c'.open && c'.open[d] == "tool_use" ::
              StreamContract.Observe(c', Delta(d, "input_json_delta", args)) == Some(c')
  {}

  lemma ObserveStop(c: Blocks, d: int)
    requires d in c.open
    ensures StreamContract.Observe(c, BlockStop(Some(d))) == Some(Blocks(c.open - {d}, c.seen))
  {}

  lemma CloseAgrees(c: Blocks, l: Live, r: Role)
    requires Agree(c, l) && Holds(l, r).Some?
    ensures StreamContract.Observe(c, BlockStop(Some(Holds(l, r).value))).Some?
    ensures Agree(StreamContract.Observe(c, BlockStop(Some(Holds(l, r).value))).value, CloseRole(l, r))
  {
    var d := Holds(l, r).value;
    assert d in l.open && l.open[d] == r;
    ObserveStop(c, d);
    hide StreamContract.Observe;
    var l' := CloseRole(l, r);
    forall e | e in l'.open ensures Holds(l', l'.open[e]) == Some(e) {
      assert Holds(l, l.open[e]) == Some(e);
    }
  }

  function RoleDelta(r: Role): string {
    match r case TextRole => "text_delta" case ThinkingRole => "thinking_delta" case ToolRole(_) => "input_json_delta"
  }

  lemma DeltaAgrees(c: Blocks, l: Live, r: Role, content: string)
    requires Agree(c, l) && Holds(l, r).Some?
    ensures StreamContract.Observe(c, Delta(Holds(l, r).value, RoleDelta(r), content)) == Some(c)
    ensures 0 <= Holds(l, r).value < l.next
  {
    var d := Holds(l, r).value;
    assert d in l.open && l.open[d] == r;
  }

  /** Different tool calls stream into different blocks. */
  lemma BlocksDiffer(c: Blocks, l: Live)
    requires Agree(c, l)
    ensures forall t | t in l.blocks :: 0 <= l.blocks[t] < l.next
    ensures forall t, u | t in l.blocks && u in l.blocks && t != u :: l.blocks[t] != l.blocks[u]
  {}

  /** A block opened and closed at once only uses up an index. */
  lemma PassingAgrees(c: Blocks, l: Live, block: ContentBlock)
    requires Agree(c, l) && block.kind.Some? && block.kind.value in ALLOWED_KINDS
    ensures var started := StreamContract.Observe(c, BlockStart(Some(l.next), Some(block)));
            && started.Some?
            && (block.kind == Some("tool_use") ==>
                  forall args :: StreamContract.Observe(started.value, Delta(l.next, "input_json_delta", args)) == started)
            && var stopped := StreamContract.Observe(started.value, BlockStop(Some(l.next)));
               stopped.Some? && Agree(stopped.value, l.(next := l.next + 1))
  {
    assert l.next !in c.open && l.next !in l.open;
    ObserveStart(c, l.next, block);
    var started := c.open[l.next := Storage(block)];
    ObserveStop(Blocks(started, c.seen + {l.next}), l.next);
    hide StreamContract.Observe;
    assert started - {l.next} == c.open;
  }

  /** What was accumulated: text, reasoning, items, and the block each started native call was given. */
  datatype Told = Told(texts: seq<string>, thoughts: seq<string>, items: seq<Item>, starts: map<int, ContentBlock>)

  /** The starts of one downstream block. */
  function StartOf(d: int): Event -> seq<ContentBlock> {
    (e: Event) => match e case BlockStart(Some(i), Some(b)) => if i == d then [b] else [] case _ => []
  }

  /** What has been streamed is what was accumulated; a started call's block was started once, as `starts` says. */
  ghost predicate Recorded(
    events: seq<Event>, told: Told, tools: map<int, ToolCallState>)
  {
    && Collect(TextOf, events) == Concat(told.texts)
    && Collect(ThinkingOf, events) == Concat(told.thoughts)
    && Collect(ItemOf(Native(tools)), events) == told.items
    && (forall t | t in tools ::
          if tools[t].started then
            && ArgDeltas(events, tools[t].blockIndex) == tools[t].contents
            && t in told.starts && Collect(StartOf(tools[t].blockIndex), events) == [told.starts[t]]
          else tools[t].contents == [])
  }

  lemma SilentEventRecorded(
    events: seq<Event>, e: Event, told: Told, tools: map<int, ToolCallState>)
    requires Recorded(events, told, tools)
    requires TextOf(e) == "" && ThinkingOf(e) == "" && ItemOf(Native(tools))(e) == [] && forall d :: ArgOf(e, d) == []
    requires forall t | t in tools && tools[t].started :: StartOf(tools[t].blockIndex)(e) == []
    ensures Recorded(events + [e], told, tools)
  {
    CollectSnoc(ItemOf(Native(tools)), events, e);
    CollectSnoc(TextOf, events, e);
    CollectSnoc(ThinkingOf, events, e);
    forall d { ArgDeltasSnoc(events, e, d); }
    forall d { CollectSnoc(StartOf(d), events, e); }
  }

  lemma TextDeltaRecorded(events: seq<Event>, d: int, content: string, told: Told, tools: map<int, ToolCallState>)
    requires Recorded(events, told, tools)
    ensures Recorded(events + [Delta(d, "text_delta", content)],
                     told.(texts := told.texts + [content], items := told.items + [Said(content)]), tools)
  {
    hide Collect, ArgDeltas, Concat;
    var e := Delta(d, "text_delta", content);
    CollectSnoc(ItemOf(Native(tools)), events, e);
    CollectSnoc(TextOf, events, e);
    CollectSnoc(ThinkingOf, events, e);
    ConcatSnoc(told.texts, content);
    forall x { ArgDeltasSnoc(events, e, x); }
    forall x { CollectSnoc(StartOf(x), events, e); }
  }

  lemma ThinkingDeltaRecorded(events: seq<Event>, d: int, content: string, told: Told, tools: map<int, ToolCallState>)
    requires Recorded(events, told, tools)
    ensures Recorded(events + [Delta(d, "thinking_delta", content)],
                     told.(thoughts := told.thoughts + [content], items := told.items + [Thought(content)]), tools)
  {
    hide Collect, ArgDeltas, Concat;
    var e := Delta(d, "thinking_delta", content);
    CollectSnoc(ItemOf(Native(tools)), events, e);
    CollectSnoc(TextOf, events, e);
    CollectSnoc(ThinkingOf, events, e);
    ConcatSnoc(told.thoughts, content);
    forall x { ArgDeltasSnoc(events, e, x); }
    forall x { CollectSnoc(StartOf(x), events, e); }
  }

  lemma ToolDeltaRecorded(events: seq<Event>, t: int, content: string, told: Told, tools: map<int, ToolCallState>)
    requires Recorded(events, told, tools) && t in tools && tools[t].started
    requires forall u | u in tools && u != t && tools[u].started :: tools[u].blockIndex != tools[t].blockIndex
    ensures Recorded(events + [Delta(tools[t].blockIndex, "input_json_delta", content)], told,
                     tools[t := tools[t].(contents := tools[t].contents + [content])])
  {
    hide Collect, ArgDeltas, Concat;
    var e := Delta(tools[t].blockIndex, "input_json_delta", content);
    CollectSnoc(ItemOf(Native(tools)), events, e);
    NativeKept(tools, t, tools[t].(contents := tools[t].contents + [content]));
    CollectSnoc(TextOf, events, e);
    CollectSnoc(ThinkingOf, events, e);
    forall x { ArgDeltasSnoc(events, e, x); }
    forall x { CollectSnoc(StartOf(x), events, e); }
  }

  /** The started calls hold the blocks. */
  ghost predicate Matches(tools: map<int, ToolCallState>, blocks: map<int, int>) {
    && (forall t | t in tools && tools[t].started :: t in blocks && blocks[t] == tools[t].blockIndex)
    && (forall t | t in blocks :: t in tools && tools[t].started)
  }

  lemma MatchesStarted(tools: map<int, ToolCallState>, blocks: map<int, int>, i: int, state: ToolCallState)
    requires Matches(tools, blocks) && state.started && (i in tools ==> !tools[i].started)
    ensures Matches(tools[i := state], blocks[i := state.blockIndex])
    ensures forall t | t in tools && tools[t].started :: t in blocks && blocks[t] == tools[t].blockIndex
    ensures i !in blocks
  {}

  lemma NativeBelow(c: Blocks, l: Live, tools: map<int, ToolCallState>)
    requires Agree(c, l) && Matches(tools, l.blocks)
    ensures forall t | t in tools && tools[t].started :: 0 <= tools[t].blockIndex < l.next
  {
    BlocksDiffer(c, l);
  }

  lemma MatchesKept(tools: map<int, ToolCallState>, blocks: map<int, int>, i: int, state: ToolCallState)
    requires Matches(tools, blocks)
    requires if i in tools then state.started == tools[i].started && state.blockIndex == tools[i].blockIndex else !state.started
    ensures Matches(tools[i := state], blocks)
    ensures forall t | t in tools && tools[t].started :: t in blocks && blocks[t] == tools[t].blockIndex
  {}

  /** The stream so far is legal, `l` are its open blocks, and what was accumulated has been streamed. */
  ghost predicate Legal(yielded: seq<Event>, l: Live, told: Told, tools: map<int, ToolCallState>) {
    && Replay(yielded).Some? && Agree(Replay(yielded).value, l)
    && Matches(tools, l.blocks)
    && Recorded(yielded, told, tools)
  }

  /** The started calls from place `n` on are those whose blocks are open. */
  ghost predicate LeftOpen(tools: map<int, ToolCallState>, order: seq<int>, n: nat, blocks: map<int, int>) {
    && n <= |order|
    && (forall a, b | 0 <= a < b < |order| :: order[a] != order[b])
    && (forall k | 0 <= k < |order| :: order[k] in tools)
    && (forall k | n <= k < |order| && tools[order[k]].started ::
          order[k] in blocks && blocks[order[k]] == tools[order[k]].blockIndex)
    && (forall t | t in blocks :: exists k :: n <= k < |order| && order[k] == t && tools[t].started)
  }

  lemma LeftOpenNext(tools: map<int, ToolCallState>, order: seq<int>, n: nat, blocks: map<int, int>)
    requires LeftOpen(tools, order, n, blocks) && n < |order|
    ensures var t := order[n];
            && t in tools && (tools[t].started ==> t in blocks && blocks[t] == tools[t].blockIndex)
            && LeftOpen(tools, order, n + 1, if tools[t].started then blocks - {t} else blocks)
  {}

  lemma NoneLeftOpen(tools: map<int, ToolCallState>, order: seq<int>, blocks: map<int, int>)
    requires LeftOpen(tools, order, |order|, blocks)
    ensures forall t :: t !in blocks
  {}

  lemma AllLeftOpen(tools: map<int, ToolCallState>, order: seq<int>, blocks: map<int, int>)
    requires Matches(tools, blocks) && Distinct(order) && forall t :: t in order <==> t in tools
    ensures LeftOpen(tools, order, 0, blocks)
  {
    forall k | 0 <= k < |order| ensures order[k] in tools {
      var t := order[k];
      assert t in order && t in tools;
    }
    forall t | t in blocks ensures exists k :: 0 <= k < |order| && order[k] == t && tools[t].started {
      assert t in order;
    }
  }

  lemma ClosesToolRole(l: Live, t: int)
    requires t in l.blocks
    ensures Holds(l, ToolRole(t)) == Some(l.blocks[t])
    ensures var l' := CloseRole(l, ToolRole(t));
            l'.next == l.next && l'.text == l.text && l'.thinking == l.thinking && l'.blocks == l.blocks - {t}
  {}

  lemma ToolStartLegal(yielded: seq<Event>, l: Live, told: Told, tools: map<int, ToolCallState>, i: int, block: ContentBlock,
                       state: ToolCallState)
    requires Legal(yielded, l, told, tools) && block.kind == Some("tool_use") && block.text == ""
    requires state.started && state.blockIndex == l.next && state.contents == Known(tools, i).contents
    requires i in tools ==> !tools[i].started
    ensures Legal(yielded + [BlockStart(Some(l.next), Some(block))], OpenRole(l, ToolRole(i)),
                  told.(starts := told.starts[i := block], items := told.items + [ToolShown(block)]), tools[i := state])
  {
    hide Agree, Recorded, StreamContract.Observe, Replay, OpenRole, Matches;
    OpensToolRole(l, i);
    MatchesStarted(tools, l.blocks, i, state);
    OpenAgrees(Replay(yielded).value, l, ToolRole(i), block);
    BlocksDiffer(Replay(yielded).value, l);
    UnseenHasNoArgs(yielded, l.next, l);
    ToolStartRecorded(yielded, i, l.next, block, told, tools, state);
    ReplaySnoc(NO_BLOCKS, yielded, BlockStart(Some(l.next), Some(block)));
    ReplayIs(yielded);
    ReplayIs(yielded + [BlockStart(Some(l.next), Some(block))]);
  }

  lemma ReplayIs(events: seq<Event>)
    ensures Replay(events) == ReplayFrom(NO_BLOCKS, events)
  {}

  class Builder {
    var nextIndex: nat
    var thinkingIndex: int
    var textIndex: int
    var thinkingStarted: bool
    var textStarted: bool
    var toolOrder: seq<int>
    var toolStates: map<int, ToolCallState>
    var textParts: seq<string>
    var reasoningParts: seq<string>
    var yielded: seq<Event>
    ghost var items: seq<Item>
    ghost var openedAs: map<int, ContentBlock>
    ghost var live: Live

    ghost function SoFar(): Told
      reads `textParts, `reasoningParts, `items, `openedAs
    {
      Told(textParts, reasoningParts, items, openedAs)
    }

    /** The stream so far is legal, and the builder's fields describe exactly its open blocks. */
    ghost predicate Sound() reads this {
      && live.next == nextIndex
      && live.text == (if textStarted then Some(textIndex) else None)
      && live.thinking == (if thinkingStarted then Some(thinkingIndex) else None)
      && Legal(yielded, live, SoFar(), toolStates)
    }

    /** A block index is set exactly when something of that kind has been streamed. */
    predicate Used()
      reads `textIndex, `textParts, `thinkingIndex, `reasoningParts, `nextIndex
    {
      && (textIndex == -1 <==> textParts == []) && (thinkingIndex == -1 <==> reasoningParts == [])
      && -1 <= textIndex < nextIndex && -1 <= thinkingIndex < nextIndex
    }

    /** `toolOrder` is the insertion order of `toolStates`. */
    ghost predicate Ordered() reads `toolOrder, `toolStates {
      && (forall t :: t in toolOrder <==> t in toolStates)
      && (forall a, b | 0 <= a < b < |toolOrder| :: toolOrder[a] != toolOrder[b])
    }

    constructor ()
      ensures Used() && Ordered()
      ensures Sound() && nextIndex == 0 && !thinkingStarted && !textStarted
      ensures yielded == [] && toolStates == map[] && toolOrder == [] && textParts == [] && reasoningParts == []
      ensures items == [] && openedAs == map[]
    {
      nextIndex, thinkingIndex, textIndex, thinkingStarted, textStarted := 0, -1, -1, false, false;
      toolOrder, toolStates, textParts, reasoningParts, yielded := [], map[], [], [], [];
      items, openedAs, live := [], map[], Live(0, map[], None, None, map[]);
    }

    method Yield(e: Event)
      modifies `yielded
      ensures yielded == old(yielded) + [e]
      ensures Replay(yielded)
           == if Replay(old(yielded)).None? then None else StreamContract.Observe(Replay(old(yielded)).value, e)
    {
      ReplaySnoc(NO_BLOCKS, yielded, e);
      yielded := yielded + [e];
    }

    method AllocateIndex() returns (index: nat)
      modifies `nextIndex
      ensures index == old(nextIndex) && nextIndex == index + 1
    {
      index := nextIndex;
      nextIndex := nextIndex + 1;
    }

    method StopThinkingBlock()
      requires Sound() && thinkingStarted
      modifies `thinkingStarted, `yielded, `live
      ensures Sound() && !thinkingStarted
      ensures yielded == old(yielded) + [BlockStop(Some(thinkingIndex))]
    {
      hide Agree, Recorded, StreamContract.Observe, Replay, Collect, Native, Matches;
      CloseAgrees(Replay(yielded).value, live, ThinkingRole);
      SilentEventRecorded(yielded, BlockStop(Some(thinkingIndex)), SoFar(), toolStates);
      live := CloseRole(live, ThinkingRole);
      thinkingStarted := false;
      Yield(BlockStop(Some(thinkingIndex)));
    }

    method StopTextBlock()
      requires Sound() && textStarted
      modifies `textStarted, `yielded, `live
      ensures Sound() && !textStarted
      ensures yielded == old(yielded) + [BlockStop(Some(textIndex))]
    {
      hide Agree, Recorded, StreamContract.Observe, Replay, Collect, Native, Matches;
      CloseAgrees(Replay(yielded).value, live, TextRole);
      SilentEventRecorded(yielded, BlockStop(Some(textIndex)), SoFar(), toolStates);
      live := CloseRole(live, TextRole);
      textStarted := false;
      Yield(BlockStop(Some(textIndex)));
    }

    method StartThinkingBlock()
      requires Sound() && !thinkingStarted
      modifies `nextIndex, `thinkingIndex, `thinkingStarted, `yielded, `live
      ensures Sound() && thinkingStarted && thinkingIndex == old(nextIndex) && nextIndex == old(nextIndex) + 1
      ensures yielded
           == old(yielded) + [BlockStart(Some(thinkingIndex), Some(ContentBlock(Some("thinking"), "", None, None, None)))]
    {
      hide Agree, Recorded, StreamContract.Observe, Replay, Collect, Native, Matches;
      var e := BlockStart(Some(nextIndex), Some(PlainBlock("thinking")));
      OpenAgrees(Replay(yielded).value, live, ThinkingRole, PlainBlock("thinking"));
      NativeBelow(Replay(yielded).value, live, toolStates);
      SilentEventRecorded(yielded, e, SoFar(), toolStates);
      live := OpenRole(live, ThinkingRole);
      thinkingIndex := AllocateIndex();
      thinkingStarted := true;
      Yield(BlockStart(Some(thinkingIndex), Some(PlainBlock("thinking"))));
    }

    method StartTextBlock()
      requires Sound() && !textStarted
      modifies `nextIndex, `textIndex, `textStarted, `yielded, `live
      ensures Sound() && textStarted && textIndex == old(nextIndex) && nextIndex == old(nextIndex) + 1
      ensures yielded == old(yielded) + [BlockStart(Some(textIndex), Some(ContentBlock(Some("text"), "", None, None, None)))]
    {
      hide Agree, Recorded, StreamContract.Observe, Replay, Collect, Native, Matches;
      var e := BlockStart(Some(nextIndex), Some(PlainBlock("text")));
      OpenAgrees(Replay(yielded).value, live, TextRole, PlainBlock("text"));
      NativeBelow(Replay(yielded).value, live, toolStates);
      SilentEventRecorded(yielded, e, SoFar(), toolStates);
      live := OpenRole(live, TextRole);
      textIndex := AllocateIndex();
      textStarted := true;
      Yield(BlockStart(Some(textIndex), Some(PlainBlock("text"))));
    }

    method EmitTextDelta(content: string)
      requires Sound() && textStarted
      modifies `textParts, `yielded, `items
      ensures Sound() && 0 <= textIndex < nextIndex && textParts == old(textParts) + [content]
      ensures items == old(items) + [Said(content)]
      ensures yielded == old(yielded) + [Delta(textIndex, "text_delta", content)]
    {
      hide Agree, Recorded, StreamContract.Observe, Replay, Collect, Native, Matches;
      DeltaAgrees(Replay(yielded).value, live, TextRole, content);
      TextDeltaRecorded(yielded, textIndex, content, SoFar(), toolStates);
      textParts, items := textParts + [content], items + [Said(content)];
      Yield(Delta(textIndex, "text_delta", content));
    }

    method EmitThinkingDelta(content: string)
      requires Sound() && thinkingStarted
      modifies `reasoningParts, `yielded, `items
      ensures Sound() && 0 <= thinkingIndex < nextIndex && reasoningParts == old(reasoningParts) + [content]
      ensures items == old(items) + [Thought(content)]
      ensures yielded == old(yielded) + [Delta(thinkingIndex, "thinking_delta", content)]
    {
      hide Agree, Recorded, StreamContract.Observe, Replay, Collect, Native, Matches;
      DeltaAgrees(Replay(yielded).value, live, ThinkingRole, content);
      ThinkingDeltaRecorded(yielded, thinkingIndex, content, SoFar(), toolStates);
      reasoningParts, items := reasoningParts + [content], items + [Thought(content)];
      Yield(Delta(thinkingIndex, "thinking_delta", content));
    }

    /** `ensure_thinking_block`: text and thinking never run at the same time. */
    method EnsureThinkingBlock()
      requires Sound()
      modifies `nextIndex, `thinkingIndex, `thinkingStarted, `textStarted, `yielded, `live
      ensures Sound() && thinkingStarted && !textStarted
      ensures nextIndex >= old(nextIndex)
      ensures thinkingIndex == (if old(thinkingStarted) then old(thinkingIndex) else old(nextIndex))
      ensures yielded == old(yielded)
        + (if old(textStarted) then [BlockStop(Some(textIndex))] else [])
        + (if old(thinkingStarted) then []
           else [BlockStart(Some(thinkingIndex), Some(ContentBlock(Some("thinking"), "", None, None, None)))])
    {
      hide Agree, Recorded, StreamContract.Observe, Replay, Collect, Native, Matches;
      if textStarted { StopTextBlock(); }
      if !thinkingStarted { StartThinkingBlock(); }
    }

    method EnsureTextBlock()
      requires Sound()
      modifies `nextIndex, `textIndex, `textStarted, `thinkingStarted, `yielded, `live
      ensures Sound() && textStarted && !thinkingStarted
      ensures nextIndex >= old(nextIndex)
      ensures textIndex == (if old(textStarted) then old(textIndex) else old(nextIndex))
      ensures yielded == old(yielded)
        + (if old(thinkingStarted) then [BlockStop(Some(thinkingIndex))] else [])
        + (if old(textStarted) then []
           else [BlockStart(Some(textIndex), Some(ContentBlock(Some("text"), "", None, None, None)))])
    {
      hide Agree, Recorded, StreamContract.Observe, Replay, Collect, Native, Matches;
      if thinkingStarted { StopThinkingBlock(); }
      if !textStarted { StartTextBlock(); }
    }

    method CloseContentBlocks()
      requires Sound()
      modifies `thinkingStarted, `textStarted, `yielded, `live
      ensures Sound() && !textStarted && !thinkingStarted
      ensures yielded == old(yielded)
        + (if old(thinkingStarted) then [BlockStop(Some(thinkingIndex))] else [])
        + (if old(textStarted) then [BlockStop(Some(textIndex))] else [])
    {
      hide Agree, Recorded, StreamContract.Observe, Replay, Collect, Native, Matches;
      if thinkingStarted { StopThinkingBlock(); }
      if textStarted { StopTextBlock(); }
    }

    /** `_iter_heuristic_tool_use_sse`: a whole tool call found in text, as one block. */
    method EmitHeuristicTool(tool: HeuristicTool, env: Env)
      requires Sound()
      modifies `nextIndex, `thinkingStarted, `textStarted, `yielded, `items, `live
      ensures Sound() && !textStarted && !thinkingStarted && nextIndex == old(nextIndex) + 1
      ensures items == old(items) + [ToolShown(ContentBlock(Some("tool_use"), "", Some(tool.id), Some(tool.name), Some("{}")))]
                       + [ToolArgs(env.dumps(if tool.name == "Task" then Normalize(tool.input) else tool.input))]
      ensures var input := if tool.name == "Task" then Normalize(tool.input) else tool.input;
              yielded == old(yielded)
                + (if old(thinkingStarted) then [BlockStop(Some(thinkingIndex))] else [])
                + (if old(textStarted) then [BlockStop(Some(textIndex))] else [])
                + [BlockStart(Some(old(nextIndex)),
                              Some(ContentBlock(Some("tool_use"), "", Some(tool.id), Some(tool.name), Some("{}"))))]
                + [Delta(old(nextIndex), "input_json_delta", env.dumps(input))]
                + [BlockStop(Some(old(nextIndex)))]
    {
      hide *;
      var input := tool.input;
      if tool.name == "Task" { input := Normalize(input); }
      CloseContentBlocks();
      EmitWholeBlock(ToolBlock(tool.id, tool.name), env.dumps(input));
    }

    method EmitWholeBlock(block: ContentBlock, args: string)
      requires Sound() && block.kind == Some("tool_use")
      modifies `nextIndex, `yielded, `items, `live
      ensures Sound() && nextIndex == old(nextIndex) + 1 && items == old(items) + [ToolShown(block)] + [ToolArgs(args)]
      ensures yielded == old(yielded) + [BlockStart(Some(old(nextIndex)), Some(block))]
                         + [Delta(old(nextIndex), "input_json_delta", args)] + [BlockStop(Some(old(nextIndex)))]
    {
      hide Agree, Recorded, StreamContract.Observe, Replay, Collect, ItemOf, StartOf, ArgOf, Native, PlainBlock;
      BlocksDiffer(Replay(yielded).value, live);
      PassingAgrees(Replay(yielded).value, live, block);
      PassingBlockRecorded(yielded, nextIndex, block, args, SoFar(), toolStates);
      var index := AllocateIndex();
      items := items + [ToolShown(block)] + [ToolArgs(args)];
      live := live.(next := nextIndex);
      Yield(BlockStart(Some(index), Some(block)));
      Yield(Delta(index, "input_json_delta", args));
      Yield(BlockStop(Some(index)));
    }

    // ---- Tool calls ----

    method Put(i: int, state: ToolCallState)
      requires Ordered()
      modifies `toolOrder, `toolStates
      ensures Ordered() && toolStates == old(toolStates)[i := state]
    {
      if i !in toolStates { toolOrder := toolOrder + [i]; }
      toolStates := toolStates[i := state];
    }

    /** Changing what is remembered about a call, but not its block or what was streamed into it. */
    method Remember(i: int, state: ToolCallState)
      requires Sound() && Ordered()
      requires if i in toolStates
               then state.started == toolStates[i].started && state.blockIndex == toolStates[i].blockIndex
                    && state.contents == toolStates[i].contents
               else !state.started && state.contents == []
      modifies `toolOrder, `toolStates
      ensures Sound() && Ordered() && toolStates == old(toolStates)[i := state]
    {
      hide Agree, Matches;
      MatchesKept(toolStates, live.blocks, i, state);
      NativeKept(toolStates, i, state);
      Put(i, state);
    }

    method EnsureToolState(i: int)
      requires Sound() && Ordered()
      modifies `toolOrder, `toolStates
      ensures Sound() && Ordered() && i in toolStates
      ensures toolStates == if i in old(toolStates) then old(toolStates) else old(toolStates)[i := NEW_TOOL]
    {
      if i !in toolStates { Remember(i, NEW_TOOL); }
    }

    method SetStreamToolId(i: int, id: string)
      requires Sound() && Ordered()
      modifies `toolOrder, `toolStates
      ensures Sound() && Ordered()
      ensures toolStates == if id == "" then old(toolStates) else old(toolStates)[i := Known(old(toolStates), i).(toolId := id)]
    {
      hide Sound, Ordered;
      if id == "" { return; }
      EnsureToolState(i);
      Remember(i, toolStates[i].(toolId := id));
    }

    method RegisterToolName(i: int, name: string)
      requires Sound() && Ordered()
      modifies `toolOrder, `toolStates
      ensures Sound() && Ordered()
      ensures var known := Known(old(toolStates), i);
              toolStates == old(toolStates)[i := known.(name := MergeName(known.name, name))]
    {
      hide Sound, Ordered, MergeName;
      MergeCases(Known(toolStates, i).name, name);
      if i !in toolStates {
        Remember(i, NEW_TOOL.(name := name));
        return;
      }
      var state := toolStates[i];
      var prev := state.name;
      if prev == "" || prev <= name {
        Remember(i, state.(name := name));
      } else if !(name <= prev) {
        Remember(i, state.(name := prev + name));
      } else {
        assert toolStates == toolStates[i := state.(name := prev)];
      }
    }

    method StartToolBlock(i: int, id: string, name: string)
      requires Sound() && Ordered() && (i in toolStates ==> !toolStates[i].started)
      modifies `nextIndex, `toolOrder, `toolStates, `yielded, `openedAs, `items, `live
      ensures Sound() && Ordered() && nextIndex == old(nextIndex) + 1 && openedAs == old(openedAs)[i := ToolBlock(id, name)]
      ensures items == old(items) + [ToolShown(ToolBlock(id, name))]
      ensures yielded == old(yielded)
                + [BlockStart(Some(old(nextIndex)), Some(ContentBlock(Some("tool_use"), "", Some(id), Some(name), Some("{}"))))]
      ensures toolStates == old(toolStates)[i :=
                (if i in old(toolStates) then old(toolStates)[i] else NEW_TOOL.(name := name))
                  .(blockIndex := old(nextIndex), toolId := id, started := true)]
    {
      hide Legal, Ordered, ToolBlock, OpenRole, Replay, StreamContract.Observe;
      OpensToolRole(live, i);
      var state := if i in toolStates then toolStates[i] else NEW_TOOL.(name := name);
      var index := AllocateIndex();
      state := state.(blockIndex := index, toolId := id, started := true);
      ShowToolStart(i, ToolBlock(id, name), state);
    }

    /** The block of a call is started, and the call remembered as started. */
    method ShowToolStart(i: int, block: ContentBlock, state: ToolCallState)
      requires Legal(yielded, live, SoFar(), toolStates) && Ordered() && (i in toolStates ==> !toolStates[i].started)
      requires block.kind == Some("tool_use") && block.text == ""
      requires state.started && state.blockIndex == live.next && state.contents == Known(toolStates, i).contents
      modifies `toolOrder, `toolStates, `yielded, `openedAs, `items, `live
      ensures Legal(yielded, live, SoFar(), toolStates) && Ordered() && live == OpenRole(old(live), ToolRole(i))
      ensures yielded == old(yielded) + [BlockStart(Some(state.blockIndex), Some(block))]
      ensures openedAs == old(openedAs)[i := block] && items == old(items) + [ToolShown(block)]
      ensures toolStates == old(toolStates)[i := state]
    {
      hide Legal, Ordered, OpenRole, Replay, StreamContract.Observe;
      ToolStartLegal(yielded, live, SoFar(), toolStates, i, block, state);
      live, openedAs, items := OpenRole(live, ToolRole(i)), openedAs[i := block], items + [ToolShown(block)];
      Put(i, state);
      Yield(BlockStart(Some(state.blockIndex), Some(block)));
    }

    method EmitToolDelta(i: int, partialJson: string)
      requires Sound() && Ordered() && i in toolStates && toolStates[i].started
      modifies `toolOrder, `toolStates, `yielded
      ensures Sound() && Ordered()
      ensures toolStates == old(toolStates)[i := old(toolStates)[i].(contents := old(toolStates)[i].contents + [partialJson])]
      ensures yielded == old(yielded) + [Delta(old(toolStates)[i].blockIndex, "input_json_delta", partialJson)]
    {
      hide Agree, Recorded, StreamContract.Observe, Replay, Collect, ItemOf, StartOf, Native, Matches, Ordered;
      var state := toolStates[i];
      MatchesKept(toolStates, live.blocks, i, state.(contents := state.contents + [partialJson]));
      BlocksDiffer(Replay(yielded).value, live);
      DeltaAgrees(Replay(yielded).value, live, ToolRole(i), partialJson);
      ToolDeltaRecorded(yielded, i, partialJson, SoFar(), toolStates);
      Put(i, state.(contents := state.contents + [partialJson]));
      Yield(Delta(state.blockIndex, "input_json_delta", partialJson));
    }

    // ---- The end of the stream ----

    /** Nothing is open any more; the record still holds. */
    ghost predicate Closed() reads this {
      && Replay(yielded).Some?
      && (forall d: int :: d in Replay(yielded).value.seen <==> 0 <= d < nextIndex)
      && (forall d: int :: d !in Replay(yielded).value.open)
      && Recorded(yielded, SoFar(), toolStates)
      && (forall t | t in toolStates && toolStates[t].started :: 0 <= toolStates[t].blockIndex < nextIndex)
    }

    method StopToolBlock(t: int)
      requires Replay(yielded).Some? && Agree(Replay(yielded).value, live)
      requires Recorded(yielded, SoFar(), toolStates)
      requires t in toolStates && t in live.blocks && live.blocks[t] == toolStates[t].blockIndex
      modifies `yielded, `live
      ensures Replay(yielded).Some? && Agree(Replay(yielded).value, live) && live == CloseRole(old(live), ToolRole(t))
      ensures Recorded(yielded, SoFar(), toolStates)
      ensures yielded == old(yielded) + [BlockStop(Some(toolStates[t].blockIndex))]
    {
      hide Agree, Recorded, StreamContract.Observe, Replay, Collect, Native, Matches;
      var stop := BlockStop(Some(toolStates[t].blockIndex));
      CloseAgrees(Replay(yielded).value, live, ToolRole(t));
      SilentEventRecorded(yielded, stop, SoFar(), toolStates);
      live := CloseRole(live, ToolRole(t));
      Yield(stop);
    }

    method CloseAllBlocks()
      requires Sound() && Ordered()
      modifies `thinkingStarted, `textStarted, `yielded, `live
      ensures Closed()
      ensures old(yielded) != [] ==> yielded != [] && yielded[0] == old(yielded)[0]
      ensures NoErrors(old(yielded)) ==> NoErrors(yielded)
    {
      hide Agree, Recorded, StreamContract.Observe, NoErrors;
      ghost var stops1 := (if thinkingStarted then [BlockStop(Some(thinkingIndex))] else [])
                          + (if textStarted then [BlockStop(Some(textIndex))] else []);
      AppendKeeps(yielded, stops1);
      StopsAreNoErrors(stops1);
      assert yielded + stops1 == yielded + (if thinkingStarted then [BlockStop(Some(thinkingIndex))] else [])
                                 + (if textStarted then [BlockStop(Some(textIndex))] else []);
      CloseContentBlocks();
      BlocksDiffer(Replay(yielded).value, live);
      CloseToolBlocks();
      NobodyHolds(Replay(yielded).value, live);
    }

    method CloseToolBlocks()
      requires Ordered() && Sound()
      modifies `yielded, `live
      ensures Replay(yielded).Some? && Agree(Replay(yielded).value, live) && (forall t :: t !in live.blocks)
      ensures live.next == old(live).next && live.text == old(live).text && live.thinking == old(live).thinking
      ensures Recorded(yielded, SoFar(), toolStates)
      ensures old(yielded) != [] ==> yielded != [] && yielded[0] == old(yielded)[0]
      ensures NoErrors(old(yielded)) ==> NoErrors(yielded)
    {
      hide Agree, Recorded, StreamContract.Observe, NoErrors, Replay, Collect, ItemOf, StartOf, Native, LeftOpen, CloseRole,
           Holds, Matches;
      assert LeftOpen(toolStates, toolOrder, 0, live.blocks) by { AllLeftOpen(toolStates, toolOrder, live.blocks); }
      hide Sound, Ordered;
      for n := 0 to |toolOrder|
        invariant Replay(yielded).Some? && Agree(Replay(yielded).value, live)
        invariant live.next == old(live).next && live.text == old(live).text && live.thinking == old(live).thinking
        invariant Recorded(yielded, SoFar(), toolStates)
        invariant LeftOpen(toolStates, toolOrder, n, live.blocks)
        invariant old(yielded) != [] ==> yielded != [] && yielded[0] == old(yielded)[0]
        invariant NoErrors(old(yielded)) ==> NoErrors(yielded)
      {
        var t := toolOrder[n];
        LeftOpenNext(toolStates, toolOrder, n, live.blocks);
        if toolStates[t].started {
          ghost var stops := [BlockStop(Some(toolStates[t].blockIndex))];
          AppendKeeps(yielded, stops);
          StopsAreNoErrors(stops);
          ClosesToolRole(live, t);
          StopToolBlock(t);
        }
      }
      NoneLeftOpen(toolStates, toolOrder, live.blocks);
    }

    /** `emit_error`: the message as a text block of its own. */
    method EmitError(message: string)
      requires Closed()
      modifies `nextIndex, `yielded
      ensures Replay(yielded).Some? && Replay(yielded).value.seen != {} && forall d :: d !in Replay(yielded).value.open
      ensures yielded == old(yielded) + [BlockStart(Some(old(nextIndex)), Some(ContentBlock(Some("text"), "", None, None, None)))]
                         + [Delta(old(nextIndex), "text_delta", message)] + [BlockStop(Some(old(nextIndex)))]
    {
      var index := AllocateIndex();
      assert index !in Replay(yielded).value.seen;
      Yield(BlockStart(Some(index), Some(PlainBlock("text"))));
      Yield(Delta(index, "text_delta", message));
      Yield(BlockStop(Some(index)));
      assert index in Replay(yielded).value.seen;
    }
  }

  lemma MergeCases(prev: string, name: string)
    ensures prev == "" || prev <= name ==> MergeName(prev, name) == name
    ensures prev != "" && !(prev <= name) && name <= prev ==> MergeName(prev, name) == prev
    ensures prev != "" && !(prev <= name) && !(name <= prev) ==> MergeName(prev, name) == prev + name
  {}

  function Known(tools: map<int, ToolCallState>, i: int): ToolCallState {
    if i in tools then tools[i] else NEW_TOOL
  }

  lemma StopsAreNoErrors(events: seq<Event>)
    requires forall k | 0 <= k < |events| :: events[k].BlockStop?
    ensures NoErrors(events)
  {}

  lemma NobodyHolds(c: Blocks, l: Live)
    requires Agree(c, l) && l.text == None && l.thinking == None && forall t :: t !in l.blocks
    ensures (forall d :: d !in c.open) && forall d: int :: d in c.seen <==> 0 <= d < l.next
  {
    assert forall d | d in l.open :: Holds(l, l.open[d]) == Some(d);
  }

  lemma {:induction false} ArgsWereSeen(events: seq<Event>, d: int)
    requires Replay(events).Some?
    ensures ArgDeltas(events, d) != [] ==> d in Replay(events).value.seen
    ensures forall x | x in Replay(events).value.open :: x in Replay(events).value.seen
  {
    if events != [] { ArgsWereSeen(events[..|events| - 1], d); }
  }

  lemma UnseenHasNoArgs(events: seq<Event>, next: nat, l: Live)
    requires Replay(events).Some? && Agree(Replay(events).value, l) && next == l.next
    ensures ArgDeltas(events, next) == [] && next !in Replay(events).value.seen
  {
    ArgsWereSeen(events, next);
  }

  lemma ToolStartRecorded(events: seq<Event>, i: int, d: int, block: ContentBlock, told: Told,
                          tools: map<int, ToolCallState>, state: ToolCallState)
    requires Recorded(events, told, tools) && ArgDeltas(events, d) == []
    requires Replay(events).Some? && d !in Replay(events).value.seen
    requires state.started && state.blockIndex == d && state.contents == Known(tools, i).contents
    requires i in tools ==> !tools[i].started
    requires block.kind == Some("tool_use") && forall t | t in tools && tools[t].started :: tools[t].blockIndex != d
    ensures Recorded(events + [BlockStart(Some(d), Some(block))],
                     told.(starts := told.starts[i := block], items := told.items + [ToolShown(block)]), tools[i := state])
  {
    hide Collect, Concat, ArgDeltas, Replay, ReplayFrom;
    var e, native := BlockStart(Some(d), Some(block)), Native(tools);
    NativeGrows(tools, i, state);
    ItemsSettled(events, native, d);
    CollectSnoc(ItemOf(native + {d}), events, e);
    CollectSnoc(TextOf, events, e);
    CollectSnoc(ThinkingOf, events, e);
    NotStartedBefore(events, d);
    forall x { ArgDeltasSnoc(events, e, x); }
    forall x { CollectSnoc(StartOf(x), events, e); }
  }

  lemma PassingBlockRecorded(events: seq<Event>, d: nat, block: ContentBlock, args: string, told: Told,
                             tools: map<int, ToolCallState>)
    requires Recorded(events, told, tools) && block.kind == Some("tool_use")
    requires forall t | t in tools && tools[t].started :: tools[t].blockIndex != d
    ensures Recorded(events + [BlockStart(Some(d), Some(block))] + [Delta(d, "input_json_delta", args)] + [BlockStop(Some(d))],
                     told.(items := told.items + [ToolShown(block)] + [ToolArgs(args)]), tools)
  {
    hide Collect, ArgDeltas, Concat;
    var e1, e2, e3 := BlockStart(Some(d), Some(block)), Delta(d, "input_json_delta", args), BlockStop(Some(d));
    var events1 := events + [e1];
    PassingEventRecorded(events, e1, told, tools);
    PassingEventRecorded(events1, e2, told.(items := told.items + [ToolShown(block)]), tools);
    SilentEventRecorded(events1 + [e2], e3, told.(items := told.items + [ToolShown(block)] + [ToolArgs(args)]), tools);
  }

  /** An event of a block that is no native call's. */
  lemma PassingEventRecorded(events: seq<Event>, e: Event, told: Told, tools: map<int, ToolCallState>)
    requires Recorded(events, told, tools) && TextOf(e) == "" && ThinkingOf(e) == ""
    requires forall t | t in tools && tools[t].started ::
               ArgOf(e, tools[t].blockIndex) == [] && StartOf(tools[t].blockIndex)(e) == []
    ensures Recorded(events + [e], told.(items := told.items + ItemOf(Native(tools))(e)), tools)
  {
    hide Collect, ArgDeltas, Concat, ItemOf, StartOf, ArgOf, TextOf, ThinkingOf;
    CollectSnoc(TextOf, events, e);
    CollectSnoc(ThinkingOf, events, e);
    CollectSnoc(ItemOf(Native(tools)), events, e);
    forall x { ArgDeltasSnoc(events, e, x); }
    forall x { CollectSnoc(StartOf(x), events, e); }
  }

  /** Events of blocks started before say nothing about a new block. */
  lemma {:induction false} ItemsSettled(events: seq<Event>, native: set<int>, d: int)
    requires Replay(events).Some? && d !in Replay(events).value.seen
    ensures Collect(ItemOf(native + {d}), events) == Collect(ItemOf(native), events)
  {
    hide StreamContract.Observe, ItemOf;
    if events != [] {
      var before, e := events[..|events| - 1], events[|events| - 1];
      ArgsWereSeen(before, d);
      ItemSettled(Replay(before).value, e, native, d);
      ItemsSettled(before, native, d);
    }
  }

  lemma ItemSettled(c: Blocks, e: Event, native: set<int>, d: int)
    requires StreamContract.Observe(c, e).Some? && d !in StreamContract.Observe(c, e).value.seen
    requires forall x | x in c.open :: x in c.seen
    ensures ItemOf(native + {d})(e) == ItemOf(native)(e) && d !in c.seen
  {}

  lemma {:induction false} NotStartedBefore(events: seq<Event>, d: int)
    requires Replay(events).Some? && d !in Replay(events).value.seen
    ensures Collect(StartOf(d), events) == []
  {
    if events != [] { NotStartedBefore(events[..|events| - 1], d); }
  }
}
