/** Converting an Anthropic message history to OpenAI chat messages (core/anthropic/conversion.py).
    Assistant content after a tool call has to wait until the results of the turn's calls have been replayed. */
module Conversion {
  import opened Basics

  // ---- Messages ----

  datatype ReplayMode = DISABLED | THINK_TAGS | REASONING_CONTENT

  /** A list item of a tool result; JSON objects and other values are given by their text. */
  datatype Item = TextItem(text: string) | DictItem(json: string) | OtherItem(text: string)

  datatype ToolContent = Absent | Str(text: string) | Dict(json: string) | Items(items: seq<Item>) | Other(text: string)

  /** `Forbidden` are server tool blocks and their results; `arguments` is the JSON text of a tool's input. */
  datatype Block =
    | Text(text: string)
    | Thinking(thinking: string)
    | RedactedThinking
    | ToolUse(id: Option<string>, name: string, arguments: string)
    | ToolResult(toolUseId: Option<string>, content: ToolContent)
    | Image
    | Forbidden
    | Unknown

  datatype Role = User | Assistant | OtherRole(name: string)

  datatype Content = Plain(text: string) | Blocks(blocks: seq<Block>) | Scalar(text: string)

  datatype Message = Message(role: Role, content: Content, reasoning: Option<string>)

  datatype ToolCall = ToolCall(id: Option<string>, name: string, arguments: string)

  datatype Out =
    | AssistantOut(content: string, toolCalls: seq<ToolCall>, reasoning: Option<string>)
    | ToolOut(id: Option<string>, content: string)
    | RoleOut(role: Role, content: string)

  function ItemText(item: Item): string {
    match item case TextItem(text) => text case DictItem(json) => json case OtherItem(text) => text
  }

  function ItemTexts(items: seq<Item>): seq<string> {
    Collect((item: Item) => [ItemText(item)], items)
  }

  /** `_serialize_tool_result_content`. */
  function Serialize(content: ToolContent): string {
    match content
    case Absent => ""
    case Str(text) => text
    case Dict(json) => json
    case Items(items) => Join("\n", ItemTexts(items))
    case Other(text) => text
  }

  function ThinkTagContent(reasoning: string): string {
    "<think>\n" + reasoning + "\n</think>"
  }

  // ---- One assistant message ----

  function PartOf(mode: ReplayMode): Block -> seq<string> {
    (b: Block) => match b
                  case Text(text) => [text]
                  case Thinking(thinking) => if mode == THINK_TAGS then [ThinkTagContent(thinking)] else []
                  case _ => []
  }

  function ThoughtOf(b: Block): seq<string> {
    if b.Thinking? then [b.thinking] else []
  }

  function UseOf(b: Block): seq<ToolCall> {
    if b.ToolUse? then [ToolCall(b.id, b.name, b.arguments)] else []
  }

  function Replayed(mode: ReplayMode, reasoning: Option<string>, thoughts: seq<string>): Option<string> {
    var replay := if reasoning.Some? && reasoning.value != "" then reasoning.value else Join("\n", thoughts);
    if mode == REASONING_CONTENT && replay != "" then Some(replay) else None
  }

  /** What a list of assistant blocks is replayed as: its text parts, its calls, its reasoning. */
  function AssistantMessage(blocks: seq<Block>, reasoning: Option<string>, mode: ReplayMode): Out {
    var text, calls := Join("\n\n", Collect(PartOf(mode), blocks)), Collect(UseOf, blocks);
    AssistantOut(if text == "" && calls == [] then " " else text, calls,
                 Replayed(mode, reasoning, if reasoning.None? then Collect(ThoughtOf, blocks) else []))
  }

  lemma OnlyReasoningModeReplays(mode: ReplayMode, reasoning: Option<string>)
    ensures mode != REASONING_CONTENT ==> forall thoughts :: Replayed(mode, reasoning, thoughts) == None
  {}

  predicate NotAllowed(b: Block) {
    b.Image? || b.Forbidden?
  }

  /** `_convert_assistant_message`; `None` where it raises. */
  method ConvertAssistantMessage(content: seq<Block>, reasoning: Option<string>, mode: ReplayMode)
    returns (msg: Option<Out>)
    ensures msg == if exists k | 0 <= k < |content| :: NotAllowed(content[k]) then None
                   else Some(AssistantMessage(content, reasoning, mode))
  {
    hide ThinkTagContent, Replayed, Join, Collect;
    CollectNothing(PartOf(mode));
    CollectNothing(UseOf);
    CollectNothing(ThoughtOf);
    assert content[..0] == [] && content[..|content|] == content;
    OnlyReasoningModeReplays(mode, reasoning);
    var contentParts, thinkingParts: seq<string> := [], [];
    var toolCalls: seq<ToolCall> := [];
    for k := 0 to |content|
      invariant forall j | 0 <= j < k :: !NotAllowed(content[j])
      invariant contentParts == Collect(PartOf(mode), content[..k]) && toolCalls == Collect(UseOf, content[..k])
      invariant thinkingParts == if mode == REASONING_CONTENT && reasoning.None? then Collect(ThoughtOf, content[..k]) else []
    {
      assert content[..k + 1] == content[..k] + [content[k]];
      CollectSnoc(PartOf(mode), content[..k], content[k]);
      CollectSnoc(UseOf, content[..k], content[k]);
      CollectSnoc(ThoughtOf, content[..k], content[k]);
      match content[k] {
        case Text(text) => contentParts := contentParts + [text];
        case Thinking(thinking) =>
          if mode == THINK_TAGS {
            contentParts := contentParts + [ThinkTagContent(thinking)];
          } else if mode != DISABLED && reasoning.None? {
            thinkingParts := thinkingParts + [thinking];
          }
        case ToolUse(id, name, arguments) => toolCalls := toolCalls + [ToolCall(id, name, arguments)];
        case Image => return None;
        case Forbidden => return None;
        case _ =>
      }
    }
    var contentStr := Join("\n\n", contentParts);
    if contentStr == "" && toolCalls == [] { contentStr := " "; }
    msg := Some(AssistantOut(contentStr, toolCalls, Replayed(mode, reasoning, thinkingParts)));
  }

  // ---- An assistant turn with tool calls ----

  /** `_index_first_tool_use`, or the length when there is none. */
  function FirstToolUse(blocks: seq<Block>): (at: nat)
    ensures at <= |blocks| && (at < |blocks| ==> blocks[at].ToolUse?)
    ensures forall k | 0 <= k < at :: !blocks[k].ToolUse?
  {
    if blocks == [] || blocks[0].ToolUse? then 0 else 1 + FirstToolUse(blocks[1..])
  }

  function NotToolUse(b: Block): seq<Block> {
    if b.ToolUse? then [] else [b]
  }

  /** `_deferred_post_tool_blocks`. */
  function Deferred(blocks: seq<Block>): seq<Block> {
    Collect(NotToolUse, blocks[FirstToolUse(blocks)..])
  }

  /** Ids whose results must come first; blank ids can never be answered. */
  function WaitIds(calls: seq<ToolCall>): set<string> {
    set k | 0 <= k < |calls| && calls[k].id.Some? && !Blank(calls[k].id.value) :: calls[k].id.value
  }

  /** Content waiting for results. */
  datatype Waiting = Waiting(remaining: set<string>, blocks: seq<Block>, reasoning: Option<string>)

  function DeferredMessage(w: Waiting, mode: ReplayMode): Out {
    AssistantMessage(w.blocks, w.reasoning, mode)
  }

  /** The message with the calls, holding what came before them. */
  function CallMessage(blocks: seq<Block>, reasoning: Option<string>, mode: ReplayMode): Out {
    var pre, calls := blocks[..FirstToolUse(blocks)], Collect(UseOf, blocks);
    if pre == [] then AssistantOut("", calls, Replayed(mode, reasoning, []))
    else
      var m := AssistantMessage(pre, reasoning, mode);
      AssistantOut(if m.content == " " then "" else m.content, calls, m.reasoning)
  }

  /** `_PendingAfterTools`. */
  class PendingAfterTools {
    var remainingToolIds: set<string>
    const deferredBlocks: seq<Block>
    const topLevelReasoning: Option<string>
    var deferredEmitted: bool

    constructor (remaining: set<string>, blocks: seq<Block>, reasoning: Option<string>)
      ensures Now() == Waiting(remaining, blocks, reasoning) && !deferredEmitted
    {
      remainingToolIds, deferredBlocks, topLevelReasoning, deferredEmitted := remaining, blocks, reasoning, false;
    }

    function Now(): Waiting reads this {
      Waiting(remainingToolIds, deferredBlocks, topLevelReasoning)
    }

    predicate NeedsDeferred() reads this {
      deferredBlocks != [] && !deferredEmitted
    }
  }

  // ---- A user turn ----

  function Flush(texts: seq<string>): seq<Out> {
    if texts == [] then [] else [RoleOut(User, Join("\n", texts))]
  }

  function IdText(id: Option<string>): string {
    if id.Some? then id.value else ""
  }

  /** Progress through the blocks of a user turn; `emitted` counts the deferred messages put in. */
  datatype Reading = Reading(out: seq<Out>, texts: seq<string>, remaining: set<string>, emitted: nat)

  function ReadBlock(r: Reading, b: Block, inject: Option<Out>): Reading {
    match b
    case Text(text) => r.(texts := r.texts + [text])
    case ToolResult(id, content) =>
      var out := r.out + Flush(r.texts) + [ToolOut(id, Serialize(content))];
      var remaining := r.remaining - {IdText(id)};
      if inject.Some? && remaining == {} then Reading(out + [inject.value], [], remaining, r.emitted + 1)
      else Reading(out, [], remaining, r.emitted)
    case _ => r
  }

  function ReadBlocks(blocks: seq<Block>, remaining: set<string>, inject: Option<Out>): Reading {
    if blocks == [] then Reading([], [], remaining, 0)
    else ReadBlock(ReadBlocks(blocks[..|blocks| - 1], remaining, inject), blocks[|blocks| - 1], inject)
  }

  /** Adjacent texts become one user message; each result becomes a tool message. */
  function UserMessages(blocks: seq<Block>): seq<Out> {
    var r := ReadBlocks(blocks, {}, None);
    r.out + Flush(r.texts)
  }

  lemma ReadSnoc(blocks: seq<Block>, k: nat, remaining: set<string>, inject: Option<Out>)
    requires k < |blocks|
    ensures ReadBlocks(blocks[..k + 1], remaining, inject)
         == ReadBlock(ReadBlocks(blocks[..k], remaining, inject), blocks[k], inject)
  {
    assert blocks[..k + 1][..k] == blocks[..k];
  }

  lemma NothingRead(remaining: set<string>, inject: Option<Out>)
    ensures ReadBlocks([], remaining, inject) == Reading([], [], remaining, 0)
  {}

  /** `_convert_user_message`; `None` where it raises. */
  method ConvertUserMessage(content: seq<Block>) returns (result: Option<seq<Out>>)
    ensures result == if exists k | 0 <= k < |content| :: content[k].Image? then None else Some(UserMessages(content))
  {
    var out: seq<Out>, textParts: seq<string> := [], [];
    for k := 0 to |content|
      invariant forall j | 0 <= j < k :: !content[j].Image?
      invariant ReadBlocks(content[..k], {}, None) == Reading(out, textParts, {}, 0)
    {
      ReadSnoc(content, k, {}, None);
      match content[k] {
        case Text(text) => textParts := textParts + [text];
        case Image => return None;
        case ToolResult(id, toolContent) =>
          out, textParts := out + Flush(textParts), [];
          out := out + [ToolOut(id, Serialize(toolContent))];
        case _ =>
      }
    }
    assert content[..|content|] == content;
    result := Some(out + Flush(textParts));
  }

  /** `_convert_user_message_with_injection`: with nothing to wait for, the turn is converted plainly. */
  method ConvertUserMessageWithInjection(content: seq<Block>, pending: PendingAfterTools, mode: ReplayMode)
    returns (result: Option<seq<Out>>, cleared: bool)
    modifies pending
    ensures result.None? <==> exists k | 0 <= k < |content| :: content[k].Image?
    ensures result.Some? && old(pending.deferredBlocks != [] && !pending.deferredEmitted && pending.remainingToolIds != {}) ==>
              var late := DeferredMessage(old(pending.Now()), mode);
              var r := ReadBlocks(content, old(pending.remainingToolIds), Some(late));
              && result == Some(r.out + Flush(r.texts)) && (cleared <==> r.emitted > 0)
              && pending.remainingToolIds == r.remaining && pending.deferredEmitted == cleared
    ensures result.Some? && !old(pending.deferredBlocks != [] && !pending.deferredEmitted && pending.remainingToolIds != {}) ==>
              && result == Some(UserMessages(content)) && !cleared
              && pending.remainingToolIds == old(pending.remainingToolIds)
              && pending.deferredEmitted == old(pending.deferredEmitted)
  {
    hide Serialize, Flush, IdText, Join, Collect, Replayed;
    if !pending.NeedsDeferred() || pending.remainingToolIds == {} {
      result := ConvertUserMessage(content);
      return result, false;
    }
    var out: seq<Out>, textParts: seq<string> := [], [];
    cleared := false;
    ghost var deferred := DeferredMessage(pending.Now(), mode);
    NothingRead(pending.remainingToolIds, Some(deferred));
    hide ReadBlocks;
    for k := 0 to |content|
      invariant forall j | 0 <= j < k :: !content[j].Image?
      invariant var r := ReadBlocks(content[..k], old(pending.remainingToolIds), Some(deferred));
                && r.out == out && r.texts == textParts && r.remaining == pending.remainingToolIds
                && (cleared <==> r.emitted > 0) && pending.deferredEmitted == cleared
    {
      ReadSnoc(content, k, old(pending.remainingToolIds), Some(deferred));
      match content[k] {
        case Text(text) => textParts := textParts + [text];
        case Image => return None, false;
        case ToolResult(id, toolContent) =>
          out, textParts := out + Flush(textParts), [];
          out := out + [ToolOut(id, Serialize(toolContent))];
          pending.remainingToolIds := pending.remainingToolIds - {IdText(id)};
          if pending.remainingToolIds == {} {
            out := out + [AssistantMessage(pending.deferredBlocks, pending.topLevelReasoning, mode)];
            pending.deferredEmitted := true;
            cleared := true;
          }
        case _ =>
      }
    }
    assert content[..|content|] == content;
    result := Some(out + Flush(textParts));
  }

  // ---- The whole history ----

  function CleanReasoning(reasoning: Option<string>): Option<string> {
    if reasoning == Some("") then None else reasoning
  }

  predicate IsTurn(m: Message, role: Role) {
    m.role == role && m.content.Blocks?
  }

  /** Messages that make the conversion raise. */
  predicate Raises(m: Message) {
    || (IsTurn(m, Assistant) && exists k | 0 <= k < |m.content.blocks| :: NotAllowed(m.content.blocks[k]))
    || (IsTurn(m, User) && exists k | 0 <= k < |m.content.blocks| :: m.content.blocks[k].Image?)
  }

  predicate HasToolUse(blocks: seq<Block>) {
    FirstToolUse(blocks) < |blocks|
  }

  function PlainMessage(m: Message, mode: ReplayMode): Out
    requires m.content.Plain?
  {
    var text, reasoning := m.content.text, CleanReasoning(m.reasoning);
    if m.role != Assistant then RoleOut(m.role, text)
    else if reasoning.None? || mode == DISABLED then AssistantOut(text, [], None)
    else if mode == REASONING_CONTENT then AssistantOut(text, [], reasoning)
    else AssistantOut(Join("\n\n", [ThinkTagContent(reasoning.value)] + if text != "" then [text] else []), [], None)
  }

  /** What a message becomes at its own place. */
  function Direct(mode: ReplayMode): Message -> seq<Out> {
    (m: Message) =>
      match m.content
      case Plain(text) => [PlainMessage(m, mode)]
      case Scalar(text) => [RoleOut(m.role, text)]
      case Blocks(blocks) =>
        if m.role == User then UserMessages(blocks)
        else if m.role != Assistant then []
        else if HasToolUse(blocks) then [CallMessage(blocks, CleanReasoning(m.reasoning), mode)]
        else [AssistantMessage(blocks, CleanReasoning(m.reasoning), mode)]
  }

  /** The content an assistant turn leaves waiting. */
  function Opened(m: Message): Option<Waiting> {
    if IsTurn(m, Assistant) && Deferred(m.content.blocks) != [] && HasToolUse(m.content.blocks) then
      Some(Waiting(WaitIds(Collect(UseOf, m.content.blocks)), Deferred(m.content.blocks), CleanReasoning(m.reasoning)))
    else None
  }

  /** Messages before which waiting content is put in without waiting any longer. */
  predicate EndsWait(w: Waiting, m: Message) {
    IsTurn(m, Assistant) || (m.role == User && (!m.content.Blocks? || w.remaining == {}))
  }

  /** Messages so far, content waiting, and the deferred messages put in (a record of `out`). */
  datatype Progress = Progress(out: seq<Out>, waiting: Option<Waiting>, deferred: seq<Out>)

  const START := Progress([], None, [])

  function Copies(o: Out, n: nat): seq<Out> {
    seq(n, _ => o)
  }

  function Step(p: Progress, m: Message, mode: ReplayMode): Progress {
    if p.waiting.Some? && EndsWait(p.waiting.value, m) then
      var late := DeferredMessage(p.waiting.value, mode);
      Progress(p.out + [late] + Direct(mode)(m), Opened(m), p.deferred + [late])
    else if p.waiting.Some? && IsTurn(m, User) then
      var late := DeferredMessage(p.waiting.value, mode);
      var r := ReadBlocks(m.content.blocks, p.waiting.value.remaining, Some(late));
      Progress(p.out + r.out + Flush(r.texts),
               if r.emitted > 0 then None else Some(p.waiting.value.(remaining := r.remaining)),
               p.deferred + Copies(late, r.emitted))
    else Progress(p.out + Direct(mode)(m), if Opened(m).Some? then Opened(m) else p.waiting, p.deferred)
  }

  function Run(history: seq<Message>, mode: ReplayMode): Progress {
    if history == [] then START else Step(Run(history[..|history| - 1], mode), history[|history| - 1], mode)
  }

  /** What is still waiting at the end comes last. */
  function End(p: Progress, mode: ReplayMode): Progress {
    if p.waiting.None? then p
    else
      var late := DeferredMessage(p.waiting.value, mode);
      Progress(p.out + [late], None, p.deferred + [late])
  }

  lemma RunSnoc(history: seq<Message>, k: nat, mode: ReplayMode)
    requires k < |history|
    ensures Run(history[..k + 1], mode) == Step(Run(history[..k], mode), history[k], mode)
  {
    assert history[..k + 1][..k] == history[..k];
  }

  /** `_convert_assistant_message_with_split`. */
  method ConvertAssistantMessageWithSplit(content: seq<Block>, reasoning: Option<string>, mode: ReplayMode)
    returns (msg: Out, pending: PendingAfterTools?)
    requires HasToolUse(content) && forall k | 0 <= k < |content| :: !NotAllowed(content[k])
    ensures msg == CallMessage(content, reasoning, mode)
    ensures pending != null ==> fresh(pending) && pending.NeedsDeferred()
    ensures if Deferred(content) == [] then pending == null
            else pending != null && pending.Now() == Waiting(WaitIds(Collect(UseOf, content)), Deferred(content), reasoning)
  {
    var pre := content[..FirstToolUse(content)];
    var toolCalls := Collect(UseOf, content);
    if pre == [] {
      msg := AssistantOut("", toolCalls, Replayed(mode, reasoning, []));
    } else {
      var preMsg := ConvertAssistantMessage(pre, reasoning, mode);
      var text := preMsg.value.content;
      msg := AssistantOut(if text == " " then "" else text, toolCalls, preMsg.value.reasoning);
    }
    pending := null;
    if Deferred(content) != [] {
      pending := new PendingAfterTools(WaitIds(toolCalls), Deferred(content), reasoning);
    }
  }

  predicate Tracks(pending: PendingAfterTools?, waiting: Option<Waiting>)
    reads pending
  {
    if pending == null then waiting == None else waiting == Some(pending.Now()) && pending.NeedsDeferred()
  }

  method PutInDeferred(pending: PendingAfterTools?, mode: ReplayMode) returns (late: seq<Out>)
    requires pending == null || pending.NeedsDeferred()
    modifies pending
    ensures late == if pending == null then [] else [DeferredMessage(old(pending.Now()), mode)]
  {
    late := [];
    if pending != null {
      late := [AssistantMessage(pending.deferredBlocks, pending.topLevelReasoning, mode)];
      pending.deferredEmitted := true;
    }
  }

  method ConvertUserTurn(blocks: seq<Block>, m: Message, pending: PendingAfterTools?, mode: ReplayMode, ghost p: Progress)
    returns (out: Option<seq<Out>>, pending': PendingAfterTools?)
    requires Tracks(pending, p.waiting) && m.content == Blocks(blocks) && m.role == User
    modifies pending
    ensures out.None? <==> Raises(m)
    ensures out.Some? ==> Step(p, m, mode).out == p.out + out.value && Tracks(pending', Step(p, m, mode).waiting)
    ensures pending' == pending || pending' == null
  {
    hide UserMessages, AssistantMessage, CallMessage, PlainMessage, ReadBlocks, Deferred, WaitIds, Collect;
    pending' := pending;
    if pending != null && pending.remainingToolIds != {} {
      var cleared;
      out, cleared := ConvertUserMessageWithInjection(blocks, pending, mode);
      if out.Some? {
        assert Step(p, m, mode).out == p.out + out.value;
        if cleared { pending' := null; }
      }
    } else {
      var late := PutInDeferred(pending, mode);
      pending' := null;
      out := ConvertUserMessage(blocks);
      if out.Some? { out := Some(late + out.value); }
    }
  }

  /** One message of the history; `None` where the original raises. */
  method ConvertMessage(m: Message, pending: PendingAfterTools?, mode: ReplayMode, ghost p: Progress)
    returns (out: Option<seq<Out>>, pending': PendingAfterTools?)
    requires Tracks(pending, p.waiting)
    modifies pending
    ensures out.None? <==> Raises(m)
    ensures out.Some? ==> Step(p, m, mode).out == p.out + out.value && Tracks(pending', Step(p, m, mode).waiting)
    ensures out.Some? ==> pending' == pending || pending' == null || fresh(pending')
  {
    hide UserMessages, AssistantMessage, CallMessage, PlainMessage, ReadBlocks, Deferred, WaitIds, Collect;
    pending' := pending;
    match m.content {
      case Blocks(blocks) =>
        if m.role == Assistant {
          out, pending' := ConvertAssistantTurn(blocks, m, pending, mode);
          if out.Some? {
            assert Step(p, m, mode).out == p.out + out.value;
          }
        } else if m.role == User {
          out, pending' := ConvertUserTurn(blocks, m, pending, mode, p);
        } else {
          out := Some([]);
        }
      case Plain(text) =>
        var late := [];
        if m.role == User {
          late := PutInDeferred(pending, mode);
          pending' := null;
        }
        out := Some(late + [PlainMessage(m, mode)]);
      case Scalar(text) =>
        var late := [];
        if m.role == User {
          late := PutInDeferred(pending, mode);
          pending' := null;
        }
        out := Some(late + [RoleOut(m.role, text)]);
    }
  }

  method ConvertAssistantTurn(blocks: seq<Block>, m: Message, pending: PendingAfterTools?, mode: ReplayMode)
    returns (out: Option<seq<Out>>, pending': PendingAfterTools?)
    requires pending == null || pending.NeedsDeferred()
    requires IsTurn(m, Assistant) && m.content.blocks == blocks
    modifies pending
    ensures out.None? <==> Raises(m)
    ensures out.Some? ==>
              && out.value == (if pending == null then [] else [DeferredMessage(old(pending.Now()), mode)]) + Direct(mode)(m)
              && Tracks(pending', Opened(m)) && (pending' == null || fresh(pending'))
  {
    hide AssistantMessage, CallMessage, WaitIds, Collect, FirstToolUse;
    var late := PutInDeferred(pending, mode);
    pending' := null;
    if exists k | 0 <= k < |blocks| :: NotAllowed(blocks[k]) { return None, null; }
    if HasToolUse(blocks) {
      var msg;
      msg, pending' := ConvertAssistantMessageWithSplit(blocks, CleanReasoning(m.reasoning), mode);
      out := Some(late + [msg]);
    } else {
      var msg := ConvertAssistantMessage(blocks, CleanReasoning(m.reasoning), mode);
      NoToolUseNothingDeferred(blocks);
      out := Some(late + [msg.value]);
    }
  }

  lemma NoToolUseNothingDeferred(blocks: seq<Block>)
    ensures !HasToolUse(blocks) ==> Deferred(blocks) == []
  {}

  /** `convert_messages`; `None` where it raises. */
  method ConvertMessages(messages: seq<Message>, mode: ReplayMode) returns (result: Option<seq<Out>>)
    ensures result == if exists k | 0 <= k < |messages| :: Raises(messages[k]) then None
                      else Some(End(Run(messages, mode), mode).out)
  {
    hide Step, Raises;
    var out: seq<Out> := [];
    var pending: PendingAfterTools? := null;
    for k := 0 to |messages|
      invariant forall j | 0 <= j < k :: !Raises(messages[j])
      invariant pending == null || fresh(pending)
      invariant out == Run(messages[..k], mode).out && Tracks(pending, Run(messages[..k], mode).waiting)
    {
      RunSnoc(messages, k, mode);
      var converted;
      converted, pending := ConvertMessage(messages[k], pending, mode, Run(messages[..k], mode));
      if converted.None? { return None; }
      out := out + converted.value;
    }
    assert messages[..|messages|] == messages;
    var late := PutInDeferred(pending, mode);
    assert out + [] == out;
    result := Some(out + late);
  }
}
