/** What each message of a history becomes, said by its role, its blocks and their texts, and the converted history in those
    terms. */
module ConversionMeaning {
  import opened Basics
  import opened Conversion
  import opened ConversionTheorems

  /** `parts` with `sep` between them. */
  function Between(sep: string, parts: seq<string>): string {
    if parts == [] then "" else if |parts| == 1 then parts[0] else parts[0] + sep + Between(sep, parts[1..])
  }

  lemma {:induction false} JoinFromFront(sep: string, first: string, rest: seq<string>)
    requires rest != []
    ensures Join(sep, [first] + rest) == first + sep + Join(sep, rest)
  {
    hide Join;
    var before, last := rest[..|rest| - 1], rest[|rest| - 1];
    assert [first] + rest == [first] + before + [last] && rest == before + [last];
    JoinSnoc(sep, [first] + before, last);
    JoinSnoc(sep, before, last);
    JoinSnoc(sep, [], first);
    assert [] + [first] == [first];
    if before == [] {
      assert [first] + before == [first];
    } else {
      JoinFromFront(sep, first, before);
      var joined := Join(sep, before);
      assert first + sep + joined + sep + last == first + sep + (joined + sep + last);
    }
  }

  lemma {:induction false} JoinIsBetween(sep: string, parts: seq<string>)
    ensures Join(sep, parts) == Between(sep, parts)
  {
    if |parts| > 1 {
      JoinIsBetween(sep, parts[1..]);
      JoinFromFront(sep, parts[0], parts[1..]);
      assert parts == [parts[0]] + parts[1..];
    }
  }

  // ---- Tool results ----

  function LineOf(item: Item): string {
    match item
    case TextItem(text) => text
    case DictItem(json) => json
    case OtherItem(text) => text
  }

  function LinesOf(items: seq<Item>): seq<string> {
    if items == [] then [] else [LineOf(items[0])] + LinesOf(items[1..])
  }

  /** The text of a tool result: what it has as text or JSON; a list has a line for each item. */
  function ResultText(content: ToolContent): string {
    match content
    case Absent => ""
    case Str(text) => text
    case Dict(json) => json
    case Items(items) => Between("\n", LinesOf(items))
    case Other(text) => text
  }

  lemma {:induction false} LinesAreTexts(items: seq<Item>)
    ensures ItemTexts(items) == LinesOf(items)
  {
    var f := (item: Item) => [ItemText(item)];
    if items != [] {
      LinesAreTexts(items[1..]);
      assert items == [items[0]] + items[1..];
      CollectAppend(f, [items[0]], items[1..]);
      CollectTwo(f, items[0], items[0]);
    }
  }

  lemma SerializedIs(content: ToolContent)
    ensures Serialize(content) == ResultText(content)
  {
    if content.Items? {
      LinesAreTexts(content.items);
      JoinIsBetween("\n", ItemTexts(content.items));
    }
  }

  // ---- Assistant messages ----

  /** Text, and thinking where it is replayed in tags. */
  function Shows(mode: ReplayMode): Block -> seq<string> {
    (b: Block) =>
      if b.Text? then [b.text]
      else if b.Thinking? && mode == THINK_TAGS then ["<think>\n" + b.thinking + "\n</think>"]
      else []
  }

  function Thinks(b: Block): seq<string> {
    if b.Thinking? then [b.thinking] else []
  }

  function CallsTool(b: Block): seq<ToolCall> {
    if b.ToolUse? then [ToolCall(b.id, b.name, b.arguments)] else []
  }

  /** The reasoning replayed beside a message: what the message gives, else that of its blocks. */
  function Reasoning(mode: ReplayMode, given: Option<string>, blocks: seq<Block>): Option<string> {
    var thought := if given.None? then Between("\n", Collect(Thinks, blocks)) else given.value;
    if mode == REASONING_CONTENT && thought != "" then Some(thought) else None
  }

  /** Blocks as one message; a message must not be empty. */
  function Spoken(mode: ReplayMode, given: Option<string>, blocks: seq<Block>): Out {
    var text, calls := Between("\n\n", Collect(Shows(mode), blocks)), Collect(CallsTool, blocks);
    AssistantOut(if text == "" && calls == [] then " " else text, calls, Reasoning(mode, given, blocks))
  }

  lemma {:induction false} SameReading<A, B>(f: A -> seq<B>, g: A -> seq<B>, xs: seq<A>)
    requires forall x :: f(x) == g(x)
    ensures Collect(f, xs) == Collect(g, xs)
  {
    if xs != [] { SameReading(f, g, xs[..|xs| - 1]); }
  }

  lemma AssistantMessageIs(mode: ReplayMode, given: Option<string>, blocks: seq<Block>)
    ensures AssistantMessage(blocks, given, mode) == Spoken(mode, given, blocks)
  {
    hide Join, Between, Collect;
    SameReading(PartOf(mode), Shows(mode), blocks);
    SameReading(UseOf, CallsTool, blocks);
    SameReading(ThoughtOf, Thinks, blocks);
    JoinIsBetween("\n\n", Collect(PartOf(mode), blocks));
    JoinIsBetween("\n", Collect(ThoughtOf, blocks));
    JoinNothing("\n");
  }

  function BeforeCalls(blocks: seq<Block>): seq<Block> {
    if blocks == [] || blocks[0].ToolUse? then [] else [blocks[0]] + BeforeCalls(blocks[1..])
  }

  /** What comes after the first call, without calls. */
  function AfterCalls(blocks: seq<Block>): seq<Block> {
    if blocks == [] then [] else if blocks[0].ToolUse? then WithoutCalls(blocks[1..]) else AfterCalls(blocks[1..])
  }

  function WithoutCalls(blocks: seq<Block>): seq<Block> {
    if blocks == [] then []
    else (if blocks[0].ToolUse? then [] else [blocks[0]]) + WithoutCalls(blocks[1..])
  }

  predicate HasCall(blocks: seq<Block>) {
    exists k | 0 <= k < |blocks| :: blocks[k].ToolUse?
  }

  lemma {:induction false} WithoutCallsIs(blocks: seq<Block>)
    ensures Collect(NotToolUse, blocks) == WithoutCalls(blocks)
  {
    if blocks != [] {
      WithoutCallsIs(blocks[1..]);
      assert blocks == [blocks[0]] + blocks[1..];
      CollectAppend(NotToolUse, [blocks[0]], blocks[1..]);
      CollectTwo(NotToolUse, blocks[0], blocks[0]);
    }
  }

  lemma {:induction false} SplitIs(blocks: seq<Block>)
    ensures blocks[..FirstToolUse(blocks)] == BeforeCalls(blocks) && Deferred(blocks) == AfterCalls(blocks)
    ensures HasToolUse(blocks) <==> HasCall(blocks)
  {
    if blocks != [] && !blocks[0].ToolUse? {
      SplitIs(blocks[1..]);
      assert blocks[..FirstToolUse(blocks)] == [blocks[0]] + blocks[1..][..FirstToolUse(blocks[1..])];
      assert blocks[FirstToolUse(blocks)..] == blocks[1..][FirstToolUse(blocks[1..])..];
    } else if blocks != [] {
      WithoutCallsIs(blocks);
      assert blocks[0..] == blocks;
    }
  }

  /** The reasoning a message gives, if it gives some. */
  function Given(m: Message): Option<string> {
    if m.reasoning == Some("") then None else m.reasoning
  }

  // ---- User turns ----

  /** Adjacent texts are one user message; each result is a tool message. `run` are the texts just before. */
  function Said(blocks: seq<Block>, run: seq<string>): seq<Out> {
    var now := if run == [] then [] else [RoleOut(User, Between("\n", run))];
    if blocks == [] then now
    else
      match blocks[0]
      case Text(text) => Said(blocks[1..], run + [text])
      case ToolResult(id, content) => now + [ToolOut(id, ResultText(content))] + Said(blocks[1..], [])
      case _ => Said(blocks[1..], run)
  }

  lemma FlushIs(texts: seq<string>)
    ensures Flush(texts) == if texts == [] then [] else [RoleOut(User, Between("\n", texts))]
  {
    JoinIsBetween("\n", texts);
  }

  lemma {:induction false} ReadIsSaid(before: seq<Block>, rest: seq<Block>)
    ensures var r := ReadBlocks(before, {}, None); Said(before + rest, []) == r.out + Said(rest, r.texts)
  {
    hide Flush, Serialize, Between;
    if before == [] {
      assert before + rest == rest && [] + Said(rest, []) == Said(rest, []);
    } else {
      var init, b := before[..|before| - 1], before[|before| - 1];
      ReadIsSaid(init, [b] + rest);
      assert before + rest == init + ([b] + rest) && ([b] + rest)[1..] == rest;
      var r := ReadBlocks(init, {}, None);
      FlushIs(r.texts);
      if b.ToolResult? {
        SerializedIs(b.content);
        var answer, now := ToolOut(b.toolUseId, ResultText(b.content)), Flush(r.texts);
        assert r.out + (now + [answer] + Said(rest, [])) == r.out + now + [answer] + Said(rest, []);
      }
    }
  }

  lemma UserMessagesAre(blocks: seq<Block>)
    ensures UserMessages(blocks) == Said(blocks, [])
  {
    ReadIsSaid(blocks, []);
    assert blocks + [] == blocks;
    FlushIs(ReadBlocks(blocks, {}, None).texts);
  }

  // ---- Any message ----

  /** What a plain assistant message says: its text, after its reasoning where that is replayed in tags. */
  function PlainSpeech(mode: ReplayMode, text: string, given: Option<string>): string {
    if mode != THINK_TAGS || given.None? then text
    else "<think>\n" + given.value + "\n</think>" + if text == "" then "" else "\n\n" + text
  }

  function Expected(mode: ReplayMode): Message -> seq<Out> {
    (m: Message) =>
      match m.content
      case Plain(text) =>
        if m.role != Assistant then [RoleOut(m.role, text)]
        else [AssistantOut(PlainSpeech(mode, text, Given(m)), [], if mode == REASONING_CONTENT then Given(m) else None)]
      case Scalar(text) => [RoleOut(m.role, text)]
      case Blocks(blocks) =>
        if m.role == User then Said(blocks, [])
        else if m.role != Assistant then []
        else if HasCall(blocks) then
          var text := Between("\n\n", Collect(Shows(mode), BeforeCalls(blocks)));
          [AssistantOut(if text == " " then "" else text, Collect(CallsTool, blocks),
                        Reasoning(mode, Given(m), BeforeCalls(blocks)))]
        else [Spoken(mode, Given(m), blocks)]
  }

  /** What an assistant turn says after its calls. */
  function ExpectedLate(mode: ReplayMode): Message -> seq<Out> {
    (m: Message) =>
      if m.role == Assistant && m.content.Blocks? && HasCall(m.content.blocks) && AfterCalls(m.content.blocks) != []
      then [Spoken(mode, Given(m), AfterCalls(m.content.blocks))] else []
  }

  lemma PlainMessageIs(mode: ReplayMode, m: Message)
    requires m.content.Plain?
    ensures [PlainMessage(m, mode)] == Expected(mode)(m)
  {
    if Given(m).Some? {
      var tagged, text := ThinkTagContent(Given(m).value), m.content.text;
      JoinIsBetween("\n\n", [tagged] + if text != "" then [text] else []);
      assert ([tagged] + [text])[1..] == [text] && [tagged] + [] == [tagged];
      assert tagged + "\n\n" + text == tagged + ("\n\n" + text) && tagged + "" == tagged;
    }
  }

  lemma {:induction false} NoCallsBefore(blocks: seq<Block>)
    ensures Collect(CallsTool, BeforeCalls(blocks)) == []
  {
    if blocks != [] && !blocks[0].ToolUse? {
      NoCallsBefore(blocks[1..]);
      CollectAppend(CallsTool, [blocks[0]], BeforeCalls(blocks[1..]));
      CollectTwo(CallsTool, blocks[0], blocks[0]);
    }
  }

  lemma CallMessageIs(mode: ReplayMode, m: Message)
    requires m.role == Assistant && m.content.Blocks? && HasCall(m.content.blocks)
    ensures [CallMessage(m.content.blocks, Given(m), mode)] == Expected(mode)(m)
  {
    hide Collect, Join;
    var blocks := m.content.blocks;
    SplitIs(blocks);
    SameReading(UseOf, CallsTool, blocks);
    AssistantMessageIs(mode, Given(m), BeforeCalls(blocks));
    NoCallsBefore(blocks);
    CollectNothing(Shows(mode));
    CollectNothing(Thinks);
    JoinNothing("\n");
  }

  lemma DirectIs(mode: ReplayMode, m: Message)
    ensures Direct(mode)(m) == Expected(mode)(m)
  {
    if m.content.Plain? {
      PlainMessageIs(mode, m);
    } else if m.content.Blocks? {
      BlocksBecome(mode, m);
    }
  }

  lemma DirectOfBlocks(mode: ReplayMode, m: Message)
    requires m.content.Blocks?
    ensures Direct(mode)(m)
         == if m.role == User then UserMessages(m.content.blocks)
            else if m.role != Assistant then []
            else if HasToolUse(m.content.blocks) then [CallMessage(m.content.blocks, Given(m), mode)]
            else [AssistantMessage(m.content.blocks, Given(m), mode)]
  {
    assert CleanReasoning(m.reasoning) == Given(m);
    hide UserMessages, CallMessage, AssistantMessage, HasToolUse, CleanReasoning, Given;
  }

  lemma ExpectedOfBlocks(mode: ReplayMode, m: Message)
    requires m.content.Blocks?
    ensures m.role == User ==> Expected(mode)(m) == Said(m.content.blocks, [])
    ensures m.role != User && m.role != Assistant ==> Expected(mode)(m) == []
    ensures m.role == Assistant && !HasCall(m.content.blocks) ==>
              Expected(mode)(m) == [Spoken(mode, Given(m), m.content.blocks)]
  {
    hide Said, Spoken, HasCall, Given;
  }

  lemma BlocksBecome(mode: ReplayMode, m: Message)
    requires m.content.Blocks?
    ensures Direct(mode)(m) == Expected(mode)(m)
  {
    hide Direct, Expected, CallMessage, AssistantMessage, UserMessages, FirstToolUse, Deferred, Spoken, Said, HasCall,
         HasToolUse, Given;
    DirectOfBlocks(mode, m);
    ExpectedOfBlocks(mode, m);
    SplitIs(m.content.blocks);
    UserMessagesAre(m.content.blocks);
    AssistantMessageIs(mode, Given(m), m.content.blocks);
    if m.role == Assistant && HasCall(m.content.blocks) { CallMessageIs(mode, m); }
  }

  lemma LateIs(mode: ReplayMode, m: Message)
    ensures DeferralOf(mode)(m) == ExpectedLate(mode)(m)
  {
    assert CleanReasoning(m.reasoning) == Given(m);
    hide AssistantMessage, FirstToolUse, Deferred, Spoken, AfterCalls, HasCall, WaitIds, Collect, CleanReasoning, Given, Join;
    if m.content.Blocks? {
      SplitIs(m.content.blocks);
      AssistantMessageIs(mode, Given(m), AfterCalls(m.content.blocks));
    }
  }

  lemma DirectsAre(mode: ReplayMode, history: seq<Message>)
    ensures Collect(Direct(mode), history) == Collect(Expected(mode), history)
    ensures Collect(DeferralOf(mode), history) == Collect(ExpectedLate(mode), history)
  {
    hide Direct, DeferralOf, Expected, ExpectedLate;
    forall m ensures Direct(mode)(m) == Expected(mode)(m) && DeferralOf(mode)(m) == ExpectedLate(mode)(m) {
      DirectIs(mode, m);
      LateIs(mode, m);
    }
    SameReading(Direct(mode), Expected(mode), history);
    SameReading(DeferralOf(mode), ExpectedLate(mode), history);
  }

  /** Every message of the history becomes what is expected of it, in its place and order; what assistant turns say after their
      calls is put in between, in order, each once or repeated in place, and once exactly when no user turn is overfull. */
  lemma HistoryBecomes(history: seq<Message>, mode: ReplayMode)
    ensures var end, late := End(Run(history, mode), mode), Collect(ExpectedLate(mode), history);
            && Interleaved(end.out, Collect(Expected(mode), history), end.deferred)
            && Stretched(end.deferred, late)
            && (end.deferred == late <==> forall k | 0 <= k < |history| :: !OverfullAt(history, k))
  {
    hide Run, End, Direct, DeferralOf, Expected, ExpectedLate, Interleaved, Stretched, OverfullAt;
    ContentIsNeverLost(history, mode);
    DirectsAre(mode, history);
  }

  // ---- Roles and contents ----

  function RoleOf(o: Out): seq<(Role, string)> {
    if o.RoleOut? then [(o.role, o.content)] else []
  }

  /** The texts between the results of a user turn. */
  function Runs(blocks: seq<Block>, run: seq<string>): seq<(Role, string)> {
    var now := if run == [] then [] else [(User, Between("\n", run))];
    if blocks == [] then now
    else if blocks[0].Text? then Runs(blocks[1..], run + [blocks[0].text])
    else if blocks[0].ToolResult? then now + Runs(blocks[1..], [])
    else Runs(blocks[1..], run)
  }

  /** Plain messages that are not an assistant's have their role and text; of user turns the texts count. */
  function RolesIn(m: Message): seq<(Role, string)> {
    match m.content
    case Plain(text) => if m.role == Assistant then [] else [(m.role, text)]
    case Scalar(text) => [(m.role, text)]
    case Blocks(blocks) => if m.role == User then Runs(blocks, []) else []
  }

  lemma {:induction false} SaidRoles(blocks: seq<Block>, run: seq<string>)
    ensures Collect(RoleOf, Said(blocks, run)) == Runs(blocks, run)
    decreases |blocks|
  {
    hide Between, ResultText;
    var now := if run == [] then [] else [RoleOut(User, Between("\n", run))];
    CollectNothing(RoleOf);
    if now != [] { CollectTwo(RoleOf, now[0], now[0]); }
    if blocks != [] {
      if blocks[0].Text? {
        SaidRoles(blocks[1..], run + [blocks[0].text]);
      } else if blocks[0].ToolResult? {
        SaidRoles(blocks[1..], []);
        var answer := ToolOut(blocks[0].toolUseId, ResultText(blocks[0].content));
        CollectSnoc(RoleOf, now, answer);
        CollectAppend(RoleOf, now + [answer], Said(blocks[1..], []));
        assert Collect(RoleOf, now) + [] == Collect(RoleOf, now);
      } else {
        SaidRoles(blocks[1..], run);
      }
    }
  }

  lemma ExpectedRoles(mode: ReplayMode, m: Message)
    ensures Collect(RoleOf, Expected(mode)(m)) == RolesIn(m)
    ensures forall o | o in ExpectedLate(mode)(m) :: RoleOf(o) == []
  {
    hide Said, Runs, Spoken, Between, Collect, HasCall, AfterCalls, BeforeCalls;
    CollectNothing(RoleOf);
    if m.content.Blocks? && m.role == User {
      SaidRoles(m.content.blocks, []);
    } else if Expected(mode)(m) != [] {
      CollectTwo(RoleOf, Expected(mode)(m)[0], Expected(mode)(m)[0]);
      assert Spoken(mode, Given(m), if m.content.Blocks? then m.content.blocks else []).AssistantOut? by {
        SpokenIsAssistant(mode, m);
      }
    }
    SpokenIsAssistant(mode, m);
  }

  lemma SpokenIsAssistant(mode: ReplayMode, m: Message)
    ensures forall blocks :: Spoken(mode, Given(m), blocks).AssistantOut?
  {}

  lemma {:induction false} HistoryRoles(history: seq<Message>, mode: ReplayMode)
    ensures Collect(RoleOf, Collect(Expected(mode), history)) == Collect(RolesIn, history)
    ensures forall o | o in Collect(ExpectedLate(mode), history) :: RoleOf(o) == []
  {
    hide Expected, ExpectedLate, RoleOf, RolesIn;
    if history != [] {
      var before, m := history[..|history| - 1], history[|history| - 1];
      HistoryRoles(before, mode);
      ExpectedRoles(mode, m);
      CollectAppend(RoleOf, Collect(Expected(mode), before), Expected(mode)(m));
    }
  }

  /** Read off the converted history, the roles and contents of all but assistant and tool messages are those of the plain
      messages and the texts of user turns, in order. */
  lemma RolesAreKept(history: seq<Message>, mode: ReplayMode)
    ensures Collect(RoleOf, End(Run(history, mode), mode).out) == Collect(RolesIn, history)
  {
    hide Run, End, Expected, ExpectedLate, Interleaved, Stretched, OverfullAt, RoleOf, RolesIn;
    HistoryBecomes(history, mode);
    var end := End(Run(history, mode), mode);
    HistoryRoles(history, mode);
    StretchedFrom(end.deferred, Collect(ExpectedLate(mode), history));
    InterleavedCollect(RoleOf, end.out, Collect(Expected(mode), history), end.deferred);
  }

  /** The results of a user turn with their texts. */
  function ResultsIn(m: Message): seq<(Option<string>, string)> {
    if m.role == User && m.content.Blocks? then Collect(ResultIn, m.content.blocks) else []
  }

  function ResultIn(b: Block): seq<(Option<string>, string)> {
    if b.ToolResult? then [(b.toolUseId, ResultText(b.content))] else []
  }

  /** The tool messages are the results of user turns, with their ids and texts, in order. */
  lemma ResultsAreKept(history: seq<Message>, mode: ReplayMode)
    ensures Collect(AnswerOf, End(Run(history, mode), mode).out) == Collect(ResultsIn, history)
  {
    hide Run, End, Serialize, ResultText;
    ToolsAreKept(history, mode);
    forall b ensures AnswerIn(b) == ResultIn(b) {
      if b.ToolResult? { SerializedIs(b.content); }
    }
    forall m ensures AnswersIn(m) == ResultsIn(m) {
      if m.content.Blocks? { SameReading(AnswerIn, ResultIn, m.content.blocks); }
    }
    SameReading(AnswersIn, ResultsIn, history);
  }

  // ---- What is waited for ----

  /** An assistant turn leaves something waiting if and only if it says something after its calls; it waits for the ids of its
      calls that are not blank. */
  lemma WaitsForItsCalls(m: Message)
    ensures Opened(m).Some? <==> m.role == Assistant && m.content.Blocks? && HasCall(m.content.blocks)
                                 && AfterCalls(m.content.blocks) != []
    ensures Opened(m).Some? ==>
              forall x :: x in Opened(m).value.remaining
                     <==> !Blank(x) && exists k :: 0 <= k < |m.content.blocks| && m.content.blocks[k].ToolUse?
                                                    && m.content.blocks[k].id == Some(x)
  {
    if m.content.Blocks? {
      var blocks := m.content.blocks;
      SplitIs(blocks);
      hide Blank, FirstToolUse, Deferred, Collect;
      UsesByPlace(blocks);
      var calls := Collect(UseOf, blocks);
      forall x
        ensures x in WaitIds(calls)
           <==> !Blank(x) && exists k :: 0 <= k < |blocks| && blocks[k].ToolUse? && blocks[k].id == Some(x)
      {
        if x in WaitIds(calls) {
          var j :| 0 <= j < |calls| && calls[j].id == Some(x) && !Blank(x);
          assert calls[j] in calls;
        }
        if !Blank(x) && exists k :: 0 <= k < |blocks| && blocks[k].ToolUse? && blocks[k].id == Some(x) {
          var k :| 0 <= k < |blocks| && blocks[k].ToolUse? && blocks[k].id == Some(x);
          var c := ToolCall(blocks[k].id, blocks[k].name, blocks[k].arguments);
          assert c in calls;
          var j :| 0 <= j < |calls| && calls[j] == c;
          assert calls[j].id.value == x;
        }
      }
    }
  }

  lemma {:induction false} UsesByPlace(blocks: seq<Block>)
    ensures forall c :: c in Collect(UseOf, blocks)
                   <==> exists k :: 0 <= k < |blocks| && blocks[k].ToolUse?
                                    && c == ToolCall(blocks[k].id, blocks[k].name, blocks[k].arguments)
  {
    if blocks != [] {
      var before, last := blocks[..|blocks| - 1], |blocks| - 1;
      UsesByPlace(before);
      forall c ensures c in Collect(UseOf, blocks)
                  <==> exists k :: 0 <= k < |blocks| && blocks[k].ToolUse?
                                   && c == ToolCall(blocks[k].id, blocks[k].name, blocks[k].arguments)
      {
        if c in Collect(UseOf, before) {
          var k :| 0 <= k < |before| && before[k].ToolUse? && c == ToolCall(before[k].id, before[k].name, before[k].arguments);
          assert blocks[k] == before[k];
        }
        if blocks[last].ToolUse? { assert blocks[last].ToolUse?; }
      }
    }
  }

  /** The messages that make the conversion raise: assistant turns with an image or a server tool block, user turns with an
      image. */
  lemma RaisesOnUnsupported(m: Message)
    ensures Raises(m)
       <==> m.content.Blocks? && exists k :: 0 <= k < |m.content.blocks| && Unsupported(m.role, m.content.blocks[k])
  {}

  predicate Unsupported(role: Role, b: Block) {
    (role == Assistant && (b.Image? || b.Forbidden?)) || (role == User && b.Image?)
  }

  // ---- Where waiting content goes when nothing more answers it ----

  ghost predicate IsLastTurn(history: seq<Message>, k: int) {
    0 <= k < |history| && IsTurn(history[k], Assistant) && forall j | k < j < |history| :: !IsTurn(history[j], Assistant)
  }

  lemma {:induction false} WaitingIsOfLastTurn(history: seq<Message>, mode: ReplayMode) returns (k: int)
    requires Run(history, mode).waiting.Some?
    ensures IsLastTurn(history, k) && Opened(history[k]).Some?
    ensures Run(history, mode).waiting.value.(remaining := Opened(history[k]).value.remaining) == Opened(history[k]).value
  {
    hide ReadBlocks, Direct, Opened, AssistantMessage;
    var before, m := history[..|history| - 1], history[|history| - 1];
    if Opened(m).Some? {
      assert IsTurn(m, Assistant) by { OnlyTurnsOpen(m); }
      k := |history| - 1;
    } else {
      assert Run(before, mode).waiting.Some?;
      k := WaitingIsOfLastTurn(before, mode);
    }
  }

  lemma OnlyTurnsOpen(m: Message)
    ensures Opened(m).Some? ==> IsTurn(m, Assistant)
  {}

  /** Content that still waits is put in just before the next assistant turn, and before a plain user message or a user turn
      when no id is awaited. */
  lemma WaitingComesFirst(history: seq<Message>, m: Message, mode: ReplayMode)
    requires Awaiting(history).Some?
    requires IsTurn(m, Assistant) || (m.role == User && (!m.content.Blocks? || Awaiting(history).value == {}))
    ensures exists k :: IsLastTurn(history, k)
              && Run(history + [m], mode).out == Run(history, mode).out + ExpectedLate(mode)(history[k]) + Expected(mode)(m)
  {
    hide Expected, ExpectedLate, Direct, Opened, AssistantMessage;
    AwaitingIsWaiting(history, mode);
    var k := WaitingIsOfLastTurn(history, mode);
    RunLast(history, m, mode);
    DirectIs(mode, m);
    LateIs(mode, history[k]);
    assert DeferralOf(mode)(history[k]) == [DeferredMessage(Run(history, mode).waiting.value, mode)];
  }

  /** At the end of a history, what still waits comes last. */
  lemma WaitingComesLast(history: seq<Message>, mode: ReplayMode)
    ensures if Awaiting(history).None? then End(Run(history, mode), mode).out == Run(history, mode).out
            else exists k :: IsLastTurn(history, k)
                   && End(Run(history, mode), mode).out == Run(history, mode).out + ExpectedLate(mode)(history[k])
  {
    hide ExpectedLate, Direct, Opened, AssistantMessage;
    AwaitingIsWaiting(history, mode);
    if Awaiting(history).Some? {
      var k := WaitingIsOfLastTurn(history, mode);
      LateIs(mode, history[k]);
      assert DeferralOf(mode)(history[k]) == [DeferredMessage(Run(history, mode).waiting.value, mode)];
    }
  }

  /** A turn answers an id that is not blank when one of its results has it. */
  lemma AnswersById(blocks: seq<Block>, x: string)
    requires !Blank(x)
    ensures x in ResultIds(blocks) <==> exists k | 0 <= k < |blocks| && blocks[k].ToolResult? :: blocks[k].toolUseId == Some(x)
  {
    hide Blank;
    assert Blank("") by { BlankNothing(); }
    AnsweredOrNot(blocks, x);
  }

  lemma BlankNothing()
    ensures Blank("")
  {}

  lemma {:induction false} AnsweredOrNot(blocks: seq<Block>, x: string)
    requires x != ""
    ensures x in ResultIds(blocks) <==> exists k | 0 <= k < |blocks| && blocks[k].ToolResult? :: blocks[k].toolUseId == Some(x)
  {
    if blocks != [] {
      var before, last := blocks[..|blocks| - 1], |blocks| - 1;
      AnsweredOrNot(before, x);
      assert forall k | 0 <= k < last :: before[k] == blocks[k];
    }
  }
}
