/** The transcript a chat shows (`TranscriptBuffer.apply` in messaging/transcript.py): events become segments, and while
    a subagent runs only its tool calls are shown. Open segments are known by their places in the list. */
module TranscriptBuffer {
  import opened Basics

  /** The parts of a Task's input that can become its heading; `None` when the input is not an object. */
  datatype TaskInput = TaskInput(description: string, subagentType: string, kind: string)

  datatype Event =
    | ThinkingStart(index: int)
    | ThinkingDelta(index: int, text: string)
    | ThinkingStop(index: int)
    | TextStart(index: int)
    | TextDelta(index: int, text: string)
    | TextStop(index: int)
    | ToolUseStart(index: int, id: string, name: string, input: Option<TaskInput>)
    | ToolUseDelta
    | ToolUseStop(index: int)
    | BlockStop(index: int)
    | ToolUse(id: string, name: string, input: Option<TaskInput>)
    | ToolResult(id: string, content: string, isError: bool)
    | ErrorEvent(message: string)
    | OtherEvent

  /** `index` is the stream index a text or thinking segment was made for. */
  datatype Segment =
    | ThinkingSegment(index: int, said: string)
    | TextSegment(index: int, said: string)
    | ToolCallSegment(id: string, name: string)
    | SubagentSegment(description: string, toolCalls: nat, toolsUsed: set<string>, currentTool: Option<(string, string)>)
    | ToolResultSegment(id: string, content: string, toolName: Option<string>, isError: bool)
    | ErrorSegment(message: string)

  datatype State = State(
    segments: seq<Segment>, openThinking: map<int, nat>, openText: map<int, nat>, openTools: set<int>,
    toolNames: map<string, string>, stack: seq<string>, subagents: seq<nat>)

  const EMPTY := State([], map[], map[], {}, map[], [], [])

  // ---- Subagents ----

  function Heading(input: Option<TaskInput>): string {
    if input.None? then "Subagent"
    else if Strip(input.value.description) != "" then Strip(input.value.description)
    else if Strip(input.value.subagentType) != "" then Strip(input.value.subagentType)
    else if Strip(input.value.kind) != "" then Strip(input.value.kind)
    else "Subagent"
  }

  predicate IsSynthetic(id: string) {
    "__task_" <= id
  }

  /** The id under which a Task is waited for. */
  function StackId(id: string, depth: nat): (s: string)
    ensures s != ""
  {
    if Strip(id) != "" then Strip(id) else "__task_" + Decimal(depth + 1)
  }

  predicate RoughlyMatch(stackId: string, resultId: string) {
    stackId != "" && resultId != "" && (stackId <= resultId || resultId <= stackId)
  }

  /** Where a result cuts the stack: at the innermost Task with a matching id; without an id, at the top if that is
      synthetic. `None` when it closes nothing. */
  function CutAt(stack: seq<string>, id: string): (at: Option<nat>)
    ensures at.Some? ==> at.value < |stack|
    ensures at.Some? && Strip(id) != "" ==>
              && RoughlyMatch(stack[at.value], Strip(id))
              && forall k | at.value < k < |stack| :: !RoughlyMatch(stack[k], Strip(id))
    ensures at.None? && Strip(id) != "" ==> forall k | 0 <= k < |stack| :: !RoughlyMatch(stack[k], Strip(id))
  {
    if stack == [] then None
    else
      var top := |stack| - 1;
      if Strip(id) == "" then if IsSynthetic(stack[top]) then Some(top) else None
      else if RoughlyMatch(stack[top], Strip(id)) then Some(top)
      else CutAt(stack[..top], id)
  }

  function Cut<T>(xs: seq<T>, at: Option<nat>): seq<T> {
    if at.Some? && at.value <= |xs| then xs[..at.value] else xs
  }

  function Pop(s: State, id: string): State {
    s.(stack := Cut(s.stack, CutAt(s.stack, id)), subagents := Cut(s.subagents, CutAt(s.stack, id)))
  }

  function LowerOf(c: char): char {
    if 'A' <= c <= 'Z' then c - 'A' + 'a' else if c == '\U{212a}' then 'k' else c
  }

  /** `"task" in id.lower()`. */
  predicate LooksLikeTask(id: string) {
    exists k | 0 <= k < |id| - 3 ::
      LowerOf(id[k]) == 't' && LowerOf(id[k + 1]) == 'a' && LowerOf(id[k + 2]) == 's' && LowerOf(id[k + 3]) == 'k'
  }

  // ---- One event ----

  function Inner(event: Event): bool {
    event.ThinkingStart? || event.ThinkingDelta? || event.TextStart? || event.TextDelta?
  }

  /** `block_stop`: only one of the open things is closed. */
  function StopBlock(s: State, index: int): State {
    if index in s.openTools then s.(openTools := s.openTools - {index})
    else if index in s.openThinking then s.(openThinking := s.openThinking - {index})
    else s.(openText := s.openText - {index})
  }

  function StopIfIndexed(s: State, index: int): State {
    if index >= 0 then StopBlock(s, index) else s
  }

  function AddSegment(s: State, segment: Segment): State {
    s.(segments := s.segments + [segment])
  }

  function AddThinking(s: State, index: int, said: string): State {
    AddSegment(s, ThinkingSegment(index, said))
      .(openThinking := if index >= 0 then s.openThinking[index := |s.segments|] else s.openThinking)
  }

  function AddText(s: State, index: int, said: string): State {
    AddSegment(s, TextSegment(index, said))
      .(openText := if index >= 0 then s.openText[index := |s.segments|] else s.openText)
  }

  function Say(segment: Segment, more: string): Segment {
    match segment
    case ThinkingSegment(index, said) => ThinkingSegment(index, said + more)
    case TextSegment(index, said) => TextSegment(index, said + more)
    case _ => segment
  }

  function SayAt(segments: seq<Segment>, at: nat, more: string): seq<Segment> {
    if at < |segments| then segments[at := Say(segments[at], more)] else segments
  }

  function Named(name: string): string {
    if name == "" then "tool" else name
  }

  function NameTool(s: State, id: string, name: string): State {
    if Strip(id) != "" then s.(toolNames := s.toolNames[Strip(id) := Named(name)]) else s
  }

  function CallInSubagent(segment: Segment, id: string, name: string): Segment {
    if segment.SubagentSegment? then
      SubagentSegment(segment.description, segment.toolCalls + 1, segment.toolsUsed + {name}, Some((id, name)))
    else segment
  }

  /** A tool call: a Task opens a subagent; inside one, a call only shows as the subagent's current tool. */
  function CallTool(s: State, id: string, name: string, input: Option<TaskInput>): State {
    var n := NameTool(s, id, name);
    if Named(name) == "Task" then
      AddSegment(n, SubagentSegment(Heading(input), 0, {}, None))
        .(stack := s.stack + [StackId(id, |s.stack|)], subagents := s.subagents + [|s.segments|])
    else if s.stack != [] && s.subagents != [] && s.subagents[|s.subagents| - 1] < |s.segments| then
      var at := s.subagents[|s.subagents| - 1];
      n.(segments := s.segments[at := CallInSubagent(s.segments[at], Strip(id), Named(name))])
    else AddSegment(n, ToolCallSegment(Strip(id), Named(name)))
  }

  function NameOf(s: State, id: string): Option<string> {
    if Strip(id) in s.toolNames then Some(s.toolNames[Strip(id)]) else None
  }

  /** A result closes the subagents it ends. One that seems to end a Task without id closes the innermost. */
  function CloseSubagents(s: State, id: string): State {
    var name := NameOf(s, id);
    if CutAt(s.stack, id).None? && Strip(id) != "" && s.stack != [] && IsSynthetic(s.stack[|s.stack| - 1])
       && (name.None? || name == Some("Task")) && LooksLikeTask(Strip(id))
    then Pop(s, "")
    else Pop(s, id)
  }

  function Step(s: State, event: Event, showToolResults: bool): State {
    if s.stack != [] && Inner(event) then s
    else
      match event
      case ThinkingStart(index) => AddThinking(StopIfIndexed(s, index), index, "")
      case ThinkingDelta(index, text) =>
        if index in s.openThinking then s.(segments := SayAt(s.segments, s.openThinking[index], text))
        else AddThinking(s, index, text)
      case ThinkingStop(index) => if index >= 0 then s.(openThinking := s.openThinking - {index}) else s
      case TextStart(index) => AddText(StopIfIndexed(s, index), index, "")
      case TextDelta(index, text) =>
        if index in s.openText then s.(segments := SayAt(s.segments, s.openText[index], text))
        else AddText(s, index, text)
      case TextStop(index) => if index >= 0 then s.(openText := s.openText - {index}) else s
      case ToolUseStart(index, id, name, input) =>
        var called := CallTool(StopIfIndexed(s, index), id, name, input);
        if Named(name) == "Task" || index < 0 then called else called.(openTools := called.openTools + {index})
      case ToolUseStop(index) => s.(openTools := s.openTools - {index})
      case BlockStop(index) => StopBlock(s, index)
      case ToolUse(id, name, input) => CallTool(s, id, name, input)
      case ToolResult(id, content, isError) =>
        var closed := CloseSubagents(s, id);
        if showToolResults then AddSegment(closed, ToolResultSegment(Strip(id), content, NameOf(s, id), isError)) else closed
      case ErrorEvent(message) => AddSegment(s, ErrorSegment(if message == "" then "Unknown error" else message))
      case _ => s
  }

  function Run(events: seq<Event>, showToolResults: bool): State {
    if events == [] then EMPTY
    else Step(Run(events[..|events| - 1], showToolResults), events[|events| - 1], showToolResults)
  }

  // ---- What holds in every reachable state ----

  /** A subagent segment for each Task waited for. */
  ghost predicate Parallel(s: State) {
    && |s.stack| == |s.subagents|
    && (forall k | 0 <= k < |s.stack| :: s.stack[k] != "")
    && (forall k | 0 <= k < |s.subagents| :: s.subagents[k] < |s.segments| && s.segments[s.subagents[k]].SubagentSegment?)
  }

  predicate IsThinking(segment: Segment, index: int) {
    segment.ThinkingSegment? && segment.index == index
  }

  predicate IsText(segment: Segment, index: int) {
    segment.TextSegment? && segment.index == index
  }

  ghost predicate Latest(segments: seq<Segment>, openThinking: map<int, nat>, openText: map<int, nat>) {
    && (forall i | i in openThinking ::
          && i >= 0 && openThinking[i] < |segments| && IsThinking(segments[openThinking[i]], i)
          && forall q | openThinking[i] < q < |segments| :: !IsThinking(segments[q], i))
    && (forall i | i in openText ::
          && i >= 0 && openText[i] < |segments| && IsText(segments[openText[i]], i)
          && forall q | openText[i] < q < |segments| :: !IsText(segments[q], i))
  }

  /** An open segment is the latest made for its index. */
  ghost predicate OpenIsLatest(s: State) {
    Latest(s.segments, s.openThinking, s.openText)
  }

  lemma CutKeeps(s: State, id: string)
    requires Parallel(s)
    ensures Parallel(Pop(s, id))
  {}

  lemma CallKeepsParallel(s: State, id: string, name: string, input: Option<TaskInput>)
    requires Parallel(s)
    ensures Parallel(CallTool(s, id, name, input))
  {
    hide Heading, Decimal, Strip, RoughlyMatch;
  }

  /** One event keeps the stacks parallel. */
  lemma StepKeepsParallel(s: State, event: Event, showToolResults: bool)
    requires Parallel(s)
    ensures Parallel(Step(s, event, showToolResults))
  {
    hide Strip, Heading, CutAt, LooksLikeTask, CallTool;
    if event.ToolUse? {
      CallKeepsParallel(s, event.id, event.name, event.input);
    } else if event.ToolUseStart? {
      CallKeepsParallel(StopIfIndexed(s, event.index), event.id, event.name, event.input);
    } else if event.ToolResult? {
      CutKeeps(s, event.id);
      CutKeeps(s, "");
    }
  }

  lemma CallInKeepsOpen(s: State, at: nat, id: string, name: string)
    requires OpenIsLatest(s) && at < |s.segments|
    ensures OpenIsLatest(s.(segments := s.segments[at := CallInSubagent(s.segments[at], id, name)]))
  {}

  lemma CallKeepsOpen(s: State, id: string, name: string, input: Option<TaskInput>)
    requires OpenIsLatest(s)
    ensures OpenIsLatest(CallTool(s, id, name, input))
  {
    hide Heading, StackId, Strip, Latest, CallInSubagent;
    if Named(name) == "Task" {
      OtherKeepsOpen(s, SubagentSegment(Heading(input), 0, {}, None));
    } else if s.stack != [] && s.subagents != [] && s.subagents[|s.subagents| - 1] < |s.segments| {
      CallInKeepsOpen(s, s.subagents[|s.subagents| - 1], Strip(id), Named(name));
    } else {
      OtherKeepsOpen(s, ToolCallSegment(Strip(id), Named(name)));
    }
  }

  lemma StopKeepsOpen(s: State, index: int)
    requires OpenIsLatest(s)
    ensures OpenIsLatest(StopIfIndexed(s, index))
  {}

  lemma ThinkingKeepsOpen(s: State, index: int, said: string)
    requires OpenIsLatest(s)
    ensures OpenIsLatest(AddThinking(s, index, said))
  {}

  lemma TextKeepsOpen(s: State, index: int, said: string)
    requires OpenIsLatest(s)
    ensures OpenIsLatest(AddText(s, index, said))
  {}

  lemma SayKeepsOpen(s: State, at: nat, more: string)
    requires OpenIsLatest(s)
    ensures OpenIsLatest(s.(segments := SayAt(s.segments, at, more)))
  {}

  lemma OtherKeepsOpen(s: State, segment: Segment)
    requires OpenIsLatest(s) && !segment.ThinkingSegment? && !segment.TextSegment?
    ensures OpenIsLatest(AddSegment(s, segment))
  {}

  lemma PopKeepsOpen(s: State, id: string)
    requires OpenIsLatest(s)
    ensures OpenIsLatest(Pop(s, id))
  {}

  lemma ClosedKeepsOpen(s: State, index: int)
    requires OpenIsLatest(s)
    ensures OpenIsLatest(s.(openThinking := s.openThinking - {index})) && OpenIsLatest(s.(openText := s.openText - {index}))
    ensures OpenIsLatest(s.(openTools := s.openTools - {index})) && OpenIsLatest(s.(openTools := s.openTools + {index}))
  {}

  lemma StepKeepsOpen(s: State, event: Event, showToolResults: bool)
    requires OpenIsLatest(s)
    ensures OpenIsLatest(Step(s, event, showToolResults))
  {
    hide OpenIsLatest, Latest, Strip, Heading, LooksLikeTask, CallTool, StopBlock, AddThinking, AddText, AddSegment, Pop, SayAt;
    match event {
      case ThinkingStart(index) =>
        StopKeepsOpen(s, index);
        ThinkingKeepsOpen(StopIfIndexed(s, index), index, "");
      case TextStart(index) =>
        StopKeepsOpen(s, index);
        TextKeepsOpen(StopIfIndexed(s, index), index, "");
      case ThinkingDelta(index, text) =>
        if index in s.openThinking { SayKeepsOpen(s, s.openThinking[index], text); } else { ThinkingKeepsOpen(s, index, text); }
      case TextDelta(index, text) =>
        if index in s.openText { SayKeepsOpen(s, s.openText[index], text); } else { TextKeepsOpen(s, index, text); }
      case ThinkingStop(index) => ClosedKeepsOpen(s, index);
      case TextStop(index) => ClosedKeepsOpen(s, index);
      case ToolUseStop(index) => ClosedKeepsOpen(s, index);
      case ToolUse(id, name, input) => CallKeepsOpen(s, id, name, input);
      case ToolUseStart(index, id, name, input) =>
        StopKeepsOpen(s, index);
        CallKeepsOpen(StopIfIndexed(s, index), id, name, input);
        ClosedKeepsOpen(CallTool(StopIfIndexed(s, index), id, name, input), index);
      case BlockStop(index) => StopBlockKeepsOpen(s, index);
      case ToolResult(id, content, isError) =>
        PopKeepsOpen(s, id);
        PopKeepsOpen(s, "");
        OtherKeepsOpen(CloseSubagents(s, id), ToolResultSegment(Strip(id), content, NameOf(s, id), isError));
      case ErrorEvent(message) => OtherKeepsOpen(s, ErrorSegment(if message == "" then "Unknown error" else message));
      case _ =>
    }
  }

  lemma StopBlockKeepsOpen(s: State, index: int)
    requires OpenIsLatest(s)
    ensures OpenIsLatest(StopBlock(s, index))
  {}

  /** In every reachable state there is a subagent segment for each Task waited for, and every open segment is the latest
      of its index. */
  lemma {:induction false} TranscriptIsConsistent(events: seq<Event>, showToolResults: bool)
    ensures Parallel(Run(events, showToolResults)) && OpenIsLatest(Run(events, showToolResults))
  {
    hide Step;
    if events != [] {
      var before, last := events[..|events| - 1], events[|events| - 1];
      TranscriptIsConsistent(before, showToolResults);
      StepKeepsParallel(Run(before, showToolResults), last, showToolResults);
      StepKeepsOpen(Run(before, showToolResults), last, showToolResults);
    }
  }

  // ---- What is shown ----

  /** What a thinking or text segment made for `index` says. */
  function Said(thinking: bool, index: int): Segment -> string {
    (segment: Segment) =>
      if thinking then (if IsThinking(segment, index) then segment.said else "")
      else if IsText(segment, index) then segment.said else ""
  }

  function DeltaOf(event: Event, thinking: bool, index: int): string {
    match event
    case ThinkingDelta(i, text) => if thinking && i == index then text else ""
    case TextDelta(i, text) => if !thinking && i == index then text else ""
    case _ => ""
  }

  lemma {:induction false} SaysSame(f: Segment -> string, a: seq<Segment>, b: seq<Segment>)
    requires |a| == |b| && forall k | 0 <= k < |a| :: f(a[k]) == f(b[k])
    ensures Collect(f, a) == Collect(f, b)
  {
    if a != [] { SaysSame(f, a[..|a| - 1], b[..|b| - 1]); }
  }

  lemma {:induction false} SaysNothing(f: Segment -> string, a: seq<Segment>)
    requires forall k | 0 <= k < |a| :: f(a[k]) == ""
    ensures Collect(f, a) == ""
  {
    if a != [] { SaysNothing(f, a[..|a| - 1]); }
  }

  /** Adding to the last segment that says something adds at the end. */
  lemma SaysMore(f: Segment -> string, a: seq<Segment>, at: nat, segment: Segment, more: string)
    requires at < |a| && f(segment) == f(a[at]) + more && forall q | at < q < |a| :: f(a[q]) == ""
    ensures Collect(f, a[at := segment]) == Collect(f, a) + more
  {
    hide Collect;
    var rest := a[at + 1..];
    Around(f, a[..at], a[at], rest);
    Around(f, a[..at], segment, rest);
    SaysNothing(f, rest);
    assert a[..at] + [a[at]] + rest == a && a[..at] + [segment] + rest == a[at := segment];
  }

  lemma Around(f: Segment -> string, before: seq<Segment>, segment: Segment, rest: seq<Segment>)
    ensures Collect(f, before + [segment] + rest) == Collect(f, before) + f(segment) + Collect(f, rest)
  {
    CollectSnoc(f, before, segment);
    CollectAppend(f, before + [segment], rest);
  }

  lemma SayingAt(s: State, at: nat, more: string, thinking: bool, index: int, open: int)
    requires OpenIsLatest(s)
    requires if thinking then open in s.openThinking && s.openThinking[open] == at
             else open in s.openText && s.openText[open] == at
    ensures Collect(Said(thinking, index), SayAt(s.segments, at, more))
         == Collect(Said(thinking, index), s.segments) + if open == index then more else ""
    ensures Collect(Said(!thinking, index), SayAt(s.segments, at, more)) == Collect(Said(!thinking, index), s.segments)
  {
    var now := SayAt(s.segments, at, more);
    if open == index {
      SaysMore(Said(thinking, index), s.segments, at, Say(s.segments[at], more), more);
    } else {
      SaysSame(Said(thinking, index), now, s.segments);
    }
    SaysSame(Said(!thinking, index), now, s.segments);
  }

  lemma CallSaysNothing(s: State, id: string, name: string, input: Option<TaskInput>, thinking: bool, index: int)
    ensures Collect(Said(thinking, index), CallTool(s, id, name, input).segments)
         == Collect(Said(thinking, index), s.segments)
  {
    hide Heading, StackId, Strip, Collect;
    var now, f := CallTool(s, id, name, input).segments, Said(thinking, index);
    if |now| == |s.segments| {
      SaysSame(f, now, s.segments);
    } else {
      OneMore(f, s.segments, now[|s.segments|]);
      assert now == s.segments + [now[|s.segments|]];
    }
  }

  lemma OneMore(f: Segment -> string, a: seq<Segment>, segment: Segment)
    ensures Collect(f, a + [segment]) == Collect(f, a) + f(segment)
    ensures Collect(f, a) + "" == Collect(f, a)
  {
    CollectSnoc(f, a, segment);
  }

  lemma StopKeepsSegments(s: State, index: int)
    ensures StopBlock(s, index).segments == s.segments && StopBlock(s, index).stack == s.stack
  {}

  lemma DeltaSays(s: State, event: Event, thinking: bool, index: int)
    requires OpenIsLatest(s) && s.stack == [] && (event.ThinkingDelta? || event.TextDelta?)
    ensures Collect(Said(thinking, index), Step(s, event, true).segments)
         == Collect(Said(thinking, index), s.segments) + DeltaOf(event, thinking, index)
    ensures Step(s, event, false) == Step(s, event, true)
  {
    hide OpenIsLatest, SayAt, Collect;
    var f := Said(thinking, index);
    if event.ThinkingDelta? {
      if event.index in s.openThinking {
        SayingAt(s, s.openThinking[event.index], event.text, true, index, event.index);
      }
      OneMore(f, s.segments, ThinkingSegment(event.index, event.text));
    } else {
      if event.index in s.openText {
        SayingAt(s, s.openText[event.index], event.text, false, index, event.index);
      }
      OneMore(f, s.segments, TextSegment(event.index, event.text));
    }
  }

  lemma StepSays(s: State, event: Event, showToolResults: bool, thinking: bool, index: int)
    requires OpenIsLatest(s)
    ensures Collect(Said(thinking, index), Step(s, event, showToolResults).segments)
         == Collect(Said(thinking, index), s.segments) + if s.stack == [] then DeltaOf(event, thinking, index) else ""
  {
    hide OpenIsLatest, Strip, Heading, LooksLikeTask, CallTool, CutAt, SayAt, Collect, StopBlock, NameOf, Latest;
    forall i { StopKeepsSegments(s, i); }
    var now, f := Step(s, event, showToolResults).segments, Said(thinking, index);
    OneMore(f, s.segments, ErrorSegment(""));
    if s.stack == [] || !Inner(event) {
      match event {
        case ToolUse(id, name, input) => CallSaysNothing(s, id, name, input, thinking, index);
        case ToolUseStart(i, id, name, input) => CallSaysNothing(StopIfIndexed(s, i), id, name, input, thinking, index);
        case ThinkingDelta(i, text) => DeltaSays(s, event, thinking, index);
        case TextDelta(i, text) => DeltaSays(s, event, thinking, index);
        case ThinkingStart(i) => OneMore(f, s.segments, ThinkingSegment(i, ""));
        case TextStart(i) => OneMore(f, s.segments, TextSegment(i, ""));
        case ToolResult(id, content, isError) =>
          OneMore(f, s.segments, ToolResultSegment(Strip(id), content, NameOf(s, id), isError));
        case ErrorEvent(message) =>
          OneMore(f, s.segments, ErrorSegment(if message == "" then "Unknown error" else message));
        case _ =>
      }
    }
  }

  // ---- The buffer ----

  class Buffer {
    const showToolResults: bool
    var segments: seq<Segment>
    var openThinking: map<int, nat>
    var openText: map<int, nat>
    var openTools: set<int>
    var toolNames: map<string, string>
    var stack: seq<string>
    var subagents: seq<nat>

    function Now(): State reads this {
      State(segments, openThinking, openText, openTools, toolNames, stack, subagents)
    }

    ghost predicate Valid() reads this {
      Parallel(Now()) && OpenIsLatest(Now())
    }

    constructor (showToolResults: bool)
      ensures Valid() && Now() == EMPTY && this.showToolResults == showToolResults
    {
      this.showToolResults := showToolResults;
      segments, openThinking, openText, openTools := [], map[], map[], {};
      toolNames, stack, subagents := map[], [], [];
    }

    /** `apply` of a `block_stop`. */
    method ApplyBlockStop(index: int)
      modifies `openTools, `openThinking, `openText
      ensures Now() == StopBlock(old(Now()), index)
    {
      if index in openTools { openTools := openTools - {index}; return; }
      if index in openThinking { openThinking := openThinking - {index}; return; }
      if index in openText { openText := openText - {index}; return; }
      assert openText - {index} == openText;
    }

    method SubagentPush(id: string, at: nat)
      modifies `stack, `subagents
      ensures stack == old(stack) + [StackId(id, |old(stack)|)] && subagents == old(subagents) + [at]
    {
      var toolId := if Strip(id) != "" then Strip(id) else "__task_" + Decimal(|stack| + 1);
      stack := stack + [toolId];
      subagents := subagents + [at];
    }

    method InnermostMatch(id: string) returns (idx: int)
      requires stack != [] && Strip(id) != ""
      ensures CutAt(stack, id) == if idx < 0 then None else Some(idx)
    {
      hide Strip, RoughlyMatch;
      idx := |stack| - 1;
      assert stack[..|stack|] == stack;
      while idx >= 0 && !RoughlyMatch(stack[idx], Strip(id))
        invariant -1 <= idx < |stack|
        invariant CutAt(stack, id) == CutAt(stack[..idx + 1], id)
      {
        assert stack[..idx + 1][..idx] == stack[..idx];
        idx := idx - 1;
      }
    }

    /** `_subagent_pop`. */
    method SubagentPop(id: string) returns (popped: bool)
      requires |stack| == |subagents|
      modifies `stack, `subagents
      ensures Now() == Pop(old(Now()), id) && (popped <==> CutAt(old(stack), id).Some?)
    {
      hide Strip;
      var toolId := Strip(id);
      if stack == [] { return false; }
      var top := |stack| - 1;
      if toolId == "" {
        popped := IsSynthetic(stack[top]);
        if popped { stack, subagents := stack[..top], subagents[..top]; }
        return;
      }
      var idx := InnermostMatch(id);
      if idx < 0 { return false; }
      while |stack| > idx
        modifies `stack, `subagents
        invariant idx <= |stack| == |subagents| <= |old(stack)|
        invariant stack == old(stack)[..|stack|] && subagents == old(subagents)[..|stack|]
      {
        stack := stack[..|stack| - 1];
        subagents := subagents[..|subagents| - 1];
      }
      popped := true;
    }

    method AppendSegment(segment: Segment)
      modifies `segments
      ensures Now() == AddSegment(old(Now()), segment)
    {
      segments := segments + [segment];
    }

    method ApplyToolCall(id: string, name: string, input: Option<TaskInput>)
      requires Valid()
      modifies `segments, `toolNames, `stack, `subagents
      ensures Now() == CallTool(old(Now()), id, name, input)
    {
      hide Strip, Heading, StackId, Latest;
      var toolId, toolName := Strip(id), Named(name);
      if toolId != "" { toolNames := toolNames[toolId := toolName]; }
      if toolName == "Task" {
        segments := segments + [SubagentSegment(Heading(input), 0, {}, None)];
        SubagentPush(id, |segments| - 1);
      } else if stack != [] {
        var at := subagents[|subagents| - 1];
        segments := segments[at := CallInSubagent(segments[at], toolId, toolName)];
      } else {
        segments := segments + [ToolCallSegment(toolId, toolName)];
      }
    }

    method ApplyThinkingDelta(index: int, text: string)
      requires Valid()
      modifies `segments, `openThinking
      ensures Now() == if index in old(openThinking)
                       then old(Now()).(segments := SayAt(old(segments), old(openThinking)[index], text))
                       else AddThinking(old(Now()), index, text)
    {
      if index !in openThinking {
        segments := segments + [ThinkingSegment(index, "")];
        segments := segments[|segments| - 1 := ThinkingSegment(index, text)];
        if index >= 0 { openThinking := openThinking[index := |segments| - 1]; }
      } else {
        var at := openThinking[index];
        segments := segments[at := Say(segments[at], text)];
      }
    }

    method ApplyTextDelta(index: int, text: string)
      requires Valid()
      modifies `segments, `openText
      ensures Now() == if index in old(openText)
                       then old(Now()).(segments := SayAt(old(segments), old(openText)[index], text))
                       else AddText(old(Now()), index, text)
    {
      if index !in openText {
        segments := segments + [TextSegment(index, "")];
        segments := segments[|segments| - 1 := TextSegment(index, text)];
        if index >= 0 { openText := openText[index := |segments| - 1]; }
      } else {
        var at := openText[index];
        segments := segments[at := Say(segments[at], text)];
      }
    }

    method ApplyToolResult(id: string, content: string, isError: bool)
      requires Valid()
      modifies `segments, `stack, `subagents
      ensures Now() == Step(old(Now()), ToolResult(id, content, isError), showToolResults)
    {
      hide Strip, LooksLikeTask, Latest, CutAt;
      var toolId := Strip(id);
      var name := if toolId in toolNames then Some(toolNames[toolId]) else None;
      if stack != [] {
        var popped := SubagentPop(id);
        if !popped && toolId != "" && IsSynthetic(stack[|stack| - 1]) && (name.None? || name == Some("Task"))
           && LooksLikeTask(toolId)
        {
          popped := SubagentPop("");
        }
      }
      if showToolResults { AppendSegment(ToolResultSegment(toolId, content, name, isError)); }
    }

    /** `apply`. */
    method Apply(event: Event)
      requires Valid()
      modifies this
      ensures Valid() && Now() == Step(old(Now()), event, showToolResults)
    {
      hide Strip, Heading, StackId, LooksLikeTask, CutAt, Latest, Parallel, OpenIsLatest, CallTool, CloseSubagents, SayAt,
           StopBlock, NameOf;
      StepKeepsParallel(Now(), event, showToolResults);
      StepKeepsOpen(Now(), event, showToolResults);
      if stack != [] && Inner(event) { return; }
      match event {
        case ThinkingStart(index) =>
          if index >= 0 { ApplyBlockStop(index); }
          AppendSegment(ThinkingSegment(index, ""));
          if index >= 0 { openThinking := openThinking[index := |segments| - 1]; }
        case ThinkingDelta(index, text) => ApplyThinkingDelta(index, text);
        case ThinkingStop(index) => if index >= 0 { openThinking := openThinking - {index}; }
        case TextStart(index) =>
          if index >= 0 { ApplyBlockStop(index); }
          AppendSegment(TextSegment(index, ""));
          if index >= 0 { openText := openText[index := |segments| - 1]; }
        case TextDelta(index, text) => ApplyTextDelta(index, text);
        case TextStop(index) => if index >= 0 { openText := openText - {index}; }
        case ToolUseStart(index, id, name, input) =>
          if index >= 0 {
            StopKeepsValid(Now(), index);
            ApplyBlockStop(index);
          }
          ApplyToolCall(id, name, input);
          if Named(name) != "Task" && index >= 0 { openTools := openTools + {index}; }
        case ToolUseStop(index) => openTools := openTools - {index};
        case BlockStop(index) => ApplyBlockStop(index);
        case ToolUse(id, name, input) => ApplyToolCall(id, name, input);
        case ToolResult(id, content, isError) => ApplyToolResult(id, content, isError);
        case ErrorEvent(message) => AppendSegment(ErrorSegment(if message == "" then "Unknown error" else message));
        case _ =>
      }
    }
  }

  lemma StopKeepsValid(s: State, index: int)
    requires Parallel(s) && OpenIsLatest(s)
    ensures Parallel(StopBlock(s, index)) && OpenIsLatest(StopBlock(s, index))
  {}
}
