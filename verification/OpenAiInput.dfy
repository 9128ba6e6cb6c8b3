/** What an OpenAI-compatible provider can send, and what each native tool call has received so far
    (the inputs of providers/openai_compat.py). */
module OpenAiInput {
  import opened Basics

  /** A JSON value as far as Task arguments need it: an object (member values kept as JSON text), or not. */
  datatype Json = Object(fields: map<string, string>) | NonObject

  /** `json.loads` (`None` where it raises), `json.dumps`, and fresh tool ids. */
  datatype Env = Env(loads: string -> Option<Json>, dumps: Json -> string, freshToolId: int -> string)

  /** One `delta.tool_calls` entry. */
  datatype ToolDelta = ToolDelta(index: int, id: Option<string>, name: Option<string>, arguments: string)

  /** A tool call found in text; `input` is its JSON object. */
  datatype HeuristicTool = HeuristicTool(id: string, name: string, input: Json)

  /** One piece from the think-tag parser; a text piece has been through the heuristic tool parser. */
  datatype Part = ThinkingPart(content: string) | TextPart(filtered: string, tools: seq<HeuristicTool>)

  /** One provider chunk (its first choice). A chunk cut short by a failure is a chunk too. */
  datatype Piece = Piece(reasoning: string, parts: seq<Part>, toolCalls: seq<ToolDelta>)

  // ---- What the input says, independently of how it is streamed out ----

  function PartThoughts(thinkingEnabled: bool): Part -> seq<string> {
    (p: Part) => if p.ThinkingPart? && thinkingEnabled then [p.content] else []
  }

  /** Reasoning and think-tagged text, in order; nothing when thinking is disabled. */
  function PieceThoughts(thinkingEnabled: bool): Piece -> seq<string> {
    (c: Piece) => (if thinkingEnabled && c.reasoning != "" then [c.reasoning] else [])
                  + Collect(PartThoughts(thinkingEnabled), c.parts)
  }

  function PartTexts(p: Part): seq<string> {
    if p.TextPart? && p.filtered != "" then [p.filtered] else []
  }

  function PieceTexts(c: Piece): seq<string> {
    Collect(PartTexts, c.parts)
  }

  function PieceCalls(c: Piece): seq<ToolDelta> {
    c.toolCalls
  }

  /** Tool indices some delta said something about. */
  function KeysAfter(calls: seq<ToolDelta>): set<int>
    decreases |calls|, 0
  {
    if calls == [] then {}
    else
      var before, last := calls[..|calls| - 1], calls[|calls| - 1];
      KeysAfter(before) + if SaysSomething(last) then {IndexOf(before, last)} else {}
  }

  predicate SaysSomething(tc: ToolDelta) {
    (tc.id.Some? && tc.id.value != "") || tc.name.Some? || tc.arguments != ""
  }

  /** A negative index counts the calls known so far, so it is a new one unless indices have been skipped. */
  function IndexOf(before: seq<ToolDelta>, tc: ToolDelta): int
    decreases |before|, 1
  {
    if tc.index < 0 then |KeysAfter(before)| else tc.index
  }

  /** Name fragments extend or repeat what came before. */
  function MergeName(prev: string, name: string): string {
    if prev == "" || prev <= name then name
    else if name <= prev then prev
    else prev + name
  }

  function NameOf(calls: seq<ToolDelta>, t: int): string {
    if calls == [] then ""
    else
      var before, last := calls[..|calls| - 1], calls[|calls| - 1];
      if last.name.Some? && IndexOf(before, last) == t then MergeName(NameOf(before, t), last.name.value)
      else NameOf(before, t)
  }

  /** The latest id given for a tool call. */
  function IdOf(calls: seq<ToolDelta>, t: int): string {
    if calls == [] then ""
    else
      var before, last := calls[..|calls| - 1], calls[|calls| - 1];
      if last.id.Some? && last.id.value != "" && IndexOf(before, last) == t then last.id.value else IdOf(before, t)
  }

  /** All argument fragments for a tool call, in order. */
  function Received(calls: seq<ToolDelta>, t: int): string {
    if calls == [] then ""
    else
      var before, last := calls[..|calls| - 1], calls[|calls| - 1];
      if IndexOf(before, last) == t then Received(before, t) + last.arguments else Received(before, t)
  }

  /** The accumulated name is never exactly "Task". */
  predicate NeverTask(calls: seq<ToolDelta>, t: int) {
    calls == [] || (NeverTask(calls[..|calls| - 1], t) && NameOf(calls, t) != "Task")
  }

  /** Once there is a name, it is "Task". */
  predicate OnlyTask(calls: seq<ToolDelta>, t: int) {
    calls == [] || (OnlyTask(calls[..|calls| - 1], t) && (Blank(NameOf(calls, t)) || NameOf(calls, t) == "Task"))
  }

  /** A Task subagent is made to run in the foreground. */
  function Normalize(j: Json): Json {
    match j
    case Object(fields) => Object(fields["run_in_background" := "false"])
    case NonObject => NonObject
  }

  // ---- A call's argument fragments ----

  /** A non-empty argument fragment of a call with a name; `task` says whether the name was Task when it was handled. */
  datatype Fragment = Fragment(task: bool, text: string)

  function Handled(name: string, text: string): seq<Fragment> {
    if text == "" then [] else [Fragment(name == "Task", text)]
  }

  /** The fragments of a call, in order. Those from before it has a name are one, handled when it gets it. */
  function Fragments(calls: seq<ToolDelta>, t: int): seq<Fragment> {
    if calls == [] then []
    else
      var before, last, name := calls[..|calls| - 1], calls[|calls| - 1], NameOf(calls, t);
      if IndexOf(before, last) != t || Blank(name) then Fragments(before, t)
      else Fragments(before, t) + Handled(name, Early(before, t)) + Handled(name, last.arguments)
  }

  /** What has been received for a call that has no name yet. */
  function Early(calls: seq<ToolDelta>, t: int): string {
    if Blank(NameOf(calls, t)) then Received(calls, t) else ""
  }

  /** What is gathered while the name is Task. */
  function TaskText(fs: seq<Fragment>): string {
    if fs == [] then ""
    else TaskText(fs[..|fs| - 1]) + if fs[|fs| - 1].task then fs[|fs| - 1].text else ""
  }

  /** What is sent on as it comes. */
  function RawTexts(fs: seq<Fragment>): seq<string> {
    if fs == [] then []
    else RawTexts(fs[..|fs| - 1]) + if fs[|fs| - 1].task then [] else [fs[|fs| - 1].text]
  }

  /** After the `n`-th fragment what has been gathered is JSON, for the first time. */
  ghost predicate ParsesFirst(env: Env, fs: seq<Fragment>, n: int) {
    && 0 <= n < |fs| && fs[n].task && env.loads(TaskText(fs[..n + 1])).Some?
    && forall k | 0 <= k < n && fs[k].task :: env.loads(TaskText(fs[..k + 1])).None?
  }

  ghost predicate NoneParses(env: Env, fs: seq<Fragment>) {
    forall k | 0 <= k < |fs| && fs[k].task :: env.loads(TaskText(fs[..k + 1])).None?
  }

  /** What a Task gathers turns out to be JSON, but no object. */
  ghost predicate Raises(env: Env, fs: seq<Fragment>) {
    exists n :: ParsesFirst(env, fs, n) && env.loads(TaskText(fs[..n + 1])).value.NonObject?
  }

  /** The argument deltas of a call: everything handled while the name was not Task, and the object that what was handled
      while it was Task became, where it became one. If that was no object, nothing after it. If it never was JSON, an empty
      object once the stream has ended normally. */
  ghost predicate ContentsAre(env: Env, fs: seq<Fragment>, contents: seq<string>, completed: bool) {
    && (NoneParses(env, fs) ==> contents == RawTexts(fs) + if completed && TaskText(fs) != "" then ["{}"] else [])
    && forall n | ParsesFirst(env, fs, n) ::
         var json := env.loads(TaskText(fs[..n + 1])).value;
         contents == RawTexts(fs[..n]) + if json.Object? then [env.dumps(Normalize(json))] + RawTexts(fs[n + 1..]) else []
  }

  /** Some Task raises. */
  ghost predicate Raised(env: Env, calls: seq<ToolDelta>) {
    exists t :: Raises(env, Fragments(calls, t))
  }

  lemma CallsSnoc(calls: seq<ToolDelta>, tc: ToolDelta, t: int)
    ensures KeysAfter(calls + [tc]) == KeysAfter(calls) + if SaysSomething(tc) then {IndexOf(calls, tc)} else {}
    ensures NameOf(calls + [tc], t)
         == if tc.name.Some? && IndexOf(calls, tc) == t then MergeName(NameOf(calls, t), tc.name.value) else NameOf(calls, t)
    ensures Received(calls + [tc], t)
         == if IndexOf(calls, tc) == t then Received(calls, t) + tc.arguments else Received(calls, t)
    ensures IdOf(calls + [tc], t)
         == if tc.id.Some? && tc.id.value != "" && IndexOf(calls, tc) == t then tc.id.value else IdOf(calls, t)
    ensures NeverTask(calls + [tc], t) <==> NeverTask(calls, t) && NameOf(calls + [tc], t) != "Task"
    ensures OnlyTask(calls + [tc], t)
       <==> OnlyTask(calls, t) && (Blank(NameOf(calls + [tc], t)) || NameOf(calls + [tc], t) == "Task")
  {
    assert (calls + [tc])[..|calls|] == calls;
  }

  lemma FragmentsSnoc(calls: seq<ToolDelta>, tc: ToolDelta, t: int)
    ensures Fragments(calls + [tc], t)
         == var name := NameOf(calls + [tc], t);
            if IndexOf(calls, tc) != t || Blank(name) then Fragments(calls, t)
            else Fragments(calls, t) + Handled(name, Early(calls, t)) + Handled(name, tc.arguments)
  {
    assert (calls + [tc])[..|calls|] == calls;
  }

  /** Without a name there are no fragments. */
  lemma {:induction false} NoNameNoFragments(calls: seq<ToolDelta>, t: int)
    requires Blank(NameOf(calls, t))
    ensures Fragments(calls, t) == []
  {
    if calls != [] {
      var before, last := calls[..|calls| - 1], calls[|calls| - 1];
      if !Blank(NameOf(before, t)) && last.name.Some? {
        MergedNameStaysNamed(NameOf(before, t), last.name.value);
      }
      NoNameNoFragments(before, t);
    }
  }

  lemma TextsSnoc(fs: seq<Fragment>, f: Fragment)
    ensures TaskText(fs + [f]) == TaskText(fs) + if f.task then f.text else ""
    ensures RawTexts(fs + [f]) == RawTexts(fs) + if f.task then [] else [f.text]
  {
    assert (fs + [f])[..|fs|] == fs;
  }

  lemma OneParse(env: Env, fs: seq<Fragment>, m: int, n: int)
    requires ParsesFirst(env, fs, m) && ParsesFirst(env, fs, n)
    ensures m == n
  {}

  /** The first time there is JSON, if there is one. */
  lemma {:induction false} ParsesOrNot(env: Env, fs: seq<Fragment>)
    ensures NoneParses(env, fs) || exists n :: ParsesFirst(env, fs, n)
  {
    if fs != [] {
      var before, last := fs[..|fs| - 1], |fs| - 1;
      ParsesOrNot(env, before);
      assert forall k | 0 <= k < last :: before[..k + 1] == fs[..k + 1] && before[k] == fs[k];
      if NoneParses(env, before) {
        assert fs[..last + 1] == fs;
        if fs[last].task && env.loads(TaskText(fs)).Some? { assert ParsesFirst(env, fs, last); }
      } else {
        var n :| ParsesFirst(env, before, n);
        assert ParsesFirst(env, fs, n);
      }
    }
  }

  /** A parse stays the first one when more fragments come. */
  lemma ParseStays(env: Env, fs: seq<Fragment>, more: seq<Fragment>, n: int)
    requires ParsesFirst(env, fs, n)
    ensures ParsesFirst(env, fs + more, n) && (fs + more)[..n + 1] == fs[..n + 1]
  {
    var all := fs + more;
    assert forall k | 0 <= k < |fs| :: all[..k + 1] == fs[..k + 1] && all[k] == fs[k];
  }

  /** Once a Task has raised it has raised, and nothing more is sent. */
  lemma RaisesStays(env: Env, fs: seq<Fragment>, more: seq<Fragment>, contents: seq<string>)
    requires Raises(env, fs)
    ensures Raises(env, fs + more)
    ensures ContentsAre(env, fs, contents, false) ==> ContentsAre(env, fs + more, contents, false)
  {
    hide TaskText, RawTexts;
    var n :| ParsesFirst(env, fs, n) && env.loads(TaskText(fs[..n + 1])).value.NonObject?;
    ParseStays(env, fs, more, n);
    assert (fs + more)[..n] == fs[..n];
    assert !NoneParses(env, fs + more);
    forall m | ParsesFirst(env, fs + more, m) ensures m == n { OneParse(env, fs + more, m, n); }
  }

  lemma RaisedBy(env: Env, calls: seq<ToolDelta>, tc: ToolDelta)
    requires !Raised(env, calls)
    ensures Raised(env, calls + [tc]) <==> Raises(env, Fragments(calls + [tc], IndexOf(calls, tc)))
  {
    hide Fragments, Raises;
    forall t | t != IndexOf(calls, tc) ensures !Raises(env, Fragments(calls + [tc], t)) {
      FragmentsSnoc(calls, tc, t);
    }
  }

  lemma RaisesLater(env: Env, calls: seq<ToolDelta>, tc: ToolDelta, t: int)
    requires Raises(env, Fragments(calls, t))
    ensures Raises(env, Fragments(calls + [tc], t))
  {
    FragmentsSnoc(calls, tc, t);
    hide Fragments, Raises, NameOf, Early, Handled;
    var fs, name := Fragments(calls, t), NameOf(calls + [tc], t);
    var early, args := Handled(name, Early(calls, t)), Handled(name, tc.arguments);
    RaisesStays(env, fs, early, []);
    RaisesStays(env, fs + early, args, []);
  }

  /** Once raised, always raised. */
  lemma {:induction false} RaisedStays(env: Env, calls: seq<ToolDelta>, n: nat)
    requires n <= |calls| && Raised(env, calls[..n])
    ensures Raised(env, calls)
  {
    hide Raises, Fragments;
    if n == |calls| {
      assert calls[..n] == calls;
    } else {
      var before, last := calls[..|calls| - 1], calls[|calls| - 1];
      assert before[..n] == calls[..n] && before + [last] == calls;
      RaisedStays(env, before, n);
      var t :| Raises(env, Fragments(before, t));
      RaisesLater(env, before, last, t);
    }
  }

  /** Only a call that is named Task at some time can raise. */
  lemma OnlyTasksRaise(env: Env, calls: seq<ToolDelta>, t: int)
    requires NeverTask(calls, t)
    ensures !Raises(env, Fragments(calls, t))
  {
    NeverTaskFragments(calls, t);
  }

  lemma {:induction false} NeverTaskFragments(calls: seq<ToolDelta>, t: int)
    requires NeverTask(calls, t)
    ensures forall k | 0 <= k < |Fragments(calls, t)| :: !Fragments(calls, t)[k].task
  {
    if calls != [] { NeverTaskFragments(calls[..|calls| - 1], t); }
  }

  lemma {:induction false} OnlyTaskFragments(calls: seq<ToolDelta>, t: int)
    requires OnlyTask(calls, t)
    ensures forall k | 0 <= k < |Fragments(calls, t)| :: Fragments(calls, t)[k].task
  {
    if calls != [] { OnlyTaskFragments(calls[..|calls| - 1], t); }
  }

  lemma MergedNameStaysNamed(prev: string, name: string)
    requires !Blank(prev)
    ensures !Blank(MergeName(prev, name))
  {
    var i :| 0 <= i < |prev| && !IsSpace(prev[i]);
    assert MergeName(prev, name)[i] == prev[i];
  }
}
