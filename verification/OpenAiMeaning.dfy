/** What a chunk of provider output shows a client, and how the events that a client gets are read. */
module OpenAiMeaning {
  import opened Basics
  import opened StreamContract
  import opened OpenAiInput
  import opened SseBuilder
  import opened OpenAiStream
  import opened OpenAiResponse
  import opened ToolOpening

  // ---- Which call a delta is for ----

  /** The `k`-th delta has an id, a name or arguments for the call `t`. */
  predicate Mentions(calls: seq<ToolDelta>, k: nat, t: int)
    requires k < |calls|
  {
    && IndexOf(calls[..k], calls[k]) == t
    && (calls[k].arguments != "" || calls[k].name.Some? || (calls[k].id.Some? && calls[k].id.value != ""))
  }

  lemma {:induction false} KnownIsMentioned(calls: seq<ToolDelta>, t: int)
    ensures t in KeysAfter(calls) <==> exists k | 0 <= k < |calls| :: Mentions(calls, k, t)
  {
    hide IndexOf;
    if calls != [] {
      var before, last := calls[..|calls| - 1], |calls| - 1;
      KnownIsMentioned(before, t);
      forall k | 0 <= k < last ensures Mentions(before, k, t) == Mentions(calls, k, t) {
        assert before[..k] == calls[..k];
      }
      if t in KeysAfter(before) {
        var k :| 0 <= k < last && Mentions(before, k, t);
        assert Mentions(calls, k, t);
      }
      assert Mentions(calls, last, t) <==> SaysSomething(calls[last]) && IndexOf(before, calls[last]) == t;
    }
  }

  predicate Below(t: int, n: nat) {
    0 <= t < n
  }

  /** A delta is for the call whose index it gives. Without one it is for a new call: the next, if none was left out. */
  lemma DeltaIsForCall(calls: seq<ToolDelta>, tc: ToolDelta, n: nat)
    ensures tc.index >= 0 ==> IndexOf(calls, tc) == tc.index
    ensures tc.index < 0 && (forall t :: Below(t, n) <==> exists k | 0 <= k < |calls| :: Mentions(calls, k, t))
            ==> IndexOf(calls, tc) == n
  {
    hide Mentions, KeysAfter, Below;
    forall t { KnownIsMentioned(calls, t); }
    if forall t :: Below(t, n) <==> t in KeysAfter(calls) { CountUpTo(KeysAfter(calls), n); }
  }

  lemma {:induction false} CountUpTo(s: set<int>, n: nat)
    requires forall t :: Below(t, n) <==> t in s
    ensures |s| == n
  {
    if n > 0 {
      assert Below(n - 1, n);
      CountUpTo(s - {n - 1}, n - 1);
    } else {
      EmptyOrInhabited(s);
    }
  }

  // ---- Chunks ----

  /** What a part of the content adds to a chunk that shows its reasoning and the parts before: thinking, unless that is disabled,
      or text that says something and then its tools. */
  lemma NextPartShows(env: Env, p: Piece, part: Part)
    ensures var q := p.(parts := p.parts + [part]);
            && PieceTexts(q) == PieceTexts(p) + (if part.TextPart? && part.filtered != "" then [part.filtered] else [])
            && PieceThoughts(true)(q) == PieceThoughts(true)(p) + (if part.ThinkingPart? then [part.content] else [])
            && PieceThoughts(false)(q) == PieceThoughts(false)(p)
            && PieceItems(env, true)(q)
               == PieceItems(env, true)(p)
                  + (if part.ThinkingPart? then [Thought(part.content)]
                     else (if part.filtered != "" then [Said(part.filtered)] else []) + Collect(ToolItems(env), part.tools))
            && PieceItems(env, false)(q)
               == PieceItems(env, false)(p)
                  + (if part.ThinkingPart? then []
                     else (if part.filtered != "" then [Said(part.filtered)] else []) + Collect(ToolItems(env), part.tools))
  {
    CollectSnoc(PartTexts, p.parts, part);
    CollectSnoc(PartThoughts(true), p.parts, part);
    CollectSnoc(PartThoughts(false), p.parts, part);
    hide Collect, ToolItems;
    NextPartItems(env, true, p, part);
    NextPartItems(env, false, p, part);
    hide PartItems, PieceItems;
  }

  lemma NextPartItems(env: Env, thinkingEnabled: bool, p: Piece, part: Part)
    ensures PieceItems(env, thinkingEnabled)(p.(parts := p.parts + [part]))
         == PieceItems(env, thinkingEnabled)(p)
            + (if part.ThinkingPart? then if thinkingEnabled then [Thought(part.content)] else []
               else (if part.filtered != "" then [Said(part.filtered)] else []) + Collect(ToolItems(env), part.tools))
  {
    CollectSnoc(PartItems(env, thinkingEnabled), p.parts, part);
    hide Collect, ToolItems;
  }

  /** Each chunk shows its content and then the calls it names. */
  lemma NextPieceShows(env: Env, thinkingEnabled: bool, pieces: seq<Piece>, p: Piece)
    ensures var had := Collect(PieceCalls, pieces);
            ItemsOf(env, thinkingEnabled, pieces + [p], had + p.toolCalls)
            == ItemsOf(env, thinkingEnabled, pieces, had) + PieceItems(env, thinkingEnabled)(p) + CallItems(env, had, p.toolCalls)
  {
    assert (pieces + [p])[..|pieces|] == pieces;
    var had := Collect(PieceCalls, pieces);
    assert (had + p.toolCalls)[|had|..] == p.toolCalls;
  }

  lemma ReasoningShows(env: Env, reasoning: string, calls: seq<ToolDelta>)
    ensures var p := Piece(reasoning, [], calls);
            && PieceTexts(p) == [] && PieceThoughts(false)(p) == [] && PieceItems(env, false)(p) == []
            && PieceThoughts(true)(p) == (if reasoning != "" then [reasoning] else [])
            && PieceItems(env, true)(p) == if reasoning != "" then [Thought(reasoning)] else []
  {}

  // ---- Native tool calls ----

  /** The `k`-th delta gives its call the first name. */
  predicate Names(calls: seq<ToolDelta>, k: nat)
    requires k < |calls|
  {
    var t := IndexOf(calls[..k], calls[k]);
    Blank(NameOf(calls[..k], t)) && !Blank(NameOf(calls[..k + 1], t))
  }

  /** `places` are the deltas that name calls, and `items` show these calls. */
  ghost predicate ShowCalls(env: Env, calls: seq<ToolDelta>, places: seq<nat>, items: seq<Item>) {
    && |places| == |items| && (forall j, k | 0 <= j < k < |places| :: places[j] < places[k])
    && (forall k | 0 <= k < |calls| :: k in places <==> Names(calls, k))
    && forall k | 0 <= k < |places| :: ShowsCall(env, calls, places[k], items[k])
  }

  ghost predicate ShowsCall(env: Env, calls: seq<ToolDelta>, p: nat, item: Item) {
    p < |calls| && item.ToolShown? && StartsCall(env, calls[..p + 1], IndexOf(calls[..p], calls[p]), item.block)
  }

  lemma {:induction false} OpenedIsNamed(env: Env, calls: seq<ToolDelta>, t: int)
    ensures Opening(env, calls, t).Some? <==> !Blank(NameOf(calls, t))
  {
    hide GivenId, IdOf;
    if calls != [] {
      var before, last := calls[..|calls| - 1], calls[|calls| - 1];
      OpenedIsNamed(env, before, t);
      if last.name.Some? && !Blank(NameOf(before, t)) { MergedNameStaysNamed(NameOf(before, t), last.name.value); }
    }
  }

  lemma NewlyShownIs(env: Env, before: seq<ToolDelta>, tc: ToolDelta)
    ensures var calls := before + [tc];
            && calls[..|before|] == before && |NewlyShown(env, before, tc)| == (if Names(calls, |before|) then 1 else 0)
            && (Names(calls, |before|) ==> ShowsCall(env, calls, |before|, NewlyShown(env, before, tc)[0]))
  {
    hide NameOf, Blank, StartsCall, Opening;
    var calls, t := before + [tc], IndexOf(before, tc);
    assert calls[..|before|] == before && calls[..|before| + 1] == calls;
    OpenedIsNamed(env, before, t);
    OpenedIsNamed(env, calls, t);
    if Names(calls, |before|) { OpeningStartsCall(env, calls, t); }
  }

  /** Each call is shown when a delta gives it its first name, and with the id it has by then. */
  lemma {:induction false} CallsAreShownWhenNamed(env: Env, calls: seq<ToolDelta>) returns (places: seq<nat>)
    ensures ShowCalls(env, calls, places, CallItems(env, [], calls))
  {
    hide ShowCalls, Names, NewlyShown;
    places := [];
    if calls == [] {
      assert ShowCalls(env, calls, places, []) by { NoneShown(env); }
    } else {
      var before, tc := calls[..|calls| - 1], calls[|calls| - 1];
      assert before + [tc] == calls && [] + before == before;
      places := CallsAreShownWhenNamed(env, before);
      NewlyShownIs(env, before, tc);
      var was := places;
      if Names(calls, |before|) { places := was + [|before|]; }
      NextShown(env, before, tc, was, places, CallItems(env, [], before));
    }
  }

  lemma NoneShown(env: Env)
    ensures ShowCalls(env, [], [], [])
  {}

  lemma NextShown(env: Env, before: seq<ToolDelta>, tc: ToolDelta, was: seq<nat>, places: seq<nat>, items: seq<Item>)
    requires ShowCalls(env, before, was, items)
    requires places == if Names(before + [tc], |before|) then was + [|before|] else was
    ensures ShowCalls(env, before + [tc], places, items + NewlyShown(env, before, tc))
  {
    hide Names, ShowsCall, NewlyShown;
    var calls, all := before + [tc], items + NewlyShown(env, before, tc);
    NewlyShownIs(env, before, tc);
    forall k | 0 <= k < |before| ensures Names(calls, k) == Names(before, k) { SameNames(before, tc, k); }
    forall k | 0 <= k < |was| ensures was[k] < |before| && ShowsCall(env, calls, was[k], items[k]) {
      ShowsStill(env, before, tc, was[k], items[k]);
    }
    assert |before| in places ==> Names(calls, |before|);
  }

  lemma SameNames(before: seq<ToolDelta>, tc: ToolDelta, k: nat)
    requires k < |before|
    ensures Names(before + [tc], k) == Names(before, k)
  {
    hide IndexOf, NameOf, Blank;
    var calls := before + [tc];
    assert calls[..k] == before[..k] && calls[..k + 1] == before[..k + 1];
  }

  lemma ShowsStill(env: Env, before: seq<ToolDelta>, tc: ToolDelta, p: nat, item: Item)
    requires ShowsCall(env, before, p, item)
    ensures p < |before| && ShowsCall(env, before + [tc], p, item)
  {
    hide IndexOf, StartsCall;
    var calls := before + [tc];
    assert calls[..p] == before[..p] && calls[..p + 1] == before[..p + 1];
  }

  /** A Task whose arguments are JSON but no object ends the stream; an object is sent, once it is whole, with nothing of it
      before. Other tools' arguments are sent as they come. */
  lemma TaskArguments(env: Env, name: string, first: string, rest: string, contents: seq<string>, completed: bool)
    requires first != "" && rest != "" && !Blank(name)
    requires env.loads(first) == None && env.loads(first + rest).Some?
    ensures var calls := [ToolDelta(0, None, Some(name), first)] + [ToolDelta(0, None, None, rest)];
            var json := env.loads(first + rest).value;
            && (Raised(env, calls) <==> name == "Task" && json == NonObject)
            && (ContentsAre(env, Fragments(calls, 0), contents, completed) ==>
                  if name != "Task" then contents == [first] + [rest]
                  else if json == NonObject then contents == []
                  else contents == [env.dumps(Object(json.fields["run_in_background" := "false"]))])
  {
    var a, b, json := ToolDelta(0, None, Some(name), first), ToolDelta(0, None, None, rest), env.loads(first + rest).value;
    var calls, f, g := [a] + [b], Fragment(name == "Task", first), Fragment(name == "Task", rest);
    TwoFragments(name, first, rest);
    var fs := [f] + [g];
    assert Fragments(calls, 0) == fs;
    forall t | t != 0 ensures Fragments(calls, t) == [] { OtherFragments(name, first, rest, t); }
    hide Fragments;
    assert fs[..1] == [f] && fs[..2] == fs && fs[2..] == [] && fs[..0] == [] && fs[..1][..0] == [];
    TextsSnoc([], f);
    TextsSnoc([f], g);
    assert [] + [f] == [f];
    NoTexts();
    assert TaskText([f]) == if f.task then first else "" by { assert "" + first == first; }
    assert TaskText(fs) == if f.task then first + rest else "";
    assert RawTexts(fs) == if f.task then [] else [first] + [rest];
    hide TaskText, RawTexts;
    assert RawTexts(fs) + [] == RawTexts(fs) && RawTexts(fs[..1]) == (if f.task then [] else [first]);
    if f.task {
      assert fs[1].task && ParsesFirst(env, fs, 1);
      assert !NoneParses(env, fs);
      forall n | ParsesFirst(env, fs, n) ensures n == 1 { OneParse(env, fs, n, 1); }
      assert Raises(env, fs) <==> json == NonObject;
    } else {
      assert NoneParses(env, fs) && !Raises(env, fs);
    }
    assert forall t | t != 0 :: !Raises(env, Fragments(calls, t));
  }

  lemma TwoFragments(name: string, first: string, rest: string)
    requires first != "" && rest != "" && !Blank(name)
    ensures Fragments([ToolDelta(0, None, Some(name), first)] + [ToolDelta(0, None, None, rest)], 0)
         == [Fragment(name == "Task", first)] + [Fragment(name == "Task", rest)]
  {
    var a, b := ToolDelta(0, None, Some(name), first), ToolDelta(0, None, None, rest);
    OneFragment(name, first);
    FragmentsSnoc([a], b, 0);
    CallsSnoc([a], b, 0);
    assert IndexOf([a], b) == 0;
    hide Fragments, NameOf, Received, IndexOf, MergeName, Blank, KeysAfter, IdOf, NeverTask, OnlyTask;
    assert [Fragment(name == "Task", first)] + [] == [Fragment(name == "Task", first)];
  }

  lemma OneFragment(name: string, first: string)
    requires first != "" && !Blank(name)
    ensures var calls := [ToolDelta(0, None, Some(name), first)];
            Fragments(calls, 0) == [Fragment(name == "Task", first)] && NameOf(calls, 0) == name
  {
    var a := ToolDelta(0, None, Some(name), first);
    assert [] + [a] == [a];
    FragmentsSnoc([], a, 0);
    CallsSnoc([], a, 0);
    assert Early([], 0) == "" && Fragments([], 0) == [] && NameOf([], 0) == "" && IndexOf([], a) == 0;
    hide Fragments, NameOf, Received, IndexOf, MergeName, Blank, KeysAfter, IdOf, NeverTask, OnlyTask;
  }

  lemma OtherFragments(name: string, first: string, rest: string, t: int)
    requires t != 0
    ensures Fragments([ToolDelta(0, None, Some(name), first)] + [ToolDelta(0, None, None, rest)], t) == []
  {
    var a, b := ToolDelta(0, None, Some(name), first), ToolDelta(0, None, None, rest);
    assert [] + [a] == [a];
    FragmentsSnoc([], a, t);
    FragmentsSnoc([a], b, t);
  }

  // ---- The end ----

  /** What the parser still holds at a normal end comes last, then the tools found late; a failure shows neither. */
  lemma EndShows(env: Env, pieces: seq<Piece>, calls: seq<ToolDelta>, text: string, tools: seq<HeuristicTool>,
                 reason: Option<string>)
    ensures var spoken, thought := Finished(RestText(text), tools, reason), Finished(RestThinking(text), tools, reason);
            && ShownTexts(pieces, spoken, true) == Collect(PieceTexts, pieces) + [text]
            && ShownThoughts(pieces, spoken, true, true) == Collect(PieceThoughts(true), pieces)
            && ShownItems(env, pieces, calls, spoken, true, true)
               == ItemsOf(env, true, pieces, calls) + ([Said(text)] + Collect(ToolItems(env), tools))
            && ShownTexts(pieces, thought, true) == Collect(PieceTexts, pieces)
            && ShownThoughts(pieces, thought, true, true) == Collect(PieceThoughts(true), pieces) + [text]
            && ShownThoughts(pieces, thought, false, true) == Collect(PieceThoughts(false), pieces)
            && ShownItems(env, pieces, calls, thought, true, true)
               == ItemsOf(env, true, pieces, calls) + ([Thought(text)] + Collect(ToolItems(env), tools))
            && ShownItems(env, pieces, calls, thought, false, true)
               == ItemsOf(env, false, pieces, calls) + Collect(ToolItems(env), tools)
  {
    hide Collect, ItemsOf, ToolItems, PieceTexts, PieceThoughts;
    assert Collect(PieceTexts, pieces) + [] == Collect(PieceTexts, pieces);
    assert [] + Collect(ToolItems(env), tools) == Collect(ToolItems(env), tools);
    assert Collect(PieceThoughts(true), pieces) + [] == Collect(PieceThoughts(true), pieces);
    assert Collect(PieceThoughts(false), pieces) + [] == Collect(PieceThoughts(false), pieces);
  }

  lemma FailureShows(env: Env, pieces: seq<Piece>, calls: seq<ToolDelta>, end: Ending, thinkingEnabled: bool)
    ensures ShownTexts(pieces, end, false) == Collect(PieceTexts, pieces)
    ensures ShownThoughts(pieces, end, thinkingEnabled, false) == Collect(PieceThoughts(thinkingEnabled), pieces)
    ensures ShownItems(env, pieces, calls, end, thinkingEnabled, false) == ItemsOf(env, thinkingEnabled, pieces, calls)
  {
    hide Collect, ItemsOf, PieceTexts, PieceThoughts;
    assert Collect(PieceTexts, pieces) + [] == Collect(PieceTexts, pieces);
    assert Collect(PieceThoughts(thinkingEnabled), pieces) + [] == Collect(PieceThoughts(thinkingEnabled), pieces);
    assert ItemsOf(env, thinkingEnabled, pieces, calls) + [] == ItemsOf(env, thinkingEnabled, pieces, calls);
  }

  // ---- Reading events ----

  /** A client reads text, thinking and the start of tools off the events; arguments of native calls are read by their blocks. */
  lemma EventsAreRead(native: set<int>, d: int, said: string, block: ContentBlock)
    ensures ItemOf(native)(BlockDelta(Some(d), Some(DeltaBody(Some("text_delta"), said)))) == [Said(said)]
    ensures ItemOf(native)(BlockDelta(Some(d), Some(DeltaBody(Some("thinking_delta"), said)))) == [Thought(said)]
    ensures var arguments := BlockDelta(Some(d), Some(DeltaBody(Some("input_json_delta"), said)));
            && ItemOf(native)(arguments) == (if d in native then [] else [ToolArgs(said)])
            && ArgDeltas([arguments], d) == [said] && ArgDeltas([arguments], d + 1) == []
    ensures var start := BlockStart(Some(d), Some(block));
            && ItemOf(native)(start) == (if block.kind == Some("tool_use") then [ToolShown(block)] else [])
            && Collect(StartOf(d), [start]) == [block] && Collect(StartOf(d + 1), [start]) == []
  {
    var arguments := BlockDelta(Some(d), Some(DeltaBody(Some("input_json_delta"), said)));
    var start := BlockStart(Some(d), Some(block));
    ArgDeltasSnoc([], arguments, d);
    ArgDeltasSnoc([], arguments, d + 1);
    assert [] + [arguments] == [arguments];
    CollectTwo(StartOf(d), start, start);
    CollectTwo(StartOf(d + 1), start, start);
  }

  /** A tool found in text is shown with its own id and name and then its input as a whole, a Task's without background run. */
  lemma FoundToolShows(env: Env, id: string, name: string, fields: map<string, string>)
    ensures ToolItems(env)(HeuristicTool(id, name, Object(fields)))
         == [ToolShown(ContentBlock(Some("tool_use"), "", Some(id), Some(name), Some("{}"))),
             ToolArgs(env.dumps(Object(if name == "Task" then fields["run_in_background" := "false"] else fields)))]
  {
    var tool := HeuristicTool(id, name, Object(fields));
    var input := if tool.name == "Task" then Normalize(tool.input) else tool.input;
    assert input == Object(if name == "Task" then fields["run_in_background" := "false"] else fields);
    assert ToolItems(env)(tool)[1] == ToolArgs(env.dumps(input));
  }
}
