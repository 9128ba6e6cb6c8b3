/** Which event each segment of the transcript is for. */
module TranscriptShown {
  import opened Basics
  import opened TranscriptBuffer
  import opened TranscriptMeaning

  function ToolName(event: Event): string
    requires IsCall(event)
  {
    if event.name == "" then "tool" else event.name
  }

  /** A tool call that opens no Task. */
  predicate CallsTool(event: Event) {
    IsCall(event) && event.name != "Task"
  }

  function FirstOf(texts: seq<string>): string {
    if texts == [] then "Subagent" else if Strip(texts[0]) != "" then Strip(texts[0]) else FirstOf(texts[1..])
  }

  /** A Task's heading: its description, its subagent type or its type, the first that says something. */
  function HeadingOf(input: Option<TaskInput>): string {
    if input.None? then "Subagent" else FirstOf([input.value.description, input.value.subagentType, input.value.kind])
  }

  /** The tool calls made while the Task opened at `n` is the innermost one running: ids and names. */
  function CallsInside(events: seq<Event>, n: nat): seq<(string, string)> {
    if events == [] then []
    else
      var before, last := events[..|events| - 1], events[|events| - 1];
      CallsInside(before, n)
      + if CallsTool(last) && Running(before) != [] && Running(before)[|Running(before)| - 1] == n
        then [(Strip(last.id), ToolName(last))] else []
  }

  /** The segment an event is shown as. A subagent shows how many calls it made, with which tools, and the last of them. */
  ghost predicate Shows(before: seq<Event>, e: Event, calls: seq<(string, string)>, segment: Segment, showToolResults: bool) {
    match segment
    case SubagentSegment(description, toolCalls, toolsUsed, currentTool) =>
      && OpensTask(e) && description == HeadingOf(e.input) && toolCalls == |calls|
      && (forall name :: name in toolsUsed <==> exists k :: 0 <= k < |calls| && calls[k].1 == name)
      && currentTool == if calls == [] then None else Some(calls[|calls| - 1])
    case ToolCallSegment(id, name) =>
      CallsTool(e) && Running(before) == [] && id == Strip(e.id) && name == ToolName(e)
    case ToolResultSegment(id, content, toolName, isError) =>
      && e.ToolResult? && showToolResults && id == Strip(e.id) && content == e.content && isError == e.isError
      && toolName == NameGiven(before, Strip(e.id))
    case ErrorSegment(message) => e.ErrorEvent? && message == if e.message == "" then "Unknown error" else e.message
    case TextSegment(index, _) => Running(before) == [] && (e.TextStart? || e.TextDelta?) && index == e.index
    case ThinkingSegment(index, _) => Running(before) == [] && (e.ThinkingStart? || e.ThinkingDelta?) && index == e.index
  }

  /** Events that are always shown as a segment of their own. */
  predicate OwnSegment(before: seq<Event>, e: Event, showToolResults: bool) {
    || OpensTask(e) || e.ErrorEvent? || (e.ToolResult? && showToolResults)
    || (Running(before) == [] && (CallsTool(e) || e.TextStart? || e.ThinkingStart?))
  }

  /** `places` are the events the segments are for: in order, each shown as its segment, none missing. */
  ghost predicate Explained(events: seq<Event>, segments: seq<Segment>, places: seq<nat>, showToolResults: bool) {
    && (forall j, k | 0 <= j < k < |places| :: places[j] < places[k])
    && AllShown(events, segments, places, showToolResults) && NoneMissing(events, places, showToolResults)
  }

  ghost predicate AllShown(events: seq<Event>, segments: seq<Segment>, places: seq<nat>, showToolResults: bool) {
    && |places| == |segments|
    && forall k | 0 <= k < |places| :: ShowsPlace(events, places[k], segments[k], showToolResults)
  }

  ghost predicate ShowsPlace(events: seq<Event>, p: nat, segment: Segment, showToolResults: bool) {
    p < |events| && Shows(events[..p], events[p], CallsInside(events, p), segment, showToolResults)
  }

  ghost predicate NoneMissing(events: seq<Event>, places: seq<nat>, showToolResults: bool) {
    forall p | OwnAt(events, p, showToolResults) :: p in places
  }

  predicate OwnAt(events: seq<Event>, p: int, showToolResults: bool) {
    0 <= p < |events| && OwnSegment(events[..p], events[p], showToolResults)
  }

  /** The subagent segments waited for are those of the running Tasks. */
  ghost predicate PointsAt(subagents: seq<nat>, places: seq<nat>, running: seq<nat>) {
    && |subagents| == |running|
    && forall j | 0 <= j < |subagents| :: subagents[j] < |places| && places[subagents[j]] == running[j]
  }

  lemma HeadingIs(input: Option<TaskInput>)
    ensures Heading(input) == HeadingOf(input)
  {
    if input.Some? {
      hide Strip;
      var last := [input.value.kind];
      var two := [input.value.subagentType] + last;
      var texts := [input.value.description] + two;
      assert last[1..] == [] && two[1..] == last && texts[1..] == two;
      assert FirstOf([]) == "Subagent";
      assert FirstOf(last) == if Strip(input.value.kind) != "" then Strip(input.value.kind) else "Subagent";
      assert FirstOf(two) == if Strip(input.value.subagentType) != "" then Strip(input.value.subagentType) else FirstOf(last);
      assert texts == [input.value.description, input.value.subagentType, input.value.kind];
    }
  }

  lemma CallsSnoc(before: seq<Event>, e: Event, n: nat)
    ensures CallsInside(before + [e], n)
         == CallsInside(before, n)
            + if CallsTool(e) && Running(before) != [] && Running(before)[|Running(before)| - 1] == n
              then [(Strip(e.id), ToolName(e))] else []
  {
    assert (before + [e])[..|before|] == before;
  }

  /** No call is made inside a Task that has not been opened. */
  lemma {:induction false} NoCallsYet(events: seq<Event>, n: nat)
    requires n >= |events|
    ensures CallsInside(events, n) == []
  {
    hide Strip;
    if events != [] { NoCallsYet(events[..|events| - 1], n); }
  }

  /** What an event that is no call inside a Task leaves as it was. */
  lemma StillShown(before: seq<Event>, e: Event, p: nat, segment: Segment, showToolResults: bool)
    requires ShowsPlace(before, p, segment, showToolResults)
    requires !(CallsTool(e) && Running(before) != [] && Running(before)[|Running(before)| - 1] == p)
    ensures ShowsPlace(before + [e], p, segment, showToolResults)
  {
    hide Shows, Running;
    CallsSnoc(before, e, p);
    assert (before + [e])[..p] == before[..p] && CallsInside(before, p) + [] == CallsInside(before, p);
  }

  ghost predicate SameShape(a: Segment, b: Segment) {
    || a == b
    || (a.TextSegment? && b.TextSegment? && a.index == b.index)
    || (a.ThinkingSegment? && b.ThinkingSegment? && a.index == b.index)
  }

  lemma ShapeShows(events: seq<Event>, p: nat, a: Segment, b: Segment, showToolResults: bool)
    requires ShowsPlace(events, p, a, showToolResults) && SameShape(a, b)
    ensures ShowsPlace(events, p, b, showToolResults)
  {
    hide Running, NameGiven, HeadingOf, CallsInside, Strip;
  }

  lemma NothingMissed(before: seq<Event>, e: Event, places: seq<nat>, places': seq<nat>, showToolResults: bool)
    requires NoneMissing(before, places, showToolResults) && places <= places'
    requires OwnSegment(before, e, showToolResults) ==> places' == places + [|before|]
    ensures NoneMissing(before + [e], places', showToolResults)
  {
    hide OwnSegment;
    var events := before + [e];
    assert events[..|before|] == before;
    forall p | OwnAt(events, p, showToolResults) ensures p in places' {
      if p < |before| { assert events[..p] == before[..p] && OwnAt(before, p, showToolResults); }
    }
  }

  lemma AllStillShown(before: seq<Event>, e: Event, segments: seq<Segment>, segments': seq<Segment>, places: seq<nat>,
                      showToolResults: bool)
    requires AllShown(before, segments, places, showToolResults) && !(CallsTool(e) && Running(before) != [])
    requires |segments'| == |segments| && forall k | 0 <= k < |segments| :: SameShape(segments[k], segments'[k])
    ensures AllShown(before + [e], segments', places, showToolResults)
  {
    hide ShowsPlace, Running, SameShape;
    forall k | 0 <= k < |places| ensures ShowsPlace(before + [e], places[k], segments'[k], showToolResults) {
      StillShown(before, e, places[k], segments[k], showToolResults);
      ShapeShows(before + [e], places[k], segments[k], segments'[k], showToolResults);
    }
  }

  /** The segments after an event that makes none and is no call inside a Task. */
  lemma KeepsExplained(before: seq<Event>, e: Event, segments: seq<Segment>, segments': seq<Segment>, places: seq<nat>,
                       showToolResults: bool)
    requires Explained(before, segments, places, showToolResults) && !OwnSegment(before, e, showToolResults)
    requires !(CallsTool(e) && Running(before) != [])
    requires |segments'| == |segments| && forall k | 0 <= k < |segments| :: SameShape(segments[k], segments'[k])
    ensures Explained(before + [e], segments', places, showToolResults)
  {
    hide ShowsPlace, NoneMissing, AllShown, OwnSegment, Running, SameShape;
    AllStillShown(before, e, segments, segments', places, showToolResults);
    NothingMissed(before, e, places, places, showToolResults);
  }

  lemma NewIsShown(before: seq<Event>, e: Event, segment: Segment, showToolResults: bool)
    requires Shows(before, e, [], segment, showToolResults) && !(CallsTool(e) && Running(before) != [])
    ensures ShowsPlace(before + [e], |before|, segment, showToolResults)
  {
    hide Shows, Running, CallsTool;
    var events := before + [e];
    assert events[..|before|] == before;
    NoCallsYet(before, |before|);
    CallsSnoc(before, e, |before|);
    assert [] + [] == CallsInside(events, |before|);
  }

  /** The segments after an event that makes one. */
  lemma AddsExplained(before: seq<Event>, e: Event, segments: seq<Segment>, segment: Segment, places: seq<nat>,
                      showToolResults: bool)
    requires Explained(before, segments, places, showToolResults) && !(CallsTool(e) && Running(before) != [])
    requires Shows(before, e, [], segment, showToolResults)
    ensures Explained(before + [e], segments + [segment], places + [|before|], showToolResults)
  {
    hide Shows, ShowsPlace, NoneMissing, OwnSegment, Running, CallsTool, AllShown;
    AllStillShown(before, e, segments, segments, places, showToolResults);
    NewIsShown(before, e, segment, showToolResults);
    PlacesAreEvents(before, segments, places, showToolResults);
    OneMoreShown(before + [e], segments, segment, places, |before|, showToolResults);
    NothingMissed(before, e, places, places + [|before|], showToolResults);
  }

  lemma OneMoreShown(events: seq<Event>, segments: seq<Segment>, segment: Segment, places: seq<nat>, p: nat,
                     showToolResults: bool)
    requires AllShown(events, segments, places, showToolResults) && ShowsPlace(events, p, segment, showToolResults)
    ensures AllShown(events, segments + [segment], places + [p], showToolResults)
  {
    hide ShowsPlace;
  }

  lemma PlacesAreEvents(events: seq<Event>, segments: seq<Segment>, places: seq<nat>, showToolResults: bool)
    requires Explained(events, segments, places, showToolResults)
    ensures forall k | 0 <= k < |places| :: places[k] < |events|
  {
    hide Shows, NoneMissing, CallsInside;
    forall k | 0 <= k < |places| ensures places[k] < |events| {
      assert ShowsPlace(events, places[k], segments[k], showToolResults);
    }
  }

  /** The segments after a call inside a Task. */
  lemma CountsExplained(before: seq<Event>, e: Event, segments: seq<Segment>, at: nat, places: seq<nat>, showToolResults: bool)
    requires Explained(before, segments, places, showToolResults) && CallsTool(e) && Running(before) != []
    requires at < |segments| && places[at] == Running(before)[|Running(before)| - 1] && segments[at].SubagentSegment?
    ensures Explained(before + [e], segments[at := CallInSubagent(segments[at], Strip(e.id), ToolName(e))], places,
                      showToolResults)
  {
    InsideCallsHaveNoSegment(before, e, showToolResults);
    hide Running, Strip, OwnSegment, ShowsPlace, NoneMissing, CallInSubagent;
    var segments' := segments[at := CallInSubagent(segments[at], Strip(e.id), ToolName(e))];
    forall k | 0 <= k < |places| ensures ShowsPlace(before + [e], places[k], segments'[k], showToolResults) {
      if k == at {
        assert ShowsPlace(before, places[at], segments[at], showToolResults);
        OneMoreCall(before, e, places[at], segments[at], showToolResults);
      } else {
        assert places[k] != places[at];
        StillShown(before, e, places[k], segments[k], showToolResults);
      }
    }
    NothingMissed(before, e, places, places, showToolResults);
  }

  lemma OneMoreCall(before: seq<Event>, e: Event, p: nat, segment: Segment, showToolResults: bool)
    requires ShowsPlace(before, p, segment, showToolResults) && segment.SubagentSegment? && CallsTool(e)
    requires Running(before) != [] && Running(before)[|Running(before)| - 1] == p
    ensures ShowsPlace(before + [e], p, CallInSubagent(segment, Strip(e.id), ToolName(e)), showToolResults)
  {
    hide Shows, Running, Strip, CallInSubagent;
    CallsSnoc(before, e, p);
    assert (before + [e])[..p] == before[..p];
    ShowsOneMore(before[..p], before[p], CallsInside(before, p), segment, Strip(e.id), ToolName(e), showToolResults);
  }

  lemma InsideCallsHaveNoSegment(before: seq<Event>, e: Event, showToolResults: bool)
    requires CallsTool(e) && Running(before) != []
    ensures !OwnSegment(before, e, showToolResults)
  {}

  lemma ShowsOneMore(before: seq<Event>, e: Event, calls: seq<(string, string)>, segment: Segment, id: string, name: string,
                     showToolResults: bool)
    requires Shows(before, e, calls, segment, showToolResults) && segment.SubagentSegment?
    ensures Shows(before, e, calls + [(id, name)], CallInSubagent(segment, id, name), showToolResults)
  {
    hide HeadingOf, Running, NameGiven;
    var all, used := calls + [(id, name)], segment.toolsUsed + {name};
    forall x ensures x in used <==> exists k :: 0 <= k < |all| && all[k].1 == x {
      if x in segment.toolsUsed {
        var k :| 0 <= k < |calls| && calls[k].1 == x;
        assert all[k].1 == x;
      }
      if x == name { assert all[|calls|].1 == x; }
    }
  }

  // ---- One event ----

  /** What one event does to the segments and the subagents waited for. */
  ghost predicate SegmentsStep(s: State, s': State, before: seq<Event>, e: Event, showToolResults: bool) {
    if OpensTask(e) then
      AddsOne(s.segments, s'.segments, before, e, showToolResults) && s'.subagents == s.subagents + [|s.segments|]
    else if CallsTool(e) && s.stack != [] then
      && s.subagents != [] && s.subagents[|s.subagents| - 1] < |s.segments|
      && var at := s.subagents[|s.subagents| - 1];
         s'.segments == s.segments[at := CallInSubagent(s.segments[at], Strip(e.id), ToolName(e))] && s'.subagents == s.subagents
    else
      && |s'.stack| <= |s.subagents|
      && (s'.subagents == if e.ToolResult? then s.subagents[..|s'.stack|] else s.subagents)
      && (AddsOne(s.segments, s'.segments, before, e, showToolResults)
          || (!OwnSegment(before, e, showToolResults) && SameShapes(s.segments, s'.segments)))
  }

  ghost predicate AddsOne(segments: seq<Segment>, segments': seq<Segment>, before: seq<Event>, e: Event, showToolResults: bool) {
    && |segments'| == |segments| + 1 && segments'[..|segments|] == segments
    && Shows(before, e, [], segments'[|segments|], showToolResults)
  }

  ghost predicate SameShapes(segments: seq<Segment>, segments': seq<Segment>) {
    |segments'| == |segments| && forall k | 0 <= k < |segments| :: SameShape(segments[k], segments'[k])
  }

  lemma CallSegments(s: State, id: string, name: string, input: Option<TaskInput>)
    requires Parallel(s)
    ensures var s', tool := CallTool(s, id, name, input), if name == "" then "tool" else name;
            if name == "Task" then
              && s'.segments == s.segments + [SubagentSegment(Heading(input), 0, {}, None)]
              && s'.subagents == s.subagents + [|s.segments|]
            else if s.stack == [] then
              s'.segments == s.segments + [ToolCallSegment(Strip(id), tool)] && s'.subagents == s.subagents
            else
              && s.subagents != [] && s.subagents[|s.subagents| - 1] < |s.segments|
              && var at := s.subagents[|s.subagents| - 1];
                 s'.segments == s.segments[at := CallInSubagent(s.segments[at], Strip(id), tool)] && s'.subagents == s.subagents
  {
    hide Strip, Heading, StackId, CallInSubagent;
  }

  lemma CallStep(s: State, before: seq<Event>, e: Event, showToolResults: bool)
    requires Parallel(s) && IsCall(e) && (s.stack == [] <==> Running(before) == [])
    ensures SegmentsStep(s, Step(s, e, showToolResults), before, e, showToolResults)
  {
    hide Strip, CallTool, CallInSubagent, Running, Heading, HeadingOf, StopIfIndexed, Step;
    HeadingIs(e.input);
    var was := if e.ToolUseStart? then StopIfIndexed(s, e.index) else s;
    if e.ToolUseStart? {
      StopDoes(s, e.index);
      StopIsParallel(s, e.index);
    }
    CallIs(s, e, showToolResults);
    CallSegments(was, e.id, e.name, e.input);
    CallDoes(was, e.id, e.name, e.input);
  }

  lemma CallIs(s: State, e: Event, showToolResults: bool)
    requires IsCall(e)
    ensures var was := if e.ToolUseStart? then StopIfIndexed(s, e.index) else s;
            var now, called := Step(s, e, showToolResults), CallTool(was, e.id, e.name, e.input);
            now.segments == called.segments && now.stack == called.stack && now.subagents == called.subagents
  {
    hide Strip, CallTool, StopIfIndexed;
  }

  lemma StopIsParallel(s: State, index: int)
    requires Parallel(s)
    ensures Parallel(StopIfIndexed(s, index))
  {}

  lemma ResultStep(s: State, before: seq<Event>, e: Event, showToolResults: bool)
    requires Parallel(s) && e.ToolResult? && NameOf(s, e.id) == NameGiven(before, Strip(e.id))
    ensures SegmentsStep(s, Step(s, e, showToolResults), before, e, showToolResults)
  {
    hide Strip, CloseSubagents, Running, NameOf, NameGiven, Left, Step;
    ResultLeaves(s, e.id);
    ResultIs(s, e, showToolResults);
    assert |s.stack[..Left(s.stack, Strip(e.id), NameOf(s, e.id))]| == Left(s.stack, Strip(e.id), NameOf(s, e.id));
  }

  lemma ResultIs(s: State, e: Event, showToolResults: bool)
    requires e.ToolResult?
    ensures var closed := CloseSubagents(s, e.id);
            Step(s, e, showToolResults)
            == if showToolResults then
                 closed.(segments := closed.segments + [ToolResultSegment(Strip(e.id), e.content, NameOf(s, e.id), e.isError)])
               else closed
  {
    hide Strip, CloseSubagents, NameOf;
  }

  lemma OtherStep(s: State, before: seq<Event>, e: Event, showToolResults: bool)
    requires !IsCall(e) && !e.ToolResult? && (s.stack == [] <==> Running(before) == []) && Parallel(s)
    ensures SegmentsStep(s, Step(s, e, showToolResults), before, e, showToolResults)
  {
    OtherStacks(s, e, showToolResults);
    hide Parallel, Running, SayAt, Step, AddsOne, SameShapes, OwnSegment;
    if s.stack == [] && Inner(e) {
      InnerSegments(s, before, e, showToolResults);
    } else {
      OuterSegments(s, before, e, showToolResults);
    }
  }

  lemma OtherStacks(s: State, e: Event, showToolResults: bool)
    requires !IsCall(e) && !e.ToolResult?
    ensures Step(s, e, showToolResults).stack == s.stack && Step(s, e, showToolResults).subagents == s.subagents
  {
    hide Strip, StopIfIndexed, SayAt;
    if e.ThinkingStart? || e.TextStart? { StopDoes(s, e.index); }
  }

  lemma InnerSegments(s: State, before: seq<Event>, e: Event, showToolResults: bool)
    requires Inner(e) && s.stack == [] && Running(before) == []
    ensures var now := Step(s, e, showToolResults).segments;
            AddsOne(s.segments, now, before, e, showToolResults)
            || (!OwnSegment(before, e, showToolResults) && SameShapes(s.segments, now))
  {
    hide Strip, StopIfIndexed, Running, NameGiven, HeadingOf, SayAt;
    if e.ThinkingStart? || e.TextStart? { StopDoes(s, e.index); }
    if e.ThinkingDelta? && e.index in s.openThinking { SaysInShape(s.segments, s.openThinking[e.index], e.text); }
    if e.TextDelta? && e.index in s.openText { SaysInShape(s.segments, s.openText[e.index], e.text); }
  }

  lemma OuterSegments(s: State, before: seq<Event>, e: Event, showToolResults: bool)
    requires !IsCall(e) && !e.ToolResult? && (s.stack == [] <==> Running(before) == []) && !(s.stack == [] && Inner(e))
    ensures var now := Step(s, e, showToolResults).segments;
            AddsOne(s.segments, now, before, e, showToolResults)
            || (!OwnSegment(before, e, showToolResults) && SameShapes(s.segments, now))
  {
    hide Strip, Running, NameGiven, HeadingOf, SayAt;
  }

  lemma SaysInShape(segments: seq<Segment>, at: nat, more: string)
    ensures SameShapes(segments, SayAt(segments, at, more))
  {}

  // ---- Every run ----

  /** Every segment is for one event, in the order of the events: each Task with the calls made inside it, each other call made
      outside, each result (where results are shown) with the name of its tool, each error, and text and thinking that come
      while no Task runs. None of those is missing. */
  lemma {:induction false} TranscriptShowsEvents(events: seq<Event>, showToolResults: bool) returns (places: seq<nat>)
    ensures Explained(events, Run(events, showToolResults).segments, places, showToolResults)
    ensures PointsAt(Run(events, showToolResults).subagents, places, Running(events))
  {
    hide Run, Step, Running, Explained, IdsOf, NameOf, NameGiven, SegmentsStep, OpenIsLatest, PointsAt, Parallel;
    if events == [] {
      places := [];
      NothingShown(showToolResults);
    } else {
      var before, e := events[..|events| - 1], events[|events| - 1];
      places := TranscriptShowsEvents(before, showToolResults);
      assert before + [e] == events;
      RunUnfolds(events, showToolResults);
      RunningIsStack(before, showToolResults);
      RunningIsStack(events, showToolResults);
      TranscriptIsConsistent(before, showToolResults);
      NameIsGiven(before, showToolResults, if e.ToolResult? then e.id else "");
      var s, s' := Run(before, showToolResults), Run(events, showToolResults);
      if IsCall(e) {
        CallStep(s, before, e, showToolResults);
      } else if e.ToolResult? {
        ResultStep(s, before, e, showToolResults);
      } else {
        OtherStep(s, before, e, showToolResults);
      }
      places := NextPlaces(s, s', before, e, places, showToolResults);
    }
  }

  lemma NothingShown(showToolResults: bool)
    ensures Explained([], Run([], showToolResults).segments, [], showToolResults)
    ensures PointsAt(Run([], showToolResults).subagents, [], Running([]))
  {}

  lemma NextPlaces(s: State, s': State, before: seq<Event>, e: Event, places: seq<nat>, showToolResults: bool)
    returns (places': seq<nat>)
    requires Parallel(s) && SegmentsStep(s, s', before, e, showToolResults)
    requires Explained(before, s.segments, places, showToolResults) && PointsAt(s.subagents, places, Running(before))
    requires |s.stack| == |Running(before)| && |s'.stack| == |Running(before + [e])|
    ensures Explained(before + [e], s'.segments, places', showToolResults)
    ensures PointsAt(s'.subagents, places', Running(before + [e]))
  {
    hide Running, NameGiven, Strip, Explained, PointsAt, Left, IdsOf, SegmentsStep, Parallel, AreTasks;
    RunningNext(before, e);
    if OpensTask(e) {
      places' := places + [|before|];
      TaskStep(s, s', before, e, showToolResults);
      TaskPlaces(s.segments, s'.segments, s.subagents, before, e, places, Running(before), showToolResults);
    } else if CallsTool(e) && s.stack != [] {
      places' := places;
      CountPlaces(s, s', before, e, places, showToolResults);
    } else {
      places' := OtherPlaces(s, s', before, e, places, showToolResults);
      var running := Running(before);
      assert running[..|running|] == running && s.subagents[..|s.subagents|] == s.subagents;
      PointsAtStill(s.subagents, places, running, places', |s'.stack|);
    }
  }

  lemma TaskPlaces(segments: seq<Segment>, segments': seq<Segment>, subagents: seq<nat>, before: seq<Event>, e: Event,
                   places: seq<nat>, running: seq<nat>, showToolResults: bool)
    requires AddsOne(segments, segments', before, e, showToolResults) && OpensTask(e)
    requires Explained(before, segments, places, showToolResults) && PointsAt(subagents, places, running)
    ensures Explained(before + [e], segments', places + [|before|], showToolResults)
    ensures PointsAt(subagents + [|segments|], places + [|before|], running + [|before|])
  {
    hide Running, Shows, OwnSegment, Explained, PointsAt;
    AddsExplained(before, e, segments, segments'[|segments|], places, showToolResults);
    assert segments' == segments + [segments'[|segments|]];
    PointsAtNew(subagents, places, running, |before|);
    AsManyPlaces(before, segments, places, showToolResults);
  }

  lemma TaskStep(s: State, s': State, before: seq<Event>, e: Event, showToolResults: bool)
    requires SegmentsStep(s, s', before, e, showToolResults) && OpensTask(e)
    ensures AddsOne(s.segments, s'.segments, before, e, showToolResults) && s'.subagents == s.subagents + [|s.segments|]
  {}

  lemma CountPlaces(s: State, s': State, before: seq<Event>, e: Event, places: seq<nat>, showToolResults: bool)
    requires Parallel(s) && SegmentsStep(s, s', before, e, showToolResults) && CallsTool(e) && s.stack != []
    requires Explained(before, s.segments, places, showToolResults) && PointsAt(s.subagents, places, Running(before))
    ensures Explained(before + [e], s'.segments, places, showToolResults) && PointsAt(s'.subagents, places, Running(before))
  {
    hide Running, AddsOne, SameShapes, OwnSegment, Strip, Explained, PointsAt, CallInSubagent;
    PointsAtInnermost(s.subagents, places, Running(before));
    CountsExplained(before, e, s.segments, s.subagents[|s.subagents| - 1], places, showToolResults);
  }

  lemma OtherPlaces(s: State, s': State, before: seq<Event>, e: Event, places: seq<nat>, showToolResults: bool)
    returns (places': seq<nat>)
    requires SegmentsStep(s, s', before, e, showToolResults) && !OpensTask(e) && !(CallsTool(e) && s.stack != [])
    requires Explained(before, s.segments, places, showToolResults) && |s.stack| == |Running(before)|
    ensures Explained(before + [e], s'.segments, places', showToolResults) && places <= places' && |s'.stack| <= |s.subagents|
    ensures s'.subagents == if e.ToolResult? then s.subagents[..|s'.stack|] else s.subagents
  {
    hide Running, Shows, OwnSegment, NameGiven, Strip, Explained, SameShape;
    if |s'.segments| == |s.segments| + 1 {
      places' := places + [|before|];
      AddsExplained(before, e, s.segments, s'.segments[|s.segments|], places, showToolResults);
      assert s'.segments == s.segments + [s'.segments[|s.segments|]];
    } else {
      places' := places;
      KeepsExplained(before, e, s.segments, s'.segments, places, showToolResults);
    }
  }

  lemma AsManyPlaces(events: seq<Event>, segments: seq<Segment>, places: seq<nat>, showToolResults: bool)
    requires Explained(events, segments, places, showToolResults)
    ensures |places| == |segments|
  {}

  lemma PointsAtNew(subagents: seq<nat>, places: seq<nat>, running: seq<nat>, n: nat)
    requires PointsAt(subagents, places, running)
    ensures PointsAt(subagents + [|places|], places + [n], running + [n])
  {}

  lemma PointsAtInnermost(subagents: seq<nat>, places: seq<nat>, running: seq<nat>)
    requires PointsAt(subagents, places, running) && subagents != []
    ensures |running| == |subagents| && subagents[|subagents| - 1] < |places|
    ensures places[subagents[|subagents| - 1]] == running[|running| - 1]
  {}

  lemma PointsAtStill(subagents: seq<nat>, places: seq<nat>, running: seq<nat>, places': seq<nat>, n: nat)
    requires PointsAt(subagents, places, running) && places <= places' && n <= |subagents|
    ensures |running| == |subagents| && PointsAt(subagents[..n], places', running[..n])
  {}

  // ---- Where text and thinking go ----

  /** What is open at one stream index. */
  datatype Open = Open(tool: bool, thinking: bool, text: bool)

  predicate IsAbout(event: Event, index: int) {
    match event
    case ThinkingStart(i) => i == index
    case ThinkingDelta(i, _) => i == index
    case ThinkingStop(i) => i == index
    case TextStart(i) => i == index
    case TextDelta(i, _) => i == index
    case TextStop(i) => i == index
    case ToolUseStart(i, _, _, _) => i == index
    case ToolUseStop(i) => i == index
    case BlockStop(i) => i == index
    case _ => false
  }

  /** A stop that does not say of what ends one thing: a tool, if one is open, else thinking, else text. */
  function Ended(o: Open): Open {
    if o.tool then o.(tool := false) else if o.thinking then o.(thinking := false) else o.(text := false)
  }

  /** What is open at an index after the events. A start ends something first. */
  function OpenAfter(events: seq<Event>, index: nat): Open {
    if events == [] then Open(false, false, false)
    else
      var before, last := events[..|events| - 1], events[|events| - 1];
      var o := OpenAfter(before, index);
      if !IsAbout(last, index) || (Running(before) != [] && Inner(last)) then o
      else if last.TextStart? then Ended(o).(text := true)
      else if last.ThinkingStart? then Ended(o).(thinking := true)
      else if last.ToolUseStart? then if last.name == "Task" then Ended(o) else Ended(o).(tool := true)
      else if last.TextDelta? then o.(text := true)
      else if last.ThinkingDelta? then o.(thinking := true)
      else if last.TextStop? then o.(text := false)
      else if last.ThinkingStop? then o.(thinking := false)
      else if last.ToolUseStop? then o.(tool := false)
      else Ended(o)
  }

  function OpenIn(s: State, index: nat): Open {
    Open(index in s.openTools, index in s.openThinking, index in s.openText)
  }

  lemma CallOpens(s: State, id: string, name: string, input: Option<TaskInput>)
    ensures var s' := CallTool(s, id, name, input);
            s'.openTools == s.openTools && s'.openThinking == s.openThinking && s'.openText == s.openText
  {
    hide Strip, Heading, StackId, CallInSubagent;
  }

  lemma CloseOpens(s: State, id: string)
    ensures var s' := CloseSubagents(s, id);
            s'.openTools == s.openTools && s'.openThinking == s.openThinking && s'.openText == s.openText
  {
    hide Strip, CutAt, LooksLikeTask;
  }

  lemma StopEnds(s: State, i: int, index: nat)
    ensures OpenIn(StopBlock(s, i), index) == if i == index then Ended(OpenIn(s, index)) else OpenIn(s, index)
  {}

  lemma StepOpens(s: State, before: seq<Event>, e: Event, index: nat, showToolResults: bool)
    requires OpenIn(s, index) == OpenAfter(before, index) && (s.stack == [] <==> Running(before) == [])
    ensures OpenIn(Step(s, e, showToolResults), index) == OpenAfter(before + [e], index)
  {
    assert (before + [e])[..|before|] == before;
    hide Strip, CallTool, CloseSubagents, Running, StopBlock, SayAt, NameOf, Ended;
    if IsCall(e) {
      CallStepOpens(s, e, index, showToolResults);
    } else if e.ToolResult? {
      CloseOpens(s, e.id);
    } else if Inner(e) && s.stack == [] {
      InnerStepOpens(s, e, index, showToolResults);
      hide Step;
    } else if e.BlockStop? {
      StopEnds(s, e.index, index);
    }
  }

  lemma InnerStepOpens(s: State, e: Event, index: nat, showToolResults: bool)
    requires Inner(e) && s.stack == []
    ensures var o := OpenIn(s, index);
            OpenIn(Step(s, e, showToolResults), index)
            == if !IsAbout(e, index) then o
               else if e.TextStart? then Ended(o).(text := true)
               else if e.ThinkingStart? then Ended(o).(thinking := true)
               else if e.TextDelta? then o.(text := true)
               else o.(thinking := true)
  {
    hide StopBlock, SayAt, Ended;
    if e.TextStart? || e.ThinkingStart? { StopEnds(s, e.index, index); }
  }

  lemma CallStepOpens(s: State, e: Event, index: nat, showToolResults: bool)
    requires IsCall(e)
    ensures OpenIn(Step(s, e, showToolResults), index)
         == if !IsAbout(e, index) then OpenIn(s, index)
            else if e.name == "Task" then Ended(OpenIn(s, index)) else Ended(OpenIn(s, index)).(tool := true)
  {
    hide Strip, CallTool, StopBlock, Ended;
    if e.ToolUseStart? {
      CallOpens(StopIfIndexed(s, e.index), e.id, e.name, e.input);
      StopEnds(s, e.index, index);
    } else {
      CallOpens(s, e.id, e.name, e.input);
    }
  }

  lemma {:induction false} OpenIsOpen(events: seq<Event>, index: nat, showToolResults: bool)
    ensures OpenIn(Run(events, showToolResults), index) == OpenAfter(events, index)
  {
    hide Step, Running, IdsOf;
    if events != [] {
      var before, e := events[..|events| - 1], events[|events| - 1];
      assert before + [e] == events;
      OpenIsOpen(before, index, showToolResults);
      RunningIsStack(before, showToolResults);
      StepOpens(Run(before, showToolResults), before, e, index, showToolResults);
    }
  }

  /** While no Task runs, text goes on with the latest segment made for its index if that has not been stopped, and otherwise
      starts a new one. Thinking does the same. */
  lemma TextGoesOnIff(events: seq<Event>, index: int, text: string, thinking: bool, showToolResults: bool) returns (at: nat)
    requires Running(events) == []
    ensures var e := if thinking then ThinkingDelta(index, text) else TextDelta(index, text);
            var was := Run(events, showToolResults).segments;
            var now := Run(events + [e], showToolResults).segments;
            if index >= 0 && (if thinking then OpenAfter(events, index).thinking else OpenAfter(events, index).text) then
              && at < |was| && (if thinking then IsThinking(was[at], index) else IsText(was[at], index))
              && now == was[at := if thinking then ThinkingSegment(index, was[at].said + text)
                                  else TextSegment(index, was[at].said + text)]
              && forall q | at < q < |was| :: !(if thinking then IsThinking(was[q], index) else IsText(was[q], index))
            else now == was + [if thinking then ThinkingSegment(index, text) else TextSegment(index, text)]
  {
    hide Running, IdsOf, Run, Parallel, OpenIsLatest, Step, OpenAfter;
    var s, e := Run(events, showToolResults), if thinking then ThinkingDelta(index, text) else TextDelta(index, text);
    assert (events + [e])[..|events|] == events;
    RunUnfolds(events + [e], showToolResults);
    RunningIsStack(events, showToolResults);
    TranscriptIsConsistent(events, showToolResults);
    if index >= 0 { OpenIsOpen(events, index, showToolResults); }
    if thinking {
      at := ThinkingGoesOn(s, index, text, showToolResults);
    } else {
      at := SpeechGoesOn(s, index, text, showToolResults);
    }
  }

  lemma SpeechGoesOn(s: State, index: int, text: string, showToolResults: bool) returns (at: nat)
    requires OpenIsLatest(s) && s.stack == []
    ensures var was, now := s.segments, Step(s, TextDelta(index, text), showToolResults).segments;
            if index in s.openText then
              && index >= 0 && at < |was| && IsText(was[at], index) && now == was[at := TextSegment(index, was[at].said + text)]
              && forall q | at < q < |was| :: !IsText(was[q], index)
            else now == was + [TextSegment(index, text)]
  {
    at := if index in s.openText then s.openText[index] else 0;
  }

  lemma ThinkingGoesOn(s: State, index: int, text: string, showToolResults: bool) returns (at: nat)
    requires OpenIsLatest(s) && s.stack == []
    ensures var was, now := s.segments, Step(s, ThinkingDelta(index, text), showToolResults).segments;
            if index in s.openThinking then
              && index >= 0 && at < |was| && IsThinking(was[at], index)
              && now == was[at := ThinkingSegment(index, was[at].said + text)]
              && forall q | at < q < |was| :: !IsThinking(was[q], index)
            else now == was + [ThinkingSegment(index, text)]
  {
    at := if index in s.openThinking then s.openThinking[index] else 0;
  }
}
