/** What the transcript shows, said by the events: which Tasks are running, and which event each segment is for. */
module TranscriptMeaning {
  import opened Basics
  import opened TranscriptBuffer

  // ---- Running Tasks ----

  predicate IsCall(event: Event) {
    event.ToolUse? || event.ToolUseStart?
  }

  predicate OpensTask(event: Event) {
    IsCall(event) && event.name == "Task"
  }

  /** The name under which a tool id was last used. */
  function NameGiven(events: seq<Event>, id: string): Option<string> {
    if events == [] then None
    else
      var last := events[|events| - 1];
      if IsCall(last) && id != "" && Strip(last.id) == id then Some(if last.name == "" then "tool" else last.name)
      else NameGiven(events[..|events| - 1], id)
  }

  /** Some providers give a result's id with something before or after it. */
  predicate Related(a: string, b: string) {
    a != "" && b != "" && (a <= b || b <= a)
  }

  /** The last place with a related id, or -1. */
  function LastRelated(ids: seq<string>, x: string): (at: int)
    ensures -1 <= at < |ids| && (at >= 0 ==> Related(ids[at], x)) && forall k | at < k < |ids| :: !Related(ids[k], x)
  {
    if ids == [] then -1
    else
      var later := LastRelated(ids[1..], x);
      if later >= 0 then later + 1 else if Related(ids[0], x) then 0 else -1
  }

  predicate Letter(c: char, lower: char, upper: char) {
    c == lower || c == upper || (lower == 'k' && c == '\U{212a}')
  }

  /** "task", in any case, is part of the id. */
  predicate MentionsTask(id: string) {
    exists k | 0 <= k < |id| - 3 ::
      Letter(id[k], 't', 'T') && Letter(id[k + 1], 'a', 'A') && Letter(id[k + 2], 's', 'S') && Letter(id[k + 3], 'k', 'K')
  }

  /** How many Tasks are left when a result comes: those before the last one with a related id. When none has one, the last
      is ended too if it has no id of its own and the result has none either, or looks like a Task's. */
  function Left(ids: seq<string>, x: string, name: Option<string>): (n: nat)
    ensures n <= |ids|
  {
    var anonymous := ids != [] && "__task_" <= ids[|ids| - 1];
    if LastRelated(ids, x) >= 0 then LastRelated(ids, x)
    else if anonymous && (x == "" || (MentionsTask(x) && (name == None || name == Some("Task")))) then |ids| - 1
    else |ids|
  }

  /** Places of events that open Tasks. */
  predicate AreTasks(events: seq<Event>, places: seq<nat>) {
    forall k | 0 <= k < |places| :: places[k] < |events| && OpensTask(events[places[k]])
  }

  /** The events that opened the Tasks still running, outermost first. */
  function Running(events: seq<Event>): (places: seq<nat>)
    ensures AreTasks(events, places)
  {
    if events == [] then []
    else
      var before, last := events[..|events| - 1], events[|events| - 1];
      if OpensTask(last) then Running(before) + [|before|]
      else if last.ToolResult? then
        Running(before)[..Left(IdsOf(before, Running(before)), Strip(last.id), NameGiven(before, Strip(last.id)))]
      else Running(before)
  }

  /** The id a Task is known by; one without is known by its depth. */
  function KnownAs(event: Event, depth: nat): string
    requires OpensTask(event)
  {
    if Strip(event.id) != "" then Strip(event.id) else "__task_" + Decimal(depth)
  }

  function IdsOf(events: seq<Event>, places: seq<nat>): (ids: seq<string>)
    requires AreTasks(events, places)
    ensures |ids| == |places|
    ensures forall k | 0 <= k < |ids| :: ids[k] == KnownAs(events[places[k]], k + 1)
  {
    if places == [] then []
    else IdsOf(events, places[..|places| - 1]) + [KnownAs(events[places[|places| - 1]], |places|)]
  }

  lemma {:induction false} RelatedIsMatch(stack: seq<string>, id: string)
    requires Strip(id) != ""
    ensures CutAt(stack, id) == if LastRelated(stack, Strip(id)) >= 0 then Some(LastRelated(stack, Strip(id))) else None
  {
    hide Strip, LastRelated;
    assert forall k | 0 <= k < |stack| :: Related(stack[k], Strip(id)) == RoughlyMatch(stack[k], Strip(id));
  }

  lemma LettersOfTask(c: char)
    ensures Letter(c, 't', 'T') <==> LowerOf(c) == 't'
    ensures Letter(c, 'a', 'A') <==> LowerOf(c) == 'a'
    ensures Letter(c, 's', 'S') <==> LowerOf(c) == 's'
    ensures Letter(c, 'k', 'K') <==> LowerOf(c) == 'k'
  {}

  lemma MentionIsLook(id: string)
    ensures MentionsTask(id) <==> LooksLikeTask(id)
  {
    hide Letter, LowerOf;
    forall c { LettersOfTask(c); }
  }

  lemma CallDoes(s: State, id: string, name: string, input: Option<TaskInput>)
    ensures CallTool(s, id, name, input).toolNames
         == if Strip(id) != "" then s.toolNames[Strip(id) := if name == "" then "tool" else name] else s.toolNames
    ensures CallTool(s, id, name, input).stack == if name == "Task" then s.stack + [StackId(id, |s.stack|)] else s.stack
  {
    hide Strip, Heading, StackId, CallInSubagent;
  }

  lemma StopDoes(s: State, index: int)
    ensures var s' := StopIfIndexed(s, index);
            && s'.toolNames == s.toolNames && s'.stack == s.stack && s'.subagents == s.subagents && s'.segments == s.segments
  {}

  lemma ResultDoes(s: State, id: string)
    ensures CloseSubagents(s, id).toolNames == s.toolNames && CloseSubagents(s, id).segments == s.segments
  {
    hide Strip, CutAt, LooksLikeTask;
  }

  lemma StepNames(s: State, e: Event, showToolResults: bool)
    ensures Step(s, e, showToolResults).toolNames
         == if IsCall(e) && Strip(e.id) != "" then s.toolNames[Strip(e.id) := if e.name == "" then "tool" else e.name]
            else s.toolNames
  {
    hide Strip, CallTool, CloseSubagents, StopIfIndexed, SayAt, NameOf;
    if IsCall(e) {
      CallDoes(s, e.id, e.name, e.input);
      if e.ToolUseStart? {
        StopDoes(s, e.index);
        CallDoes(StopIfIndexed(s, e.index), e.id, e.name, e.input);
      }
    } else if e.ToolResult? {
      ResultDoes(s, e.id);
    } else if e.ThinkingStart? || e.TextStart? {
      StopDoes(s, e.index);
    }
  }

  lemma {:induction false} NamesAreGiven(events: seq<Event>, showToolResults: bool, id: string)
    requires id == Strip(id)
    ensures var names := Run(events, showToolResults).toolNames;
            (if id in names && id != "" then Some(names[id]) else None) == NameGiven(events, id)
    ensures "" !in Run(events, showToolResults).toolNames
  {
    hide Strip, Step;
    if events != [] {
      NamesAreGiven(events[..|events| - 1], showToolResults, id);
      StepNames(Run(events[..|events| - 1], showToolResults), events[|events| - 1], showToolResults);
    }
  }

  /** What a result leaves on the stacks. */
  lemma ResultLeaves(s: State, id: string)
    requires Parallel(s)
    ensures var n := Left(s.stack, Strip(id), NameOf(s, id));
            CloseSubagents(s, id) == s.(stack := s.stack[..n], subagents := s.subagents[..n])
  {
    MentionIsLook(Strip(id));
    hide Strip, LooksLikeTask, MentionsTask, NameOf;
    if Strip(id) != "" {
      RelatedIsMatch(s.stack, id);
    } else {
      assert LastRelated(s.stack, Strip(id)) == -1;
    }
    assert s.stack[..|s.stack|] == s.stack && s.subagents[..|s.subagents|] == s.subagents;
    StripOfNothing();
  }

  lemma StripOfNothing()
    ensures Strip("") == ""
  {}

  lemma {:induction false} IdsOfPrefix(events: seq<Event>, e: Event, places: seq<nat>, n: nat)
    requires AreTasks(events, places) && n <= |places|
    ensures AreTasks(events + [e], places[..n])
    ensures IdsOf(events + [e], places[..n]) == IdsOf(events, places)[..n]
  {
    forall k | 0 <= k < n ensures (events + [e])[places[..n][k]] == events[places[k]] {}
  }

  /** What an event does to the stack. */
  lemma StepStack(s: State, e: Event, showToolResults: bool)
    requires Parallel(s)
    ensures Step(s, e, showToolResults).stack
         == if OpensTask(e) then s.stack + [StackId(e.id, |s.stack|)]
            else if e.ToolResult? then s.stack[..Left(s.stack, Strip(e.id), NameOf(s, e.id))]
            else s.stack
  {
    hide Strip, CallTool, CloseSubagents, StopIfIndexed, StackId, SayAt, NameOf, Left;
    if IsCall(e) {
      CallDoes(s, e.id, e.name, e.input);
      if e.ToolUseStart? {
        StopDoes(s, e.index);
        CallDoes(StopIfIndexed(s, e.index), e.id, e.name, e.input);
      }
    } else if e.ToolResult? {
      ResultLeaves(s, e.id);
    } else if e.ThinkingStart? || e.TextStart? {
      StopDoes(s, e.index);
    }
  }

  lemma StripTwice(s: string)
    ensures Strip(Strip(s)) == Strip(s)
  {
    var before, after := StripTakesEnds(s);
    StripsNothing(Strip(s));
  }

  lemma StripsNothing(s: string)
    requires s != "" ==> !IsSpace(s[0]) && !IsSpace(s[|s| - 1])
    ensures Strip(s) == s
  {}

  lemma RunningNextIsStack(before: seq<Event>, e: Event, s: State, showToolResults: bool)
    requires Parallel(s) && s.stack == IdsOf(before, Running(before))
    requires e.ToolResult? ==> NameOf(s, e.id) == NameGiven(before, Strip(e.id))
    ensures Step(s, e, showToolResults).stack == IdsOf(before + [e], Running(before + [e]))
  {
    hide Step, Strip, NameGiven, Left, Parallel, Running, IdsOf, StackId, NameOf, KnownAs;
    var places := Running(before);
    StepStack(s, e, showToolResults);
    RunningNext(before, e);
    if e.ToolResult? {
      IdsOfPrefix(before, e, places, Left(s.stack, Strip(e.id), NameOf(s, e.id)));
    } else {
      IdsOfPrefix(before, e, places, |places|);
      assert places[..|places|] == places && s.stack[..|s.stack|] == s.stack;
      if OpensTask(e) {
        OneMoreTask(before + [e], places, |before|);
        OneMoreId(before + [e], places, |before|);
        KnownByStackId(e, |places|);
      }
    }
  }

  /** The stack holds exactly the running Tasks. */
  lemma {:induction false} RunningIsStack(events: seq<Event>, showToolResults: bool)
    ensures Run(events, showToolResults).stack == IdsOf(events, Running(events))
  {
    hide Run, Step, Strip, NameGiven, Parallel, OpenIsLatest, Running, IdsOf, NameOf;
    if events == [] {
      NothingRuns(showToolResults);
    } else {
      var before, e := events[..|events| - 1], events[|events| - 1];
      RunningIsStack(before, showToolResults);
      TranscriptIsConsistent(before, showToolResults);
      assert before + [e] == events;
      RunUnfolds(events, showToolResults);
      if e.ToolResult? { NameIsGiven(before, showToolResults, e.id); }
      RunningNextIsStack(before, e, Run(before, showToolResults), showToolResults);
    }
  }

  lemma NothingRuns(showToolResults: bool)
    ensures Run([], showToolResults).stack == IdsOf([], Running([])) == []
  {}

  lemma RunningNext(before: seq<Event>, e: Event)
    ensures Running(before + [e])
         == if OpensTask(e) then Running(before) + [|before|]
            else if e.ToolResult? then
              Running(before)[..Left(IdsOf(before, Running(before)), Strip(e.id), NameGiven(before, Strip(e.id)))]
            else Running(before)
  {
    assert (before + [e])[..|before|] == before;
  }

  lemma OneMoreTask(events: seq<Event>, places: seq<nat>, n: nat)
    requires AreTasks(events, places) && n < |events| && OpensTask(events[n])
    ensures AreTasks(events, places + [n])
  {
    hide OpensTask;
  }

  lemma OneMoreId(events: seq<Event>, places: seq<nat>, n: nat)
    requires AreTasks(events, places) && n < |events| && OpensTask(events[n]) && AreTasks(events, places + [n])
    ensures IdsOf(events, places + [n]) == IdsOf(events, places) + [KnownAs(events[n], |places| + 1)]
  {
    hide AreTasks, KnownAs, OpensTask;
    var all := places + [n];
    assert all[..|all| - 1] == places && all[|all| - 1] == n;
  }

  lemma KnownByStackId(e: Event, depth: nat)
    requires OpensTask(e)
    ensures KnownAs(e, depth + 1) == StackId(e.id, depth)
  {}

  lemma NameIsGiven(before: seq<Event>, showToolResults: bool, id: string)
    ensures NameOf(Run(before, showToolResults), id) == NameGiven(before, Strip(id))
  {
    hide Run, Strip, NameGiven;
    StripTwice(id);
    NamesAreGiven(before, showToolResults, Strip(id));
  }

  lemma RunUnfolds(events: seq<Event>, showToolResults: bool)
    requires events != []
    ensures Run(events, showToolResults)
         == Step(Run(events[..|events| - 1], showToolResults), events[|events| - 1], showToolResults)
  {}

  // ---- Text and thinking ----

  /** The deltas for an index that arrive while no Task runs. */
  function Heard(events: seq<Event>, thinking: bool, index: int): string {
    if events == [] then ""
    else
      var before, last := events[..|events| - 1], events[|events| - 1];
      Heard(before, thinking, index) + if Running(before) == [] then DeltaOf(last, thinking, index) else ""
  }

  /** For every stream index, the segments made for it say exactly the thinking, or the text, that arrived for it while
      no Task was running, in order. Nothing a subagent says gets in. */
  lemma {:induction false} TranscriptSaysWhatWasHeard(events: seq<Event>, showToolResults: bool, thinking: bool, index: int)
    ensures Collect(Said(thinking, index), Run(events, showToolResults).segments) == Heard(events, thinking, index)
  {
    hide Step, Running, IdsOf;
    if events != [] {
      var before, last := events[..|events| - 1], events[|events| - 1];
      TranscriptSaysWhatWasHeard(before, showToolResults, thinking, index);
      TranscriptIsConsistent(before, showToolResults);
      RunningIsStack(before, showToolResults);
      StepSays(Run(before, showToolResults), last, showToolResults, thinking, index);
    }
  }

  // ---- Tasks answered by their own ids ----

  /** A result with the id of the Task opened at `n` has come. */
  ghost predicate Answered(events: seq<Event>, n: nat)
    requires n < |events| && OpensTask(events[n])
  {
    exists m :: n < m < |events| && events[m].ToolResult? && Strip(events[m].id) == Strip(events[n].id)
  }

  ghost predicate Unanswered(events: seq<Event>, n: nat) {
    n < |events| && OpensTask(events[n]) && !Answered(events, n)
  }

  /** Tasks have ids, a result's id is that of the Task it answers or related to none still open, and no Task is answered
      before those opened after it. */
  ghost predicate OwnResults(events: seq<Event>) {
    && (forall n | 0 <= n < |events| && OpensTask(events[n]) ::
          Strip(events[n].id) != "" && !("__task_" <= Strip(events[n].id)))
    && (forall m, n | 0 <= n < m < |events| && events[m].ToolResult? && Unanswered(events[..m], n) ::
          if Strip(events[n].id) == Strip(events[m].id) then forall k | n < k < m :: !Unanswered(events[..m], k)
          else !Related(Strip(events[n].id), Strip(events[m].id)))
  }

  ghost predicate AreUnanswered(events: seq<Event>, places: seq<nat>) {
    && (forall n :: n in places <==> Unanswered(events, n))
    && (forall j, k | 0 <= j < k < |places| :: places[j] < places[k])
  }

  lemma UnansweredNext(before: seq<Event>, e: Event, n: nat)
    ensures Unanswered(before + [e], n)
       <==> (Unanswered(before, n) && !(e.ToolResult? && Strip(e.id) == Strip(before[n].id))) || (n == |before| && OpensTask(e))
  {
    hide Strip;
    var events := before + [e];
    if n < |before| && OpensTask(before[n]) {
      if Answered(before, n) {
        var m :| n < m < |before| && before[m].ToolResult? && Strip(before[m].id) == Strip(before[n].id);
        assert events[m] == before[m];
      }
      if e.ToolResult? && Strip(e.id) == Strip(before[n].id) { assert events[|before|] == e; }
    }
  }

  lemma OwnResultsBefore(before: seq<Event>, e: Event)
    requires OwnResults(before + [e])
    ensures OwnResults(before)
  {
    hide Strip, Related, Unanswered;
    var events := before + [e];
    assert forall m | 0 <= m < |before| :: before[m] == events[m] && before[..m] == events[..m];
  }

  /** Then exactly the unanswered Tasks run: thinking and text are left out between a Task and its result, and only there. */
  lemma {:induction false} RunningAreUnanswered(events: seq<Event>)
    requires OwnResults(events)
    ensures AreUnanswered(events, Running(events))
    ensures Running(events) == [] <==> forall n | 0 <= n < |events| && OpensTask(events[n]) :: Answered(events, n)
  {
    hide Strip, Left, NameGiven, OwnResults, Running, AreUnanswered, IdsOf, OpensTask;
    if events == [] {
      assert AreUnanswered(events, Running(events)) by { NoneUnanswered(); }
    } else {
      var before, e := events[..|events| - 1], events[|events| - 1];
      assert before + [e] == events;
      OwnResultsBefore(before, e);
      RunningAreUnanswered(before);
      RunningNext(before, e);
      if OpensTask(e) {
        OneMoreUnanswered(before, e, Running(before));
      } else if e.ToolResult? {
        AnsweredIsLast(before, e, Running(before));
      } else {
        SameUnanswered(before, e, Running(before));
      }
    }
    NoneLeft(events, Running(events));
  }

  lemma NoneUnanswered()
    ensures AreUnanswered([], Running([]))
  {}

  lemma NoneLeft(events: seq<Event>, places: seq<nat>)
    requires AreUnanswered(events, places)
    ensures places == [] <==> forall n | 0 <= n < |events| && OpensTask(events[n]) :: Answered(events, n)
  {
    hide Answered, OpensTask;
    if places == [] {
      forall n | 0 <= n < |events| && OpensTask(events[n]) ensures Answered(events, n) {
        assert !Unanswered(events, n);
      }
    } else {
      assert places[0] in places && Unanswered(events, places[0]);
    }
  }

  lemma OneMoreUnanswered(before: seq<Event>, e: Event, places: seq<nat>)
    requires AreUnanswered(before, places) && OpensTask(e)
    ensures AreUnanswered(before + [e], places + [|before|])
  {
    hide Strip, Answered;
    forall n: nat { UnansweredNext(before, e, n); }
    assert forall k | 0 <= k < |places| :: places[k] in places;
  }

  lemma SameUnanswered(before: seq<Event>, e: Event, places: seq<nat>)
    requires AreUnanswered(before, places) && !OpensTask(e) && !e.ToolResult?
    ensures AreUnanswered(before + [e], places)
  {
    hide Strip, Answered;
    forall n: nat { UnansweredNext(before, e, n); }
  }

  /** A result ends the Task it answers, which is the last, or none. */
  lemma AnsweredIsLast(before: seq<Event>, e: Event, places: seq<nat>)
    requires OwnResults(before + [e]) && e.ToolResult? && AreUnanswered(before, places)
    ensures AreTasks(before, places)
    ensures AreUnanswered(before + [e], places[..Left(IdsOf(before, places), Strip(e.id), NameGiven(before, Strip(e.id)))])
  {
    hide Strip, NameGiven, MentionsTask;
    var events, m, x := before + [e], |before|, Strip(e.id);
    assert events[..m] == before && events[m] == e;
    forall k | 0 <= k < |places| ensures Unanswered(before, places[k]) { assert places[k] in places; }
    var ids := IdsOf(before, places);
    forall k | 0 <= k < |places|
      ensures ids[k] == Strip(before[places[k]].id) && !("__task_" <= ids[k])
      ensures if ids[k] == x then k == |places| - 1 && Related(ids[k], x) else !Related(ids[k], x)
    {
      assert OpensTask(events[places[k]]) && events[places[k]] == before[places[k]];
      assert Unanswered(events[..m], places[k]);
      assert k < |places| - 1 ==> places[k] < places[k + 1] < m && Unanswered(events[..m], places[k + 1]);
    }
    hide Unanswered, OwnResults, Related, IdsOf, KnownAs;
    if |places| > 0 && ids[|places| - 1] == x {
      LastIsRemoved(before, e, places);
      assert Left(ids, x, NameGiven(before, x)) == |places| - 1;
    } else {
      NoneIsRemoved(before, e, places);
      assert places[..|places|] == places;
    }
  }

  lemma LastIsRemoved(before: seq<Event>, e: Event, places: seq<nat>)
    requires e.ToolResult? && AreUnanswered(before, places) && places != []
    requires AreTasks(before, places)
    requires forall k | 0 <= k < |places| && OpensTask(before[places[k]]) ::
               Strip(before[places[k]].id) == Strip(e.id) <==> k == |places| - 1
    ensures AreUnanswered(before + [e], places[..|places| - 1])
  {
    hide Strip, Answered;
    var left, last := places[..|places| - 1], places[|places| - 1];
    assert places == left + [last];
    forall n: nat ensures n in left <==> Unanswered(before + [e], n) {
      UnansweredNext(before, e, n);
      if n in places { var k :| 0 <= k < |places| && places[k] == n; }
    }
  }

  lemma NoneIsRemoved(before: seq<Event>, e: Event, places: seq<nat>)
    requires e.ToolResult? && AreUnanswered(before, places)
    requires AreTasks(before, places)
    requires forall k | 0 <= k < |places| && OpensTask(before[places[k]]) :: Strip(before[places[k]].id) != Strip(e.id)
    ensures AreUnanswered(before + [e], places)
  {
    hide Strip, Answered;
    forall n: nat ensures n in places <==> Unanswered(before + [e], n) {
      UnansweredNext(before, e, n);
      if n in places { var k :| 0 <= k < |places| && places[k] == n; }
    }
  }
}
