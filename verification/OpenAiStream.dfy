/** Turning an OpenAI-compatible stream into an Anthropic one (providers/openai_compat.py), for transports
    without argument aliases. An exception is a `false` in the out-parameter `ok`. */
module OpenAiStream {
  import opened Basics
  import opened StreamContract
  import opened OpenAiInput
  import opened SseBuilder

  // ---- What a tool call's state must be, given what arrived for it ----

  /** A started call that has handled the fragments `fs`: what it has sent is what they make, and unless they raise, what it
      keeps is what is still gathered. */
  ghost predicate Account(env: Env, st: ToolCallState, fs: seq<Fragment>) {
    && ContentsAre(env, fs, st.contents, false)
    && (!Raises(env, fs) ==> if NoneParses(env, fs) then st.taskArgBuffer == TaskText(fs) && !st.taskArgsEmitted
                             else st.taskArgBuffer == "" && st.taskArgsEmitted)
  }

  /** What a call's state is, given what arrived for it. */
  ghost predicate CallOk(env: Env, calls: seq<ToolDelta>, t: int, st: ToolCallState) {
    && st.name == NameOf(calls, t)
    && (st.started <==> !Blank(st.name))
    && if st.started then st.preStartArgs == "" && Account(env, st, Fragments(calls, t))
       else st.contents == [] && st.taskArgBuffer == "" && !st.taskArgsEmitted && st.preStartArgs == Received(calls, t)
  }

  /** `settled` is lost when Task arguments turn out not to be an object, which ends the stream. */
  ghost predicate CallsOk(env: Env, calls: seq<ToolDelta>, tools: map<int, ToolCallState>, settled: bool) {
    && tools.Keys == KeysAfter(calls)
    && (forall t | t in tools :: CallOk(env, calls, t, tools[t]))
    && (forall t | t !in tools :: NameOf(calls, t) == "" && Received(calls, t) == "")
    && (settled <==> !Raised(env, calls))
  }

  // ---- How a tool call's block is opened ----

  /** A call is opened when it first has a name: with its latest id, or a fresh one, and the name it has then. */
  function Opening(env: Env, calls: seq<ToolDelta>, t: int): Option<ContentBlock> {
    if calls == [] then None
    else
      var before, last := calls[..|calls| - 1], calls[|calls| - 1];
      var known := Opening(env, before, t);
      if known.Some? || IndexOf(before, last) != t || Blank(NameOf(calls, t)) then known
      else Some(ToolBlock(GivenId(env, IdOf(calls, t), t), Strip(NameOf(calls, t))))
  }

  function GivenId(env: Env, id: string, t: int): string {
    if id != "" then id else env.freshToolId(t)
  }

  /** The blocks of started calls were opened that way; the others still only collect their id. */
  ghost predicate OpenedOk(env: Env, calls: seq<ToolDelta>, tools: map<int, ToolCallState>, starts: map<int, ContentBlock>) {
    forall t :: OpeningOk(env, calls, t, Known(tools, t), StartOfCall(starts, t))
  }

  ghost predicate OpeningOk(env: Env, calls: seq<ToolDelta>, t: int, st: ToolCallState, start: Option<ContentBlock>) {
    if st.started then start.Some? && Opening(env, calls, t) == start
    else Opening(env, calls, t) == None && st.toolId == IdOf(calls, t)
  }

  lemma OpeningSnoc(env: Env, calls: seq<ToolDelta>, tc: ToolDelta, t: int)
    ensures Opening(env, calls + [tc], t)
         == var name := NameOf(calls + [tc], t);
            (if Opening(env, calls, t).Some? || IndexOf(calls, tc) != t || Blank(name) then Opening(env, calls, t)
             else Some(ToolBlock(GivenId(env, IdOf(calls + [tc], t), t), Strip(name))))
  {
    assert (calls + [tc])[..|calls|] == calls;
  }

  function StartOfCall(starts: map<int, ContentBlock>, t: int): Option<ContentBlock> {
    if t in starts then Some(starts[t]) else None
  }

  /** The call the delta is for is opened before, opened by it, or not yet; the others do not notice. */
  lemma OpenedByDelta(env: Env, calls: seq<ToolDelta>, tc: ToolDelta, tools: map<int, ToolCallState>,
                      starts: map<int, ContentBlock>, tools': map<int, ToolCallState>, starts': map<int, ContentBlock>)
    requires OpenedOk(env, calls, tools, starts)
    requires var i := IndexOf(calls, tc);
             && (tools' == tools || (i in tools' && tools' == tools[i := tools'[i]]))
             && (starts' == starts || (i in starts' && starts' == starts[i := starts'[i]]))
    requires var i := IndexOf(calls, tc);
             var st, st', start' := Known(tools, i), Known(tools', i), StartOfCall(starts', i);
             var named := Named(st, tc);
             && st.name == NameOf(calls, i)
             && if st.started then st'.started && start' == StartOfCall(starts, i)
                else if Blank(named.name) then !st'.started && st'.toolId == named.toolId
                else st'.started && start' == Some(ToolBlock(GivenId(env, named.toolId, i), Strip(named.name)))
    ensures OpenedOk(env, calls + [tc], tools', starts')
  {
    hide Opening, IdOf, NameOf, Strip, Blank, GivenId, ToolBlock;
    forall t ensures OpeningOk(env, calls + [tc], t, Known(tools', t), StartOfCall(starts', t)) {
      assert OpeningOk(env, calls, t, Known(tools, t), StartOfCall(starts, t));
      OpeningSnoc(env, calls, tc, t);
      CallsSnoc(calls, tc, t);
    }
  }

  lemma OtherCallOk(env: Env, calls: seq<ToolDelta>, tc: ToolDelta, t: int, st: ToolCallState)
    requires CallOk(env, calls, t, st) && IndexOf(calls, tc) != t
    ensures CallOk(env, calls + [tc], t, st)
  {
    CallsSnoc(calls, tc, t);
    FragmentsSnoc(calls, tc, t);
  }

  lemma CallsOkAfter(env: Env, calls: seq<ToolDelta>, tc: ToolDelta, tools: map<int, ToolCallState>,
                     tools': map<int, ToolCallState>, settled: bool)
    requires CallsOk(env, calls, tools, true)
    requires var i := IndexOf(calls, tc);
             if SaysSomething(tc)
             then i in tools' && tools' == tools[i := tools'[i]] && CallOk(env, calls + [tc], i, tools'[i])
             else tools' == tools && settled
    requires settled <==> !Raises(env, Fragments(calls + [tc], IndexOf(calls, tc)))
    ensures CallsOk(env, calls + [tc], tools', settled)
  {
    hide Raised, Raises, Fragments, CallOk, KeysAfter, NameOf, Received, NeverTask, OnlyTask, MergeName, Blank;
    RaisedBy(env, calls, tc);
    var i := IndexOf(calls, tc);
    CallsSnoc(calls, tc, i);
    assert tools'.Keys == KeysAfter(calls + [tc]);
    forall t | t in tools' ensures CallOk(env, calls + [tc], t, tools'[t]) {
      if t != i {
        OtherCallOk(env, calls, tc, t, tools[t]);
      } else if !SaysSomething(tc) {
        SilentCallOk(env, calls, tc, t, tools[t]);
      }
    }
    forall t | t !in tools' ensures NameOf(calls + [tc], t) == "" && Received(calls + [tc], t) == "" {
      CallsSnoc(calls, tc, t);
    }
  }

  lemma SilentCallOk(env: Env, calls: seq<ToolDelta>, tc: ToolDelta, t: int, st: ToolCallState)
    requires CallOk(env, calls, t, st) && !SaysSomething(tc)
    ensures CallOk(env, calls + [tc], t, st)
  {
    CallsSnoc(calls, tc, t);
    FragmentsSnoc(calls, tc, t);
    assert Received(calls, t) + "" == Received(calls, t);
    var fs := Fragments(calls, t);
    assert fs + [] == fs;
    if IndexOf(calls, tc) == t && Blank(NameOf(calls, t)) { NoNameNoFragments(calls, t); }
  }

  // ---- Native tool calls ----

  /** `buffer_task_args`. */
  method BufferTaskArgs(b: Builder, i: int, args: string, env: Env) returns (ok: bool, parsed: Option<Json>)
    requires b.Sound() && b.Ordered() && i in b.toolStates
    modifies b`toolOrder, b`toolStates
    ensures b.Sound() && b.Ordered()
    ensures var st := old(b.toolStates)[i];
            var json := env.loads(st.taskArgBuffer + args);
            if st.taskArgsEmitted then ok && parsed == None && b.toolStates == old(b.toolStates)
            else if json == None then
              ok && parsed == None && b.toolStates == old(b.toolStates)[i := st.(taskArgBuffer := st.taskArgBuffer + args)]
            else if json == Some(NonObject) then
              !ok && b.toolStates == old(b.toolStates)[i := st.(taskArgBuffer := st.taskArgBuffer + args)]
            else
              ok && parsed == Some(Normalize(json.value))
              && b.toolStates == old(b.toolStates)[i := st.(taskArgBuffer := "", taskArgsEmitted := true)]
  {
    hide Builder.Sound, Builder.Ordered;
    var st := b.toolStates[i];
    if st.taskArgsEmitted { return true, None; }
    st := st.(taskArgBuffer := st.taskArgBuffer + args);
    b.Remember(i, st);
    var json := env.loads(st.taskArgBuffer);
    if json.None? { return true, None; }
    if json.value.NonObject? { return false, None; }
    var normalized := Normalize(json.value);
    b.Remember(i, st.(taskArgBuffer := "", taskArgsEmitted := true));
    ok, parsed := true, Some(normalized);
  }

  /** Task arguments that parse, but not to an object, raise. */
  predicate Rejected(env: Env, st: ToolCallState, args: string) {
    args != "" && st.name == "Task" && !st.taskArgsEmitted && env.loads(st.taskArgBuffer + args) == Some(NonObject)
  }

  /** A started call after one argument fragment. */
  function Fed(env: Env, st: ToolCallState, args: string): (fed: ToolCallState)
    ensures fed.(contents := st.contents, taskArgBuffer := st.taskArgBuffer, taskArgsEmitted := st.taskArgsEmitted) == st
  {
    if args == "" then st
    else if st.name != "Task" then st.(contents := st.contents + [args])
    else if st.taskArgsEmitted then st
    else
      var json := env.loads(st.taskArgBuffer + args);
      if json.Some? && json.value.Object? then
        st.(contents := st.contents + [env.dumps(Normalize(json.value))], taskArgBuffer := "", taskArgsEmitted := true)
      else st.(taskArgBuffer := st.taskArgBuffer + args)
  }

  /** `_emit_tool_arg_delta` for a started tool block. */
  method EmitToolArgDelta(b: Builder, i: int, args: string, env: Env) returns (ok: bool)
    requires b.Sound() && b.Ordered() && i in b.toolStates && b.toolStates[i].started
    modifies b`toolOrder, b`toolStates, b`yielded
    ensures b.Sound() && b.Ordered()
    ensures ok <==> !Rejected(env, old(b.toolStates)[i], args)
    ensures b.toolStates == old(b.toolStates)[i := Fed(env, old(b.toolStates)[i], args)]
    ensures Grows(old(b.yielded), b.yielded)
  {
    hide Agree, Recorded, StreamContract.Observe, Replay, Grows;
    GrowsNot(b.yielded);
    if args == "" {
      assert b.toolStates == b.toolStates[i := b.toolStates[i]];
      return true;
    }
    var state := b.toolStates[i];
    if state.name == "Task" {
      var parsed;
      ok, parsed := BufferTaskArgs(b, i, args, env);
      if ok && parsed.Some? {
        GrowsBy(b.yielded, [Delta(state.blockIndex, "input_json_delta", env.dumps(parsed.value))]);
        b.EmitToolDelta(i, env.dumps(parsed.value));
      }
      return;
    }
    GrowsBy(b.yielded, [Delta(state.blockIndex, "input_json_delta", args)]);
    b.EmitToolDelta(i, args);
    ok := true;
  }

  /** Content-block events were added, and nothing else changed. */
  ghost predicate Grows(before: seq<Event>, after: seq<Event>) {
    && before <= after
    && forall k | |before| <= k < |after| :: after[k].BlockStart? || after[k].BlockDelta? || after[k].BlockStop?
  }

  lemma GrowsBy(before: seq<Event>, more: seq<Event>)
    requires forall k | 0 <= k < |more| :: more[k].BlockStart? || more[k].BlockDelta? || more[k].BlockStop?
    ensures Grows(before, before + more)
  {}

  lemma GrowsTwice(a: seq<Event>, b: seq<Event>, c: seq<Event>)
    requires Grows(a, b) && Grows(b, c)
    ensures Grows(a, c)
  {}

  lemma FedAccount(env: Env, st: ToolCallState, args: string, fs: seq<Fragment>)
    requires Account(env, st, fs) && !Raises(env, fs)
    ensures Rejected(env, st, args) <==> Raises(env, fs + Handled(st.name, args))
    ensures Account(env, Fed(env, st, args), fs + Handled(st.name, args))
  {
    if args == "" {
      assert fs + [] == fs;
    } else {
      ParsesOrNot(env, fs);
      if NoneParses(env, fs) {
        FedBeforeParse(env, st, args, fs);
      } else {
        var n :| ParsesFirst(env, fs, n);
        FedAfterParse(env, st, args, fs, n);
      }
    }
  }

  lemma FedBeforeParse(env: Env, st: ToolCallState, args: string, fs: seq<Fragment>)
    requires Account(env, st, fs) && !Raises(env, fs) && NoneParses(env, fs) && args != ""
    ensures Rejected(env, st, args) <==> Raises(env, fs + Handled(st.name, args))
    ensures Account(env, Fed(env, st, args), fs + Handled(st.name, args))
  {
    hide TaskText, RawTexts;
    var f := Fragment(st.name == "Task", args);
    var all, last := fs + [f], |fs|;
    TextsSnoc(fs, f);
    assert all[..last + 1] == all && all[..last] == fs && all[last + 1..] == [];
    assert forall k | 0 <= k < last :: all[..k + 1] == fs[..k + 1] && all[k] == fs[k];
    assert RawTexts([]) == [] by { NoTexts(); }
    assert RawTexts(fs) + [] == RawTexts(fs);
    assert forall m | ParsesFirst(env, all, m) :: m == last;
    if f.task && env.loads(TaskText(all)).Some? {
      assert ParsesFirst(env, all, last);
    } else {
      assert NoneParses(env, all);
    }
  }

  lemma NoTexts()
    ensures RawTexts([]) == [] && TaskText([]) == ""
  {}

  lemma FedAfterParse(env: Env, st: ToolCallState, args: string, fs: seq<Fragment>, n: nat)
    requires Account(env, st, fs) && !Raises(env, fs) && ParsesFirst(env, fs, n) && args != ""
    ensures !Rejected(env, st, args) && !Raises(env, fs + Handled(st.name, args))
    ensures Account(env, Fed(env, st, args), fs + Handled(st.name, args))
  {
    hide TaskText, RawTexts;
    var f := Fragment(st.name == "Task", args);
    var all := fs + [f];
    ParseStays(env, fs, [f], n);
    TextsSnoc(fs[n + 1..], f);
    assert all[..n] == fs[..n] && all[n + 1..] == fs[n + 1..] + [f];
    assert !NoneParses(env, all) && !NoneParses(env, fs);
    forall m | ParsesFirst(env, all, m) ensures m == n { OneParse(env, all, m, n); }
  }

  /** What one delta says about a call besides its arguments. */
  function Named(st: ToolCallState, tc: ToolDelta): ToolCallState {
    st.(toolId := if tc.id.Some? && tc.id.value != "" then tc.id.value else st.toolId,
        name := if tc.name.Some? then MergeName(st.name, tc.name.value) else st.name)
  }

  /** A call before anything arrived for it is in order. */
  lemma NewCallOk(env: Env, calls: seq<ToolDelta>, tools: map<int, ToolCallState>, i: int)
    requires CallsOk(env, calls, tools, true)
    ensures CallOk(env, calls, i, Known(tools, i)) && !Raises(env, Fragments(calls, i))
  {}

  lemma UnnamedCallOk(env: Env, calls: seq<ToolDelta>, tc: ToolDelta, i: int, st: ToolCallState)
    requires CallOk(env, calls, i, st) && IndexOf(calls, tc) == i && Blank(Named(st, tc).name)
    ensures var named := Named(st, tc);
            CallOk(env, calls + [tc], i, named.(preStartArgs := named.preStartArgs + tc.arguments))
    ensures !Raises(env, Fragments(calls + [tc], i))
  {
    CallsSnoc(calls, tc, i);
    NoNameNoFragments(calls + [tc], i);
    if st.started && tc.name.Some? { MergedNameStaysNamed(st.name, tc.name.value); }
  }

  lemma StartedCallOk(env: Env, calls: seq<ToolDelta>, tc: ToolDelta, i: int, st: ToolCallState)
    requires CallOk(env, calls, i, st) && IndexOf(calls, tc) == i && st.started && !Raises(env, Fragments(calls, i))
    ensures var named := Named(st, tc);
            && CallOk(env, calls + [tc], i, Fed(env, named, tc.arguments))
            && (Rejected(env, named, tc.arguments) <==> Raises(env, Fragments(calls + [tc], i)))
  {
    CallsSnoc(calls, tc, i);
    if tc.name.Some? { MergedNameStaysNamed(st.name, tc.name.value); }
    var named, fs := Named(st, tc), Fragments(calls, i);
    FragmentsSnoc(calls, tc, i);
    assert fs + [] == fs;
    hide Fed, Rejected, Raises, Account;
    AccountIgnoresName(env, st, named, fs);
    FedAccount(env, named, tc.arguments, fs);
  }

  lemma AccountIgnoresName(env: Env, st: ToolCallState, named: ToolCallState, fs: seq<Fragment>)
    requires Account(env, st, fs) && named.(toolId := st.toolId, name := st.name) == st
    ensures Account(env, named, fs)
  {}

  /** The state of a call whose block has just been started, its earlier arguments still to be sent. */
  function Started(named: ToolCallState, block: int, id: string): ToolCallState {
    named.(blockIndex := block, toolId := id, started := true, preStartArgs := "")
  }

  lemma StartingCallOk(env: Env, calls: seq<ToolDelta>, tc: ToolDelta, i: int, st: ToolCallState, block: int, id: string)
    requires CallOk(env, calls, i, st) && IndexOf(calls, tc) == i && !st.started && !Blank(Named(st, tc).name)
    ensures var begun := Started(Named(st, tc), block, id);
            var fed := Fed(env, begun, st.preStartArgs);
            if Rejected(env, begun, st.preStartArgs)
            then CallOk(env, calls + [tc], i, fed) && Raises(env, Fragments(calls + [tc], i))
            else && CallOk(env, calls + [tc], i, Fed(env, fed, tc.arguments))
                 && (Rejected(env, fed, tc.arguments) <==> Raises(env, Fragments(calls + [tc], i)))
  {
    hide Fed, Rejected, Account, Raises, Fragments, NeverTask, OnlyTask, MergeName, Blank, ContentsAre, Handled;
    CallsSnoc(calls, tc, i);
    FragmentsSnoc(calls, tc, i);
    NoNameNoFragments(calls, i);
    var begun := Started(Named(st, tc), block, id);
    NothingHandled(env, begun);
    var fed, name := Fed(env, begun, st.preStartArgs), begun.name;
    var early := Handled(name, st.preStartArgs);
    assert [] + early == early;
    FedAccount(env, begun, st.preStartArgs, []);
    if Rejected(env, begun, st.preStartArgs) {
      AccountRaised(env, fed, early, Handled(name, tc.arguments));
    } else {
      FedAccount(env, fed, tc.arguments, early);
    }
  }

  lemma AccountRaised(env: Env, st: ToolCallState, fs: seq<Fragment>, more: seq<Fragment>)
    requires Account(env, st, fs) && Raises(env, fs)
    ensures Account(env, st, fs + more) && Raises(env, fs + more)
  {
    hide ContentsAre;
    RaisesStays(env, fs, more, st.contents);
  }

  lemma NothingHandled(env: Env, st: ToolCallState)
    requires st.contents == [] && st.taskArgBuffer == "" && !st.taskArgsEmitted
    ensures Account(env, st, []) && !Raises(env, [])
  {}

  /** The calls that do not get their block started by this delta. */
  lemma AlreadyDecided(env: Env, calls: seq<ToolDelta>, tc: ToolDelta, i: int, st: ToolCallState)
    requires CallOk(env, calls, i, st) && IndexOf(calls, tc) == i && !Raises(env, Fragments(calls, i))
    ensures var named := Named(st, tc);
            && (st.started <==> !Blank(st.name))
            && (st.started ==> CallOk(env, calls + [tc], i, Fed(env, named, tc.arguments)))
            && (st.started ==> (Rejected(env, named, tc.arguments) <==> Raises(env, Fragments(calls + [tc], i))))
            && (Blank(named.name) ==>
                  CallOk(env, calls + [tc], i, named.(preStartArgs := named.preStartArgs + tc.arguments)))
            && (Blank(named.name) ==> !Raises(env, Fragments(calls + [tc], i)))
    ensures st.preStartArgs + "" == st.preStartArgs && st.name == NameOf(calls, i)
  {
    if st.started { StartedCallOk(env, calls, tc, i, st); }
    if Blank(Named(st, tc).name) { UnnamedCallOk(env, calls, tc, i, st); }
  }

  /** The calls after the id and name fragments of one delta. */
  function Described(tools: map<int, ToolCallState>, i: int, tc: ToolDelta): map<int, ToolCallState> {
    if i in tools || (tc.id.Some? && tc.id.value != "") || tc.name.Some? then tools[i := Named(Known(tools, i), tc)] else tools
  }

  /** What opening a call that has just got a name does, if there is one. */
  ghost predicate Opens(env: Env, tools: map<int, ToolCallState>, i: int, tc: ToolDelta, block: int, id: string,
                        tools': map<int, ToolCallState>, starts: map<int, ContentBlock>, starts': map<int, ContentBlock>,
                        ok: bool)
  {
    if Starts(tools, i) then
      var st := tools[i];
      var begun := Started(st, block, id);
      && (ok <==> !Rejected(env, begun, st.preStartArgs))
      && tools' == tools[i := Fed(env, begun, st.preStartArgs)]
      && id == OpeningId(env, st, tc, i) && starts' == starts[i := OpenedBlock(env, st, tc, i)]
    else ok && tools' == tools && starts' == starts
  }

  function OpenedItems(env: Env, tools: map<int, ToolCallState>, i: int, tc: ToolDelta): seq<Item> {
    if Starts(tools, i) then [ToolShown(OpenedBlock(env, tools[i], tc, i))] else []
  }

  /** A delta shows its call when it gets it opened. */
  function NewlyShown(env: Env, before: seq<ToolDelta>, tc: ToolDelta): seq<Item> {
    var t := IndexOf(before, tc);
    var start := Opening(env, before + [tc], t);
    if Opening(env, before, t).None? && start.Some? then [ToolShown(start.value)] else []
  }

  /** The calls shown by some more deltas. */
  function CallItems(env: Env, before: seq<ToolDelta>, more: seq<ToolDelta>): seq<Item> {
    if more == [] then []
    else CallItems(env, before, more[..|more| - 1]) + NewlyShown(env, before + more[..|more| - 1], more[|more| - 1])
  }

  lemma CallItemsSnoc(env: Env, before: seq<ToolDelta>, more: seq<ToolDelta>, k: nat)
    requires k < |more|
    ensures CallItems(env, before, more[..k + 1])
         == CallItems(env, before, more[..k]) + NewlyShown(env, before + more[..k], more[k])
  {
    assert more[..k + 1][..k] == more[..k];
  }

  lemma NoCallItems(env: Env, before: seq<ToolDelta>)
    ensures CallItems(env, before, []) == []
  {}

  /** What is shown when a delta opens its call is what its opening says. */
  lemma ShownByDelta(env: Env, calls: seq<ToolDelta>, tc: ToolDelta, i: int, tools: map<int, ToolCallState>,
                     starts: map<int, ContentBlock>)
    requires CallsOk(env, calls, tools, true) && OpenedOk(env, calls, tools, starts) && i == IndexOf(calls, tc)
    ensures NewlyShown(env, calls, tc) == OpenedItems(env, Described(tools, i, tc), i, tc)
  {
    hide Strip, Blank, ToolBlock, MergeName, NameOf, IdOf, Opening, Raised, Account, KeysAfter;
    NoBlankName();
    assert OpeningOk(env, calls, i, Known(tools, i), StartOfCall(starts, i));
    NewCallOk(env, calls, tools, i);
    OpeningSnoc(env, calls, tc, i);
    CallsSnoc(calls, tc, i);
  }

  /** What the arguments of one delta do. */
  ghost predicate Takes(env: Env, tools: map<int, ToolCallState>, i: int, args: string, tools': map<int, ToolCallState>,
                        ok: bool)
  {
    var st := Known(tools, i);
    if args == "" then ok && tools' == tools
    else if Blank(st.name) then ok && tools' == tools[i := st.(preStartArgs := st.preStartArgs + args)]
    else (ok <==> !Rejected(env, st, args)) && tools' == tools[i := Fed(env, st, args)]
  }

  /** One delta keeps every call in order. */
  lemma DeltaProcessed(env: Env, calls: seq<ToolDelta>, tc: ToolDelta, i: int, block: int, id: string,
                       tools: map<int, ToolCallState>, starts: map<int, ContentBlock>, middle: map<int, ToolCallState>,
                       begun: bool, tools': map<int, ToolCallState>, starts': map<int, ContentBlock>, ok: bool)
    requires CallsOk(env, calls, tools, true) && OpenedOk(env, calls, tools, starts) && i == IndexOf(calls, tc)
    requires Opens(env, Described(tools, i, tc), i, tc, block, id, middle, starts, starts', begun)
    requires if begun then Takes(env, middle, i, tc.arguments, tools', ok) else tools' == middle && !ok
    ensures CallsOk(env, calls + [tc], tools', ok) && OpenedOk(env, calls + [tc], tools', starts')
  {
    hide CallOk, CallsOk, Account, Fragments, Fed, Rejected, MergeName, Received, NameOf, KeysAfter, Blank, OpenedOk, Strip,
         ToolBlock, GivenId, Raises, Raised, Opening, IdOf;
    NewCallOk(env, calls, tools, i);
    var st := Known(tools, i);
    AlreadyDecided(env, calls, tc, i, st);
    if Starts(Described(tools, i, tc), i) { StartingCallOk(env, calls, tc, i, st, block, id); }
    if begun { FedNothing(env, Known(middle, i)); }
    OpenedByDelta(env, calls, tc, tools, starts, tools', starts');
    CallsOkAfter(env, calls, tc, tools, tools', ok);
  }

  /** After a delta has opened a call or not, a call with a name has been started. */
  lemma NamedIsStarted(env: Env, calls: seq<ToolDelta>, tc: ToolDelta, i: int, block: int, id: string,
                       tools: map<int, ToolCallState>, middle: map<int, ToolCallState>,
                       starts: map<int, ContentBlock>, starts': map<int, ContentBlock>, begun: bool)
    requires CallsOk(env, calls, tools, true)
    requires Opens(env, Described(tools, i, tc), i, tc, block, id, middle, starts, starts', begun)
    ensures !Blank(Known(middle, i).name) ==> Known(middle, i).started
  {
    hide Rejected, MergeName, Received, NameOf, KeysAfter, Blank, Strip, ToolBlock, GivenId, Fragments, Raised, Account;
    NoBlankName();
    NewCallOk(env, calls, tools, i);
  }

  lemma NoBlankName()
    ensures Blank("")
  {}

  /** The id and name fragments of one delta. */
  method Describe(b: Builder, i: int, tc: ToolDelta)
    requires b.Sound() && b.Ordered()
    modifies b`toolOrder, b`toolStates
    ensures b.Sound() && b.Ordered()
    ensures b.toolStates == Described(old(b.toolStates), i, tc)
  {
    hide Builder.Sound, Builder.Ordered, MergeName;
    if tc.id.Some? { b.SetStreamToolId(i, tc.id.value); }
    if tc.name.Some? { b.RegisterToolName(i, tc.name.value); }
  }

  /** The id a call is opened with: its own, or that of the delta, or a fresh one. */
  function OpeningId(env: Env, st: ToolCallState, tc: ToolDelta, i: int): string {
    GivenId(env, if st.toolId != "" || tc.id.None? then st.toolId else tc.id.value, i)
  }

  function OpenedBlock(env: Env, st: ToolCallState, tc: ToolDelta, i: int): ContentBlock {
    ToolBlock(OpeningId(env, st, tc, i), Strip(st.name))
  }

  method StartNamedBlock(b: Builder, i: int, tc: ToolDelta, env: Env) returns (ghost id: string)
    requires b.Sound() && b.Ordered() && i in b.toolStates && !b.toolStates[i].started
    modifies b`nextIndex, b`toolOrder, b`toolStates, b`yielded, b`openedAs, b`items, b`live
    ensures b.Sound() && b.Ordered() && b.nextIndex == old(b.nextIndex) + 1
    ensures id == OpeningId(env, old(b.toolStates)[i], tc, i)
    ensures var st := old(b.toolStates)[i];
            b.toolStates == old(b.toolStates)[i := Started(st, old(b.nextIndex), id).(preStartArgs := st.preStartArgs)]
    ensures b.openedAs == old(b.openedAs)[i := OpenedBlock(env, old(b.toolStates)[i], tc, i)]
    ensures b.items == old(b.items) + [ToolShown(OpenedBlock(env, old(b.toolStates)[i], tc, i))]
    ensures b.yielded == old(b.yielded)
              + [BlockStart(Some(old(b.nextIndex)), Some(OpenedBlock(env, old(b.toolStates)[i], tc, i)))]
  {
    hide Builder.Sound, Builder.Ordered, Strip, ToolBlock, Blank, Replay, StreamContract.Observe;
    var state := b.toolStates[i];
    var resolvedId := if state.toolId != "" then Some(state.toolId) else tc.id;
    var toolId := if resolvedId.Some? && resolvedId.value != "" then resolvedId.value else env.freshToolId(i);
    id := toolId;
    b.StartToolBlock(i, toolId, Strip(state.name));
  }

  /** Starts the block of a call that has just got a name, and sends the arguments that came before it. */
  method OpenNamedCall(b: Builder, i: int, tc: ToolDelta, env: Env) returns (ok: bool, ghost id: string)
    requires b.Sound() && b.Ordered() && i in b.toolStates && !b.toolStates[i].started
    modifies b`nextIndex, b`toolOrder, b`toolStates, b`yielded, b`openedAs, b`items, b`live
    ensures b.Sound() && b.Ordered() && Grows(old(b.yielded), b.yielded) && b.nextIndex >= old(b.nextIndex)
    ensures var st := old(b.toolStates)[i];
            var begun := Started(st, old(b.nextIndex), id);
            && (ok <==> !Rejected(env, begun, st.preStartArgs))
            && b.toolStates == old(b.toolStates)[i := Fed(env, begun, st.preStartArgs)]
    ensures id == OpeningId(env, old(b.toolStates)[i], tc, i)
    ensures b.openedAs == old(b.openedAs)[i := OpenedBlock(env, old(b.toolStates)[i], tc, i)]
    ensures b.items == old(b.items) + [ToolShown(OpenedBlock(env, old(b.toolStates)[i], tc, i))]
    ensures |b.yielded| > |old(b.yielded)|
         && b.yielded[|old(b.yielded)|]
            == BlockStart(Some(old(b.nextIndex)), Some(OpenedBlock(env, old(b.toolStates)[i], tc, i)))
  {
    hide Builder.Sound, Builder.Ordered, Grows, Strip, OpenedBlock, OpeningId, Rejected, Fed, Blank, Replay,
         StreamContract.Observe;
    var state := b.toolStates[i];
    ghost var block := b.nextIndex;
    GrowsBy(b.yielded, [BlockStart(Some(block), Some(OpenedBlock(env, state, tc, i)))]);
    id := StartNamedBlock(b, i, tc, env);
    ok := true;
    FedNothing(env, Started(state, block, id));
    if state.preStartArgs != "" {
      b.Remember(i, b.toolStates[i].(preStartArgs := ""));
      assert b.toolStates[i] == Started(state, block, id);
      hide Started;
      ghost var before := b.yielded;
      ok := EmitToolArgDelta(b, i, state.preStartArgs, env);
      GrowsTwice(old(b.yielded), before, b.yielded);
      GrowsKeeps(before, b.yielded);
    }
  }

  lemma GrowsKeeps(before: seq<Event>, after: seq<Event>)
    requires Grows(before, after)
    ensures before <= after && (NoErrors(before) ==> NoErrors(after))
  {}

  /** Whether a call's block is started now. */
  predicate Starts(tools: map<int, ToolCallState>, i: int) {
    i in tools && !tools[i].started && !Blank(tools[i].name)
  }

  method OpenIfNamed(b: Builder, i: int, tc: ToolDelta, env: Env) returns (ok: bool, ghost id: string)
    requires b.Sound() && b.Ordered()
    modifies b`nextIndex, b`toolOrder, b`toolStates, b`yielded, b`openedAs, b`items, b`live
    ensures b.Sound() && b.Ordered() && Grows(old(b.yielded), b.yielded) && b.nextIndex >= old(b.nextIndex)
    ensures Opens(env, old(b.toolStates), i, tc, old(b.nextIndex), id, b.toolStates, old(b.openedAs), b.openedAs, ok)
    ensures b.items == old(b.items) + OpenedItems(env, old(b.toolStates), i, tc)
  {
    hide Builder.Sound, Builder.Ordered, Grows, Fed, Rejected, Started, Blank, Strip, ToolBlock, GivenId, Replay,
         StreamContract.Observe, OpenedBlock, OpeningId;
    GrowsNot(b.yielded);
    assert b.items + [] == b.items;
    ok, id := true, "";
    if Starts(b.toolStates, i) {
      ok, id := OpenNamedCall(b, i, tc, env);
    }
  }

  /** `_process_tool_call`. `calls` are the deltas processed before. */
  method ProcessToolCall(b: Builder, tc: ToolDelta, env: Env, ghost calls: seq<ToolDelta>) returns (ok: bool)
    requires b.Sound() && b.Ordered() && CallsOk(env, calls, b.toolStates, true)
    requires OpenedOk(env, calls, b.toolStates, b.openedAs)
    modifies b`nextIndex, b`toolOrder, b`toolStates, b`yielded, b`openedAs, b`items, b`live
    ensures b.Sound() && b.Ordered() && CallsOk(env, calls + [tc], b.toolStates, ok)
    ensures OpenedOk(env, calls + [tc], b.toolStates, b.openedAs)
    ensures b.nextIndex >= old(b.nextIndex)
    ensures Grows(old(b.yielded), b.yielded)
    ensures b.items == old(b.items) + NewlyShown(env, calls, tc)
  {
    hide *;
    ghost var tools, openedAs, block := b.toolStates, b.openedAs, b.nextIndex;
    ghost var id;
    var i := tc.index;
    if i < 0 { i := |b.toolStates|; }
    SameIndex(env, calls, tools, tc);
    ShownByDelta(env, calls, tc, i, tools, openedAs);
    Describe(b, i, tc);
    ok, id := OpenIfNamed(b, i, tc, env);
    ghost var middle, begun := b.toolStates, ok;
    if ok {
      ghost var sent := b.yielded;
      NamedIsStarted(env, calls, tc, i, block, id, tools, middle, openedAs, b.openedAs, ok);
      ok := TakeArguments(b, i, tc.arguments, env);
      GrowsTwice(old(b.yielded), sent, b.yielded);
    }
    DeltaProcessed(env, calls, tc, i, block, id, tools, openedAs, middle, begun, b.toolStates, b.openedAs, ok);
  }

  /** Arguments of a call that has no name yet are kept; those of a started call are sent or gathered. */
  method TakeArguments(b: Builder, i: int, args: string, env: Env) returns (ok: bool)
    requires b.Sound() && b.Ordered() && (!Blank(Known(b.toolStates, i).name) ==> Known(b.toolStates, i).started)
    modifies b`toolOrder, b`toolStates, b`yielded
    ensures b.Sound() && b.Ordered() && Grows(old(b.yielded), b.yielded)
    ensures Takes(env, old(b.toolStates), i, args, b.toolStates, ok)
  {
    hide Builder.Sound, Builder.Ordered, Grows, Rejected, Fed, Replay, StreamContract.Observe;
    GrowsNot(b.yielded);
    ok := true;
    if args == "" { return; }
    b.EnsureToolState(i);
    if Blank(b.toolStates[i].name) {
      b.Remember(i, b.toolStates[i].(preStartArgs := b.toolStates[i].preStartArgs + args));
    } else {
      ok := EmitToolArgDelta(b, i, args, env);
    }
  }

  lemma FedNothing(env: Env, st: ToolCallState)
    ensures Fed(env, st, "") == st && !Rejected(env, st, "")
  {}

  lemma SameIndex(env: Env, calls: seq<ToolDelta>, tools: map<int, ToolCallState>, tc: ToolDelta)
    requires CallsOk(env, calls, tools, true)
    ensures IndexOf(calls, tc) == if tc.index < 0 then |tools| else tc.index
  {
    assert |tools| == |tools.Keys|;
  }

  // ---- One chunk ----

  /** `ensure_thinking_block` and a thinking delta. */
  method EmitThought(b: Builder, content: string)
    requires b.Sound() && b.Used()
    modifies b`nextIndex, b`thinkingIndex, b`thinkingStarted, b`textStarted, b`reasoningParts, b`yielded, b`items, b`live
    ensures b.Sound() && b.Used() && b.reasoningParts == old(b.reasoningParts) + [content]
    ensures b.items == old(b.items) + [Thought(content)]
    ensures b.nextIndex >= old(b.nextIndex) && Grows(old(b.yielded), b.yielded)
  {
    hide Builder.Sound, Replay, StreamContract.Observe;
    b.EnsureThinkingBlock();
    b.EmitThinkingDelta(content);
  }

  method EmitText(b: Builder, content: string)
    requires b.Sound() && b.Used()
    modifies b`nextIndex, b`textIndex, b`thinkingStarted, b`textStarted, b`textParts, b`yielded, b`items, b`live
    ensures b.Sound() && b.Used() && b.textParts == old(b.textParts) + [content]
    ensures b.items == old(b.items) + [Said(content)]
    ensures b.nextIndex >= old(b.nextIndex) && Grows(old(b.yielded), b.yielded)
  {
    hide Builder.Sound, Replay, StreamContract.Observe;
    b.EnsureTextBlock();
    b.EmitTextDelta(content);
  }

  method EmitHeuristicTools(b: Builder, tools: seq<HeuristicTool>, env: Env)
    requires b.Sound() && b.Used()
    modifies b`nextIndex, b`thinkingStarted, b`textStarted, b`yielded, b`items, b`live
    ensures b.Sound() && b.Used() && Grows(old(b.yielded), b.yielded)
    ensures b.items == old(b.items) + Collect(ToolItems(env), tools)
  {
    hide Builder.Sound, Replay, StreamContract.Observe, Collect;
    ghost var items := b.items;
    CollectPrefixes(items, ToolItems(env), tools);
    for k := 0 to |tools|
      invariant b.Sound() && b.nextIndex >= old(b.nextIndex) && Grows(old(b.yielded), b.yielded)
      invariant b.items == items + Collect(ToolItems(env), tools[..k])
    {
      b.EmitHeuristicTool(tools[k], env);
      ToolShownWhole(items + Collect(ToolItems(env), tools[..k]), tools[k], env);
    }
  }

  lemma ToolShownWhole(before: seq<Item>, tool: HeuristicTool, env: Env)
    ensures before + [ToolShown(ToolBlock(tool.id, tool.name))]
            + [ToolArgs(env.dumps(if tool.name == "Task" then Normalize(tool.input) else tool.input))]
         == before + ToolItems(env)(tool)
  {}

  /** What one piece of parsed content shows. */
  function PartItems(env: Env, thinkingEnabled: bool): Part -> seq<Item> {
    (p: Part) =>
      match p
      case ThinkingPart(content) => if thinkingEnabled then [Thought(content)] else []
      case TextPart(filtered, tools) => (if filtered != "" then [Said(filtered)] else []) + Collect(ToolItems(env), tools)
  }

  /** What one chunk shows, in order, apart from native tool calls. */
  function PieceItems(env: Env, thinkingEnabled: bool): Piece -> seq<Item> {
    (c: Piece) => (if thinkingEnabled && c.reasoning != "" then [Thought(c.reasoning)] else [])
                  + Collect(PartItems(env, thinkingEnabled), c.parts)
  }

  method EmitPart(b: Builder, p: Part, thinkingEnabled: bool, env: Env)
    requires b.Sound() && b.Used()
    modifies b`nextIndex, b`textIndex, b`thinkingIndex, b`thinkingStarted, b`textStarted, b`textParts, b`reasoningParts,
             b`yielded, b`items, b`live
    ensures b.Sound() && b.Used() && Grows(old(b.yielded), b.yielded)
    ensures b.textParts == old(b.textParts) + PartTexts(p)
    ensures b.reasoningParts == old(b.reasoningParts) + PartThoughts(thinkingEnabled)(p)
    ensures b.items == old(b.items) + PartItems(env, thinkingEnabled)(p)
  {
    hide Builder.Sound, Builder.Used, Grows, Replay, StreamContract.Observe, Collect, ToolItems;
    GrowsNot(b.yielded);
    match p {
      case ThinkingPart(content) =>
        if thinkingEnabled { EmitThought(b, content); }
      case TextPart(filtered, tools) =>
        if filtered != "" { EmitText(b, filtered); }
        ghost var before, items := b.yielded, b.items;
        assert items + Collect(ToolItems(env), tools) == old(b.items) + PartItems(env, thinkingEnabled)(p);
        hide PartItems;
        EmitHeuristicTools(b, tools, env);
        GrowsTwice(old(b.yielded), before, b.yielded);
    }
  }

  /** The parts of one `delta.content`, as the think-tag parser returns them. */
  method StreamParts(b: Builder, parts: seq<Part>, thinkingEnabled: bool, env: Env)
    requires b.Sound() && b.Used()
    modifies b`nextIndex, b`textIndex, b`thinkingIndex, b`thinkingStarted, b`textStarted, b`textParts, b`reasoningParts,
             b`yielded, b`items, b`live
    ensures b.Sound() && b.Used() && Grows(old(b.yielded), b.yielded)
    ensures b.textParts == old(b.textParts) + Collect(PartTexts, parts)
    ensures b.reasoningParts == old(b.reasoningParts) + Collect(PartThoughts(thinkingEnabled), parts)
    ensures b.items == old(b.items) + Collect(PartItems(env, thinkingEnabled), parts)
  {
    hide *;
    GrowsNot(b.yielded);
    ghost var f := PartThoughts(thinkingEnabled);
    ghost var g := PartItems(env, thinkingEnabled);
    ghost var texts, thoughts, items := b.textParts, b.reasoningParts, b.items;
    CollectPrefixes(texts, PartTexts, parts);
    CollectPrefixes(thoughts, f, parts);
    CollectPrefixes(items, g, parts);
    for k := 0 to |parts|
      invariant b.Sound() && b.Used() && Grows(old(b.yielded), b.yielded)
      invariant b.textParts == texts + Collect(PartTexts, parts[..k])
      invariant b.reasoningParts == thoughts + Collect(f, parts[..k])
      invariant b.items == items + Collect(g, parts[..k])
    {
      ghost var before := b.yielded;
      EmitPart(b, parts[k], thinkingEnabled, env);
      GrowsTwice(old(b.yielded), before, b.yielded);
    }
  }

  lemma GrowsNot(events: seq<Event>)
    ensures Grows(events, events)
  {}

  lemma CollectPrefixes<A, B>(before: seq<B>, f: A -> seq<B>, xs: seq<A>)
    ensures before + Collect(f, xs[..0]) == before && xs[..|xs|] == xs
    ensures forall k | 0 <= k < |xs| :: before + Collect(f, xs[..k + 1]) == before + Collect(f, xs[..k]) + f(xs[k])
  {
    forall k | 0 <= k < |xs|
      ensures before + Collect(f, xs[..k + 1]) == before + Collect(f, xs[..k]) + f(xs[k])
    {
      assert xs[..k + 1] == xs[..k] + [xs[k]];
      CollectSnoc(f, xs[..k], xs[k]);
    }
  }

  /** The reasoning and text of one chunk. */
  method StreamContent(b: Builder, c: Piece, thinkingEnabled: bool, env: Env)
    requires b.Sound() && b.Used()
    modifies b`nextIndex, b`textIndex, b`thinkingIndex, b`thinkingStarted, b`textStarted, b`textParts, b`reasoningParts,
             b`yielded, b`items, b`live
    ensures b.Sound() && b.Used() && Grows(old(b.yielded), b.yielded)
    ensures b.textParts == old(b.textParts) + PieceTexts(c)
    ensures b.reasoningParts == old(b.reasoningParts) + PieceThoughts(thinkingEnabled)(c)
    ensures b.items == old(b.items) + PieceItems(env, thinkingEnabled)(c)
  {
    hide Builder.Sound, Builder.Used, Grows, PartTexts, PartThoughts, PartItems, Replay, StreamContract.Observe, Collect;
    GrowsNot(b.yielded);
    if thinkingEnabled && c.reasoning != "" { EmitThought(b, c.reasoning); }
    ghost var before := b.yielded;
    StreamParts(b, c.parts, thinkingEnabled, env);
    GrowsTwice(old(b.yielded), before, b.yielded);
  }

  /** One provider chunk: reasoning, then text, then native tool calls. `done` are the tool-call deltas processed;
      after an exception the last of them may be half processed. */
  method StreamPiece(b: Builder, c: Piece, thinkingEnabled: bool, env: Env, ghost calls: seq<ToolDelta>)
    returns (ok: bool, ghost done: seq<ToolDelta>)
    requires b.Sound() && b.Ordered() && b.Used() && CallsOk(env, calls, b.toolStates, true)
    requires OpenedOk(env, calls, b.toolStates, b.openedAs)
    modifies b
    ensures b.Sound() && b.Ordered() && b.Used() && Grows(old(b.yielded), b.yielded)
    ensures b.textParts == old(b.textParts) + PieceTexts(c)
    ensures b.reasoningParts == old(b.reasoningParts) + PieceThoughts(thinkingEnabled)(c)
    ensures calls <= done
    ensures b.items == old(b.items) + PieceItems(env, thinkingEnabled)(c) + CallItems(env, calls, done[|calls|..])
    ensures CallsOk(env, done, b.toolStates, ok) && OpenedOk(env, done, b.toolStates, b.openedAs)
    ensures !ok ==> done != [] && !Raised(env, done[..|done| - 1])
    ensures if ok then done == calls + c.toolCalls else done <= calls + c.toolCalls
  {
    hide *;
    StreamContent(b, c, thinkingEnabled, env);
    ok, done := true, calls;
    NoCallItems(env, calls);
    assert calls[|calls|..] == [] && b.items + [] == b.items;
    if c.toolCalls != [] {
      ghost var before := b.yielded;
      CloseForTools(b);
      GrowsTwice(old(b.yielded), before, b.yielded);
      before := b.yielded;
      ok, done := ProcessToolCalls(b, c.toolCalls, env, calls);
      GrowsTwice(old(b.yielded), before, b.yielded);
    }
  }

  lemma NotYetRaised(env: Env, calls: seq<ToolDelta>, tools: map<int, ToolCallState>)
    requires CallsOk(env, calls, tools, true)
    ensures !Raised(env, calls)
  {}

  method CloseForTools(b: Builder)
    requires b.Sound()
    modifies b`thinkingStarted, b`textStarted, b`yielded, b`live
    ensures b.Sound() && !b.textStarted && !b.thinkingStarted && Grows(old(b.yielded), b.yielded)
  {
    hide Builder.Sound, Replay, StreamContract.Observe;
    b.CloseContentBlocks();
  }

  method ProcessToolCalls(b: Builder, toolCalls: seq<ToolDelta>, env: Env, ghost calls: seq<ToolDelta>)
    returns (ok: bool, ghost done: seq<ToolDelta>)
    requires b.Sound() && b.Ordered() && b.Used() && CallsOk(env, calls, b.toolStates, true)
    requires OpenedOk(env, calls, b.toolStates, b.openedAs)
    modifies b`nextIndex, b`toolOrder, b`toolStates, b`yielded, b`openedAs, b`items, b`live
    ensures b.Sound() && b.Ordered() && b.Used() && Grows(old(b.yielded), b.yielded)
    ensures CallsOk(env, done, b.toolStates, ok) && OpenedOk(env, done, b.toolStates, b.openedAs)
    ensures !ok ==> done != [] && !Raised(env, done[..|done| - 1])
    ensures if ok then done == calls + toolCalls else done <= calls + toolCalls
    ensures calls <= done && b.items == old(b.items) + CallItems(env, calls, done[|calls|..])
  {
    hide Builder.Sound, Builder.Ordered, CallsOk, OpenedOk, Raised, Grows, Replay, StreamContract.Observe, CallItems, NewlyShown;
    GrowsNot(b.yielded);
    NoCallItems(env, calls);
    ghost var items := b.items;
    assert calls + toolCalls[..0] == calls && items + [] == items;
    ok, done := true, calls;
    for k := 0 to |toolCalls|
      invariant b.Sound() && b.Ordered() && CallsOk(env, calls + toolCalls[..k], b.toolStates, true)
      invariant OpenedOk(env, calls + toolCalls[..k], b.toolStates, b.openedAs)
      invariant b.items == items + CallItems(env, calls, toolCalls[..k])
      invariant b.nextIndex >= old(b.nextIndex) && Grows(old(b.yielded), b.yielded)
    {
      ghost var before := b.yielded;
      NotYetRaised(env, calls + toolCalls[..k], b.toolStates);
      ok := ProcessToolCall(b, toolCalls[k], env, calls + toolCalls[..k]);
      GrowsTwice(old(b.yielded), before, b.yielded);
      assert calls + toolCalls[..k + 1] == calls + toolCalls[..k] + [toolCalls[k]];
      CallItemsSnoc(env, calls, toolCalls, k);
      AppendedItems(items, CallItems(env, calls, toolCalls[..k]), NewlyShown(env, calls + toolCalls[..k], toolCalls[k]));
      if !ok {
        done := calls + toolCalls[..k + 1];
        assert done[..|done| - 1] == calls + toolCalls[..k] && done[|calls|..] == toolCalls[..k + 1];
        return;
      }
    }
    assert toolCalls[..|toolCalls|] == toolCalls;
    ok, done := true, calls + toolCalls;
    assert done[|calls|..] == toolCalls;
  }

  lemma AppendedItems(items: seq<Item>, more: seq<Item>, last: seq<Item>)
    ensures items + (more + last) == items + more + last
  {}
}
