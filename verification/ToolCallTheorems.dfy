/** What a client is told about a native tool call: its name, its id, and the arguments of a Task. */
module ToolCallTheorems {
  import opened Basics
  import opened OpenAiInput
  import opened SseBuilder
  import opened OpenAiStream
  import opened ToolOpening

  // ---- Names ----

  /** The name fragments of a call, in order. */
  function NameFragments(calls: seq<ToolDelta>, t: int): seq<string> {
    if calls == [] then []
    else
      var before, last := calls[..|calls| - 1], calls[|calls| - 1];
      NameFragments(before, t) + if last.name.Some? && IndexOf(before, last) == t then [last.name.value] else []
  }

  function Merged(fragments: seq<string>): string {
    if fragments == [] then "" else MergeName(Merged(fragments[..|fragments| - 1]), fragments[|fragments| - 1])
  }

  lemma {:induction false} NameIsMerged(calls: seq<ToolDelta>, t: int)
    ensures NameOf(calls, t) == Merged(NameFragments(calls, t))
  {
    if calls != [] {
      var before, last := calls[..|calls| - 1], calls[|calls| - 1];
      NameIsMerged(before, t);
      if last.name.Some? && IndexOf(before, last) == t {
        assert (NameFragments(before, t) + [last.name.value])[..|NameFragments(before, t)|] == NameFragments(before, t);
      } else {
        assert NameFragments(before, t) + [] == NameFragments(before, t);
      }
    }
  }

  /** A provider that repeats the name and extends it: the name is the last fragment. */
  lemma {:induction false} ExtendedNameIsLast(fragments: seq<string>)
    requires fragments != [] && forall k | 0 < k < |fragments| :: fragments[k - 1] <= fragments[k]
    ensures Merged(fragments) == fragments[|fragments| - 1]
  {
    var before := fragments[..|fragments| - 1];
    if before != [] { ExtendedNameIsLast(before); }
  }

  /** A name piece that neither begins what came before it nor is begun by it. */
  predicate IsNewPiece(before: string, piece: string) {
    before != "" && !(before <= piece) && !(piece <= before)
  }

  /** A provider that sends the name in pieces: the name is all of them, as long as no piece begins what came before it or
      is begun by it. */
  lemma {:induction false} SplitNameIsWhole(fragments: seq<string>)
    requires forall k | 0 < k < |fragments| :: IsNewPiece(Concat(fragments[..k]), fragments[k])
    ensures Merged(fragments) == Concat(fragments)
  {
    hide IsNewPiece, Concat, Merged;
    if fragments == [] {
      NothingMerged();
    } else {
      var last := |fragments| - 1;
      var before := fragments[..last];
      forall k | 0 < k < last ensures IsNewPiece(Concat(before[..k]), before[k]) {
        assert before[..k] == fragments[..k];
      }
      SplitNameIsWhole(before);
      assert fragments == before + [fragments[last]];
      ConcatSnoc(before, fragments[last]);
      MergedSnoc(before, fragments[last]);
      if last == 0 {
        NothingMerged();
      } else {
        NewPieceIsAppended(Concat(before), fragments[last]);
      }
    }
  }

  lemma NothingMerged()
    ensures Merged([]) == "" && Concat([]) == "" && forall name :: MergeName("", name) == name
  {}

  lemma MergedSnoc(fragments: seq<string>, last: string)
    ensures Merged(fragments + [last]) == MergeName(Merged(fragments), last)
  {
    assert (fragments + [last])[..|fragments|] == fragments;
  }

  lemma NewPieceIsAppended(before: string, piece: string)
    requires IsNewPiece(before, piece)
    ensures MergeName(before, piece) == before + piece
  {}

  /** A fragment that says nothing new. */
  predicate Repeats(calls: seq<ToolDelta>, k: nat, t: int, name: string)
    requires k < |calls|
  {
    calls[k].name.Some? && IndexOf(calls[..k], calls[k]) == t ==> calls[k].name.value <= name
  }

  lemma {:induction false} NameOnlyGrows(calls: seq<ToolDelta>, n: nat, t: int)
    requires n <= |calls|
    ensures NameOf(calls[..n], t) <= NameOf(calls, t)
    decreases |calls| - n
  {
    if n == |calls| {
      assert calls[..n] == calls;
    } else {
      NameOnlyGrows(calls, n + 1, t);
      assert calls[..n + 1][..n] == calls[..n];
    }
  }

  lemma NextName(calls: seq<ToolDelta>, n: nat, t: int)
    requires n < |calls| && NameOf(calls[..n], t) != ""
    ensures NameOf(calls[..n + 1], t) == NameOf(calls[..n], t) <==> Repeats(calls, n, t, NameOf(calls[..n], t))
  {
    assert calls[..n + 1][..n] == calls[..n];
  }

  /** A name is final exactly when every later fragment repeats its beginning. */
  lemma {:induction false} NameIsFinalIff(calls: seq<ToolDelta>, n: nat, t: int)
    requires n <= |calls| && NameOf(calls[..n], t) != ""
    ensures NameOf(calls, t) == NameOf(calls[..n], t)
       <==> forall k | n <= k < |calls| :: Repeats(calls, k, t, NameOf(calls[..n], t))
    decreases |calls| - n
  {
    hide NameOf, Repeats;
    if n == |calls| {
      assert calls[..n] == calls;
    } else {
      NextName(calls, n, t);
      NameOnlyGrows(calls, n + 1, t);
      NameOnlyGrows(calls[..n + 1], n, t);
      assert calls[..n + 1][..n] == calls[..n];
      if NameOf(calls[..n + 1], t) == NameOf(calls[..n], t) { NameIsFinalIff(calls, n + 1, t); }
    }
  }

  lemma NotBlank(s: string)
    requires s != "" && 'A' <= s[0] <= 'z'
    ensures !Blank(s)
  {
    assert !IsSpace(s[0]);
  }

  lemma StripsNothing(s: string)
    requires s != "" && 'A' <= s[0] <= 'z' && 'A' <= s[|s| - 1] <= 'z'
    ensures Strip(s) == s
  {
    assert !IsSpace(s[0]) && !IsSpace(s[|s| - 1]);
  }

  /** A name in two pieces: the client is shown the first. */
  lemma SplitNameIsShownCut(env: Env)
    ensures var first, second := ToolDelta(0, None, Some("Ba"), ""), ToolDelta(0, None, Some("sh"), "");
            && NameOf([first] + [second], 0) == "Bash"
            && Opening(env, [first] + [second], 0) == Some(ToolBlock(env.freshToolId(0), "Ba"))
  {
    var first, second := ToolDelta(0, None, Some("Ba"), ""), ToolDelta(0, None, Some("sh"), "");
    CallsSnoc([], first, 0);
    OpeningSnoc(env, [], first, 0);
    assert [] + [first] == [first];
    NotBlank("Ba");
    CallsSnoc([first], second, 0);
    OpeningSnoc(env, [first], second, 0);
    assert "Ba" + "sh" == "Bash" && "Ba"[0] != "sh"[0];
    StripsNothing("Ba");
  }

  // ---- Arguments ----

  function TextsOf(fs: seq<Fragment>): seq<string> {
    if fs == [] then [] else TextsOf(fs[..|fs| - 1]) + [fs[|fs| - 1].text]
  }

  lemma TextsOfHandled(fs: seq<Fragment>, name: string, text: string)
    ensures Concat(TextsOf(fs + Handled(name, text))) == Concat(TextsOf(fs)) + text
  {
    if text == "" {
      assert fs + [] == fs;
    } else {
      var f := Fragment(name == "Task", text);
      assert (fs + [f])[..|fs|] == fs;
      ConcatSnoc(TextsOf(fs), text);
    }
  }

  /** The fragments of a call that has a name are all that was received for it. */
  lemma {:induction false} FragmentsAreReceived(calls: seq<ToolDelta>, t: int)
    requires !Blank(NameOf(calls, t))
    ensures Concat(TextsOf(Fragments(calls, t))) == Received(calls, t)
  {
    hide Blank, MergeName, Concat, TextsOf, Handled;
    if calls == [] {
      assert false by { NoBlankName(); }
    } else {
      var before, last, name := calls[..|calls| - 1], calls[|calls| - 1], NameOf(calls, t);
      if Blank(NameOf(before, t)) { NoNameNoFragments(before, t); } else { FragmentsAreReceived(before, t); }
      if IndexOf(before, last) == t {
        TextsOfHandled(Fragments(before, t), name, Early(before, t));
        TextsOfHandled(Fragments(before, t) + Handled(name, Early(before, t)), name, last.arguments);
        NothingReceived();
        assert "" + Received(before, t) == Received(before, t) && Received(before, t) + "" == Received(before, t);
      }
    }
  }

  lemma NothingReceived()
    ensures TextsOf([]) == [] && Concat([]) == ""
  {}

  lemma {:induction false} RawAreTexts(fs: seq<Fragment>)
    requires forall k | 0 <= k < |fs| :: !fs[k].task
    ensures RawTexts(fs) == TextsOf(fs) && TaskText(fs) == ""
  {
    if fs != [] { RawAreTexts(fs[..|fs| - 1]); }
  }

  lemma {:induction false} TaskIsConcat(fs: seq<Fragment>)
    requires forall k | 0 <= k < |fs| :: fs[k].task
    ensures TaskText(fs) == Concat(TextsOf(fs)) && RawTexts(fs) == []
  {
    if fs != [] {
      TaskIsConcat(fs[..|fs| - 1]);
      ConcatSnoc(TextsOf(fs[..|fs| - 1]), fs[|fs| - 1].text);
    }
  }

  /** A call that is never named Task carries exactly the arguments received, however the stream ends. */
  lemma OthersAreVerbatim(env: Env, calls: seq<ToolDelta>, t: int, contents: seq<string>, completed: bool)
    requires NeverTask(calls, t) && !Blank(NameOf(calls, t)) && ContentsAre(env, Fragments(calls, t), contents, completed)
    ensures Concat(contents) == Received(calls, t)
  {
    var fs := Fragments(calls, t);
    hide Fragments;
    NeverTaskFragments(calls, t);
    RawAreTexts(fs);
    FragmentsAreReceived(calls, t);
    assert RawTexts(fs) + [] == RawTexts(fs);
  }

  /** What is looked at after each fragment: a beginning of everything gathered. */
  lemma {:induction false} AttemptsAreBeginnings(fs: seq<Fragment>, n: nat)
    requires n <= |fs|
    ensures TaskText(fs[..n]) <= TaskText(fs)
  {
    if n == |fs| {
      assert fs[..n] == fs;
    } else {
      assert fs[..|fs| - 1][..n] == fs[..n];
      AttemptsAreBeginnings(fs[..|fs| - 1], n);
    }
  }

  /** A call that is only ever named Task, on a stream that ends normally: no argument delta if nothing was received; an
      empty object if no beginning of what was received, up to the end of a fragment, is JSON; otherwise one delta, the first
      such beginning, which is an object, made to run in the foreground. */
  lemma TaskIsFirstParse(env: Env, calls: seq<ToolDelta>, t: int, contents: seq<string>)
    requires OnlyTask(calls, t) && !Blank(NameOf(calls, t)) && !Raised(env, calls)
    requires ContentsAre(env, Fragments(calls, t), contents, true)
    ensures var fs := Fragments(calls, t);
            && TaskText(fs) == Received(calls, t) && (forall k | 0 <= k < |fs| :: fs[k].task)
            && (Received(calls, t) == "" ==> contents == [])
            && (Received(calls, t) != "" && NoneParses(env, fs) ==> contents == ["{}"])
            && forall n | ParsesFirst(env, fs, n) ::
                 var json := env.loads(TaskText(fs[..n + 1])).value;
                 json.Object? && contents == [env.dumps(Normalize(json))]
  {
    var fs := Fragments(calls, t);
    assert !Raises(env, fs);
    OnlyTaskFragments(calls, t);
    FragmentsAreReceived(calls, t);
    HasText(calls, t);
    hide Fragments;
    TaskIsConcat(fs);
    ParsesOrNot(env, fs);
    forall n | 0 <= n < |fs| ensures RawTexts(fs[..n]) == [] && RawTexts(fs[n + 1..]) == [] {
      TaskIsConcat(fs[..n]);
      TaskIsConcat(fs[n + 1..]);
    }
    if fs != [] { SomeText(fs); }
    hide TaskText, RawTexts;
    forall n | ParsesFirst(env, fs, n)
      ensures var json := env.loads(TaskText(fs[..n + 1])).value;
              json.Object? && contents == [env.dumps(Normalize(json))]
    {
      assert RawTexts(fs[..n]) == [] && RawTexts(fs[n + 1..]) == [];
    }
  }

  lemma {:induction false} HasText(calls: seq<ToolDelta>, t: int)
    ensures forall k | 0 <= k < |Fragments(calls, t)| :: Fragments(calls, t)[k].text != ""
  {
    if calls != [] { HasText(calls[..|calls| - 1], t); }
  }

  lemma SomeText(fs: seq<Fragment>)
    requires fs != [] && forall k | 0 <= k < |fs| :: fs[k].text != ""
    ensures Concat(TextsOf(fs)) != ""
  {
    ConcatSnoc(TextsOf(fs[..|fs| - 1]), fs[|fs| - 1].text);
  }

  /** Running in the foreground is all that is changed in an object. */
  lemma ForegroundOnly(json: Json)
    requires json.Object?
    ensures Normalize(json).Object? && var fields := Normalize(json).fields;
            "run_in_background" in fields && fields["run_in_background"] == "false"
            && forall k | k != "run_in_background" ::
                 (k in fields <==> k in json.fields) && (k in fields ==> fields[k] == json.fields[k])
  {}

  // ---- A block shown as Task ----

  /** The `k`-th delta has arguments handled for the call `t`. */
  predicate BringsArguments(calls: seq<ToolDelta>, k: nat, t: int)
    requires k < |calls|
  {
    && IndexOf(calls[..k], calls[k]) == t && !Blank(NameOf(calls[..k + 1], t))
    && (calls[k].arguments != "" || Early(calls[..k], t) != "")
  }

  /** All arguments of a call are handled while its name is exactly Task. */
  ghost predicate HandledAsTask(calls: seq<ToolDelta>, t: int) {
    forall k | 0 <= k < |calls| && BringsArguments(calls, k, t) :: NameOf(calls[..k + 1], t) == "Task"
  }

  lemma HandledAsTaskSnoc(before: seq<ToolDelta>, tc: ToolDelta, t: int)
    ensures var calls := before + [tc];
            HandledAsTask(calls, t)
            <==> HandledAsTask(before, t) && (BringsArguments(calls, |before|, t) ==> NameOf(calls, t) == "Task")
  {
    hide NameOf, Early, IndexOf;
    var calls, last := before + [tc], |before|;
    assert calls[..last + 1] == calls;
    forall k | 0 <= k < last
      ensures before[..k + 1] == calls[..k + 1] && BringsArguments(before, k, t) == BringsArguments(calls, k, t)
    {
      assert before[..k] == calls[..k] && before[..k + 1] == calls[..k + 1];
    }
    hide BringsArguments;
  }

  /** Whatever its names are, nothing of a call's arguments is sent as it comes if and only if all of them are handled while
      its name is exactly Task. The name shown does not matter. */
  lemma {:induction false} ShownTaskRunsInForegroundIff(calls: seq<ToolDelta>, t: int)
    ensures RawTexts(Fragments(calls, t)) == [] <==> HandledAsTask(calls, t)
  {
    hide NameOf, HandledAsTask, BringsArguments, Fragments, RawTexts, Early;
    if calls == [] {
      NothingSent(t);
    } else {
      var before, last := calls[..|calls| - 1], calls[|calls| - 1];
      assert before + [last] == calls;
      ShownTaskRunsInForegroundIff(before, t);
      RawAfterDelta(before, last, t);
      HandledAsTaskSnoc(before, last, t);
    }
  }

  lemma NothingSent(t: int)
    ensures RawTexts(Fragments([], t)) == [] && HandledAsTask([], t)
  {}

  lemma RawAfterDelta(before: seq<ToolDelta>, tc: ToolDelta, t: int)
    ensures var calls := before + [tc];
            RawTexts(Fragments(calls, t)) == []
            <==> RawTexts(Fragments(before, t)) == []
                 && (BringsArguments(calls, |before|, t) ==> NameOf(calls, t) == "Task")
  {
    var calls := before + [tc];
    assert calls[..|before|] == before && calls[..|before| + 1] == calls;
    FragmentsSnoc(before, tc, t);
    hide NameOf, Early, Fragments;
    var name, fs := NameOf(calls, t), Fragments(before, t);
    RawAfterHandling(fs, name, Early(before, t));
    RawAfterHandling(fs + Handled(name, Early(before, t)), name, tc.arguments);
  }

  lemma RawAfterHandling(fs: seq<Fragment>, name: string, text: string)
    ensures RawTexts(fs + Handled(name, text)) == [] <==> RawTexts(fs) == [] && (text == "" || name == "Task")
  {
    if text == "" {
      assert fs + [] == fs;
    } else {
      TextsSnoc(fs, Fragment(name == "Task", text));
    }
  }

  lemma {:induction false} SameNameThroughout(calls: seq<ToolDelta>, n: nat, t: int)
    requires 0 < n <= |calls| && Blank(NameOf(calls[..n - 1], t)) && !Blank(NameOf(calls[..n], t))
    requires NameOf(calls, t) == NameOf(calls[..n], t)
    ensures OnlyTask(calls, t) <==> NameOf(calls, t) == "Task"
    ensures NeverTask(calls, t) <==> NameOf(calls, t) != "Task"
  {
    hide NameOf, Blank;
    var before := calls[..|calls| - 1];
    if n == |calls| {
      UnnamedIsNoTask(before, t);
      assert calls[..n] == calls;
    } else {
      assert before[..n] == calls[..n] && before[..n - 1] == calls[..n - 1];
      NameOnlyGrows(before, n, t);
      NameOnlyGrows(calls, |calls| - 1, t);
      SameNameThroughout(before, n, t);
    }
  }

  lemma {:induction false} UnnamedIsNoTask(calls: seq<ToolDelta>, t: int)
    requires Blank(NameOf(calls, t))
    ensures OnlyTask(calls, t) && NeverTask(calls, t)
  {
    assert !Blank("Task") by { assert !IsSpace("Task"[0]); }
    if calls != [] {
      var before, last := calls[..|calls| - 1], calls[|calls| - 1];
      if !Blank(NameOf(before, t)) && last.name.Some? { MergedNameStaysNamed(NameOf(before, t), last.name.value); }
      UnnamedIsNoTask(before, t);
    }
  }

  /** A call shown as Task, whose name is final when it is shown: it is handled as a Task exactly when its name is Task without
      any white space around it, and otherwise never. */
  lemma FinalNameDecides(env: Env, calls: seq<ToolDelta>, t: int)
    requires Opening(env, calls, t).Some? && Opening(env, calls, t).value.name == Some("Task")
    requires forall n | 0 < n <= |calls| && !Blank(NameOf(calls[..n], t)) :: NameOf(calls[..n], t) == NameOf(calls, t)
    ensures Strip(NameOf(calls, t)) == "Task"
    ensures OnlyTask(calls, t) <==> NameOf(calls, t) == "Task"
    ensures NeverTask(calls, t) <==> NameOf(calls, t) != "Task"
  {
    hide NameOf, Blank, Strip, Opening, OnlyTask, NeverTask;
    var n := FirstNameIsShown(env, calls, t);
    SameNameThroughout(calls, n, t);
  }

  /** A name that grows: shown as Task, its arguments sent as they come. */
  lemma RenamedTaskIsSentRaw(env: Env, args: string)
    requires args != ""
    ensures var first, second := ToolDelta(0, Some("id"), Some("Task"), ""), ToolDelta(0, None, Some("Tasks"), args);
            && Opening(env, [first] + [second], 0) == Some(ToolBlock("id", "Task"))
            && Fragments([first] + [second], 0) == [Fragment(false, args)]
  {
    var first, second := ToolDelta(0, Some("id"), Some("Task"), ""), ToolDelta(0, None, Some("Tasks"), args);
    NameGrows();
    StripsNothing("Task");
    hide Blank, Strip, MergeName, Opening, Fragments;
    CallsSnoc([], first, 0);
    OpeningSnoc(env, [], first, 0);
    FragmentsSnoc([], first, 0);
    NothingHeard(env);
    assert [] + [first] == [first];
    CallsSnoc([first], second, 0);
    OpeningSnoc(env, [first], second, 0);
    FragmentsSnoc([first], second, 0);
    assert Fragments([first], 0) == [];
  }

  lemma NameGrows()
    ensures MergeName("", "Task") == "Task" && MergeName("Task", "Tasks") == "Tasks" && !Blank("Task") && !Blank("Tasks")
  {
    NotBlank("Task");
    NotBlank("Tasks");
    assert "Task" <= "Tasks";
  }

  lemma NothingHeard(env: Env)
    ensures NameOf([], 0) == "" && Opening(env, [], 0) == None && Fragments([], 0) == [] && Received([], 0) == ""
    ensures IdOf([], 0) == "" && Blank("")
  {}

  /** With a space before it, a call is shown as Task but is not treated as one. */
  lemma SpacedTaskIsNotOne(env: Env)
    ensures var call := ToolDelta(0, Some("id"), Some(" Task"), "{}");
            Opening(env, [call], 0) == Some(ToolBlock("id", "Task")) && NeverTask([call], 0)
  {
    var call := ToolDelta(0, Some("id"), Some(" Task"), "{}");
    CallsSnoc([], call, 0);
    OpeningSnoc(env, [], call, 0);
    assert [] + [call] == [call];
    assert !Blank(" Task") by { assert !IsSpace(" Task"[1]); }
    assert Strip(" Task") == "Task" by { assert " Task"[1..] == "Task" && LStrip("Task") == "Task" && RStrip("Task") == "Task"; }
    assert " Task"[0] != "Task"[0];
  }
}
