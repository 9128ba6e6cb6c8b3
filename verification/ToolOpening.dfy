/** How the block of a native tool call is started, said by the deltas received for it. */
module ToolOpening {
  import opened Basics
  import opened StreamContract
  import opened OpenAiInput
  import opened OpenAiStream

  /** The client is shown the first name a call has, without surrounding white space. */
  lemma {:induction false} FirstNameIsShown(env: Env, calls: seq<ToolDelta>, t: int) returns (n: nat)
    requires Opening(env, calls, t).Some?
    ensures 0 < n <= |calls| && Blank(NameOf(calls[..n - 1], t)) && !Blank(NameOf(calls[..n], t))
    ensures Opening(env, calls, t).value.name == Some(Strip(NameOf(calls[..n], t)))
  {
    hide Strip, NameOf, GivenId;
    var last := |calls| - 1;
    if Opening(env, calls[..last], t).Some? {
      n := FirstNameIsShown(env, calls[..last], t);
      assert calls[..last][..n] == calls[..n] && calls[..last][..n - 1] == calls[..n - 1];
    } else {
      n := |calls|;
      assert calls[..n] == calls;
      NotOpenedIsUnnamed(env, calls[..last], t);
    }
  }

  lemma {:induction false} NotOpenedIsUnnamed(env: Env, calls: seq<ToolDelta>, t: int)
    requires Opening(env, calls, t).None?
    ensures Blank(NameOf(calls, t))
  {
    if calls != [] {
      NotOpenedIsUnnamed(env, calls[..|calls| - 1], t);
    }
  }

  /** The `k`-th delta gives the call `t` the id `id`. */
  predicate GivesId(calls: seq<ToolDelta>, k: nat, t: int, id: string)
    requires k < |calls|
  {
    IndexOf(calls[..k], calls[k]) == t && calls[k].id == Some(id) && id != ""
  }

  ghost predicate GivesNoId(calls: seq<ToolDelta>, k: nat, t: int)
    requires k < |calls|
  {
    forall id :: !GivesId(calls, k, t, id)
  }

  /** The last id given by the first `n` deltas, or a fresh one when there is none. */
  ghost predicate IsIdOf(env: Env, calls: seq<ToolDelta>, n: nat, t: int, id: string)
    requires n <= |calls|
  {
    || (exists k :: 0 <= k < n && GivesId(calls, k, t, id) && forall j | k < j < n :: GivesNoId(calls, j, t))
    || (id == env.freshToolId(t) && forall j | 0 <= j < n :: GivesNoId(calls, j, t))
  }

  /** What the block of a call must be started with: an empty tool block with the last id given until it got its first name,
      and that name. */
  ghost predicate StartsCall(env: Env, calls: seq<ToolDelta>, t: int, start: ContentBlock) {
    && start.kind == Some("tool_use") && start.input == Some("{}") && start.text == ""
    && exists n :: 0 < n <= |calls| && Blank(NameOf(calls[..n - 1], t)) && !Blank(NameOf(calls[..n], t))
                   && start.name == Some(Strip(NameOf(calls[..n], t)))
                   && start.id.Some? && IsIdOf(env, calls, n, t, start.id.value)
  }

  lemma {:induction false} IdIsLastGiven(env: Env, calls: seq<ToolDelta>, t: int)
    ensures IsIdOf(env, calls, |calls|, t, GivenId(env, IdOf(calls, t), t))
    ensures IdOf(calls, t) == "" ==> forall j | 0 <= j < |calls| :: GivesNoId(calls, j, t)
    ensures IdOf(calls, t) != "" ==> exists k :: 0 <= k < |calls| && GivesId(calls, k, t, IdOf(calls, t))
                                                 && forall j | k < j < |calls| :: GivesNoId(calls, j, t)
  {
    hide GivesId, GivesNoId, IdOf;
    IdUnfolds(calls, t);
    if calls != [] {
      var before, last := calls[..|calls| - 1], |calls| - 1;
      IdIsLastGiven(env, before, t);
      SameIdsGiven(before, calls, t);
      if GivesNoId(calls, last, t) {
        if IdOf(before, t) != "" {
          var k :| 0 <= k < |before| && GivesId(before, k, t, IdOf(before, t))
                   && forall j | k < j < |before| :: GivesNoId(before, j, t);
          assert GivesId(calls, k, t, IdOf(calls, t));
        }
      }
    }
  }

  lemma IdUnfolds(calls: seq<ToolDelta>, t: int)
    ensures if calls == [] then IdOf(calls, t) == ""
            else if GivesNoId(calls, |calls| - 1, t) then IdOf(calls, t) == IdOf(calls[..|calls| - 1], t)
            else IdOf(calls, t) != "" && GivesId(calls, |calls| - 1, t, IdOf(calls, t))
  {
    var last := |calls| - 1;
    if calls != [] && calls[last].id.Some? {
      assert GivesNoId(calls, last, t) ==> !GivesId(calls, last, t, calls[last].id.value);
    }
  }

  lemma SameIdsGiven(before: seq<ToolDelta>, calls: seq<ToolDelta>, t: int)
    requires before <= calls
    ensures forall k: nat, id | k < |before| :: GivesId(before, k, t, id) == GivesId(calls, k, t, id)
    ensures forall k: nat | k < |before| :: GivesNoId(before, k, t) == GivesNoId(calls, k, t)
  {
    hide IndexOf;
    forall k: nat, id | k < |before| ensures GivesId(before, k, t, id) == GivesId(calls, k, t, id) {
      assert before[..k] == calls[..k];
    }
  }

  /** Every call is started so. */
  lemma {:induction false} OpeningStartsCall(env: Env, calls: seq<ToolDelta>, t: int)
    requires Opening(env, calls, t).Some?
    ensures StartsCall(env, calls, t, Opening(env, calls, t).value)
  {
    hide Strip, NameOf, GivenId, IsIdOf, Blank;
    var before, last := calls[..|calls| - 1], |calls| - 1;
    if Opening(env, before, t).Some? {
      OpeningStartsCall(env, before, t);
      var start := Opening(env, before, t).value;
      var n :| 0 < n <= |before| && Blank(NameOf(before[..n - 1], t)) && !Blank(NameOf(before[..n], t))
               && start.name == Some(Strip(NameOf(before[..n], t)))
               && start.id.Some? && IsIdOf(env, before, n, t, start.id.value);
      assert before[..n] == calls[..n] && before[..n - 1] == calls[..n - 1];
      IdOfLonger(env, before, calls, n, t, start.id.value);
    } else {
      NotOpenedIsUnnamed(env, before, t);
      IdIsLastGiven(env, calls, t);
      assert calls[..|calls|] == calls;
    }
  }

  lemma IdOfLonger(env: Env, before: seq<ToolDelta>, calls: seq<ToolDelta>, n: nat, t: int, id: string)
    requires n <= |before| && before <= calls && IsIdOf(env, before, n, t, id)
    ensures IsIdOf(env, calls, n, t, id)
  {
    hide GivesId, GivesNoId;
    SameIdsGiven(before, calls, t);
  }
}
