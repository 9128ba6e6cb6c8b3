/** Which blocks and deltas the native block policy shows, said by the kinds in the input. On any input. */
module NativeBlockMeaning {
  import opened Basics
  import opened StreamContract
  import opened NativeBlockPolicy
  import opened NativeBlockTracking
  import opened NativeBlockTheorems

  predicate ThinkingAt(kind: string, k: int) {
    0 <= k <= |kind| - 8 && kind[k..k + 8] == "thinking"
  }

  /** The kind has "thinking" in it. */
  predicate ThinkingKind(kind: string) {
    exists k | 0 <= k <= |kind| - 8 :: ThinkingAt(kind, k)
  }

  lemma PrefixAt(s: string, i: nat)
    requires i <= |s|
    ensures "thinking" <= s[i..] <==> ThinkingAt(s, i)
  {
    if i <= |s| - 8 { assert s[i..][..8] == s[i..i + 8]; }
  }

  lemma WhatIsDropped(kind: Option<string>, thinkingEnabled: bool)
    ensures ShouldDrop(kind, thinkingEnabled) <==> !thinkingEnabled && kind.Some? && ThinkingKind(kind.value)
  {
    if kind.Some? && !thinkingEnabled {
      var s := kind.value;
      forall i: nat | i <= |s| { PrefixAt(s, i); }
      if "redacted_thinking" <= s {
        assert s[..17] == "redacted_thinking" && s[9..17] == s[..17][9..17];
        assert ThinkingAt(s, 9);
      }
    }
  }

  /** Thinking and redacted thinking blocks and thinking deltas are of such kinds; signatures, text and tool arguments are not. */
  lemma KindsOfThinking()
    ensures ThinkingKind("thinking") && ThinkingKind("redacted_thinking") && ThinkingKind("thinking_delta")
    ensures !ThinkingKind("signature_delta") && !ThinkingKind("text") && !ThinkingKind("text_delta")
    ensures !ThinkingKind("tool_use") && !ThinkingKind("input_json_delta")
  {
    assert ThinkingAt("thinking", 0) && ThinkingAt("redacted_thinking", 9) && ThinkingAt("thinking_delta", 0);
    NoneAmong("signature_delta");
    NoneAmong("text");
    NoneAmong("text_delta");
    NoneAmong("tool_use");
    NoneAmong("input_json_delta");
  }

  lemma NoneAmong(kind: string)
    requires forall k | 0 <= k < |kind| :: kind[k] != 'h'
    ensures !ThinkingKind(kind)
  {
    forall k | 0 <= k <= |kind| - 8 ensures !ThinkingAt(kind, k) {
      assert kind[k..k + 8][1] == kind[k + 1] != 'h' && "thinking"[1] == 'h';
    }
  }

  /** A block of that index has been hidden because of its kind. */
  ghost predicate Hidden(input: seq<Event>, i: int, thinkingEnabled: bool) {
    !thinkingEnabled
    && exists n :: 0 <= n < |input| && input[n].BlockStart? && input[n].index == Some(i) && input[n].block.Some?
                   && input[n].block.value.kind.Some? && ThinkingKind(input[n].block.value.kind.value)
  }

  lemma {:induction false} HiddenIsDropped(input: seq<Event>, i: int, thinkingEnabled: bool)
    ensures Hidden(input, i, thinkingEnabled) <==> i in DroppedBy(input, thinkingEnabled)
  {
    hide ThinkingKind, ShouldDrop;
    if input != [] {
      var before, last := input[..|input| - 1], |input| - 1;
      HiddenIsDropped(before, i, thinkingEnabled);
      assert forall n | 0 <= n < last :: before[n] == input[n];
      if input[last].BlockStart? && input[last].block.Some? {
        WhatIsDropped(input[last].block.value.kind, thinkingEnabled);
      }
      if Hidden(before, i, thinkingEnabled) {
        var n :| 0 <= n < |before| && before[n].BlockStart? && before[n].index == Some(i) && before[n].block.Some?
                 && before[n].block.value.kind.Some? && ThinkingKind(before[n].block.value.kind.value);
        assert input[n] == before[n];
      }
    }
  }

  /** The block open downstream for an upstream one. */
  predicate OpenAs(s: State, i: int, down: nat) {
    i in s.byUpstream && s.byUpstream[i].open && s.byUpstream[i].down == down
  }

  /** One of the first `n` blocks, but not `i`, is open as `down`. */
  ghost predicate OtherOpenAs(s: State, i: int, n: nat, down: int)
    requires n <= |s.order|
  {
    exists k :: 0 <= k < n && s.order[k] != i && down >= 0 && OpenAs(s, s.order[k], down)
  }

  /** The stops made before a start are those of the other open blocks. */
  lemma {:induction false} ClosingStopsOthers(s: State, i: int, n: nat)
    requires WellOrdered(s) && n <= |s.order|
    ensures var (s', stops) := CloseOthers(s, i, n);
            && (forall k | 0 <= k < |stops| :: stops[k].BlockStop? && stops[k].index.Some?)
            && (forall down :: BlockStop(Some(down)) in stops <==> OtherOpenAs(s, i, n, down))
            && forall j | j in s.byUpstream :: s'.byUpstream[j].down == s.byUpstream[j].down
  {
    hide CloseOthers, OpenAs;
    if n == 0 {
      NoneClosed(s, i);
    } else {
      ClosingStopsOthers(s, i, n - 1);
      CloseOthersUnfolds(s, i, n);
      OthersClosed(s, i, n - 1, s.order[n - 1]);
      LastClosed(s, i, n);
    }
  }

  lemma LastClosed(s: State, i: int, n: nat)
    requires WellOrdered(s) && 0 < n <= |s.order|
    requires var (before, stops) := CloseOthers(s, i, n - 1);
             var last := s.order[n - 1];
             && last in before.byUpstream && before.byUpstream[last].down == s.byUpstream[last].down
             && (before.byUpstream[last].open <==> s.byUpstream[last].open && (last == i || last !in s.order[..n - 1]))
             && (forall down :: BlockStop(Some(down)) in stops <==> OtherOpenAs(s, i, n - 1, down))
    ensures var (before, stops) := CloseOthers(s, i, n - 1);
            var last := s.order[n - 1];
            var all := if last == i || !before.byUpstream[last].open then stops
                       else stops + [BlockStop(Some(before.byUpstream[last].down))];
            forall down :: BlockStop(Some(down)) in all <==> OtherOpenAs(s, i, n, down)
  {
    hide CloseOthers, WellOrdered;
    var (before, stops) := CloseOthers(s, i, n - 1);
    var last := s.order[n - 1];
    assert last in s.order[..n - 1] ==> exists k :: 0 <= k < n - 1 && s.order[k] == last;
  }

  /** Whatever came before, a start whose block has a type is shown with its block unchanged, under the next index and after the
      stops of the other open blocks, which are owed one then; but with thinking disabled it is not shown if its kind has
      "thinking" in it. */
  lemma StartIsShownIff(before: seq<Event>, i: int, b: ContentBlock, thinkingEnabled: bool)
    requires b.kind.Some?
    ensures var (s, sent) := Run(before, thinkingEnabled);
            var (s', now) := Run(before + [BlockStart(Some(i), Some(b))], thinkingEnabled);
            if !thinkingEnabled && ThinkingKind(b.kind.value) then now == sent
            else && sent <= now && |now| > |sent| && now[|now| - 1] == BlockStart(Some(s.next), Some(b))
                 && StopsOthers(s, i, s', now[|sent|..|now| - 1])
                 && OpenAs(s', i, s.next) && s'.next == s.next + 1
  {
    hide Run, ThinkingKind, ShouldDrop, CloseOthers;
    RunSnoc(before, BlockStart(Some(i), Some(b)), thinkingEnabled);
    WhatIsDropped(b.kind, thinkingEnabled);
    var (s, sent) := Run(before, thinkingEnabled);
    assert sent + [] == sent;
    AllOthersStopped(s, i);
    hide StopsOthers, WellOrdered, OpenAs, Allocate;
    var (closed, stops) := CloseOthers(s, i, |s.order|);
    var now := sent + (stops + [BlockStart(Some(closed.next), Some(b))]);
    assert now[|sent|..|now| - 1] == stops;
    AllocateKeeps(s, closed, stops, i, b);
  }

  ghost predicate StopsOthers(s: State, i: int, s': State, stops: seq<Event>) {
    && (forall k | 0 <= k < |stops| :: stops[k].BlockStop? && stops[k].index.Some?)
    && (forall down :: BlockStop(Some(down)) in stops <==> exists j :: j != i && down >= 0 && OpenAs(s, j, down))
    && (forall j | j in s'.byUpstream && j != i :: !s'.byUpstream[j].open)
    && (forall j :: j in s'.pending <==> j in s.pending || (j != i && j in s.byUpstream && s.byUpstream[j].open))
  }

  lemma AllOthersStopped(s: State, i: int)
    requires WellOrdered(s)
    ensures var (s', stops) := CloseOthers(s, i, |s.order|); StopsOthers(s, i, s', stops)
  {
    hide CloseOthers, OpenAs;
    ClosingStopsOthers(s, i, |s.order|);
    assert s.order[..|s.order|] == s.order;
    forall j { OthersClosed(s, i, |s.order|, j); }
    forall down ensures OtherOpenAs(s, i, |s.order|, down) <==> exists j :: j != i && down >= 0 && OpenAs(s, j, down) {
      if exists j :: j != i && down >= 0 && OpenAs(s, j, down) {
        var j :| j != i && down >= 0 && OpenAs(s, j, down);
        assert j in s.order by { OpenIsListed(s, j, down); }
        var k :| 0 <= k < |s.order| && s.order[k] == j;
      }
    }
  }

  lemma OpenIsListed(s: State, j: int, down: nat)
    requires WellOrdered(s) && OpenAs(s, j, down)
    ensures j in s.order
  {}

  lemma AllocateKeeps(s: State, closed: State, stops: seq<Event>, i: int, b: ContentBlock)
    requires StopsOthers(s, i, closed, stops) && b.kind.Some?
    ensures var s' := Allocate(closed, i, b.kind.value, b);
            StopsOthers(s, i, s', stops) && OpenAs(s', i, closed.next) && s'.next == closed.next + 1
  {}

  /** The delta is hidden: its block was, or its kind has "thinking" in it. */
  ghost predicate HidesDelta(before: seq<Event>, i: int, d: DeltaBody, thinkingEnabled: bool) {
    Hidden(before, i, thinkingEnabled) || (!thinkingEnabled && d.kind.Some? && ThinkingKind(d.kind.value))
  }

  /** The empty block a delta may have to open: of the kind that takes it. */
  predicate OpensFor(block: ContentBlock, deltaKind: Option<string>) {
    && block.text == ""
    && ((deltaKind == Some("text_delta") && block == ContentBlock(Some("text"), "", None, None, None))
        || ((deltaKind == Some("thinking_delta") || deltaKind == Some("signature_delta"))
            && block == ContentBlock(Some("thinking"), "", None, None, None))
        || (deltaKind == Some("input_json_delta") && block.kind == Some("tool_use")
            && block.id.Some? && block.name.Some? && block.input.Some?))
  }

  /** A delta that a block of its kind takes. */
  predicate KnownDelta(kind: Option<string>) {
    || kind == Some("text_delta") || kind == Some("input_json_delta")
    || kind == Some("thinking_delta") || kind == Some("signature_delta")
  }

  /** An empty block is started under the next index, and the delta comes in it. */
  ghost predicate Opened(s: State, sent: seq<Event>, s': State, now: seq<Event>, i: int, d: DeltaBody) {
    && OpenAs(s', i, s.next) && s'.next == s.next + 1
    && exists block :: OpensFor(block, d.kind)
         && now == sent + [BlockStart(Some(s.next), Some(block))] + [BlockDelta(Some(s.next), Some(d))]
  }

  /** Whatever came before, a hidden delta is not shown and any other is shown unchanged: in the open block of its index, or in a
      new empty one where that has been closed, or was never started but can be without more than the delta; else as it is. */
  lemma DeltaIsShownIff(before: seq<Event>, i: int, d: DeltaBody, thinkingEnabled: bool)
    ensures var (s, sent) := Run(before, thinkingEnabled);
            var (s', now) := Run(before + [BlockDelta(Some(i), Some(d))], thinkingEnabled);
            if HidesDelta(before, i, d, thinkingEnabled) then now == sent
            else if KnownDelta(d.kind) && i in s.byUpstream then
              if s.byUpstream[i].open then now == sent + [BlockDelta(Some(s.byUpstream[i].down), Some(d))]
              else Opened(s, sent, s', now, i, d)
            else if d.kind == Some("text_delta") || d.kind == Some("input_json_delta") then Opened(s, sent, s', now, i, d)
            else now == sent + [BlockDelta(Some(i), Some(d))]
  {
    hide Run, ThinkingKind, ShouldDrop, WellOrdered, UsedBy, Opened, DeltaStep;
    RunSnoc(before, BlockDelta(Some(i), Some(d)), thinkingEnabled);
    WhatIsDropped(d.kind, thinkingEnabled);
    HiddenIsDropped(before, i, thinkingEnabled);
    StateByInput(before, thinkingEnabled);
    var (s, sent) := Run(before, thinkingEnabled);
    assert sent + [] == sent;
    if HidesDelta(before, i, d, thinkingEnabled) {
      HiddenDelta(s, i, d, thinkingEnabled);
    } else {
      ShownDelta(s, i, d, thinkingEnabled, sent);
    }
  }

  lemma HiddenDelta(s: State, i: int, d: DeltaBody, thinkingEnabled: bool)
    requires WellOrdered(s) && (i in s.dropped || ShouldDrop(d.kind, thinkingEnabled))
    ensures DeltaStep(s, i, d, thinkingEnabled) == (s, [])
  {}

  lemma ShownDelta(s: State, i: int, d: DeltaBody, thinkingEnabled: bool, sent: seq<Event>)
    requires WellOrdered(s) && i !in s.dropped && !ShouldDrop(d.kind, thinkingEnabled)
    ensures var (s', out) := DeltaStep(s, i, d, thinkingEnabled);
            if KnownDelta(d.kind) && i in s.byUpstream then
              if s.byUpstream[i].open then out == [BlockDelta(Some(s.byUpstream[i].down), Some(d))]
              else Opened(s, sent, s', sent + out, i, d)
            else if d.kind == Some("text_delta") || d.kind == Some("input_json_delta") then Opened(s, sent, s', sent + out, i, d)
            else out == [BlockDelta(Some(i), Some(d))]
  {
    hide ShouldDrop, WellOrdered;
    var out := DeltaStep(s, i, d, thinkingEnabled).1;
    if |out| == 2 {
      assert OpensFor(out[0].block.value, d.kind);
      assert sent + out == sent + [out[0]] + [out[1]];
    }
  }

  /** A delta for an index no block has been started for: text and tool arguments get a block, the tool under an id made from
      the index; thinking and deltas of unknown kinds are passed on as they are. */
  lemma UnstartedDelta(before: seq<Event>, i: int, d: DeltaBody, thinkingEnabled: bool)
    requires i !in UsedBy(before, thinkingEnabled) && !HidesDelta(before, i, d, thinkingEnabled)
    ensures var (s, sent) := Run(before, thinkingEnabled);
            var now := Run(before + [BlockDelta(Some(i), Some(d))], thinkingEnabled).1;
            var id := if i >= 0 then "toolu_or_" + Decimal(i) else "toolu_or_-" + Decimal(-i);
            var block := if d.kind == Some("text_delta") then ContentBlock(Some("text"), "", None, None, None)
                         else ContentBlock(Some("tool_use"), "", Some(id), Some(""), Some("{}"));
            now == if d.kind == Some("text_delta") || d.kind == Some("input_json_delta")
                   then sent + [BlockStart(Some(s.next), Some(block))] + [BlockDelta(Some(s.next), Some(d))]
                   else sent + [BlockDelta(Some(i), Some(d))]
  {
    hide Run, ThinkingKind, ShouldDrop, WellOrdered;
    RunSnoc(before, BlockDelta(Some(i), Some(d)), thinkingEnabled);
    WhatIsDropped(d.kind, thinkingEnabled);
    HiddenIsDropped(before, i, thinkingEnabled);
    StateByInput(before, thinkingEnabled);
    var (s, sent) := Run(before, thinkingEnabled);
    assert "toolu_or_" + ("-" + Decimal(if i < 0 then -i else 0)) == "toolu_or_-" + Decimal(if i < 0 then -i else 0);
    var out := DeltaStep(s, i, d, thinkingEnabled).1;
    assert |out| == 2 ==> sent + out == sent + [out[0]] + [out[1]];
  }

  /** A delta of a kind the policy does not know is passed on as it is. */
  lemma UnknownDeltaPasses(before: seq<Event>, i: int, d: DeltaBody, thinkingEnabled: bool)
    requires !HidesDelta(before, i, d, thinkingEnabled)
    requires d.kind != Some("text_delta") && d.kind != Some("thinking_delta") && d.kind != Some("signature_delta")
    requires d.kind != Some("input_json_delta")
    ensures Run(before + [BlockDelta(Some(i), Some(d))], thinkingEnabled)
         == (Run(before, thinkingEnabled).0, Run(before, thinkingEnabled).1 + [BlockDelta(Some(i), Some(d))])
  {
    hide Run, ThinkingKind, ShouldDrop, WellOrdered;
    RunSnoc(before, BlockDelta(Some(i), Some(d)), thinkingEnabled);
    WhatIsDropped(d.kind, thinkingEnabled);
    HiddenIsDropped(before, i, thinkingEnabled);
    StateByInput(before, thinkingEnabled);
  }

  /** Whatever came before, a stop is shown if its block is open and no stop of the policy's own has been made for it; one for an
      index never used only with thinking enabled, and then as it is. Of a hidden block nothing is. */
  lemma StopIsShownIff(before: seq<Event>, i: int, thinkingEnabled: bool)
    ensures var (s, sent) := Run(before, thinkingEnabled);
            var (s', now) := Run(before + [BlockStop(Some(i))], thinkingEnabled);
            if Hidden(before, i, thinkingEnabled) then now == sent && s' == s
            else if i !in UsedBy(before, thinkingEnabled) then now == sent + if thinkingEnabled then [BlockStop(Some(i))] else []
            else
              i in s.byUpstream && i in s'.byUpstream && i !in s'.pending
              && if i in s.pending then now == sent && s'.byUpstream == s.byUpstream
                 else !s'.byUpstream[i].open
                      && now == sent + if s.byUpstream[i].open then [BlockStop(Some(s.byUpstream[i].down))] else []
  {
    hide Run, ShouldDrop, WellOrdered, UsedBy, Hidden;
    RunSnoc(before, BlockStop(Some(i)), thinkingEnabled);
    HiddenIsDropped(before, i, thinkingEnabled);
    StateByInput(before, thinkingEnabled);
    var (s, sent) := Run(before, thinkingEnabled);
    assert sent + [] == sent;
  }

  function BodyOf(e: Event): seq<DeltaBody> {
    if e.BlockDelta? && e.delta.Some? then [e.delta.value] else []
  }

  /** The deltas of a stream that are not hidden. */
  ghost function BodiesShown(input: seq<Event>, thinkingEnabled: bool): seq<DeltaBody> {
    if input == [] then []
    else
      var before, e := input[..|input| - 1], input[|input| - 1];
      BodiesShown(before, thinkingEnabled)
      + if e.BlockDelta? && e.delta.Some? && e.index.Some?
           && HidesDelta(before, e.index.value, e.delta.value, thinkingEnabled) then []
        else BodyOf(e)
  }

  /** Every delta of any stream is shown once, unchanged and in order, unless it is hidden. */
  lemma {:induction false} DeltasAreShown(input: seq<Event>, thinkingEnabled: bool)
    ensures Collect(BodyOf, Run(input, thinkingEnabled).1) == BodiesShown(input, thinkingEnabled)
  {
    hide Run, HidesDelta, Step;
    CollectNothing(BodyOf);
    if input == [] {
      assert Run(input, thinkingEnabled).1 == [] by { EmptyRun(thinkingEnabled); }
    } else {
      var before, e := input[..|input| - 1], input[|input| - 1];
      DeltasAreShown(before, thinkingEnabled);
      assert before + [e] == input;
      var now, sent := Run(input, thinkingEnabled).1, Run(before, thinkingEnabled).1;
      BodiesOfStep(before, e, thinkingEnabled);
    }
  }

  lemma EmptyRun(thinkingEnabled: bool)
    ensures Run([], thinkingEnabled) == (FRESH, [])
  {}

  lemma BodiesOfStep(before: seq<Event>, e: Event, thinkingEnabled: bool)
    ensures Collect(BodyOf, Run(before + [e], thinkingEnabled).1)
         == Collect(BodyOf, Run(before, thinkingEnabled).1)
            + if e.BlockDelta? && e.delta.Some? && e.index.Some?
                 && HidesDelta(before, e.index.value, e.delta.value, thinkingEnabled) then []
              else BodyOf(e)
  {
    hide HidesDelta, Run, Step, Collect;
    var (s, sent) := Run(before, thinkingEnabled);
    var now := Run(before + [e], thinkingEnabled).1;
    RunSnoc(before, e, thinkingEnabled);
    if e.BlockDelta? && e.delta.Some? && e.index.Some? {
      var i, d := e.index.value, e.delta.value;
      DeltaIsShownIff(before, i, d, thinkingEnabled);
      if !HidesDelta(before, i, d, thinkingEnabled) {
        if j :| now == sent + [BlockDelta(Some(j), Some(d))] {
          CollectSnoc(BodyOf, sent, BlockDelta(Some(j), Some(d)));
        } else {
          var block :| OpensFor(block, d.kind)
                       && now == sent + [BlockStart(Some(s.next), Some(block))] + [BlockDelta(Some(s.next), Some(d))];
          CollectSnoc(BodyOf, sent, BlockStart(Some(s.next), Some(block)));
          CollectSnoc(BodyOf, sent + [BlockStart(Some(s.next), Some(block))], BlockDelta(Some(s.next), Some(d)));
        }
      }
    } else {
      NoBodies(s, e, thinkingEnabled);
      CollectAppend(BodyOf, sent, Step(s, e, thinkingEnabled).1);
    }
  }

  lemma NoBodies(s: State, e: Event, thinkingEnabled: bool)
    requires WellOrdered(s) && !(e.BlockDelta? && e.delta.Some? && e.index.Some?)
    ensures Collect(BodyOf, Step(s, e, thinkingEnabled).1) == BodyOf(e)
  {
    hide CloseOthers, WellOrdered, ShouldDrop, Collect;
    CollectNothing(BodyOf);
    var out := Step(s, e, thinkingEnabled).1;
    if Forwarded(e, thinkingEnabled) {
      ForwardedStart(BodyOf, s, e.index.value, e.block.value, thinkingEnabled);
    } else if out != [] {
      CollectTwo(BodyOf, out[0], out[0]);
      assert out == [out[0]];
    }
  }

  /** Tool arguments for a closed block reopen it as the tool it was started as; what has no id gets one made from the index, no
      name an empty one, no input an empty object, and so does everything that was no tool. */
  lemma ReopenedToolIsCompleted(input: seq<Event>, i: int, d: DeltaBody, thinkingEnabled: bool)
    requires LastStart(input, i, thinkingEnabled).Some? && d.kind == Some("input_json_delta")
    requires !HidesDelta(input, i, d, thinkingEnabled) && forall down :: !OpenAs(Run(input, thinkingEnabled).0, i, down)
    ensures var (s, sent) := Run(input, thinkingEnabled);
            var b := LastStart(input, i, thinkingEnabled).value;
            var tool := b.kind == Some("tool_use");
            var made := if i >= 0 then "toolu_or_" + Decimal(i) else "toolu_or_-" + Decimal(-i);
            var block := ContentBlock(Some("tool_use"), "",
                                      if tool && b.id.Some? && b.id.value != "" then b.id else Some(made),
                                      if tool && b.name.Some? then b.name else Some(""),
                                      if tool && b.input.Some? then b.input else Some("{}"));
            Run(input + [BlockDelta(Some(i), Some(d))], thinkingEnabled).1
            == sent + [BlockStart(Some(s.next), Some(block))] + [BlockDelta(Some(s.next), Some(d))]
  {
    hide Run, ThinkingKind, ShouldDrop, WellOrdered;
    RunSnoc(input, BlockDelta(Some(i), Some(d)), thinkingEnabled);
    WhatIsDropped(d.kind, thinkingEnabled);
    HiddenIsDropped(input, i, thinkingEnabled);
    StateByInput(input, thinkingEnabled);
    CarryIsLastStart(input, i, thinkingEnabled);
    assert "toolu_or_" + ("-" + Decimal(if i < 0 then -i else 0)) == "toolu_or_-" + Decimal(if i < 0 then -i else 0);
    var (s, sent) := Run(input, thinkingEnabled);
    assert i in s.byUpstream && !OpenAs(s, i, s.byUpstream[i].down);
    var out := DeltaStep(s, i, d, thinkingEnabled).1;
    assert |out| == 2 ==> sent + out == sent + [out[0]] + [out[1]];
  }
}
