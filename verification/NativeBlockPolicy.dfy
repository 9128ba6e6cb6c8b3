/** Thinking policy, block renumbering and overlap repair for native Anthropic streams
    (core/anthropic/native_sse_block_policy.py). */
module NativeBlockPolicy {
  import opened Basics
  import opened StreamContract

  /** `_UpstreamBlockState`: the latest downstream segment of one upstream block. */
  datatype Segment = Segment(kind: string, down: nat, open: bool, carry: ContentBlock)

  /** `NativeSseBlockPolicyState`. `order` is the insertion order of `byUpstream`. */
  datatype State = State(
    next: nat, order: seq<int>, byUpstream: map<int, Segment>, dropped: set<int>, pending: set<int>)

  const FRESH := State(0, [], map[], {}, {})

  function DeltaBlockKind(deltaKind: Option<string>): Option<string> {
    if deltaKind == Some("thinking_delta") || deltaKind == Some("signature_delta") then Some("thinking")
    else if deltaKind == Some("text_delta") then Some("text")
    else if deltaKind == Some("input_json_delta") then Some("tool_use")
    else None
  }

  predicate ShouldDrop(kind: Option<string>, thinkingEnabled: bool) {
    && kind.Some?
    && !thinkingEnabled
    && ("redacted_thinking" <= kind.value || Contains(kind.value, "thinking"))
  }

  function GeneratedToolId(upstream: int): string {
    "toolu_or_" + if upstream < 0 then "-" + Decimal(-upstream) else Decimal(upstream)
  }

  function SyntheticStart(kind: string, upstream: int, storedTool: Option<ContentBlock>): ContentBlock {
    if kind == "tool_use" then
      if storedTool.Some? && storedTool.value.kind == Some("tool_use") then
        var tool := storedTool.value;
        ContentBlock(
          Some("tool_use"), "",
          Some(if tool.id.Some? && tool.id.value != "" then tool.id.value else GeneratedToolId(upstream)),
          Some(if tool.name.Some? then tool.name.value else ""),
          Some(if tool.input.Some? then tool.input.value else "{}"))
      else
        ContentBlock(Some("tool_use"), "", Some(GeneratedToolId(upstream)), Some(""), Some("{}"))
    else if kind == "thinking" then ContentBlock(Some("thinking"), "", None, None, None)
    else ContentBlock(Some("text"), "", None, None, None)
  }

  function StoredTool(carry: ContentBlock): Option<ContentBlock> {
    if carry.kind == Some("tool_use") then Some(carry) else None
  }

  /** A synthetic stop for one block, whose own stop is then swallowed. */
  function CloseOne(s: State, upstream: int): State
    requires upstream in s.byUpstream
  {
    s.(byUpstream := s.byUpstream[upstream := s.byUpstream[upstream].(open := false)],
       pending := s.pending + {upstream})
  }

  predicate WellOrdered(s: State) {
    && (forall k | 0 <= k < |s.order| :: s.order[k] in s.byUpstream)
    && (forall i | i in s.byUpstream :: i in s.order)
  }

  /** `_synthetic_close_other_open_blocks` after `n` dictionary entries. */
  function CloseOthers(s: State, current: int, n: nat): (r: (State, seq<Event>))
    requires WellOrdered(s) && n <= |s.order|
    ensures r.0.order == s.order && r.0.byUpstream.Keys == s.byUpstream.Keys
    ensures r.0.next == s.next && r.0.dropped == s.dropped
    ensures forall i | i in s.byUpstream :: r.0.byUpstream[i].carry == s.byUpstream[i].carry
  {
    if n == 0 then (s, [])
    else
      var (before, stops) := CloseOthers(s, current, n - 1);
      var upstream := s.order[n - 1];
      if upstream == current || !before.byUpstream[upstream].open then (before, stops)
      else (CloseOne(before, upstream), stops + [BlockStop(Some(before.byUpstream[upstream].down))])
  }

  function Allocate(s: State, upstream: int, kind: string, carry: ContentBlock): State {
    s.(next := s.next + 1,
       order := if upstream in s.byUpstream then s.order else s.order + [upstream],
       byUpstream := s.byUpstream[upstream := Segment(kind, s.next, true, carry)])
  }

  function StartStep(s: State, i: int, b: ContentBlock, thinkingEnabled: bool): (r: (State, seq<Event>))
    requires WellOrdered(s)
    ensures WellOrdered(r.0)
  {
    if ShouldDrop(b.kind, thinkingEnabled) then (s.(dropped := s.dropped + {i}), [])
    else if b.kind.None? then (s, [BlockStart(Some(i), Some(b))])
    else
      var (closed, stops) := CloseOthers(s, i, |s.order|);
      (Allocate(closed, i, b.kind.value, b), stops + [BlockStart(Some(closed.next), Some(b))])
  }

  function DeltaStep(s: State, i: int, d: DeltaBody, thinkingEnabled: bool): (r: (State, seq<Event>))
    requires WellOrdered(s)
    ensures WellOrdered(r.0)
  {
    var kind := DeltaBlockKind(d.kind);
    if i in s.dropped || ShouldDrop(d.kind, thinkingEnabled) then (s, [])
    else if kind.None? then (s, [BlockDelta(Some(i), Some(d))])
    else if i in s.byUpstream && s.byUpstream[i].open then
      (s, [BlockDelta(Some(s.byUpstream[i].down), Some(d))])
    else if i in s.byUpstream then
      var carry := s.byUpstream[i].carry;
      (Allocate(s.(pending := s.pending - {i}), i, kind.value, carry),
       [BlockStart(Some(s.next), Some(SyntheticStart(kind.value, i, StoredTool(carry)))),
        BlockDelta(Some(s.next), Some(d))])
    else if kind.value != "thinking" then
      var block := SyntheticStart(kind.value, i, None);
      (Allocate(s, i, kind.value, block),
       [BlockStart(Some(s.next), Some(block)), BlockDelta(Some(s.next), Some(d))])
    else (s, [BlockDelta(Some(i), Some(d))])
  }

  function StopStep(s: State, i: int, thinkingEnabled: bool): (r: (State, seq<Event>))
    requires WellOrdered(s)
    ensures WellOrdered(r.0)
  {
    if i in s.dropped then (s, [])
    else if i in s.pending then (s.(pending := s.pending - {i}), [])
    else if i in s.byUpstream && s.byUpstream[i].open then
      (s.(byUpstream := s.byUpstream[i := s.byUpstream[i].(open := false)]),
       [BlockStop(Some(s.byUpstream[i].down))])
    else if i in s.byUpstream || !thinkingEnabled then (s, [])
    else (s, [BlockStop(Some(i))])
  }

  /** `transform_native_sse_block_event` on one parsed event: the new state and what is sent on. */
  function Step(s: State, e: Event, thinkingEnabled: bool): (r: (State, seq<Event>))
    requires WellOrdered(s)
    ensures WellOrdered(r.0)
  {
    match e
    case BlockStart(Some(i), Some(b)) => StartStep(s, i, b, thinkingEnabled)
    case BlockDelta(Some(i), Some(d)) => DeltaStep(s, i, d, thinkingEnabled)
    case BlockStop(Some(i)) => StopStep(s, i, thinkingEnabled)
    case _ => (s, [e])
  }

  function Run(input: seq<Event>, thinkingEnabled: bool): (r: (State, seq<Event>))
    ensures WellOrdered(r.0)
  {
    if input == [] then (FRESH, [])
    else
      var (s, sent) := Run(input[..|input| - 1], thinkingEnabled);
      var (s', out) := Step(s, input[|input| - 1], thinkingEnabled);
      (s', sent + out)
  }

  lemma RunSnoc(input: seq<Event>, e: Event, thinkingEnabled: bool)
    ensures Run(input + [e], thinkingEnabled)
         == var (s, sent) := Run(input, thinkingEnabled);
            var (s', out) := Step(s, e, thinkingEnabled);
            (s', sent + out)
  {
    assert (input + [e])[..|input|] == input;
  }

  /** What has been sent stays sent. */
  lemma {:induction false} SentMore(before: seq<Event>, after: seq<Event>, thinkingEnabled: bool) returns (rest: seq<Event>)
    ensures Run(before + after, thinkingEnabled).1 == Run(before, thinkingEnabled).1 + rest
  {
    hide Run, Step;
    if after == [] {
      assert before + after == before;
      rest := [];
    } else {
      var init, e := after[..|after| - 1], after[|after| - 1];
      rest := SentMore(before, init, thinkingEnabled);
      RunSnoc(before + init, e, thinkingEnabled);
      assert before + after == before + init + [e];
      rest := rest + Step(Run(before + init, thinkingEnabled).0, e, thinkingEnabled).1;
    }
  }

  lemma NoOthersClosed(s: State, current: int)
    requires WellOrdered(s)
    ensures CloseOthers(s, current, 0) == (s, [])
  {}

  lemma OrderIsKnown(s: State)
    requires WellOrdered(s)
    ensures forall k | 0 <= k < |s.order| :: s.order[k] in s.byUpstream
  {}

  lemma NextOtherClosed(s: State, current: int, n: nat)
    requires WellOrdered(s) && n < |s.order|
    ensures s.order[n] in CloseOthers(s, current, n).0.byUpstream
    ensures CloseOthers(s, current, n + 1)
         == var (before, stops) := CloseOthers(s, current, n);
            var upstream := s.order[n];
            if upstream == current || !before.byUpstream[upstream].open then (before, stops)
            else (CloseOne(before, upstream), stops + [BlockStop(Some(before.byUpstream[upstream].down))])
  {}

  /** The object the transport keeps for one stream. */
  class BlockPolicy {
    var nextIndex: nat
    var order: seq<int>
    var byUpstream: map<int, Segment>
    var dropped: set<int>
    var pending: set<int>

    function Now(): State reads this {
      State(nextIndex, order, byUpstream, dropped, pending)
    }

    constructor ()
      ensures Now() == FRESH
    {
      nextIndex, order, byUpstream, dropped, pending := 0, [], map[], {}, {};
    }

    method SyntheticCloseOtherOpenBlocks(current: int) returns (out: seq<Event>)
      requires WellOrdered(Now())
      modifies `byUpstream, `pending
      ensures (Now(), out) == CloseOthers(old(Now()), current, |order|)
    {
      hide CloseOthers, WellOrdered;
      ghost var s := Now();
      out := [];
      NoOthersClosed(s, current);
      OrderIsKnown(s);
      for n := 0 to |order|
        invariant Now() == CloseOthers(s, current, n).0
        invariant out == CloseOthers(s, current, n).1
      {
        var upstream := order[n];
        NextOtherClosed(s, current, n);
        var segment := byUpstream[upstream];
        if upstream != current && segment.open {
          out := out + [BlockStop(Some(segment.down))];
          byUpstream := byUpstream[upstream := segment.(open := false)];
          pending := pending + {upstream};
        }
      }
    }

    method AllocateNewSegment(upstream: int, kind: string, carry: ContentBlock) returns (newIndex: nat)
      modifies `nextIndex, `order, `byUpstream
      ensures Now() == Allocate(old(Now()), upstream, kind, carry) && newIndex == old(nextIndex)
    {
      newIndex := nextIndex;
      nextIndex := nextIndex + 1;
      if upstream !in byUpstream { order := order + [upstream]; }
      byUpstream := byUpstream[upstream := Segment(kind, newIndex, true, carry)];
    }

    method Transform(e: Event, thinkingEnabled: bool) returns (out: seq<Event>)
      requires WellOrdered(Now())
      modifies this
      ensures (Now(), out) == Step(old(Now()), e, thinkingEnabled)
    {
      match e {
        case BlockStart(index, block) =>
          if block.None? || index.None? { return [e]; }
          var upstream, b := index.value, block.value;
          if ShouldDrop(b.kind, thinkingEnabled) {
            dropped := dropped + {upstream};
            return [];
          }
          if b.kind.None? { return [e]; }
          var prefix := SyntheticCloseOtherOpenBlocks(upstream);
          var newIndex := AllocateNewSegment(upstream, b.kind.value, b);
          return prefix + [BlockStart(Some(newIndex), block)];

        case BlockDelta(index, delta) =>
          if delta.None? || index.None? { return [e]; }
          var upstream, kind := index.value, DeltaBlockKind(delta.value.kind);
          if upstream in dropped { return []; }
          if ShouldDrop(delta.value.kind, thinkingEnabled) { return []; }
          if kind.None? { return [e]; }
          if upstream in byUpstream && byUpstream[upstream].open {
            return [BlockDelta(Some(byUpstream[upstream].down), delta)];
          }
          if upstream in byUpstream {
            pending := pending - {upstream};
            var carry := byUpstream[upstream].carry;
            var newIndex := AllocateNewSegment(upstream, kind.value, carry);
            var start := SyntheticStart(kind.value, upstream, StoredTool(carry));
            return [BlockStart(Some(newIndex), Some(start)), BlockDelta(Some(newIndex), delta)];
          }
          if kind.value in {"text", "tool_use"} {
            var start := SyntheticStart(kind.value, upstream, None);
            var newIndex := AllocateNewSegment(upstream, kind.value, start);
            return [BlockStart(Some(newIndex), Some(start)), BlockDelta(Some(newIndex), delta)];
          }
          return [e];

        case BlockStop(index) =>
          if index.None? { return [e]; }
          var upstream := index.value;
          if upstream in dropped { return []; }
          if upstream in pending {
            pending := pending - {upstream};
            return [];
          }
          if upstream in byUpstream && byUpstream[upstream].open {
            var segment := byUpstream[upstream];
            byUpstream := byUpstream[upstream := segment.(open := false)];
            return [BlockStop(Some(segment.down))];
          }
          if upstream in byUpstream { return []; }
          if !thinkingEnabled { return []; }
          return [e];

        case _ => return [e];
      }
    }
  }

  /** One stream pushed through a fresh policy object, event by event. */
  method TransformStream(input: seq<Event>, thinkingEnabled: bool) returns (out: seq<Event>)
    ensures out == Run(input, thinkingEnabled).1
  {
    var policy := new BlockPolicy();
    out := [];
    for n := 0 to |input|
      invariant fresh(policy)
      invariant (policy.Now(), out) == Run(input[..n], thinkingEnabled)
    {
      assert input[..n + 1][..n] == input[..n];
      var sent := policy.Transform(input[n], thinkingEnabled);
      out := out + sent;
    }
    assert input[..|input|] == input;
  }
}
