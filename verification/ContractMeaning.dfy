/** What the stream contract says of a stream's events and their places, without a checker's state. */
module ContractMeaning {
  import opened Basics
  import opened StreamContract

  predicate StartsBlock(e: Event, i: int) {
    e.BlockStart? && e.index == Some(i)
  }

  /** Block `i` was started at place `j` and has not been stopped since. */
  predicate OpenSince(before: seq<Event>, j: int, i: int) {
    0 <= j < |before| && StartsBlock(before[j], i) && forall m | j < m < |before| :: before[m] != BlockStop(Some(i))
  }

  /** The deltas a block takes. One whose text came with its start takes none. */
  predicate Takes(b: ContentBlock, deltaKind: string) {
    || (b.kind == Some("text") && Blank(b.text) && deltaKind == "text_delta")
    || (b.kind == Some("thinking") && (deltaKind == "thinking_delta" || deltaKind == "signature_delta"))
    || (b.kind == Some("tool_use") && deltaKind == "input_json_delta")
  }

  predicate KnownBlock(kind: string) {
    || kind == "text" || kind == "thinking" || kind == "tool_use" || kind == "redacted_thinking"
    || kind == "server_tool_use" || kind == "web_search_tool_result" || kind == "web_fetch_tool_result"
  }

  /** An event may come after those before it: no index is started twice; deltas and stops come for blocks that are open. */
  ghost predicate InOrder(before: seq<Event>, e: Event) {
    match e
    case BlockStart(index, block) =>
      && index.Some? && block.Some? && block.value.kind.Some? && KnownBlock(block.value.kind.value)
      && forall j | 0 <= j < |before| :: !StartsBlock(before[j], index.value)
    case BlockDelta(index, delta) =>
      && index.Some? && delta.Some? && delta.value.kind.Some?
      && exists j :: OpenSince(before, j, index.value) && before[j].block.Some?
                     && Takes(before[j].block.value, delta.value.kind.value)
    case BlockStop(index) => index.Some? && exists j :: OpenSince(before, j, index.value)
    case _ => true
  }

  ghost predicate AllInOrder(events: seq<Event>) {
    forall k | 0 <= k < |events| :: InOrder(events[..k], events[k])
  }

  /** What the checker knows after some events. */
  ghost predicate Knows(before: seq<Event>, c: Blocks) {
    && (forall i :: i in c.seen <==> exists j :: 0 <= j < |before| && StartsBlock(before[j], i))
    && KnowsOpen(before, c.open)
  }

  lemma OpenSinceSnoc(before: seq<Event>, e: Event, j: int, i: int)
    ensures OpenSince(before + [e], j, i)
       <==> (OpenSince(before, j, i) && e != BlockStop(Some(i))) || (j == |before| && StartsBlock(e, i))
  {
    var all := before + [e];
    if OpenSince(all, j, i) && j < |before| {
      assert all[|before|] != BlockStop(Some(i));
      assert forall m | j < m < |before| :: before[m] == all[m];
    }
  }

  lemma KnowsWhatComes(before: seq<Event>, c: Blocks, e: Event)
    requires Knows(before, c) && forall i | i in c.open :: i in c.seen
    ensures StreamContract.Observe(c, e).Some? <==> InOrder(before, e)
  {
    hide Storage, Takes, DeltaFits;
    if e.BlockDelta? && e.index.Some? && e.delta.Some? && e.delta.value.kind.Some? {
      var i, kind := e.index.value, e.delta.value.kind.value;
      forall j | OpenSince(before, j, i) ensures Takes(before[j].block.value, kind) <==> DeltaFits(c.open[i], kind) {
        TakesWhatFits(before[j].block.value, kind);
      }
    }
  }

  lemma TakesWhatFits(b: ContentBlock, deltaKind: string)
    requires b.kind.Some?
    ensures Takes(b, deltaKind) <==> DeltaFits(Storage(b), deltaKind)
  {
    hide Blank;
  }

  lemma KnowsNext(before: seq<Event>, c: Blocks, e: Event)
    requires Knows(before, c) && StreamContract.Observe(c, e).Some?
    ensures Knows(before + [e], StreamContract.Observe(c, e).value)
  {
    SeenNext(before, c, e);
    OpenNext(before, c, e);
    hide StreamContract.Observe, StartsBlock;
  }

  lemma SeenNext(before: seq<Event>, c: Blocks, e: Event)
    requires forall i :: i in c.seen <==> exists j :: 0 <= j < |before| && StartsBlock(before[j], i)
    requires StreamContract.Observe(c, e).Some?
    ensures var all, c' := before + [e], StreamContract.Observe(c, e).value;
            forall i :: i in c'.seen <==> exists j :: 0 <= j < |all| && StartsBlock(all[j], i)
  {
    hide Storage, DeltaFits;
    var all, c' := before + [e], StreamContract.Observe(c, e).value;
    assert forall i :: i in c'.seen <==> i in c.seen || StartsBlock(e, i);
    hide StreamContract.Observe, StartsBlock;
    forall i ensures i in c'.seen <==> exists j :: 0 <= j < |all| && StartsBlock(all[j], i) {
      if i in c.seen {
        var j :| 0 <= j < |before| && StartsBlock(before[j], i);
        assert StartsBlock(all[j], i);
      }
      if StartsBlock(e, i) { assert StartsBlock(all[|before|], i); }
    }
  }

  /** The open blocks, each with the kind it is remembered as. */
  ghost predicate KnowsOpen(before: seq<Event>, open: map<int, string>) {
    && (forall i :: i in open <==> exists j :: OpenSince(before, j, i))
    && (forall i, j | OpenSince(before, j, i) :: RememberedAs(before, open, j, i))
  }

  predicate RememberedAs(before: seq<Event>, open: map<int, string>, j: int, i: int) {
    && 0 <= j < |before| && before[j].BlockStart? && before[j].block.Some? && before[j].block.value.kind.Some?
    && i in open && open[i] == Storage(before[j].block.value)
  }

  lemma ObserveOpens(c: Blocks, e: Event)
    requires StreamContract.Observe(c, e).Some?
    ensures var open := StreamContract.Observe(c, e).value.open;
            if e.BlockStart? then
              && e.index.Some? && e.block.Some? && e.block.value.kind.Some?
              && open == c.open[e.index.value := Storage(e.block.value)] && e.index.value !in c.open
            else if e.BlockStop? then e.index.Some? && open == c.open - {e.index.value}
            else open == c.open
  {
    hide Storage, DeltaFits;
  }

  lemma OpenNext(before: seq<Event>, c: Blocks, e: Event)
    requires KnowsOpen(before, c.open) && StreamContract.Observe(c, e).Some?
    ensures KnowsOpen(before + [e], StreamContract.Observe(c, e).value.open)
  {
    var all, open := before + [e], StreamContract.Observe(c, e).value.open;
    ObserveOpens(c, e);
    hide Storage, DeltaFits, StreamContract.Observe, OpenSince, RememberedAs;
    forall i ensures i in open <==> exists j :: OpenSince(all, j, i) {
      forall j { OpenSinceSnoc(before, e, j, i); }
      if i in c.open && e != BlockStop(Some(i)) {
        var j :| OpenSince(before, j, i);
        assert OpenSince(all, j, i);
      }
      if StartsBlock(e, i) { assert OpenSince(all, |before|, i); }
    }
    forall i, j | OpenSince(all, j, i) ensures RememberedAs(all, open, j, i) {
      OpenSinceSnoc(before, e, j, i);
      RememberedNext(before, c, e, j, i);
    }
  }

  lemma RememberedNext(before: seq<Event>, c: Blocks, e: Event, j: int, i: int)
    requires StreamContract.Observe(c, e).Some?
    requires (RememberedAs(before, c.open, j, i) && e != BlockStop(Some(i))) || (j == |before| && StartsBlock(e, i))
    ensures RememberedAs(before + [e], StreamContract.Observe(c, e).value.open, j, i)
  {
    ObserveOpens(c, e);
    hide Storage, StreamContract.Observe;
  }

  lemma {:induction false} CheckedIsInOrder(events: seq<Event>)
    ensures Replay(events).Some? <==> AllInOrder(events)
    ensures Replay(events).Some? ==>
              Knows(events, Replay(events).value) && forall i | i in Replay(events).value.open :: i in Replay(events).value.seen
  {
    hide InOrder, Knows, StreamContract.Observe;
    if events == [] {
      NothingKnown();
    } else {
      var before, e := events[..|events| - 1], events[|events| - 1];
      CheckedIsInOrder(before);
      assert before + [e] == events;
      assert forall k | 0 <= k < |before| :: events[..k] == before[..k] && events[k] == before[k];
      if AllInOrder(before) {
        KnowsWhatComes(before, Replay(before).value, e);
        if InOrder(before, e) {
          KnowsNext(before, Replay(before).value, e);
          OpenIsSeen(Replay(before).value, e);
        }
      }
      assert AllInOrder(events) <==> AllInOrder(before) && InOrder(before, e) by { InOrderSnoc(before, e); }
    }
  }

  lemma InOrderSnoc(before: seq<Event>, e: Event)
    ensures AllInOrder(before + [e]) <==> AllInOrder(before) && InOrder(before, e)
  {
    hide InOrder;
    var all := before + [e];
    assert all[..|before|] == before && all[|before|] == e;
    forall k | 0 <= k < |before| ensures all[..k] == before[..k] && all[k] == before[k] {}
    if AllInOrder(all) {
      assert InOrder(all[..|before|], all[|before|]);
      forall k | 0 <= k < |before| ensures InOrder(before[..k], before[k]) {
        assert InOrder(all[..k], all[k]);
      }
    }
  }

  lemma NothingKnown()
    ensures Knows([], NO_BLOCKS) && Replay([]) == Some(NO_BLOCKS)
  {}

  lemma OpenIsSeen(c: Blocks, e: Event)
    requires (forall i | i in c.open :: i in c.seen) && StreamContract.Observe(c, e).Some?
    ensures forall i | i in StreamContract.Observe(c, e).value.open :: i in StreamContract.Observe(c, e).value.seen
  {}

  /** A stream meets the contract if and only if it starts a message and some block, ends with `message_stop`, has no error
      (unless allowed), starts no index twice, sends deltas and stops only for open blocks, and stops every block. */
  lemma ContractMeans(events: seq<Event>, allowError: bool)
    ensures Contract(events, allowError)
       <==> && (exists k :: 0 <= k < |events| && events[k].MessageStart?)
            && events[|events| - 1].MessageStop?
            && (allowError || forall k | 0 <= k < |events| :: !events[k].Error?)
            && AllInOrder(events)
            && (exists k :: 0 <= k < |events| && events[k].BlockStart?)
            && forall i, j :: !OpenSince(events, j, i)
  {
    CheckedIsInOrder(events);
    hide InOrder, StreamContract.Observe, Replay, ReplayFrom;
    if AllInOrder(events) {
      var c := Replay(events).value;
      if exists k :: 0 <= k < |events| && events[k].BlockStart? {
        var k :| 0 <= k < |events| && events[k].BlockStart?;
        assert InOrder(events[..k], events[k]);
        StartHasIndex(events[..k], events[k]);
        assert StartsBlock(events[k], events[k].index.value) && events[k].index.value in c.seen;
      }
      if c.seen != {} {
        EmptyOrInhabited(c.seen);
        var i :| i in c.seen;
        var k :| 0 <= k < |events| && StartsBlock(events[k], i);
        assert events[k].BlockStart?;
      }
      if forall i, j :: !OpenSince(events, j, i) {
        assert forall i :: i !in c.open;
        NoKeys(c.open);
      }
    }
  }

  lemma StartHasIndex(before: seq<Event>, e: Event)
    requires InOrder(before, e) && e.BlockStart?
    ensures e.index.Some?
  {}

  /** What a client reads: text given with a start and in text deltas; thinking in thinking deltas; nothing else. */
  lemma ReadsTextAndThinking(i: int, a: string, b: string, c: string, d: string)
    ensures var text := BlockStart(Some(i), Some(ContentBlock(Some("text"), a, None, None, None)));
            var events := [text] + [BlockDelta(Some(i), Some(DeltaBody(Some("text_delta"), b)))]
                          + [BlockStart(Some(i), Some(ContentBlock(Some("thinking"), b, None, None, None)))]
                          + [BlockDelta(Some(i), Some(DeltaBody(Some("thinking_delta"), c)))]
                          + [BlockDelta(Some(i), Some(DeltaBody(Some("input_json_delta"), d)))];
            Collect(TextOf, events) == a + b && Collect(ThinkingOf, events) == c
  {
    var e1 := BlockStart(Some(i), Some(ContentBlock(Some("text"), a, None, None, None)));
    var e2 := BlockDelta(Some(i), Some(DeltaBody(Some("text_delta"), b)));
    var e3 := BlockStart(Some(i), Some(ContentBlock(Some("thinking"), b, None, None, None)));
    var e4 := BlockDelta(Some(i), Some(DeltaBody(Some("thinking_delta"), c)));
    var e5 := BlockDelta(Some(i), Some(DeltaBody(Some("input_json_delta"), d)));
    CollectTwo(TextOf, e1, e2);
    CollectTwo(ThinkingOf, e1, e2);
    assert [e1] + [e2] == [e1, e2];
    CollectSnoc(TextOf, [e1] + [e2], e3);
    CollectSnoc(ThinkingOf, [e1] + [e2], e3);
    CollectSnoc(TextOf, [e1] + [e2] + [e3], e4);
    CollectSnoc(ThinkingOf, [e1] + [e2] + [e3], e4);
    CollectSnoc(TextOf, [e1] + [e2] + [e3] + [e4], e5);
    CollectSnoc(ThinkingOf, [e1] + [e2] + [e3] + [e4], e5);
  }
}
