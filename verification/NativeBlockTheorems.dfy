/** What the native block policy guarantees for a whole stream. */
module NativeBlockTheorems {
  import opened Basics
  import opened StreamContract
  import opened NativeBlockPolicy
  import opened NativeBlockTracking

  // ---- The stream contract ----

  /** Everything that is not a content-block event. */
  function NonBlock(e: Event): seq<Event> {
    if e.BlockStart? || e.BlockDelta? || e.BlockStop? then [] else [e]
  }

  /** Reading nothing off a stop, one reads nothing off the stops sent to repair an overlap. */
  lemma {:induction false} StopsAreSilent<T>(f: Event -> seq<T>, s: State, i: int, n: nat)
    requires WellOrdered(s) && n <= |s.order|
    requires forall index :: f(BlockStop(index)) == []
    ensures Collect(f, CloseOthers(s, i, n).1) == []
  {
    if n > 0 {
      StopsAreSilent(f, s, i, n - 1);
      var before := CloseOthers(s, i, n - 1).0;
      CollectSnoc(f, CloseOthers(s, i, n - 1).1, BlockStop(Some(before.byUpstream[s.order[n - 1]].down)));
    }
  }

  /** A forwarded start sends the stops that repair the overlap, then the start under the next index. */
  lemma ForwardedStart<T>(f: Event -> seq<T>, s: State, i: int, b: ContentBlock, thinkingEnabled: bool)
    requires WellOrdered(s) && !ShouldDrop(b.kind, thinkingEnabled) && b.kind.Some?
    requires forall index :: f(BlockStop(index)) == []
    ensures Collect(f, StartStep(s, i, b, thinkingEnabled).1) == f(BlockStart(Some(s.next), Some(b)))
  {
    StopsAreSilent(f, s, i, |s.order|);
    CollectSnoc(f, CloseOthers(s, i, |s.order|).1, BlockStart(Some(s.next), Some(b)));
  }

  lemma StepPassesOthers(s: State, e: Event, thinkingEnabled: bool)
    requires WellOrdered(s)
    ensures Collect(NonBlock, Step(s, e, thinkingEnabled).1) == NonBlock(e)
  {
    hide Collect, CloseOthers, Allocate, SyntheticStart, WellOrdered;
    var out := Step(s, e, thinkingEnabled).1;
    CollectNothing(NonBlock);
    if e.BlockStart? && e.index.Some? && e.block.Some? {
      if !ShouldDrop(e.block.value.kind, thinkingEnabled) && e.block.value.kind.Some? {
        ForwardedStart(NonBlock, s, e.index.value, e.block.value, thinkingEnabled);
      } else {
        CollectTwo(NonBlock, e, e);
      }
    } else if out != [] {
      CollectTwo(NonBlock, out[0], out[|out| - 1]);
    }
  }

  /** Every other event passes through unchanged and in order; nothing is invented. Holds for any input. */
  lemma {:induction false} OtherEventsPassThrough(input: seq<Event>, thinkingEnabled: bool)
    ensures Collect(NonBlock, Run(input, thinkingEnabled).1) == Collect(NonBlock, input)
  {
    if input != [] {
      var before, e := input[..|input| - 1], input[|input| - 1];
      OtherEventsPassThrough(before, thinkingEnabled);
      var (s, sent) := Run(before, thinkingEnabled);
      StepPassesOthers(s, e, thinkingEnabled);
      CollectAppend(NonBlock, sent, Step(s, e, thinkingEnabled).1);
    }
  }

  /** What the policy never looks at: other events, and block events without an index or a body. */
  predicate PassedRaw(e: Event) {
    match e
    case BlockStart(index, block) => index.None? || block.None?
    case BlockDelta(index, delta) => index.None? || delta.None?
    case BlockStop(index) => index.None?
    case _ => true
  }

  /** Such an event stays in its place: taking it out of the input takes it out of the output, and changes nothing else. */
  lemma {:induction false} OtherEventsStayInPlace(before: seq<Event>, e: Event, after: seq<Event>, thinkingEnabled: bool)
    requires PassedRaw(e)
    ensures var (s, sent) := Run(before + after, thinkingEnabled);
            var front := Run(before, thinkingEnabled).1;
            front <= sent && Run(before + [e] + after, thinkingEnabled) == (s, front + [e] + sent[|front|..])
  {
    hide Run, Step;
    RunSnoc(before, e, thinkingEnabled);
    if after == [] {
      assert before + after == before && before + [e] + after == before + [e];
      var sent := Run(before, thinkingEnabled).1;
      assert sent[|sent|..] == [] && sent + [e] + [] == sent + [e];
      RawStep(Run(before, thinkingEnabled).0, e, thinkingEnabled);
    } else {
      var init, last := after[..|after| - 1], after[|after| - 1];
      OtherEventsStayInPlace(before, e, init, thinkingEnabled);
      RunSnoc(before + init, last, thinkingEnabled);
      RunSnoc(before + [e] + init, last, thinkingEnabled);
      assert before + after == before + init + [last] && before + [e] + after == before + [e] + init + [last];
      InsertedBefore(Run(before, thinkingEnabled).1, [e], Run(before + init, thinkingEnabled).1,
                     Step(Run(before + init, thinkingEnabled).0, last, thinkingEnabled).1);
    }
  }

  lemma RawStep(s: State, e: Event, thinkingEnabled: bool)
    requires WellOrdered(s) && PassedRaw(e)
    ensures Step(s, e, thinkingEnabled) == (s, [e])
  {}

  lemma InsertedBefore(front: seq<Event>, one: seq<Event>, sent: seq<Event>, out: seq<Event>)
    requires front <= sent
    ensures front <= sent + out && front + one + sent[|front|..] + out == front + one + (sent + out)[|front|..]
  {}

  lemma {:induction false} NonBlockMembers(events: seq<Event>)
    ensures forall e :: e in Collect(NonBlock, events) <==> e in events && NonBlock(e) != []
  {
    if events != [] {
      NonBlockMembers(events[..|events| - 1]);
      assert events == events[..|events| - 1] + [events[|events| - 1]];
    }
  }

  /** All blocks are closed, there was one, and none was started while it was open. */
  predicate Settled(u: Upstream) {
    u.open == {} && u.seen != {} && !u.restarted
  }

  lemma SettledLeavesNothingOpen(s: State, c: Blocks, u: Upstream, owners: seq<int>)
    requires Agree(s, c, u, owners) && Settled(u)
    ensures c.open == map[] && c.seen != {}
  {
    assert forall d :: d !in c.open;
    NoKeys(c.open);
    EmptyOrInhabited(u.seen);
    var j :| j in u.seen;
    assert s.byUpstream[j].down in c.seen;
  }

  lemma UnsettledLeavesSomethingOpen(s: State, c: Blocks, u: Upstream, owners: seq<int>)
    requires Agree(s, c, u, owners) && KeepsAbandoned(s, c, u, owners) && !Settled(u)
    ensures c.open != map[] || c.seen == {}
  {
    if u.restarted {
      var d :| Abandoned(s, c, owners, d);
    } else if u.open != {} {
      EmptyOrInhabited(u.open);
      var i :| i in u.open;
      assert s.byUpstream[i].down in c.open;
    } else {
      SeenSomething(s, c, u, owners);
      EmptyOrInhabited(c.seen);
    }
  }

  lemma SeenSomething(s: State, c: Blocks, u: Upstream, owners: seq<int>)
    requires Agree(s, c, u, owners)
    ensures s.next > 0 ==> u.seen != {}
  {
    if s.next > 0 { assert owners[0] in u.seen; }
  }

  lemma NonBlockSurvives(input: seq<Event>, thinkingEnabled: bool)
    ensures forall e :: NonBlock(e) != [] ==> (e in Run(input, thinkingEnabled).1 <==> e in input)
  {
    OtherEventsPassThrough(input, thinkingEnabled);
    NonBlockMembers(input);
    NonBlockMembers(Run(input, thinkingEnabled).1);
  }

  lemma StartsAndErrorsSurvive(input: seq<Event>, thinkingEnabled: bool)
    ensures HasStart(Run(input, thinkingEnabled).1) <==> HasStart(input)
    ensures NoErrors(Run(input, thinkingEnabled).1) <==> NoErrors(input)
  {
    var out := Run(input, thinkingEnabled).1;
    NonBlockSurvives(input, thinkingEnabled);
    StartIsMember(input);
    StartIsMember(out);
    ErrorIsMember(input);
    ErrorIsMember(out);
    assert forall e: Event :: e.MessageStart? || e.Error? ==> NonBlock(e) != [];
  }

  lemma StartIsMember(events: seq<Event>)
    ensures HasStart(events) <==> exists e :: e in events && e.MessageStart?
  {
    if HasStart(events) {
      var i :| 0 <= i < |events| && events[i].MessageStart?;
      assert events[i] in events;
    }
  }

  lemma ErrorIsMember(events: seq<Event>)
    ensures NoErrors(events) <==> forall e | e in events :: !e.Error?
  {
    if forall e | e in events :: !e.Error? {
      forall i | 0 <= i < |events| ensures !events[i].Error? { assert events[i] in events; }
    }
  }

  /** Exactly when the output meets the contract, for every upstream stream that keeps the rules in `Track` and ends with
      `message_stop`: every block has been closed downstream, and no block was started again while it was open. */
  lemma ContractExactlyWhenSettled(input: seq<Event>, thinkingEnabled: bool, allowError: bool)
    requires TrackAll(input, thinkingEnabled).Some? && input != [] && input[|input| - 1].MessageStop?
    ensures Contract(Run(input, thinkingEnabled).1, allowError)
       <==> HasStart(input) && (allowError || NoErrors(input)) && Settled(TrackAll(input, thinkingEnabled).value)
  {
    hide Agree, Abandoned, HasStart, NoErrors;
    var (s, out) := Run(input, thinkingEnabled);
    RunAgrees(input, thinkingEnabled);
    var c, u, owners := Replay(out).value, TrackAll(input, thinkingEnabled).value, Owners(input, thinkingEnabled);
    StartsAndErrorsSurvive(input, thinkingEnabled);
    assert out[|out| - 1] == input[|input| - 1];
    if Settled(u) {
      SettledLeavesNothingOpen(s, c, u, owners);
    } else {
      UnsettledLeavesSomethingOpen(s, c, u, owners);
    }
  }

  // ---- Each block on its own ----

  /** A start or delta of block `i` that the policy lets through. */
  predicate Lets(u: Upstream, e: Event, i: int, thinkingEnabled: bool) {
    || (e.BlockStart? && e.index == Some(i) && e.block.Some? && !ShouldDrop(e.block.value.kind, thinkingEnabled))
    || (e.BlockDelta? && e.index == Some(i) && e.delta.Some? && i !in u.dropped
        && !ShouldDrop(e.delta.value.kind, thinkingEnabled))
  }

  /** Block `i` has been started, or a delta has come for it, and no stop since; whatever other blocks do. */
  predicate Unstopped(input: seq<Event>, i: int, thinkingEnabled: bool)
    requires TrackAll(input, thinkingEnabled).Some?
  {
    input != [] &&
    var before, e := input[..|input| - 1], input[|input| - 1];
    Lets(TrackAll(before, thinkingEnabled).value, e, i, thinkingEnabled)
    || (e != BlockStop(Some(i)) && Unstopped(before, i, thinkingEnabled))
  }

  /** The `n`-th event starts a block that has not been stopped. */
  predicate Restarts(input: seq<Event>, n: nat, thinkingEnabled: bool)
    requires n < |input| && TrackAll(input[..n], thinkingEnabled).Some?
  {
    && input[n].BlockStart? && input[n].index.Some? && input[n].block.Some?
    && !ShouldDrop(input[n].block.value.kind, thinkingEnabled)
    && Unstopped(input[..n], input[n].index.value, thinkingEnabled)
  }

  lemma {:induction false} TrackedBefore(input: seq<Event>, n: nat, thinkingEnabled: bool)
    requires n <= |input| && TrackAll(input, thinkingEnabled).Some?
    ensures TrackAll(input[..n], thinkingEnabled).Some?
    ensures TrackAll(input[..n], thinkingEnabled).value.restarted ==> TrackAll(input, thinkingEnabled).value.restarted
    decreases |input| - n
  {
    hide Track;
    if n == |input| {
      assert input[..n] == input;
    } else {
      TrackedBefore(input, n + 1, thinkingEnabled);
      assert input[..n + 1][..n] == input[..n];
      StaysRestarted(TrackAll(input[..n], thinkingEnabled).value, input[n], thinkingEnabled);
    }
  }

  lemma StaysRestarted(u: Upstream, e: Event, thinkingEnabled: bool)
    ensures u.restarted && Track(u, e, thinkingEnabled).Some? ==> Track(u, e, thinkingEnabled).value.restarted
  {}

  ghost predicate NoRestarts(input: seq<Event>, thinkingEnabled: bool)
    requires TrackAll(input, thinkingEnabled).Some?
  {
    forall n | 0 <= n < |input| ::
      TrackAll(input[..n], thinkingEnabled).Some? && !Restarts(input, n, thinkingEnabled)
  }

  /** Without restarts the overlap does not matter: a block is live exactly while it is unstopped. */
  ghost predicate OneByOne(u: Upstream, input: seq<Event>, thinkingEnabled: bool)
    requires TrackAll(input, thinkingEnabled).Some?
  {
    && !u.restarted && (forall i :: !(i in u.open && i in u.owed)) && u.live.Keys == u.open + u.owed
    && (forall i | i in u.live :: i !in u.dropped)
    && forall i :: i in u.live <==> Unstopped(input, i, thinkingEnabled)
  }

  lemma StepOneByOne(u: Upstream, e: Event, i: int, thinkingEnabled: bool)
    requires Track(u, e, thinkingEnabled).Some? && !u.restarted && u.live.Keys == u.open + u.owed
    requires (forall j :: !(j in u.open && j in u.owed)) && (forall j | j in u.live :: j !in u.dropped)
    requires e.BlockStart? && e.index.Some? && e.block.Some? && !ShouldDrop(e.block.value.kind, thinkingEnabled)
             ==> e.index.value !in u.live
    ensures var u' := Track(u, e, thinkingEnabled).value;
            && !u'.restarted && u'.live.Keys == u'.open + u'.owed && !(i in u'.open && i in u'.owed)
            && (i in u'.live ==> i !in u'.dropped)
            && (i in u'.live <==> Lets(u, e, i, thinkingEnabled) || (e != BlockStop(Some(i)) && i in u.live))
  {}

  lemma {:induction false} BlocksOneByOne(input: seq<Event>, thinkingEnabled: bool)
    requires TrackAll(input, thinkingEnabled).Some? && NoRestarts(input, thinkingEnabled)
    ensures OneByOne(TrackAll(input, thinkingEnabled).value, input, thinkingEnabled)
  {
    hide Track, Lets;
    if input != [] {
      var last := |input| - 1;
      var before := input[..last];
      forall n | 0 <= n < last
        ensures TrackAll(before[..n], thinkingEnabled).Some? && !Restarts(before, n, thinkingEnabled)
      {
        assert before[..n] == input[..n] && !Restarts(input, n, thinkingEnabled);
      }
      BlocksOneByOne(before, thinkingEnabled);
      assert !Restarts(input, last, thinkingEnabled);
      OneByOneSnoc(input, thinkingEnabled);
    }
  }

  lemma OneByOneSnoc(input: seq<Event>, thinkingEnabled: bool)
    requires input != [] && TrackAll(input, thinkingEnabled).Some?
    requires OneByOne(TrackAll(input[..|input| - 1], thinkingEnabled).value, input[..|input| - 1], thinkingEnabled)
    requires !Restarts(input, |input| - 1, thinkingEnabled)
    ensures OneByOne(TrackAll(input, thinkingEnabled).value, input, thinkingEnabled)
  {
    var u, e := TrackAll(input[..|input| - 1], thinkingEnabled).value, input[|input| - 1];
    var u' := TrackAll(input, thinkingEnabled).value;
    hide Track, Lets, ShouldDrop;
    StepOneByOne(u, e, 0, thinkingEnabled);
    forall i
      ensures !(i in u'.open && i in u'.owed) && (i in u'.live ==> i !in u'.dropped)
      ensures i in u'.live <==> Unstopped(input, i, thinkingEnabled)
    {
      StepOneByOne(u, e, i, thinkingEnabled);
    }
  }

  /** Overlapping upstream blocks in, a contract-abiding stream out: it is enough that each block on its own is started
      only when it has been stopped before, and is stopped in the end. */
  lemma PolicyMeetsContract(input: seq<Event>, thinkingEnabled: bool, allowError: bool)
    requires TrackAll(input, thinkingEnabled).Some? && NoRestarts(input, thinkingEnabled)
    requires forall i :: !Unstopped(input, i, thinkingEnabled)
    requires TrackAll(input, thinkingEnabled).value.seen != {}
    requires HasStart(input) && input[|input| - 1].MessageStop? && (allowError || NoErrors(input))
    ensures Contract(Run(input, thinkingEnabled).1, allowError)
  {
    hide Contract, Track, Unstopped, NoRestarts, HasStart;
    BlocksOneByOne(input, thinkingEnabled);
    var u := TrackAll(input, thinkingEnabled).value;
    EmptyOrInhabited(u.open);
    assert input != [] by { StartIsMember(input); }
    ContractExactlyWhenSettled(input, thinkingEnabled, allowError);
  }

  // ---- Numbering ----

  function StartedIndex(e: Event): seq<int> {
    if e.BlockStart? && e.index.Some? then [e.index.value] else []
  }

  /** A step starts at most one downstream block, under the next index. */
  ghost predicate NumbersOn(s: State, s': State, out: seq<Event>) {
    || (s'.next == s.next && Collect(StartedIndex, out) == [])
    || (s'.next == s.next + 1 && Collect(StartedIndex, out) == [s.next])
  }

  /** What is sent for a delta: nothing, or the delta, perhaps after an empty start. */
  lemma DeltaSends(s: State, i: int, d: DeltaBody, thinkingEnabled: bool)
    requires WellOrdered(s)
    ensures var out := DeltaStep(s, i, d, thinkingEnabled).1;
            && |out| <= 2 && (out == [] <==> i in s.dropped || ShouldDrop(d.kind, thinkingEnabled))
            && (out != [] ==> out[|out| - 1].BlockDelta? && out[|out| - 1].index.Some? && out[|out| - 1].delta == Some(d))
            && (|out| == 2 ==> out[0].BlockStart? && out[0].block.Some? && out[0].block.value.text == "")
            && (|out| == 2 <==> DeltaStep(s, i, d, thinkingEnabled).0.next == s.next + 1)
            && (|out| == 2 ==> out[0].index == Some(s.next))
            && (|out| < 2 ==> DeltaStep(s, i, d, thinkingEnabled).0.next == s.next)
  {
    hide ShouldDrop, WellOrdered;
  }

  lemma DeltaIndices(s: State, i: int, d: DeltaBody, thinkingEnabled: bool)
    requires WellOrdered(s)
    ensures NumbersOn(s, DeltaStep(s, i, d, thinkingEnabled).0, DeltaStep(s, i, d, thinkingEnabled).1)
  {
    DeltaSends(s, i, d, thinkingEnabled);
    hide DeltaStep, Collect, WellOrdered, ShouldDrop;
    var out := DeltaStep(s, i, d, thinkingEnabled).1;
    CollectNothing(StartedIndex);
    if out != [] { CollectOneOrTwo(StartedIndex, out); }
  }

  lemma StepIndices(s: State, u: Upstream, e: Event, thinkingEnabled: bool)
    requires WellOrdered(s) && Track(u, e, thinkingEnabled).Some? && u.dropped == s.dropped && u.seen == s.byUpstream.Keys
    ensures NumbersOn(s, Step(s, e, thinkingEnabled).0, Step(s, e, thinkingEnabled).1)
  {
    if e.BlockDelta? {
      DeltaIndices(s, e.index.value, e.delta.value, thinkingEnabled);
    } else if e.BlockStart? {
      if !ShouldDrop(e.block.value.kind, thinkingEnabled) {
        ForwardedStart(StartedIndex, s, e.index.value, e.block.value, thinkingEnabled);
      }
    } else {
      var out := Step(s, e, thinkingEnabled).1;
      if out != [] { CollectTwo(StartedIndex, out[0], out[0]); }
    }
  }

  /** Downstream indices are 0, 1, 2, ... in the order their blocks start. */
  lemma {:induction false} IndicesCountUp(input: seq<Event>, thinkingEnabled: bool)
    requires TrackAll(input, thinkingEnabled).Some?
    ensures var started := Collect(StartedIndex, Run(input, thinkingEnabled).1);
            |started| == Run(input, thinkingEnabled).0.next && forall d | 0 <= d < |started| :: started[d] == d
  {
    if input != [] {
      var before, e := input[..|input| - 1], input[|input| - 1];
      IndicesCountUp(before, thinkingEnabled);
      var (s, sent) := Run(before, thinkingEnabled);
      var u := TrackAll(before, thinkingEnabled).value;
      assert u.dropped == s.dropped && u.seen == s.byUpstream.Keys by { RunAgrees(before, thinkingEnabled); }
      StepIndices(s, u, e, thinkingEnabled);
      CollectAppend(StartedIndex, sent, Step(s, e, thinkingEnabled).1);
    }
  }

  lemma ForwardedStartClosesOthers(s: State, i: int, b: ContentBlock, thinkingEnabled: bool)
    requires WellOrdered(s) && !ShouldDrop(b.kind, thinkingEnabled) && b.kind.Some?
    ensures var s' := StartStep(s, i, b, thinkingEnabled).0;
            && (forall j | j in s'.byUpstream && s'.byUpstream[j].open :: j == i)
            && i in s'.byUpstream && s'.byUpstream[i] == Segment(b.kind.value, s.next, true, b)
  {
    assert s.order[..|s.order|] == s.order;
    forall j | j in s.byUpstream && j != i ensures !CloseOthers(s, i, |s.order|).0.byUpstream[j].open {
      OthersClosed(s, i, |s.order|, j);
    }
  }

  lemma OnlyOneOpen(s: State, c: Blocks, u: Upstream, owners: seq<int>, i: int)
    requires Agree(s, c, u, owners) && !u.restarted && i in s.byUpstream && s.byUpstream[i].open
    requires forall j | j in s.byUpstream && s.byUpstream[j].open :: j == i
    ensures i in u.live && forall d :: d in c.open <==> d == s.byUpstream[i].down
    ensures c.open[s.byUpstream[i].down] == u.live[i]
  {
    assert forall d | d in c.open :: owners[d] == i && s.byUpstream[owners[d]].down == d;
  }

  /** Overlap repair: right after a forwarded upstream start, its block is the only open one downstream. */
  lemma StartStandsAlone(input: seq<Event>, i: int, b: ContentBlock, thinkingEnabled: bool)
    requires var u := TrackAll(input + [BlockStart(Some(i), Some(b))], thinkingEnabled); u.Some? && !u.value.restarted
    requires !ShouldDrop(b.kind, thinkingEnabled)
    ensures var end := Replay(Run(input + [BlockStart(Some(i), Some(b))], thinkingEnabled).1);
            && end.Some? && (forall d :: d in end.value.open <==> d == Run(input, thinkingEnabled).0.next)
            && end.value.open[Run(input, thinkingEnabled).0.next] == Storage(b)
  {
    var all := input + [BlockStart(Some(i), Some(b))];
    assert all[..|input|] == input;
    RunAgrees(all, thinkingEnabled);
    ForwardedStartClosesOthers(Run(input, thinkingEnabled).0, i, b, thinkingEnabled);
    var (s', out) := Run(all, thinkingEnabled);
    OnlyOneOpen(s', Replay(out).value, TrackAll(all, thinkingEnabled).value, Owners(all, thinkingEnabled), i);
  }

  // ---- Content ----

  /** A delta sent downstream, attributed to the upstream block its downstream block is a segment of. */
  function DownPiece(owners: seq<int>): Event -> seq<(int, DeltaBody)> {
    (e: Event) => if e.BlockDelta? && e.index.Some? && e.delta.Some? && 0 <= e.index.value < |owners|
         then [(owners[e.index.value], e.delta.value)] else []
  }

  /** A delta the policy lets through. */
  function UpPiece(u: Upstream, e: Event, thinkingEnabled: bool): seq<(int, DeltaBody)> {
    if e.BlockDelta? && e.index.Some? && e.delta.Some?
       && e.index.value !in u.dropped && !ShouldDrop(e.delta.value.kind, thinkingEnabled)
    then [(e.index.value, e.delta.value)] else []
  }

  function UpPieces(input: seq<Event>, thinkingEnabled: bool): seq<(int, DeltaBody)>
    requires TrackAll(input, thinkingEnabled).Some?
  {
    if input == [] then []
    else
      var before := input[..|input| - 1];
      UpPieces(before, thinkingEnabled)
      + UpPiece(TrackAll(before, thinkingEnabled).value, input[|input| - 1], thinkingEnabled)
  }

  lemma {:induction false} PiecesSettled(sent: seq<Event>, owners: seq<int>, more: seq<int>)
    requires Replay(sent).Some? && Replay(sent).value.open.Keys <= Replay(sent).value.seen
    requires forall d | d in Replay(sent).value.seen :: 0 <= d < |owners|
    ensures Collect(DownPiece(owners + more), sent) == Collect(DownPiece(owners), sent)
  {
    if sent != [] {
      var before := sent[..|sent| - 1];
      OpenAreSeen(before);
      assert Replay(before).value.seen <= Replay(sent).value.seen;
      PiecesSettled(before, owners, more);
    }
  }

  lemma {:induction false} OpenAreSeen(sent: seq<Event>)
    requires Replay(sent).Some?
    ensures Replay(sent).value.open.Keys <= Replay(sent).value.seen
  {
    if sent != [] { OpenAreSeen(sent[..|sent| - 1]); }
  }

  lemma StepPieces(s: State, c: Blocks, u: Upstream, owners: seq<int>, e: Event, thinkingEnabled: bool)
    requires Agree(s, c, u, owners) && Track(u, e, thinkingEnabled).Some?
    ensures Collect(DownPiece(owners + StepOwners(s, e, thinkingEnabled)), Step(s, e, thinkingEnabled).1)
         == UpPiece(u, e, thinkingEnabled)
  {
    hide Collect, CloseOthers, SyntheticStart, Storage, Observe;
    var out := Step(s, e, thinkingEnabled).1;
    var f := DownPiece(owners + StepOwners(s, e, thinkingEnabled));
    CollectNothing(f);
    if e.BlockStart? && !ShouldDrop(e.block.value.kind, thinkingEnabled) {
      ForwardedStart(f, s, e.index.value, e.block.value, thinkingEnabled);
    } else if out != [] {
      CollectTwo(f, out[0], out[|out| - 1]);
    }
  }

  /** No delta is lost, repeated, altered, reordered or moved to another block: the deltas sent, attributed to
      upstream blocks, are the upstream deltas minus those the thinking policy drops. In particular the payloads
      of one upstream block, joined over all its downstream segments, are what upstream sent for it. */
  lemma {:induction false} DeltasKeepTheirBlock(input: seq<Event>, thinkingEnabled: bool)
    requires TrackAll(input, thinkingEnabled).Some?
    ensures Collect(DownPiece(Owners(input, thinkingEnabled)), Run(input, thinkingEnabled).1)
         == UpPieces(input, thinkingEnabled)
  {
    if input != [] {
      var before, e := input[..|input| - 1], input[|input| - 1];
      DeltasKeepTheirBlock(before, thinkingEnabled);
      RunAgrees(before, thinkingEnabled);
      var (s, sent) := Run(before, thinkingEnabled);
      var owners := Owners(before, thinkingEnabled);
      OpenAreSeen(sent);
      PiecesSettled(sent, owners, StepOwners(s, e, thinkingEnabled));
      StepPieces(s, Replay(sent).value, TrackAll(before, thinkingEnabled).value, owners, e, thinkingEnabled);
      CollectAppend(DownPiece(Owners(input, thinkingEnabled)), sent, Step(s, e, thinkingEnabled).1);
    }
  }

  lemma NoThinkingInKind(kind: string, thinkingEnabled: bool)
    requires forall k | 0 <= k < |kind| :: kind[k] != 'h'
    ensures !ShouldDrop(Some(kind), thinkingEnabled)
  {
    assert "redacted_thinking"[10] == "thinking"[1] == 'h';
    forall i | 0 <= i <= |kind| ensures !("thinking" <= kind[i..]) {
      assert |kind[i..]| > 1 ==> kind[i..][1] == kind[i + 1];
    }
  }

  lemma DroppedKinds()
    ensures forall thinkingEnabled :: !ShouldDrop(Some("text"), thinkingEnabled)
    ensures forall thinkingEnabled :: !ShouldDrop(Some("text_delta"), thinkingEnabled)
    ensures ShouldDrop(Some("thinking_delta"), false)
  {
    forall thinkingEnabled
      ensures !ShouldDrop(Some("text"), thinkingEnabled) && !ShouldDrop(Some("text_delta"), thinkingEnabled)
    {
      NoThinkingInKind("text", thinkingEnabled);
      NoThinkingInKind("text_delta", thinkingEnabled);
    }
    assert "thinking_delta"[0..] == "thinking_delta";
  }

  /** The indices of the blocks that the policy has dropped. */
  function DroppedBy(input: seq<Event>, thinkingEnabled: bool): set<int> {
    if input == [] then {}
    else
      var e := input[|input| - 1];
      DroppedBy(input[..|input| - 1], thinkingEnabled)
      + if e.BlockStart? && e.index.Some? && e.block.Some? && ShouldDrop(e.block.value.kind, thinkingEnabled)
        then {e.index.value} else {}
  }

  /** The indices for which a downstream block has been started. */
  function UsedBy(input: seq<Event>, thinkingEnabled: bool): set<int> {
    if input == [] then {}
    else
      var before, e := input[..|input| - 1], input[|input| - 1];
      UsedBy(before, thinkingEnabled)
      + if Forwarded(e, thinkingEnabled) || OpensBlock(before, e, thinkingEnabled) then {e.index.value} else {}
  }

  predicate Forwarded(e: Event, thinkingEnabled: bool) {
    && e.BlockStart? && e.index.Some? && e.block.Some? && e.block.value.kind.Some?
    && !ShouldDrop(e.block.value.kind, thinkingEnabled)
  }

  /** A delta that gets a block started for its index if there is none. */
  predicate OpensBlock(before: seq<Event>, e: Event, thinkingEnabled: bool) {
    && e.BlockDelta? && e.index.Some? && e.delta.Some? && e.index.value !in DroppedBy(before, thinkingEnabled)
    && !ShouldDrop(e.delta.value.kind, thinkingEnabled)
    && DeltaBlockKind(e.delta.value.kind).Some? && DeltaBlockKind(e.delta.value.kind) != Some("thinking")
  }

  lemma {:induction false} StateByInput(input: seq<Event>, thinkingEnabled: bool)
    ensures var s := Run(input, thinkingEnabled).0;
            && s.dropped == DroppedBy(input, thinkingEnabled) && s.byUpstream.Keys == UsedBy(input, thinkingEnabled)
            && s.pending <= UsedBy(input, thinkingEnabled)
  {
    hide Step, ShouldDrop, DeltaBlockKind, WellOrdered;
    if input != [] {
      var before, e := input[..|input| - 1], input[|input| - 1];
      StateByInput(before, thinkingEnabled);
      StepIndexSets(Run(before, thinkingEnabled).0, before, e, thinkingEnabled);
    }
  }

  lemma StepIndexSets(s: State, before: seq<Event>, e: Event, thinkingEnabled: bool)
    requires WellOrdered(s) && s.pending <= s.byUpstream.Keys && s.dropped == DroppedBy(before, thinkingEnabled)
    ensures var s' := Step(s, e, thinkingEnabled).0;
            && s'.dropped == s.dropped + (if e.BlockStart? && e.index.Some? && e.block.Some?
                                             && ShouldDrop(e.block.value.kind, thinkingEnabled)
                                          then {e.index.value} else {})
            && s'.byUpstream.Keys == s.byUpstream.Keys + (if Forwarded(e, thinkingEnabled)
                                                             || OpensBlock(before, e, thinkingEnabled)
                                                          then {e.index.value} else {})
            && s'.pending <= s'.byUpstream.Keys
  {
    hide ShouldDrop, WellOrdered, CloseOthers, DroppedBy;
    if Forwarded(e, thinkingEnabled) {
      ClosedAreKnown(s, e.index.value, |s.order|);
    }
  }

  lemma {:induction false} ClosedAreKnown(s: State, i: int, n: nat)
    requires WellOrdered(s) && n <= |s.order| && s.pending <= s.byUpstream.Keys
    ensures CloseOthers(s, i, n).0.pending <= s.byUpstream.Keys
  {
    hide CloseOthers, WellOrdered;
    if n > 0 {
      ClosedAreKnown(s, i, n - 1);
      CloseOthersUnfolds(s, i, n);
    } else {
      NoneClosed(s, i);
    }
  }

  /** A delta or stop for a dropped index. */
  predicate Unheard(before: seq<Event>, e: Event, thinkingEnabled: bool) {
    || (e.BlockDelta? && e.index.Some? && e.delta.Some? && e.index.value in DroppedBy(before, thinkingEnabled))
    || (e.BlockStop? && e.index.Some? && e.index.value in DroppedBy(before, thinkingEnabled))
  }

  lemma DeltaText(s: State, i: int, d: DeltaBody, thinkingEnabled: bool)
    requires WellOrdered(s)
    ensures Collect(TextOf, DeltaStep(s, i, d, thinkingEnabled).1)
         == if i in s.dropped then "" else TextOf(BlockDelta(Some(i), Some(d)))
  {
    DeltaSends(s, i, d, thinkingEnabled);
    DroppedKinds();
    hide DeltaStep, Collect, WellOrdered, ShouldDrop;
    var out := DeltaStep(s, i, d, thinkingEnabled).1;
    CollectNothing(TextOf);
    if out != [] { CollectOneOrTwo(TextOf, out); }
  }

  lemma StepText(s: State, before: seq<Event>, e: Event, thinkingEnabled: bool)
    requires WellOrdered(s) && s.dropped == DroppedBy(before, thinkingEnabled)
    ensures Collect(TextOf, Step(s, e, thinkingEnabled).1) == if Unheard(before, e, thinkingEnabled) then "" else TextOf(e)
  {
    DroppedKinds();
    hide Collect, DeltaStep, WellOrdered, ShouldDrop, CloseOthers, DroppedBy;
    CollectNothing(TextOf);
    var out := Step(s, e, thinkingEnabled).1;
    if Forwarded(e, thinkingEnabled) {
      ForwardedStart(TextOf, s, e.index.value, e.block.value, thinkingEnabled);
    } else if e.BlockDelta? && e.index.Some? && e.delta.Some? {
      DeltaText(s, e.index.value, e.delta.value, thinkingEnabled);
    } else if out != [] {
      CollectOneOrTwo(TextOf, out);
    }
  }

  /** The text of all events but the deltas for dropped indices. */
  function TextHeard(input: seq<Event>, thinkingEnabled: bool): string {
    if input == [] then ""
    else
      var before, e := input[..|input| - 1], input[|input| - 1];
      TextHeard(before, thinkingEnabled) + if Unheard(before, e, thinkingEnabled) then "" else TextOf(e)
  }

  /** The text a client sees, on any input. */
  lemma {:induction false} TextHeardIsShown(input: seq<Event>, thinkingEnabled: bool)
    ensures Collect(TextOf, Run(input, thinkingEnabled).1) == TextHeard(input, thinkingEnabled)
  {
    if input != [] {
      var before, e := input[..|input| - 1], input[|input| - 1];
      TextHeardIsShown(before, thinkingEnabled);
      StateByInput(before, thinkingEnabled);
      var (s, sent) := Run(before, thinkingEnabled);
      StepText(s, before, e, thinkingEnabled);
      CollectAppend(TextOf, sent, Step(s, e, thinkingEnabled).1);
    }
  }

  lemma {:induction false} HeardIsShorter(input: seq<Event>, thinkingEnabled: bool)
    ensures |TextHeard(input, thinkingEnabled)| <= |Collect(TextOf, input)|
    ensures TextHeard(input, thinkingEnabled) == Collect(TextOf, input)
       <==> forall n | 0 <= n < |input| :: Unheard(input[..n], input[n], thinkingEnabled) ==> TextOf(input[n]) == ""
  {
    hide Unheard, TextOf;
    if input != [] {
      var last := |input| - 1;
      var before := input[..last];
      HeardIsShorter(before, thinkingEnabled);
      assert forall n | 0 <= n < last :: before[..n] == input[..n] && before[n] == input[n];
      var heard := if Unheard(before, input[last], thinkingEnabled) then "" else TextOf(input[last]);
      SplitEqually(TextHeard(before, thinkingEnabled), heard, Collect(TextOf, before), TextOf(input[last]));
      hide TextHeard, Collect;
      if forall n | 0 <= n < |input| :: Unheard(input[..n], input[n], thinkingEnabled) ==> TextOf(input[n]) == "" {
        assert heard == TextOf(input[last]);
      } else if heard == TextOf(input[last]) {
        var n :| 0 <= n < |input| && Unheard(input[..n], input[n], thinkingEnabled) && TextOf(input[n]) != "";
        assert n < last;
      }
    }
  }

  lemma SplitEqually(a: string, b: string, c: string, d: string)
    requires |a| <= |c| && |b| <= |d|
    ensures a + b == c + d <==> a == c && b == d
  {
    if a + b == c + d {
      assert |a| == |c| && a == (a + b)[..|a|] && b == (a + b)[|a|..];
    }
  }

  /** The text a client sees is the text upstream sent if and only if none arrives for a dropped index. On any input. */
  lemma TextPreservedIff(input: seq<Event>, thinkingEnabled: bool)
    ensures Collect(TextOf, Run(input, thinkingEnabled).1) == Collect(TextOf, input)
       <==> forall n | 0 <= n < |input| :: Unheard(input[..n], input[n], thinkingEnabled) ==> TextOf(input[n]) == ""
  {
    TextHeardIsShown(input, thinkingEnabled);
    HeardIsShorter(input, thinkingEnabled);
  }

  /** So on streams that keep the rules in `Track`. */
  lemma TextPreserved(input: seq<Event>, thinkingEnabled: bool)
    requires TrackAll(input, thinkingEnabled).Some?
    ensures Collect(TextOf, Run(input, thinkingEnabled).1) == Collect(TextOf, input)
  {
    hide TextOf, Run;
    forall n | 0 <= n < |input| && Unheard(input[..n], input[n], thinkingEnabled) ensures TextOf(input[n]) == "" {
      TrackedBefore(input, n + 1, thinkingEnabled);
      assert input[..n + 1][..n] == input[..n];
      RunAgrees(input[..n], thinkingEnabled);
      StateByInput(input[..n], thinkingEnabled);
      DroppedIsSilent(TrackAll(input[..n], thinkingEnabled).value, input[..n], input[n], thinkingEnabled);
    }
    TextPreservedIff(input, thinkingEnabled);
  }

  lemma DroppedIsSilent(u: Upstream, before: seq<Event>, e: Event, thinkingEnabled: bool)
    requires Track(u, e, thinkingEnabled).Some? && u.dropped == DroppedBy(before, thinkingEnabled)
    requires Unheard(before, e, thinkingEnabled)
    ensures TextOf(e) == ""
  {}

  /** Once an index has been dropped, its deltas and stops might as well not come: whatever else follows, taking them out of
      the input changes nothing. Yet a new start for it is sent on. */
  lemma {:induction false} DroppedIndexHearsNothing(before: seq<Event>, i: int, after: seq<Event>, thinkingEnabled: bool)
    requires i in DroppedBy(before, thinkingEnabled)
    ensures Run(before + after, thinkingEnabled) == Run(before + Collect(NotFor(i), after), thinkingEnabled)
    ensures forall b: ContentBlock | b.kind.Some? && !ShouldDrop(b.kind, thinkingEnabled) ::
              var sent := Run(before + [BlockStart(Some(i), Some(b))], thinkingEnabled).1;
              sent != [] && sent[|sent| - 1] == BlockStart(Some(Run(before, thinkingEnabled).0.next), Some(b))
  {
    hide Step, ShouldDrop, DroppedBy, Run;
    if after == [] {
      assert Collect(NotFor(i), after) == after;
    } else {
      var init, last := after[..|after| - 1], after[|after| - 1];
      DroppedIndexHearsNothing(before, i, init, thinkingEnabled);
      StateByInput(before + init, thinkingEnabled);
      DroppedStays(before, i, init, thinkingEnabled);
      RunSnoc(before + init, last, thinkingEnabled);
      assert before + after == before + init + [last];
      var kept := Collect(NotFor(i), init);
      assert Collect(NotFor(i), after) == kept + NotFor(i)(last);
      hide Collect;
      if NotFor(i)(last) == [] {
        var (s, sent) := Run(before + init, thinkingEnabled);
        UnheardStep(s, i, last, thinkingEnabled);
        assert kept + [] == kept && sent + [] == sent;
      } else {
        RunSnoc(before + kept, last, thinkingEnabled);
        assert before + (kept + [last]) == before + kept + [last];
      }
    }
    forall b: ContentBlock | b.kind.Some? && !ShouldDrop(b.kind, thinkingEnabled)
      ensures var sent := Run(before + [BlockStart(Some(i), Some(b))], thinkingEnabled).1;
              sent != [] && sent[|sent| - 1] == BlockStart(Some(Run(before, thinkingEnabled).0.next), Some(b))
    {
      RunSnoc(before, BlockStart(Some(i), Some(b)), thinkingEnabled);
      StartIsSent(Run(before, thinkingEnabled).0, i, b, thinkingEnabled);
    }
  }

  /** All but the deltas and stops of one index. */
  function NotFor(i: int): Event -> seq<Event> {
    (e: Event) => if (e.BlockDelta? && e.index == Some(i) && e.delta.Some?) || e == BlockStop(Some(i)) then [] else [e]
  }

  lemma {:induction false} DroppedStays(before: seq<Event>, i: int, after: seq<Event>, thinkingEnabled: bool)
    requires i in DroppedBy(before, thinkingEnabled)
    ensures i in DroppedBy(before + after, thinkingEnabled)
  {
    if after == [] {
      assert before + after == before;
    } else {
      DroppedStays(before, i, after[..|after| - 1], thinkingEnabled);
      assert (before + after)[..|before + after| - 1] == before + after[..|after| - 1];
    }
  }

  lemma UnheardStep(s: State, i: int, e: Event, thinkingEnabled: bool)
    requires WellOrdered(s) && i in s.dropped && NotFor(i)(e) == []
    ensures Step(s, e, thinkingEnabled) == (s, [])
  {}

  lemma StartIsSent(s: State, i: int, b: ContentBlock, thinkingEnabled: bool)
    requires WellOrdered(s) && b.kind.Some? && !ShouldDrop(b.kind, thinkingEnabled)
    ensures var out := Step(s, BlockStart(Some(i), Some(b)), thinkingEnabled).1;
            out != [] && out[|out| - 1] == BlockStart(Some(s.next), Some(b))
  {
    hide CloseOthers, WellOrdered, ShouldDrop;
  }

  lemma DeltaThinking(s: State, i: int, d: DeltaBody, thinkingEnabled: bool)
    requires WellOrdered(s) && (thinkingEnabled ==> s.dropped == {})
    ensures Collect(ThinkingOf, DeltaStep(s, i, d, thinkingEnabled).1)
         == if thinkingEnabled then ThinkingOf(BlockDelta(Some(i), Some(d))) else ""
  {
    DeltaSends(s, i, d, thinkingEnabled);
    DroppedKinds();
    assert thinkingEnabled ==> !ShouldDrop(d.kind, thinkingEnabled);
    hide DeltaStep, Collect, WellOrdered, ShouldDrop;
    var out := DeltaStep(s, i, d, thinkingEnabled).1;
    CollectNothing(ThinkingOf);
    if out != [] { CollectOneOrTwo(ThinkingOf, out); }
  }

  /** The thinking of deltas without an index: the policy never looks at those. */
  function UnindexedThinking(e: Event): string {
    if e.BlockDelta? && e.index.None? then ThinkingOf(e) else ""
  }

  function ThinkingAllowed(thinkingEnabled: bool): Event -> string {
    if thinkingEnabled then ThinkingOf else UnindexedThinking
  }

  lemma StepThinking(s: State, e: Event, thinkingEnabled: bool)
    requires WellOrdered(s) && (thinkingEnabled ==> s.dropped == {})
    ensures Collect(ThinkingOf, Step(s, e, thinkingEnabled).1) == ThinkingAllowed(thinkingEnabled)(e)
  {
    hide Collect, DeltaStep, CloseOthers, WellOrdered;
    var out := Step(s, e, thinkingEnabled).1;
    CollectNothing(ThinkingOf);
    if e.BlockDelta? && e.delta.Some? && e.index.Some? {
      DeltaThinking(s, e.index.value, e.delta.value, thinkingEnabled);
    } else if e.BlockStart? && e.index.Some? && e.block.Some? {
      if !ShouldDrop(e.block.value.kind, thinkingEnabled) && e.block.value.kind.Some? {
        ForwardedStart(ThinkingOf, s, e.index.value, e.block.value, thinkingEnabled);
      } else if out != [] {
        CollectTwo(ThinkingOf, e, e);
      }
    } else if out != [] {
      CollectTwo(ThinkingOf, out[0], out[0]);
    }
  }

  lemma StepDropsNothing(s: State, e: Event)
    requires WellOrdered(s) && s.dropped == {}
    ensures Step(s, e, true).0.dropped == {}
  {
    hide CloseOthers, SyntheticStart;
  }

  lemma LastCollected<T>(f: Event -> seq<T>, events: seq<Event>)
    requires events != []
    ensures Collect(f, events) == Collect(f, events[..|events| - 1]) + f(events[|events| - 1])
  {}

  /** With thinking enabled all of it is preserved. With thinking disabled exactly the thinking of deltas without an index
      gets through. On any input, even when upstream breaks the rules in `Track`. */
  lemma {:induction false} ThinkingPolicyHolds(input: seq<Event>, thinkingEnabled: bool)
    ensures Collect(ThinkingOf, Run(input, thinkingEnabled).1) == Collect(ThinkingAllowed(thinkingEnabled), input)
    ensures thinkingEnabled ==> Run(input, thinkingEnabled).0.dropped == {}
  {
    hide Step, Collect, ThinkingAllowed;
    var allowed := ThinkingAllowed(thinkingEnabled);
    CollectNothing(ThinkingOf);
    CollectNothing(allowed);
    if input != [] {
      var before, e := input[..|input| - 1], input[|input| - 1];
      LastCollected(allowed, input);
      ThinkingPolicyHolds(before, thinkingEnabled);
      if thinkingEnabled { StepDropsNothing(Run(before, thinkingEnabled).0, e); }
      var (s, sent) := Run(before, thinkingEnabled);
      StepThinking(s, e, thinkingEnabled);
      CollectAppend(ThinkingOf, sent, Step(s, e, thinkingEnabled).1);
    }
  }

  /** So none gets through if and only if no delta without an index carries any. */
  lemma {:induction false} NoThinkingExactlyWhenIndexed(input: seq<Event>)
    ensures Collect(ThinkingOf, Run(input, false).1) == ""
       <==> forall k | 0 <= k < |input| :: UnindexedThinking(input[k]) == ""
  {
    ThinkingPolicyHolds(input, false);
    NothingCollectedExactlyWhen(UnindexedThinking, input);
  }

  lemma {:induction false} NothingCollectedExactlyWhen(f: Event -> string, events: seq<Event>)
    ensures Collect(f, events) == "" <==> forall k | 0 <= k < |events| :: f(events[k]) == ""
  {
    if events != [] { NothingCollectedExactlyWhen(f, events[..|events| - 1]); }
  }

  /** A delta without an index gets its thinking past the policy. */
  lemma UnindexedThinkingGetsThrough(secret: string)
    ensures Collect(ThinkingOf, Run([BlockDelta(None, Some(DeltaBody(Some("thinking_delta"), secret)))], false).1) == secret
  {
    var e := BlockDelta(None, Some(DeltaBody(Some("thinking_delta"), secret)));
    ThinkingPolicyHolds([e], false);
    CollectTwo(UnindexedThinking, e, e);
  }

  /** The block of the latest upstream start forwarded for `i`. */
  function LastStart(input: seq<Event>, i: int, thinkingEnabled: bool): Option<ContentBlock> {
    if input == [] then None
    else
      var e := input[|input| - 1];
      if Forwards(e, i, thinkingEnabled) then e.block
      else LastStart(input[..|input| - 1], i, thinkingEnabled)
  }

  /** Whether a start is forwarded for `i`. */
  predicate Forwards(e: Event, i: int, thinkingEnabled: bool) {
    e.BlockStart? && e.index == Some(i) && e.block.Some? && e.block.value.kind.Some?
    && !ShouldDrop(e.block.value.kind, thinkingEnabled)
  }

  lemma StepCarry(s: State, e: Event, i: int, thinkingEnabled: bool)
    requires WellOrdered(s)
    ensures var s' := Step(s, e, thinkingEnabled).0;
            if Forwards(e, i, thinkingEnabled) then i in s'.byUpstream && s'.byUpstream[i].carry == e.block.value
            else i in s.byUpstream ==> i in s'.byUpstream && s'.byUpstream[i].carry == s.byUpstream[i].carry
  {
    hide CloseOthers, ShouldDrop, WellOrdered, SyntheticStart;
  }

  lemma {:induction false} CarryIsLastStart(input: seq<Event>, i: int, thinkingEnabled: bool)
    requires LastStart(input, i, thinkingEnabled).Some?
    ensures var s := Run(input, thinkingEnabled).0;
            i in s.byUpstream && s.byUpstream[i].carry == LastStart(input, i, thinkingEnabled).value
  {
    hide Step, Forwards;
    var before, e := input[..|input| - 1], input[|input| - 1];
    StepCarry(Run(before, thinkingEnabled).0, e, i, thinkingEnabled);
    if LastStart(before, i, thinkingEnabled).Some? { CarryIsLastStart(before, i, thinkingEnabled); }
  }

  /** A tool call cut in two by an overlapping block reopens under the id, name and input it was started with. */
  lemma ReopenedToolKeepsIdentity(input: seq<Event>, i: int, d: DeltaBody, thinkingEnabled: bool)
    requires LastStart(input, i, thinkingEnabled).Some?
    requires var b := LastStart(input, i, thinkingEnabled).value;
             b.kind == Some("tool_use") && b.id.Some? && b.id.value != "" && b.name.Some? && b.input.Some?
    requires var s := Run(input, thinkingEnabled).0; i !in s.dropped && (i in s.byUpstream ==> !s.byUpstream[i].open)
    requires d.kind == Some("input_json_delta") && !ShouldDrop(d.kind, thinkingEnabled)
    ensures var (s, _) := Run(input, thinkingEnabled);
            DeltaStep(s, i, d, thinkingEnabled).1
              == [BlockStart(Some(s.next), Some(LastStart(input, i, thinkingEnabled).value.(text := ""))),
                  BlockDelta(Some(s.next), Some(d))]
  {
    CarryIsLastStart(input, i, thinkingEnabled);
  }
}
