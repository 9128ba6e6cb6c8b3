/** What upstream has started and stopped, and how the native block policy and the stream checker follow it. */
module NativeBlockTracking {
  import opened Basics
  import opened StreamContract
  import opened NativeBlockPolicy

  /** The upstream side. `live` are blocks whose deltas still count, with the kind the deltas must have: those that are
      `open` downstream, and those `owed` a stop that has been sent for them already. `seen` are all indices used so far,
      `dropped` those of blocks dropped by policy. `restarted` says that a block was started while it was open. */
  datatype Upstream = Upstream(
    live: map<int, string>, open: set<int>, owed: set<int>, seen: set<int>, dropped: set<int>, restarted: bool)

  const SILENT := Upstream(map[], {}, {}, {}, {}, false)

  function TrackStart(u: Upstream, i: int, b: ContentBlock, thinkingEnabled: bool): Option<Upstream> {
    if b.kind.None? then None
    else if ShouldDrop(b.kind, thinkingEnabled) then if i in u.live then None else Some(u.(dropped := u.dropped + {i}))
    else if i in u.dropped || b.kind.value !in ALLOWED_KINDS then None
    else
      Some(Upstream(u.live[i := Storage(b)], {i}, u.owed + (u.open - {i}), u.seen + {i}, u.dropped,
                    u.restarted || i in u.open))
  }

  function TrackDelta(u: Upstream, i: int, d: DeltaBody, thinkingEnabled: bool): Option<Upstream> {
    var kind := DeltaBlockKind(d.kind);
    if i in u.dropped then (if kind == Some("thinking") then Some(u) else None)
    else if ShouldDrop(d.kind, thinkingEnabled) then Some(u)
    else if kind.None? then None
    else if i in u.live && u.live[i] != kind.value then None
    else if i in u.open then Some(u)
    else if kind.value == "thinking" && i !in u.seen then None
    else Some(u.(live := u.live[i := kind.value], open := u.open + {i}, owed := u.owed - {i}, seen := u.seen + {i}))
  }

  function TrackStop(u: Upstream, i: int, thinkingEnabled: bool): Option<Upstream> {
    if i in u.dropped then Some(u)
    else if i in u.owed then Some(u.(owed := u.owed - {i}, live := if i in u.open then u.live else u.live - {i}))
    else if i in u.open then Some(u.(open := u.open - {i}, live := u.live - {i}))
    else if i in u.seen || !thinkingEnabled then Some(u)
    else None
  }

  /** One upstream event, or `None` when the upstream breaks the rules a caller can rely on: no start of a dropped index,
      known delta types that match a live block's kind, only thinking deltas for a dropped block, and no thinking delta or
      (thinking enabled) stop for an index never seen. Overlap, late deltas and repeated stops are fine; starting a live
      block again is followed too. */
  function Track(u: Upstream, e: Event, thinkingEnabled: bool): Option<Upstream> {
    match e
    case BlockStart(Some(i), Some(b)) => TrackStart(u, i, b, thinkingEnabled)
    case BlockDelta(Some(i), Some(d)) => TrackDelta(u, i, d, thinkingEnabled)
    case BlockStop(Some(i)) => TrackStop(u, i, thinkingEnabled)
    case BlockStart(_, _) => None
    case BlockDelta(_, _) => None
    case BlockStop(_) => None
    case _ => Some(u)
  }

  function TrackAll(input: seq<Event>, thinkingEnabled: bool): Option<Upstream> {
    if input == [] then Some(SILENT)
    else
      var before := TrackAll(input[..|input| - 1], thinkingEnabled);
      if before.None? then None else Track(before.value, input[|input| - 1], thinkingEnabled)
  }

  lemma TrackSnoc(input: seq<Event>, e: Event, thinkingEnabled: bool)
    ensures var before := TrackAll(input, thinkingEnabled);
            TrackAll(input + [e], thinkingEnabled) == if before.None? then None else Track(before.value, e, thinkingEnabled)
  {
    assert (input + [e])[..|input|] == input;
  }

  /** The upstream index a step allocated a downstream index for, if it did. */
  function StepOwners(s: State, e: Event, thinkingEnabled: bool): seq<int>
    requires WellOrdered(s)
  {
    if Step(s, e, thinkingEnabled).0.next == s.next then []
    else if e.BlockStart? && e.index.Some? then [e.index.value]
    else if e.BlockDelta? && e.index.Some? then [e.index.value]
    else []
  }

  /** `Owners(input)[d]` is the upstream block that downstream block `d` is a segment of. */
  function Owners(input: seq<Event>, thinkingEnabled: bool): seq<int> {
    if input == [] then []
    else
      Owners(input[..|input| - 1], thinkingEnabled)
      + StepOwners(Run(input[..|input| - 1], thinkingEnabled).0, input[|input| - 1], thinkingEnabled)
  }

  function OpenOf(s: State): set<int> {
    set i | i in s.byUpstream && s.byUpstream[i].open
  }

  /** The policy's view of upstream. */
  ghost predicate Follows(s: State, u: Upstream) {
    && u.dropped == s.dropped && u.owed == s.pending && u.open == OpenOf(s)
    && u.seen == s.byUpstream.Keys && u.owed <= u.seen
    && (forall i :: i in u.live <==> i in u.open || i in u.owed)
    && (forall i | i in u.live :: i !in u.dropped)
  }

  /** A block that is open downstream but is not the latest segment of its upstream block: nothing will close it. */
  ghost predicate Abandoned(s: State, c: Blocks, owners: seq<int>, d: int) {
    d in c.open && 0 <= d < |owners| && owners[d] in s.byUpstream && s.byUpstream[owners[d]].down != d
  }

  /** The checker's view: open segments are open with the right kind, and everything else open is abandoned. */
  ghost predicate Shows(s: State, c: Blocks, u: Upstream, owners: seq<int>) {
    && |owners| == s.next
    && (forall d: int :: d in c.seen <==> 0 <= d < s.next)
    && (forall d | 0 <= d < s.next :: owners[d] in s.byUpstream)
    && (forall i | i in s.byUpstream :: s.byUpstream[i].down < s.next && owners[s.byUpstream[i].down] == i)
    && (forall i | i in u.open ::
          i in u.live && i in s.byUpstream
          && s.byUpstream[i].down in c.open && c.open[s.byUpstream[i].down] == u.live[i])
    && (forall d | d in c.open ::
          0 <= d < s.next && owners[d] in s.byUpstream
          && (s.byUpstream[owners[d]].down == d ==> owners[d] in u.open)
          && (s.byUpstream[owners[d]].down != d ==> u.restarted))
  }

  /** Policy state, checker state and upstream state agree. */
  ghost predicate Agree(s: State, c: Blocks, u: Upstream, owners: seq<int>) {
    WellOrdered(s) && Follows(s, u) && Shows(s, c, u, owners)
  }

  /** If a block was started while open, some block is abandoned. */
  ghost predicate KeepsAbandoned(s: State, c: Blocks, u: Upstream, owners: seq<int>) {
    u.restarted ==> exists d :: Abandoned(s, c, owners, d)
  }

  // ---- A forwarded start ----

  /** What is left of upstream when the policy has closed some blocks. */
  function Closing(u: Upstream, s: State): Upstream {
    u.(open := OpenOf(s), owed := s.pending)
  }

  lemma CloseFollows(s: State, u: Upstream, i: int)
    requires Follows(s, u) && i in s.byUpstream && s.byUpstream[i].open
    ensures Follows(CloseOne(s, i), Closing(u, CloseOne(s, i)))
    ensures OpenOf(CloseOne(s, i)) == OpenOf(s) - {i}
  {}

  lemma CloseShows(s: State, c: Blocks, u: Upstream, owners: seq<int>, i: int)
    requires Follows(s, u) && Shows(s, c, u, owners) && i in s.byUpstream && s.byUpstream[i].open
    ensures Observe(c, BlockStop(Some(s.byUpstream[i].down))).Some?
    ensures var c' := Observe(c, BlockStop(Some(s.byUpstream[i].down))).value;
            && Shows(CloseOne(s, i), c', Closing(u, CloseOne(s, i)), owners)
            && forall d | Abandoned(s, c, owners, d) :: Abandoned(CloseOne(s, i), c', owners, d)
  {
    CloseFollows(s, u, i);
  }

  lemma {:induction false} CloseOthersAgrees(s: State, c: Blocks, u: Upstream, owners: seq<int>, i: int, n: nat)
    requires Agree(s, c, u, owners) && n <= |s.order|
    ensures ReplayFrom(c, CloseOthers(s, i, n).1).Some?
    ensures var s', c' := CloseOthers(s, i, n).0, ReplayFrom(c, CloseOthers(s, i, n).1).value;
            && Agree(s', c', Closing(u, s'), owners)
            && forall d | Abandoned(s, c, owners, d) :: Abandoned(s', c', owners, d)
  {
    hide Agree, Closing, Observe, Abandoned, ReplayFrom, CloseOne, CloseOthers, WellOrdered;
    OrderOfAgreeing(s, c, u, owners);
    if n > 0 {
      CloseOthersAgrees(s, c, u, owners, i, n - 1);
      CloseOthersUnfolds(s, i, n);
      var (before, stops) := CloseOthers(s, i, n - 1);
      var upstream, c1 := s.order[n - 1], ReplayFrom(c, stops).value;
      if upstream != i && before.byUpstream[upstream].open {
        CloseOneAgrees(before, c1, Closing(u, before), owners, upstream);
        ClosingTwice(u, before, CloseOne(before, upstream));
        ReplaySnoc(c, stops, BlockStop(Some(before.byUpstream[upstream].down)));
      }
    } else {
      NoneClosed(s, i);
      NoEvents(c);
      NothingClosed(s, u);
    }
  }

  lemma OrderOfAgreeing(s: State, c: Blocks, u: Upstream, owners: seq<int>)
    requires Agree(s, c, u, owners)
    ensures WellOrdered(s) && Follows(s, u)
  {}

  lemma CloseOthersUnfolds(s: State, i: int, n: nat)
    requires WellOrdered(s) && 0 < n <= |s.order|
    ensures s.order[n - 1] in CloseOthers(s, i, n - 1).0.byUpstream
    ensures var (before, stops) := CloseOthers(s, i, n - 1);
            var upstream := s.order[n - 1];
            CloseOthers(s, i, n)
            == if upstream == i || !before.byUpstream[upstream].open then (before, stops)
               else (CloseOne(before, upstream), stops + [BlockStop(Some(before.byUpstream[upstream].down))])
  {}

  lemma ClosingTwice(u: Upstream, before: State, after: State)
    ensures Closing(Closing(u, before), after) == Closing(u, after)
  {}

  lemma CloseOneAgrees(s: State, c: Blocks, u: Upstream, owners: seq<int>, i: int)
    requires Agree(s, c, u, owners) && i in s.byUpstream && s.byUpstream[i].open
    ensures Observe(c, BlockStop(Some(s.byUpstream[i].down))).Some?
    ensures var c' := Observe(c, BlockStop(Some(s.byUpstream[i].down))).value;
            && Agree(CloseOne(s, i), c', Closing(u, CloseOne(s, i)), owners)
            && forall d | Abandoned(s, c, owners, d) :: Abandoned(CloseOne(s, i), c', owners, d)
  {
    CloseFollows(s, u, i);
    CloseShows(s, c, u, owners, i);
    hide Shows, Follows, OpenOf, Observe, Abandoned, Closing;
  }

  lemma NothingClosed(s: State, u: Upstream)
    requires Follows(s, u)
    ensures Closing(u, s) == u
  {}

  /** One dictionary entry of `CloseOthers`: every other block is closed by it or closed before. */
  lemma CloseOthersSnoc(s: State, i: int, n: nat, j: int)
    requires WellOrdered(s) && 0 < n <= |s.order|
    ensures var s0, s1 := CloseOthers(s, i, n - 1).0, CloseOthers(s, i, n).0;
            && (j in s.byUpstream ==> (s1.byUpstream[j].open <==> s0.byUpstream[j].open && (j == i || j != s.order[n - 1])))
            && (j in s1.pending <==> j in s0.pending || (j != i && j == s.order[n - 1] && s0.byUpstream[j].open))
  {}

  lemma {:induction false} OthersClosed(s: State, i: int, n: nat, j: int)
    requires WellOrdered(s) && n <= |s.order|
    ensures var s' := CloseOthers(s, i, n).0;
            && (j in s.byUpstream ==> (s'.byUpstream[j].open <==> s.byUpstream[j].open && (j == i || j !in s.order[..n])))
            && (j in s'.pending <==>
                  j in s.pending || (j != i && j in s.order[..n] && j in s.byUpstream && s.byUpstream[j].open))
  {
    hide CloseOthers;
    if n == 0 {
      NoneClosed(s, i);
    } else {
      OthersClosed(s, i, n - 1, j);
      CloseOthersSnoc(s, i, n, j);
      assert s.order[..n] == s.order[..n - 1] + [s.order[n - 1]];
    }
  }

  lemma NoneClosed(s: State, i: int)
    requires WellOrdered(s)
    ensures CloseOthers(s, i, 0) == (s, [])
  {}

  lemma AllOthersClosed(s: State, u: Upstream, i: int)
    requires WellOrdered(s) && Follows(s, u)
    ensures var s' := CloseOthers(s, i, |s.order|).0;
            OpenOf(s') == u.open * {i} && s'.pending == u.owed + (u.open - {i})
  {
    hide CloseOthers;
    var s' := CloseOthers(s, i, |s.order|).0;
    assert s.order[..|s.order|] == s.order;
    forall j ensures j in OpenOf(s') <==> j in u.open * {i}
             ensures j in s'.pending <==> j in u.owed + (u.open - {i})
    {
      OthersClosed(s, i, |s.order|, j);
    }
  }

  lemma AllocateFollows(s: State, u: Upstream, i: int, kind: string, carry: ContentBlock, stored: string, restarted: bool)
    requires Follows(s, u) && i !in s.dropped
    ensures Follows(Allocate(s, i, kind, carry),
                    u.(live := u.live[i := stored], open := u.open + {i}, seen := u.seen + {i}, restarted := restarted))
  {
    var s' := Allocate(s, i, kind, carry);
    assert OpenOf(s') == OpenOf(s) + {i};
  }

  lemma AllocateShows(s: State, c: Blocks, u: Upstream, owners: seq<int>, i: int, b: ContentBlock, carry: ContentBlock)
    requires Follows(s, u) && Shows(s, c, u, owners) && b.kind.Some? && b.kind.value in ALLOWED_KINDS
    ensures Observe(c, BlockStart(Some(s.next), Some(b))).Some?
    ensures var s', c' := Allocate(s, i, b.kind.value, carry), Observe(c, BlockStart(Some(s.next), Some(b))).value;
            Shows(s', c', u.(live := u.live[i := Storage(b)], open := u.open + {i}, seen := u.seen + {i},
                             restarted := u.restarted || i in u.open), owners + [i])
  {
    assert s.next !in c.open && s.next !in c.seen;
    assert forall d | d in c.open :: (owners + [i])[d] == owners[d];
  }

  lemma AllocateAbandons(s: State, c: Blocks, u: Upstream, owners: seq<int>, i: int, b: ContentBlock, carry: ContentBlock)
    requires Follows(s, u) && Shows(s, c, u, owners) && b.kind.Some? && b.kind.value in ALLOWED_KINDS
    requires Observe(c, BlockStart(Some(s.next), Some(b))).Some?
    ensures var s', c' := Allocate(s, i, b.kind.value, carry), Observe(c, BlockStart(Some(s.next), Some(b))).value;
            && (forall d | Abandoned(s, c, owners, d) :: Abandoned(s', c', owners + [i], d))
            && (i in u.open ==> Abandoned(s', c', owners + [i], s.byUpstream[i].down))
  {}

  lemma AllocateOrders(s: State, i: int, kind: string, carry: ContentBlock)
    requires WellOrdered(s)
    ensures WellOrdered(Allocate(s, i, kind, carry))
  {
    var s' := Allocate(s, i, kind, carry);
    assert forall k | 0 <= k < |s.order| :: s'.order[k] == s.order[k];
    if i !in s.byUpstream { assert s'.order[|s.order|] == i; }
  }

  /** A block is opened under the next index. */
  lemma OpenAgrees(s: State, c: Blocks, u: Upstream, owners: seq<int>, i: int, b: ContentBlock, carry: ContentBlock)
    requires Agree(s, c, u, owners) && i !in u.dropped && b.kind.Some? && b.kind.value in ALLOWED_KINDS
    ensures Observe(c, BlockStart(Some(s.next), Some(b))).Some?
    ensures var s', c' := Allocate(s, i, b.kind.value, carry), Observe(c, BlockStart(Some(s.next), Some(b))).value;
            && Agree(s', c', u.(live := u.live[i := Storage(b)], open := u.open + {i}, seen := u.seen + {i},
                                restarted := u.restarted || i in u.open), owners + [i])
            && (forall d | Abandoned(s, c, owners, d) :: Abandoned(s', c', owners + [i], d))
            && (i in u.open ==> exists d :: Abandoned(s', c', owners + [i], d))
  {
    assert u.dropped == s.dropped;
    hide Shows, Follows, Observe, Storage, Abandoned, WellOrdered;
    AllocateOrders(s, i, b.kind.value, carry);
    AllocateFollows(s, u, i, b.kind.value, carry, Storage(b), u.restarted || i in u.open);
    AllocateShows(s, c, u, owners, i, b, carry);
    AllocateAbandons(s, c, u, owners, i, b, carry);
  }

  // ---- Every step ----

  /** What is sent for one event keeps the checker happy and the three states in agreement. */
  ghost predicate StepOk(s: State, c: Blocks, u: Upstream, owners: seq<int>, e: Event, thinkingEnabled: bool)
    requires WellOrdered(s) && Track(u, e, thinkingEnabled).Some?
  {
    var (s', out) := Step(s, e, thinkingEnabled);
    var u', owners' := Track(u, e, thinkingEnabled).value, owners + StepOwners(s, e, thinkingEnabled);
    && ReplayFrom(c, out).Some?
    && Agree(s', ReplayFrom(c, out).value, u', owners')
    && (forall d | Abandoned(s, c, owners, d) :: Abandoned(s', ReplayFrom(c, out).value, owners', d))
    && (u'.restarted && !u.restarted ==> exists d :: Abandoned(s', ReplayFrom(c, out).value, owners', d))
  }

  lemma ReplayTwo(c: Blocks, a: Event, b: Event)
    ensures ReplayFrom(c, [a]) == Observe(c, a)
    ensures ReplayFrom(c, [a, b])
         == if Observe(c, a).None? then None else Observe(Observe(c, a).value, b)
  {
    assert [a, b][..1] == [a];
    assert [a][..0] == [];
  }

  lemma DropAgrees(s: State, c: Blocks, u: Upstream, owners: seq<int>, i: int)
    requires Agree(s, c, u, owners) && i !in u.live
    ensures ReplayFrom(c, []) == Some(c) && Agree(s.(dropped := s.dropped + {i}), c, u.(dropped := u.dropped + {i}), owners)
    ensures forall d | Abandoned(s, c, owners, d) :: Abandoned(s.(dropped := s.dropped + {i}), c, owners, d)
  {
    assert OpenOf(s.(dropped := s.dropped + {i})) == OpenOf(s);
  }

  lemma ForwardedStartAgrees(s: State, c: Blocks, u: Upstream, owners: seq<int>, i: int, b: ContentBlock)
    requires Agree(s, c, u, owners) && i !in u.dropped && b.kind.Some? && b.kind.value in ALLOWED_KINDS
    ensures var (closed, stops) := CloseOthers(s, i, |s.order|);
            var s', out := Allocate(closed, i, b.kind.value, b), stops + [BlockStart(Some(closed.next), Some(b))];
            var u' := Upstream(u.live[i := Storage(b)], {i}, u.owed + (u.open - {i}), u.seen + {i}, u.dropped,
                               u.restarted || i in u.open);
            && ReplayFrom(c, out).Some? && Agree(s', ReplayFrom(c, out).value, u', owners + [i])
            && (forall d | Abandoned(s, c, owners, d) :: Abandoned(s', ReplayFrom(c, out).value, owners + [i], d))
            && (i in u.open ==> exists d :: Abandoned(s', ReplayFrom(c, out).value, owners + [i], d))
  {
    CloseOthersAgrees(s, c, u, owners, i, |s.order|);
    AllOthersClosed(s, u, i);
    hide Agree, CloseOthers, Observe, Storage, Abandoned, OpenOf, Allocate, WellOrdered;
    var (closed, stops) := CloseOthers(s, i, |s.order|);
    var u1, c1 := Closing(u, closed), ReplayFrom(c, stops).value;
    assert u1.open + {i} == {i} && (i in u1.open <==> i in u.open);
    OpenAgrees(closed, c1, u1, owners, i, b, b);
    ReplaySnoc(c, stops, BlockStart(Some(closed.next), Some(b)));
  }

  lemma StartAgrees(s: State, c: Blocks, u: Upstream, owners: seq<int>, i: int, b: ContentBlock, thinkingEnabled: bool)
    requires Agree(s, c, u, owners) && Track(u, BlockStart(Some(i), Some(b)), thinkingEnabled).Some?
    ensures StepOk(s, c, u, owners, BlockStart(Some(i), Some(b)), thinkingEnabled)
  {
    assert owners + [] == owners;
    hide Agree, CloseOthers, Observe, Storage, Abandoned, OpenOf, Allocate;
    if ShouldDrop(b.kind, thinkingEnabled) {
      DropAgrees(s, c, u, owners, i);
    } else {
      ForwardedStartAgrees(s, c, u, owners, i, b);
      NextAllocated(CloseOthers(s, i, |s.order|).0, i, b.kind.value, b);
    }
  }

  lemma NextAllocated(s: State, i: int, kind: string, carry: ContentBlock)
    ensures Allocate(s, i, kind, carry).next == s.next + 1
  {}

  lemma ForgetsOwed(s: State, c: Blocks, u: Upstream, owners: seq<int>, i: int)
    requires Agree(s, c, u, owners) && i !in u.open
    ensures var s1 := s.(pending := s.pending - {i});
            && Agree(s1, c, u.(owed := u.owed - {i}, live := u.live - {i}), owners)
            && forall d | Abandoned(s, c, owners, d) :: Abandoned(s1, c, owners, d)
  {
    assert OpenOf(s.(pending := s.pending - {i})) == OpenOf(s);
  }

  lemma OpeningDeltaAgrees(s: State, c: Blocks, u: Upstream, owners: seq<int>, i: int, d: DeltaBody,
                           block: ContentBlock, carry: ContentBlock)
    requires Agree(s, c, u, owners) && i !in u.dropped && i !in u.open
    requires DeltaBlockKind(d.kind).Some? && block.kind == DeltaBlockKind(d.kind) && block.text == ""
    ensures var out := [BlockStart(Some(s.next), Some(block)), BlockDelta(Some(s.next), Some(d))];
            var s' := Allocate(s.(pending := s.pending - {i}), i, block.kind.value, carry);
            && ReplayFrom(c, out).Some?
            && Agree(s', ReplayFrom(c, out).value,
                     u.(live := u.live[i := block.kind.value], open := u.open + {i}, owed := u.owed - {i},
                        seen := u.seen + {i}), owners + [i])
            && forall d | Abandoned(s, c, owners, d) :: Abandoned(s', ReplayFrom(c, out).value, owners + [i], d)
  {
    var s1, u1 := s.(pending := s.pending - {i}), u.(owed := u.owed - {i}, live := u.live - {i});
    ForgetsOwed(s, c, u, owners, i);
    assert i !in s.dropped && u1.live[i := block.kind.value] == u.live[i := block.kind.value];
    hide Agree, Abandoned;
    OpenAgrees(s1, c, u1, owners, i, block, carry);
    OpeningDeltaReplays(c, s.next, block, d);
  }

  lemma OpeningDeltaReplays(c: Blocks, next: int, block: ContentBlock, d: DeltaBody)
    requires Observe(c, BlockStart(Some(next), Some(block))).Some?
    requires DeltaBlockKind(d.kind).Some? && block.kind == DeltaBlockKind(d.kind) && block.text == ""
    ensures ReplayFrom(c, [BlockStart(Some(next), Some(block)), BlockDelta(Some(next), Some(d))])
         == Observe(c, BlockStart(Some(next), Some(block)))
    ensures Storage(block) == block.kind.value
  {
    ReplayTwo(c, BlockStart(Some(next), Some(block)), BlockDelta(Some(next), Some(d)));
  }

  lemma OpenDeltaAgrees(s: State, c: Blocks, u: Upstream, owners: seq<int>, i: int, d: DeltaBody)
    requires Agree(s, c, u, owners) && i in u.open && DeltaBlockKind(d.kind) == Some(u.live[i])
    ensures i in s.byUpstream && ReplayFrom(c, [BlockDelta(Some(s.byUpstream[i].down), Some(d))]) == Some(c)
  {
    ReplayTwo(c, BlockDelta(Some(s.byUpstream[i].down), Some(d)), MessageStop);
  }

  lemma DeltaAgrees(s: State, c: Blocks, u: Upstream, owners: seq<int>, i: int, d: DeltaBody, thinkingEnabled: bool)
    requires Agree(s, c, u, owners) && Track(u, BlockDelta(Some(i), Some(d)), thinkingEnabled).Some?
    ensures StepOk(s, c, u, owners, BlockDelta(Some(i), Some(d)), thinkingEnabled)
  {
    assert owners + [] == owners && u.dropped == s.dropped && u.seen == s.byUpstream.Keys;
    assert i in u.open <==> i in s.byUpstream && s.byUpstream[i].open;
    assert i in s.pending ==> i in u.seen;
    assert i in u.open ==> i in u.live;
    hide Agree, Abandoned, Storage;
    var kind := DeltaBlockKind(d.kind);
    if i in s.dropped || ShouldDrop(d.kind, thinkingEnabled) {
    } else if i in u.open {
      OpenDeltaAgrees(s, c, u, owners, i, d);
    } else if i in s.byUpstream {
      var carry := s.byUpstream[i].carry;
      OpeningDeltaAgrees(s, c, u, owners, i, d, SyntheticStart(kind.value, i, StoredTool(carry)), carry);
    } else {
      var block := SyntheticStart(kind.value, i, None);
      assert s.pending - {i} == s.pending;
      OpeningDeltaAgrees(s, c, u, owners, i, d, block, block);
    }
  }

  lemma SwallowedStopAgrees(s: State, c: Blocks, u: Upstream, owners: seq<int>, i: int)
    requires Agree(s, c, u, owners) && i in u.owed
    ensures var s' := s.(pending := s.pending - {i});
            && Agree(s', c, u.(owed := u.owed - {i}, live := if i in u.open then u.live else u.live - {i}), owners)
            && forall d | Abandoned(s, c, owners, d) :: Abandoned(s', c, owners, d)
  {
    assert OpenOf(s.(pending := s.pending - {i})) == OpenOf(s);
  }

  lemma ForwardedStopAgrees(s: State, c: Blocks, u: Upstream, owners: seq<int>, i: int)
    requires Agree(s, c, u, owners) && i in u.open && i !in u.owed
    ensures i in s.byUpstream
    ensures var stop := BlockStop(Some(s.byUpstream[i].down));
            var s' := s.(byUpstream := s.byUpstream[i := s.byUpstream[i].(open := false)]);
            && ReplayFrom(c, [stop]).Some?
            && Agree(s', ReplayFrom(c, [stop]).value, u.(open := u.open - {i}, live := u.live - {i}), owners)
            && forall d | Abandoned(s, c, owners, d) :: Abandoned(s', ReplayFrom(c, [stop]).value, owners, d)
  {
    ReplayTwo(c, BlockStop(Some(s.byUpstream[i].down)), MessageStop);
    var s' := s.(byUpstream := s.byUpstream[i := s.byUpstream[i].(open := false)]);
    assert OpenOf(s') == OpenOf(s) - {i};
  }

  lemma StopAgrees(s: State, c: Blocks, u: Upstream, owners: seq<int>, i: int, thinkingEnabled: bool)
    requires Agree(s, c, u, owners) && Track(u, BlockStop(Some(i)), thinkingEnabled).Some?
    ensures StepOk(s, c, u, owners, BlockStop(Some(i)), thinkingEnabled)
  {
    assert owners + [] == owners && u.dropped == s.dropped && u.seen == s.byUpstream.Keys && u.owed == s.pending;
    assert i in u.open <==> i in s.byUpstream && s.byUpstream[i].open;
    hide Agree, Abandoned;
    if i in s.dropped {
    } else if i in u.owed {
      SwallowedStopAgrees(s, c, u, owners, i);
    } else if i in u.open {
      ForwardedStopAgrees(s, c, u, owners, i);
    }
  }

  lemma StepAgrees(s: State, c: Blocks, u: Upstream, owners: seq<int>, e: Event, thinkingEnabled: bool)
    requires Agree(s, c, u, owners) && Track(u, e, thinkingEnabled).Some?
    ensures StepOk(s, c, u, owners, e, thinkingEnabled)
  {
    hide Agree, Abandoned, TrackStart, TrackDelta, TrackStop;
    if e.BlockStart? {
      StartAgrees(s, c, u, owners, e.index.value, e.block.value, thinkingEnabled);
    } else if e.BlockDelta? {
      DeltaAgrees(s, c, u, owners, e.index.value, e.delta.value, thinkingEnabled);
    } else if e.BlockStop? {
      StopAgrees(s, c, u, owners, e.index.value, thinkingEnabled);
    } else {
      assert owners + [] == owners;
      ReplayTwo(c, e, e);
    }
  }

  /** At every moment the three states agree, and a block started while it was open has left one that stays open. */
  lemma {:induction false} RunAgrees(input: seq<Event>, thinkingEnabled: bool)
    requires TrackAll(input, thinkingEnabled).Some?
    ensures var (s, sent) := Run(input, thinkingEnabled);
            var u, owners := TrackAll(input, thinkingEnabled).value, Owners(input, thinkingEnabled);
            && Replay(sent).Some?
            && Agree(s, Replay(sent).value, u, owners) && KeepsAbandoned(s, Replay(sent).value, u, owners)
  {
    hide Agree, Abandoned, Step, Track, StepOwners;
    if input == [] {
      NothingTracked();
    } else {
      var before, e := input[..|input| - 1], input[|input| - 1];
      RunAgrees(before, thinkingEnabled);
      var (s, sent) := Run(before, thinkingEnabled);
      var u, owners := TrackAll(before, thinkingEnabled).value, Owners(before, thinkingEnabled);
      StepAgrees(s, Replay(sent).value, u, owners, e, thinkingEnabled);
      ReplayAppend(NO_BLOCKS, sent, Step(s, e, thinkingEnabled).1);
      if u.restarted {
        var d :| Abandoned(s, Replay(sent).value, owners, d);
      }
    }
  }

  lemma NothingTracked()
    ensures Agree(FRESH, NO_BLOCKS, SILENT, [])
  {
    assert OpenOf(FRESH) == {};
  }
}
