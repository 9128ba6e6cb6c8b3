/** What becomes of a block that upstream starts again before it has stopped it. */
module NativeBlockRestarts {
  import opened Basics
  import opened StreamContract
  import opened NativeBlockPolicy
  import opened NativeBlockTracking
  import opened NativeBlockTheorems

  /** A start for a block that is open abandons it: however the stream goes on within the rules in `Track`, the output
      breaks the contract. */
  lemma RestartWhileOpenBreaksContract(before: seq<Event>, i: int, b: ContentBlock, after: seq<Event>, thinkingEnabled: bool,
                                       allowError: bool)
    requires TrackAll(before + [BlockStart(Some(i), Some(b))] + after, thinkingEnabled).Some?
    requires TrackAll(before, thinkingEnabled).Some? && i in TrackAll(before, thinkingEnabled).value.open
    requires !ShouldDrop(b.kind, thinkingEnabled)
    ensures !Contract(Run(before + [BlockStart(Some(i), Some(b))] + after, thinkingEnabled).1, allowError)
  {
    hide Agree, Abandoned, HasStart, NoErrors;
    var start := BlockStart(Some(i), Some(b));
    var all := before + [start] + after;
    var n := |before| + 1;
    assert all[..n] == before + [start] && (before + [start])[..|before|] == before;
    TrackedBefore(all, n, thinkingEnabled);
    var (s, out) := Run(all, thinkingEnabled);
    RunAgrees(all, thinkingEnabled);
    UnsettledLeavesSomethingOpen(s, Replay(out).value, TrackAll(all, thinkingEnabled).value, Owners(all, thinkingEnabled));
  }

  // ---- What closes an abandoned block ----

  /** A stop that the policy passes on as it is: its index has neither been used nor dropped. */
  predicate RawStop(before: seq<Event>, e: Event, d: int, thinkingEnabled: bool) {
    && thinkingEnabled && e == BlockStop(Some(d))
    && d !in UsedBy(before, thinkingEnabled) && d !in DroppedBy(before, thinkingEnabled)
  }

  /** No upstream block has `d` as its latest segment. */
  ghost predicate Orphan(s: State, d: int) {
    d < s.next && forall j | j in s.byUpstream :: s.byUpstream[j].down != d
  }

  lemma {:induction false} ClosingSparesOrphans(s: State, i: int, n: nat, d: int)
    requires WellOrdered(s) && n <= |s.order| && Orphan(s, d)
    ensures Orphan(CloseOthers(s, i, n).0, d) && BlockStop(Some(d)) !in CloseOthers(s, i, n).1
    ensures forall j | j in s.byUpstream :: CloseOthers(s, i, n).0.byUpstream[j].down == s.byUpstream[j].down
  {
    hide CloseOthers, WellOrdered;
    if n > 0 {
      ClosingSparesOrphans(s, i, n - 1, d);
      CloseOthersUnfolds(s, i, n);
    } else {
      NoneClosed(s, i);
    }
  }

  /** A step leaves an orphan one, and stops it only when a raw stop comes for its own downstream index. */
  lemma StepSparesOrphans(s: State, before: seq<Event>, e: Event, d: int, thinkingEnabled: bool)
    requires WellOrdered(s) && Orphan(s, d) && s.pending <= s.byUpstream.Keys
    requires s.dropped == DroppedBy(before, thinkingEnabled) && s.byUpstream.Keys == UsedBy(before, thinkingEnabled)
    ensures var (s', out) := Step(s, e, thinkingEnabled);
            && Orphan(s', d)
            && if RawStop(before, e, d, thinkingEnabled) then out == [BlockStop(Some(d))] else BlockStop(Some(d)) !in out
  {
    hide CloseOthers, WellOrdered, ShouldDrop, DroppedBy, UsedBy, SyntheticStart;
    if Forwarded(e, thinkingEnabled) { ClosingSparesOrphans(s, e.index.value, |s.order|, d); }
  }

  /** What other events leave of a block. */
  lemma {:induction false} OnlyItsStopCloses(c: Blocks, out: seq<Event>, d: int)
    requires ReplayFrom(c, out).Some? && d in c.seen && BlockStop(Some(d)) !in out
    ensures d in ReplayFrom(c, out).value.seen && (d in ReplayFrom(c, out).value.open <==> d in c.open)
  {
    if out != [] {
      var before, e := out[..|out| - 1], out[|out| - 1];
      OnlyItsStopCloses(c, before, d);
      assert e in out;
    }
  }

  lemma StopCloses(c: Blocks, d: int)
    requires ReplayFrom(c, [BlockStop(Some(d))]).Some? && d in c.seen
    ensures var c' := ReplayFrom(c, [BlockStop(Some(d))]).value; d in c'.seen && d in c.open && d !in c'.open
  {
    NoEvents(c);
    ReplaySnoc(c, [], BlockStop(Some(d)));
    assert [] + [BlockStop(Some(d))] == [BlockStop(Some(d))];
  }

  /** Whether an orphan is open depends on its raw stop alone. */
  lemma {:induction false} OrphanUntilRawStop(before: seq<Event>, after: seq<Event>, d: int, thinkingEnabled: bool)
    requires Orphan(Run(before, thinkingEnabled).0, d)
    requires Replay(Run(before, thinkingEnabled).1).Some?
    requires d in Replay(Run(before, thinkingEnabled).1).value.seen && d in Replay(Run(before, thinkingEnabled).1).value.open
    ensures Orphan(Run(before + after, thinkingEnabled).0, d)
    ensures var c := Replay(Run(before + after, thinkingEnabled).1);
            c.Some? ==> d in c.value.seen && (d in c.value.open <==> NoRawStop(before, after, d, thinkingEnabled))
  {
    hide Orphan, RawStop, Step, Run, WellOrdered;
    if after == [] {
      assert before + after == before;
    } else {
      var init, e := after[..|after| - 1], after[|after| - 1];
      OrphanUntilRawStop(before, init, d, thinkingEnabled);
      var all := before + init;
      assert before + after == all + [e] && after == init + [e];
      RunSnoc(all, e, thinkingEnabled);
      StateByInput(all, thinkingEnabled);
      var (s, sent) := Run(all, thinkingEnabled);
      var out := Step(s, e, thinkingEnabled).1;
      StepSparesOrphans(s, all, e, d, thinkingEnabled);
      ReplayAppend(NO_BLOCKS, sent, out);
      NoRawStopSnoc(before, init, e, d, thinkingEnabled);
      if Replay(sent + out).Some? {
        if RawStop(all, e, d, thinkingEnabled) {
          StopCloses(Replay(sent).value, d);
        } else {
          OnlyItsStopCloses(Replay(sent).value, out, d);
        }
      }
    }
  }

  ghost predicate NoRawStop(before: seq<Event>, after: seq<Event>, d: int, thinkingEnabled: bool) {
    forall n | 0 <= n < |after| :: !RawStop(before + after[..n], after[n], d, thinkingEnabled)
  }

  lemma NoRawStopSnoc(before: seq<Event>, init: seq<Event>, e: Event, d: int, thinkingEnabled: bool)
    ensures NoRawStop(before, init + [e], d, thinkingEnabled)
       <==> NoRawStop(before, init, d, thinkingEnabled) && !RawStop(before + init, e, d, thinkingEnabled)
  {
    hide RawStop;
    var after := init + [e];
    assert after[..|init|] == init && forall n | 0 <= n < |init| :: after[..n] == init[..n] && after[n] == init[n];
    if NoRawStop(before, after, d, thinkingEnabled) {
      forall n | 0 <= n < |init| ensures !RawStop(before + init[..n], init[n], d, thinkingEnabled) {
        assert !RawStop(before + after[..n], after[n], d, thinkingEnabled);
      }
      assert !RawStop(before + after[..|init|], after[|init|], d, thinkingEnabled);
    }
  }

  /** Starting an open block again leaves its downstream block `d` open and without an owner. */
  lemma RestartOrphans(before: seq<Event>, i: int, b: ContentBlock, thinkingEnabled: bool) returns (d: int)
    requires TrackAll(before, thinkingEnabled).Some? && i in TrackAll(before, thinkingEnabled).value.open
    requires b.kind.Some? && !ShouldDrop(b.kind, thinkingEnabled)
    ensures 0 <= d < |Owners(before, thinkingEnabled)| && Owners(before, thinkingEnabled)[d] == i
    ensures Orphan(Run(before + [BlockStart(Some(i), Some(b))], thinkingEnabled).0, d)
    ensures var c := Replay(Run(before + [BlockStart(Some(i), Some(b))], thinkingEnabled).1);
            c.Some? ==> d in c.value.seen && d in c.value.open
  {
    hide Run, Track, ShouldDrop, StartStep;
    var start := BlockStart(Some(i), Some(b));
    RunAgrees(before, thinkingEnabled);
    var (s, sent) := Run(before, thinkingEnabled);
    d := s.byUpstream[i].down;
    RunSnoc(before, start, thinkingEnabled);
    RestartSpares(s, i, b, thinkingEnabled);
    var out := Step(s, start, thinkingEnabled).1;
    ReplayAppend(NO_BLOCKS, sent, out);
    if Replay(sent + out).Some? { OnlyItsStopCloses(Replay(sent).value, out, d); }
  }

  lemma RestartSpares(s: State, i: int, b: ContentBlock, thinkingEnabled: bool)
    requires WellOrdered(s) && i in s.byUpstream && s.byUpstream[i].down < s.next
    requires forall j, k | j in s.byUpstream && k in s.byUpstream && s.byUpstream[j].down == s.byUpstream[k].down :: j == k
    requires b.kind.Some? && !ShouldDrop(b.kind, thinkingEnabled)
    ensures var (s', out) := StartStep(s, i, b, thinkingEnabled);
            Orphan(s', s.byUpstream[i].down) && BlockStop(Some(s.byUpstream[i].down)) !in out
  {
    hide CloseOthers, WellOrdered, ShouldDrop;
    ClosingSparesItself(s, i, |s.order|);
  }

  lemma {:induction false} ClosingSparesItself(s: State, i: int, n: nat)
    requires WellOrdered(s) && n <= |s.order| && i in s.byUpstream
    requires forall j, k | j in s.byUpstream && k in s.byUpstream && s.byUpstream[j].down == s.byUpstream[k].down :: j == k
    ensures forall j | j in s.byUpstream :: CloseOthers(s, i, n).0.byUpstream[j].down == s.byUpstream[j].down
    ensures BlockStop(Some(s.byUpstream[i].down)) !in CloseOthers(s, i, n).1
  {
    hide CloseOthers, WellOrdered;
    if n > 0 {
      ClosingSparesItself(s, i, n - 1);
      CloseOthersUnfolds(s, i, n);
    } else {
      NoneClosed(s, i);
    }
  }

  /** Exactly what closes an abandoned block, whatever upstream does after the restart: a stop whose upstream index has never
      been used and happens to be the abandoned block's downstream index. */
  lemma AbandonedUntilRawStop(before: seq<Event>, i: int, b: ContentBlock, after: seq<Event>, thinkingEnabled: bool)
    returns (d: int)
    requires TrackAll(before, thinkingEnabled).Some? && i in TrackAll(before, thinkingEnabled).value.open
    requires b.kind.Some? && !ShouldDrop(b.kind, thinkingEnabled)
    ensures 0 <= d < |Owners(before, thinkingEnabled)| && Owners(before, thinkingEnabled)[d] == i
    ensures var start := BlockStart(Some(i), Some(b));
            var c := Replay(Run(before + [start] + after, thinkingEnabled).1);
            c.Some? ==> (d in c.value.open <==> NoRawStop(before + [start], after, d, thinkingEnabled))
    ensures var start := BlockStart(Some(i), Some(b));
            forall allowError | Contract(Run(before + [start] + after, thinkingEnabled).1, allowError) ::
              !NoRawStop(before + [start], after, d, thinkingEnabled)
  {
    hide Run, Track, ShouldDrop, Orphan, NoRawStop, Step, WellOrdered, HasStart, NoErrors;
    var restarted := before + [BlockStart(Some(i), Some(b))];
    d := RestartOrphans(before, i, b, thinkingEnabled);
    var sent := Run(restarted, thinkingEnabled).1;
    var rest := SentMore(restarted, after, thinkingEnabled);
    ReplayAppend(NO_BLOCKS, sent, rest);
    if Replay(sent).Some? { OrphanUntilRawStop(restarted, after, d, thinkingEnabled); }
  }

  /** A start for a block whose stop has been sent already, but has not come: the next stop is swallowed, and only the one
      after it closes the block. */
  lemma RestartWhileOwedNeedsTwoStops(before: seq<Event>, i: int, b: ContentBlock, thinkingEnabled: bool)
    requires TrackAll(before + [BlockStart(Some(i), Some(b))], thinkingEnabled).Some?
    requires TrackAll(before, thinkingEnabled).Some? && !ShouldDrop(b.kind, thinkingEnabled)
    requires var u := TrackAll(before, thinkingEnabled).value; i in u.owed && i !in u.open
    ensures var start, stop := BlockStart(Some(i), Some(b)), BlockStop(Some(i));
            var (s, _) := Run(before + [start], thinkingEnabled);
            var (s1, out1) := Step(s, stop, thinkingEnabled);
            && out1 == []
            && Step(s1, stop, thinkingEnabled).1 == [BlockStop(Some(Run(before, thinkingEnabled).0.next))]
  {
    var start := BlockStart(Some(i), Some(b));
    assert (before + [start])[..|before|] == before;
    var s0, s := Run(before, thinkingEnabled).0, Run(before + [start], thinkingEnabled).0;
    RunAgrees(before + [start], thinkingEnabled);
    assert i in s.pending && i !in s.dropped;
    ForwardedStartClosesOthers(s0, i, b, thinkingEnabled);
    hide StartStep, Agree, Track, ShouldDrop, TrackAll, Run;
    OwedStopComesFirst(s, i, thinkingEnabled);
  }

  lemma OwedStopComesFirst(s: State, i: int, thinkingEnabled: bool)
    requires WellOrdered(s) && i in s.pending && i !in s.dropped && i in s.byUpstream && s.byUpstream[i].open
    ensures var (s1, out1) := Step(s, BlockStop(Some(i)), thinkingEnabled);
            out1 == [] && Step(s1, BlockStop(Some(i)), thinkingEnabled).1 == [BlockStop(Some(s.byUpstream[i].down))]
  {}

  const OPENING := MessageStart("msg", "model")
  const TEXT_START := BlockStart(Some(0), Some(ContentBlock(Some("text"), "", None, None, None)))
  const TEXT_STOP := BlockStop(Some(0))

  lemma OneBlockTracked()
    ensures TrackAll([OPENING] + [TEXT_START], true) == Some(Upstream(map[0 := "text"], {0}, {}, {0}, {}, false))
  {
    TrackSnoc([], OPENING, true);
    assert [] + [OPENING] == [OPENING];
    TrackSnoc([OPENING], TEXT_START, true);
    var none: set<int> := {};
    var nothing: map<int, string> := map[];
    assert none + (none - {0}) == none && none + {0} == {0} && nothing[0 := "text"] == map[0 := "text"];
  }

  /** The shortest stream with a restart: without the second start it meets the contract, with it it does not. */
  lemma RestartIsWhatBreaksIt()
    ensures Contract(Run([OPENING] + [TEXT_START] + [TEXT_STOP] + [MessageStop], true).1, false)
    ensures !Contract(Run([OPENING] + [TEXT_START] + [TEXT_START] + [TEXT_STOP] + [MessageStop], true).1, true)
  {
    hide Contract, HasStart, NoErrors;
    var once := [OPENING] + [TEXT_START];
    OneBlockTracked();
    TrackSnoc(once, TEXT_STOP, true);
    TrackSnoc(once + [TEXT_STOP], MessageStop, true);
    assert (once + [TEXT_STOP] + [MessageStop])[0] == OPENING;
    PlainFrame(once + [TEXT_STOP] + [MessageStop]);
    ContractExactlyWhenSettled(once + [TEXT_STOP] + [MessageStop], true, false);
    TrackSnoc(once, TEXT_START, true);
    TrackSnoc(once + [TEXT_START], TEXT_STOP, true);
    TrackSnoc(once + [TEXT_START] + [TEXT_STOP], MessageStop, true);
    ContractExactlyWhenSettled(once + [TEXT_START] + [TEXT_STOP] + [MessageStop], true, true);
  }

  lemma PlainFrame(events: seq<Event>)
    requires events != [] && events[0].MessageStart? && forall k | 0 <= k < |events| :: !events[k].Error?
    ensures HasStart(events) && NoErrors(events)
  {}

  const OTHER_START := BlockStart(Some(5), TEXT_START.block)
  const OTHER_STOP := BlockStop(Some(5))
  const RESTARTED := [OPENING] + [OTHER_START] + [OTHER_START] + [OTHER_STOP] + [TEXT_STOP] + [MessageStop]

  const OTHER_SHOWN := BlockStart(Some(1), TEXT_START.block)

  /** A stream outside the rules in `Track` where that happens: its restart does no harm. */
  lemma RawStopClosesAbandoned()
    ensures TrackAll(RESTARTED, true).None? && Contract(Run(RESTARTED, true).1, false)
  {
    hide Contract, TrackAll, StartStep, Run;
    var twice := [OPENING] + [OTHER_START] + [OTHER_START];
    RunTwiceStarted();
    RunSnoc(twice, OTHER_STOP, true);
    RunSnoc(twice + [OTHER_STOP], TEXT_STOP, true);
    RunSnoc(twice + [OTHER_STOP] + [TEXT_STOP], MessageStop, true);
    ShownContract();
    NotTracked();
  }

  lemma RunOnceStarted()
    ensures Run([OPENING] + [OTHER_START], true)
         == (State(1, [5], map[5 := Segment("text", 0, true, TEXT_START.block.value)], {}, {}), [OPENING] + [TEXT_START])
  {
    var block := TEXT_START.block.value;
    assert Run([], true) == (FRESH, []);
    hide StartStep, Run;
    RunSnoc([], OPENING, true);
    assert [] + [OPENING] == [OPENING];
    RunSnoc([OPENING], OTHER_START, true);
    StartAlone(FRESH, 5, block);
    assert Allocate(FRESH, 5, "text", block) == State(1, [5], map[5 := Segment("text", 0, true, block)], {}, {});
  }

  lemma RunTwiceStarted()
    ensures Run([OPENING] + [OTHER_START] + [OTHER_START], true)
         == (State(2, [5], map[5 := Segment("text", 1, true, TEXT_START.block.value)], {}, {}),
             [OPENING] + [TEXT_START] + [OTHER_SHOWN])
  {
    hide StartStep, Run;
    var block := TEXT_START.block.value;
    RunOnceStarted();
    RunSnoc([OPENING] + [OTHER_START], OTHER_START, true);
    var once := State(1, [5], map[5 := Segment("text", 0, true, block)], {}, {});
    StartAlone(once, 5, block);
    assert Allocate(once, 5, "text", block) == State(2, [5], map[5 := Segment("text", 1, true, block)], {}, {});
  }

  lemma StartAlone(s: State, i: int, b: ContentBlock)
    requires WellOrdered(s) && b.kind.Some? && forall j | j in s.byUpstream :: j == i
    ensures StartStep(s, i, b, true) == (Allocate(s, i, b.kind.value, b), [BlockStart(Some(s.next), Some(b))])
  {
    NoneToClose(s, i, |s.order|);
    assert [] + [BlockStart(Some(s.next), Some(b))] == [BlockStart(Some(s.next), Some(b))];
  }

  lemma {:induction false} NoneToClose(s: State, i: int, n: nat)
    requires WellOrdered(s) && n <= |s.order| && forall j | j in s.byUpstream :: j == i
    ensures CloseOthers(s, i, n) == (s, [])
  {
    if n > 0 { NoneToClose(s, i, n - 1); }
  }

  lemma ShownContract()
    ensures Contract([OPENING] + [TEXT_START] + [OTHER_SHOWN] + [BlockStop(Some(1))] + [TEXT_STOP] + [MessageStop], false)
  {
    hide ReplayFrom, HasStart, NoErrors;
    var e1 := [OPENING];
    var e2 := e1 + [TEXT_START];
    var e3 := e2 + [OTHER_SHOWN];
    var e4 := e3 + [BlockStop(Some(1))];
    var e5 := e4 + [TEXT_STOP];
    NoEvents(NO_BLOCKS);
    ReplaySnoc(NO_BLOCKS, [], OPENING);
    assert [] + [OPENING] == e1;
    ReplaySnoc(NO_BLOCKS, e1, TEXT_START);
    ReplaySnoc(NO_BLOCKS, e2, OTHER_SHOWN);
    ReplaySnoc(NO_BLOCKS, e3, BlockStop(Some(1)));
    ReplaySnoc(NO_BLOCKS, e4, TEXT_STOP);
    ReplaySnoc(NO_BLOCKS, e5, MessageStop);
    var none: map<int, string> := map[];
    assert none[0 := "text"][1 := "text"] - {1} - {0} == none;
    assert (e5 + [MessageStop])[0] == OPENING;
    PlainFrame(e5 + [MessageStop]);
  }

  lemma NotTracked()
    ensures TrackAll(RESTARTED, true).None?
  {
    var once := [OPENING] + [OTHER_START];
    var twice := once + [OTHER_START];
    TrackSnoc([], OPENING, true);
    assert [] + [OPENING] == [OPENING];
    TrackSnoc([OPENING], OTHER_START, true);
    TrackSnoc(once, OTHER_START, true);
    TrackSnoc(twice, OTHER_STOP, true);
    TrackSnoc(twice + [OTHER_STOP], TEXT_STOP, true);
    TrackSnoc(twice + [OTHER_STOP] + [TEXT_STOP], MessageStop, true);
    hide TrackAll;
  }
}
