/** What converting a history keeps: every message in its place, every tool call and result in order, and the content
    after a tool call once, right after the last result it waited for. */
module ConversionTheorems {
  import opened Basics
  import opened Conversion

  // ---- Interleaving ----

  /** `whole` is `a` and `b` shuffled, each in its own order. */
  ghost predicate Interleaved(whole: seq<Out>, a: seq<Out>, b: seq<Out>) {
    && |whole| == |a| + |b|
    && (|| whole == []
        || (a != [] && whole[|whole| - 1] == a[|a| - 1] && Interleaved(whole[..|whole| - 1], a[..|a| - 1], b))
        || (b != [] && whole[|whole| - 1] == b[|b| - 1] && Interleaved(whole[..|whole| - 1], a, b[..|b| - 1])))
  }

  lemma TakeFirst(whole: seq<Out>, a: seq<Out>, b: seq<Out>, o: Out)
    requires Interleaved(whole, a, b)
    ensures Interleaved(whole + [o], a + [o], b)
  {
    assert (whole + [o])[..|whole|] == whole && (a + [o])[..|a|] == a;
  }

  lemma TakeSecond(whole: seq<Out>, a: seq<Out>, b: seq<Out>, o: Out)
    requires Interleaved(whole, a, b)
    ensures Interleaved(whole + [o], a, b + [o])
  {
    assert (whole + [o])[..|whole|] == whole && (b + [o])[..|b|] == b;
  }

  lemma LastTaken(whole: seq<Out>, a: seq<Out>, b: seq<Out>)
    requires Interleaved(whole, a, b)
    ensures whole == [] ==> a == [] && b == []
    ensures whole != [] ==>
              || (a != [] && whole[|whole| - 1] == a[|a| - 1] && Interleaved(whole[..|whole| - 1], a[..|a| - 1], b))
              || (b != [] && whole[|whole| - 1] == b[|b| - 1] && Interleaved(whole[..|whole| - 1], a, b[..|b| - 1]))
  {}

  lemma Cut(before: seq<Out>, xs: seq<Out>)
    requires xs != []
    ensures before + xs == before + xs[..|xs| - 1] + [xs[|xs| - 1]]
  {}

  lemma {:induction false} InterleavedAppend(w1: seq<Out>, a1: seq<Out>, b1: seq<Out>, w2: seq<Out>, a2: seq<Out>, b2: seq<Out>)
    requires Interleaved(w1, a1, b1) && Interleaved(w2, a2, b2)
    ensures Interleaved(w1 + w2, a1 + a2, b1 + b2)
  {
    hide Interleaved;
    LastTaken(w2, a2, b2);
    if w2 == [] {
      assert w1 + w2 == w1 && a1 + a2 == a1 && b1 + b2 == b1;
    } else {
      var o, w := w2[|w2| - 1], w2[..|w2| - 1];
      Cut(w1, w2);
      if a2 != [] && o == a2[|a2| - 1] && Interleaved(w, a2[..|a2| - 1], b2) {
        InterleavedAppend(w1, a1, b1, w, a2[..|a2| - 1], b2);
        TakeFirst(w1 + w, a1 + a2[..|a2| - 1], b1 + b2, o);
        Cut(a1, a2);
      } else {
        InterleavedAppend(w1, a1, b1, w, a2, b2[..|b2| - 1]);
        TakeSecond(w1 + w, a1 + a2, b1 + b2[..|b2| - 1], o);
        Cut(b1, b2);
      }
    }
  }

  lemma MoreFirst(whole: seq<Out>, a: seq<Out>, b: seq<Out>, more: seq<Out>)
    requires Interleaved(whole, a, b)
    ensures Interleaved(whole + more, a + more, b)
  {
    hide Interleaved;
    OnlyFirst(more);
    InterleavedAppend(whole, a, b, more, more, []);
    assert b + [] == b;
  }

  lemma {:induction false} OnlyFirst(a: seq<Out>)
    ensures Interleaved(a, a, [])
  {
    if a != [] { OnlyFirst(a[..|a| - 1]); }
  }

  /** What `f` does not see in `b` does not matter. */
  lemma {:induction false} InterleavedCollect<B>(f: Out -> seq<B>, whole: seq<Out>, a: seq<Out>, b: seq<Out>)
    requires Interleaved(whole, a, b) && forall k | 0 <= k < |b| :: f(b[k]) == []
    ensures Collect(f, whole) == Collect(f, a)
  {
    if whole != [] {
      if a != [] && whole[|whole| - 1] == a[|a| - 1] && Interleaved(whole[..|whole| - 1], a[..|a| - 1], b) {
        InterleavedCollect(f, whole[..|whole| - 1], a[..|a| - 1], b);
      } else {
        InterleavedCollect(f, whole[..|whole| - 1], a, b[..|b| - 1]);
      }
    }
  }

  // ---- Once or more ----

  /** `e` is `d` with each element repeated in place, at least once. */
  ghost predicate Stretched(e: seq<Out>, d: seq<Out>) {
    if e == [] then d == []
    else
      && d != [] && e[|e| - 1] == d[|d| - 1]
      && (Stretched(e[..|e| - 1], d[..|d| - 1]) || Stretched(e[..|e| - 1], d))
  }

  lemma StretchedOne(e: seq<Out>, d: seq<Out>, o: Out)
    requires Stretched(e, d)
    ensures Stretched(e + [o], d + [o])
  {
    assert (e + [o])[..|e|] == e && (d + [o])[..|d|] == d;
  }

  lemma StretchedAgain(e: seq<Out>, d: seq<Out>, o: Out)
    requires Stretched(e, d + [o])
    ensures Stretched(e + [o], d + [o])
  {
    assert (e + [o])[..|e|] == e;
  }

  lemma {:induction false} StretchedCopies(e: seq<Out>, d: seq<Out>, o: Out, n: nat)
    requires Stretched(e, d) && n > 0
    ensures Stretched(e + Copies(o, n), d + [o])
  {
    hide Stretched;
    if n == 1 {
      StretchedOne(e, d, o);
      assert Copies(o, 1) == [o];
    } else {
      StretchedCopies(e, d, o, n - 1);
      StretchedAgain(e + Copies(o, n - 1), d, o);
      assert e + Copies(o, n) == e + Copies(o, n - 1) + [o];
    }
  }

  /** Nothing is lost; and nothing is repeated exactly when the lengths agree. */
  lemma {:induction false} StretchedLength(e: seq<Out>, d: seq<Out>)
    requires Stretched(e, d)
    ensures |e| >= |d| && (|e| == |d| ==> e == d)
  {
    if e != [] {
      if Stretched(e[..|e| - 1], d[..|d| - 1]) {
        StretchedLength(e[..|e| - 1], d[..|d| - 1]);
      } else {
        StretchedLength(e[..|e| - 1], d);
      }
      if |e| == |d| {
        Cut([], e);
        Cut([], d);
      }
    }
  }

  // ---- One user turn ----

  function IdOf(b: Block): seq<string> {
    if b.ToolResult? then [IdText(b.toolUseId)] else []
  }

  /** The ids a user turn answers, in order. */
  function ResultIds(blocks: seq<Block>): seq<string> {
    Collect(IdOf, blocks)
  }

  ghost predicate Covers(ids: seq<string>, wanted: set<string>) {
    forall x | x in wanted :: x in ids
  }

  lemma RemainingIds(blocks: seq<Block>, wanted: set<string>, inject: Option<Out>)
    ensures forall x :: x in ReadBlocks(blocks, wanted, inject).remaining <==> x in wanted && x !in ResultIds(blocks)
    ensures ReadBlocks(blocks, wanted, inject).remaining == {} <==> Covers(ResultIds(blocks), wanted)
  {
    if blocks != [] { RemainingIds(blocks[..|blocks| - 1], wanted, inject); }
    EmptyOrHasString(ReadBlocks(blocks, wanted, inject).remaining);
  }

  lemma CoversPrefix(ids: seq<string>, wanted: set<string>)
    ensures ids != [] && Covers(ids[..|ids| - 1], wanted) ==> Covers(ids, wanted)
  {}

  /** Deferred content is put in when the last awaited result arrives, and again after every later result of the turn. */
  lemma {:induction false} TimesEmitted(blocks: seq<Block>, wanted: set<string>, late: Out)
    requires wanted != {}
    ensures var n, ids := ReadBlocks(blocks, wanted, Some(late)).emitted, ResultIds(blocks);
            && (n > 0 <==> Covers(ids, wanted))
            && (n > 1 <==> ids != [] && Covers(ids[..|ids| - 1], wanted))
  {
    EmptyOrHasString(wanted);
    if blocks != [] {
      var before, b := blocks[..|blocks| - 1], blocks[|blocks| - 1];
      TimesEmitted(before, wanted, late);
      RemainingIds(blocks, wanted, Some(late));
      var ids := ResultIds(blocks);
      if b.ToolResult? {
        assert ids == ResultIds(before) + [IdText(b.toolUseId)];
        assert ids[..|ids| - 1] == ResultIds(before);
        CoversPrefix(ResultIds(before), wanted);
        assert forall x | x in ResultIds(before) :: x in ids;
      } else {
        assert ids == ResultIds(before);
      }
    }
  }

  lemma NoCopies(late: Out)
    ensures Copies(late, 0) == []
  {}

  lemma ResultInterleaves(out: seq<Out>, plain: seq<Out>, late: Out, n: nat, texts: seq<Out>, answer: Out)
    requires Interleaved(out, plain, Copies(late, n))
    ensures Interleaved(out + texts + [answer], plain + texts + [answer], Copies(late, n))
    ensures Interleaved(out + texts + [answer] + [late], plain + texts + [answer], Copies(late, n + 1))
  {
    OneMoreCopy(late, n);
    hide Interleaved, Copies;
    var copies := Copies(late, n);
    MoreFirst(out, plain, copies, texts);
    TakeFirst(out + texts, plain + texts, copies, answer);
    TakeSecond(out + texts + [answer], plain + texts + [answer], copies, late);
  }

  lemma OneMoreCopy(late: Out, n: nat)
    ensures Copies(late, n + 1) == Copies(late, n) + [late]
  {}

  /** Putting content in changes nothing else. */
  lemma {:induction false} InjectionInterleaves(blocks: seq<Block>, wanted: set<string>, late: Out)
    ensures var r, plain := ReadBlocks(blocks, wanted, Some(late)), ReadBlocks(blocks, {}, None);
            r.texts == plain.texts && Interleaved(r.out, plain.out, Copies(late, r.emitted))
  {
    hide Interleaved, Flush, Serialize, IdText, Copies;
    NoCopies(late);
    if blocks == [] {
      OnlyFirst([]);
    } else {
      var before, b := blocks[..|blocks| - 1], blocks[|blocks| - 1];
      InjectionInterleaves(before, wanted, late);
      var r, plain := ReadBlocks(before, wanted, Some(late)), ReadBlocks(before, {}, None);
      if b.ToolResult? {
        ResultInterleaves(r.out, plain.out, late, r.emitted, Flush(r.texts), ToolOut(b.toolUseId, Serialize(b.content)));
      }
    }
  }

  // ---- The whole history ----

  /** Content that has to wait, one deferred message for each turn that has some. */
  function DeferralOf(mode: ReplayMode): Message -> seq<Out> {
    (m: Message) => Late(Opened(m), mode)
  }

  function Late(w: Option<Waiting>, mode: ReplayMode): seq<Out> {
    if w.Some? then [DeferredMessage(w.value, mode)] else []
  }

  /** The ids that deferred content waits for after a history: those of the latest assistant turn, if it has some after
      its calls, without the ids answered since. A plain user message, or the last answer, ends the wait. */
  function Awaiting(history: seq<Message>): Option<set<string>> {
    if history == [] then None
    else
      var before, m := Awaiting(history[..|history| - 1]), history[|history| - 1];
      if IsTurn(m, Assistant) then if Opened(m).Some? then Some(Opened(m).value.remaining) else None
      else if m.role != User then before
      else if before.None? || !m.content.Blocks? || (forall x | x in before.value :: x in ResultIds(m.content.blocks)) then None
      else Some(set x | x in before.value && x !in ResultIds(m.content.blocks))
  }

  ghost predicate WaitsFor(waiting: Option<Waiting>, awaiting: Option<set<string>>) {
    (waiting.Some? <==> awaiting.Some?) && (waiting.Some? ==> waiting.value.remaining == awaiting.value)
  }

  lemma ResultsWaitFor(p: Progress, m: Message, mode: ReplayMode)
    requires p.waiting.Some? && p.waiting.value.remaining != {} && IsTurn(m, User)
    ensures var wanted, ids := p.waiting.value.remaining, ResultIds(m.content.blocks);
            WaitsFor(Step(p, m, mode).waiting,
                     if Covers(ids, wanted) then None else Some(set x | x in wanted && x !in ids))
  {
    hide ReadBlocks, ResultIds;
    var wanted, late := p.waiting.value.remaining, DeferredMessage(p.waiting.value, mode);
    TimesEmitted(m.content.blocks, wanted, late);
    RemainingIds(m.content.blocks, wanted, Some(late));
  }

  /** The converter waits for exactly those ids. */
  lemma {:induction false} AwaitingIsWaiting(history: seq<Message>, mode: ReplayMode)
    ensures WaitsFor(Run(history, mode).waiting, Awaiting(history))
  {
    hide ReadBlocks, ResultIds, AssistantMessage, Direct, WaitIds, FirstToolUse, Deferred, Collect, Copies;
    if history != [] {
      var before, m := history[..|history| - 1], history[|history| - 1];
      AwaitingIsWaiting(before, mode);
      var p := Run(before, mode);
      if IsTurn(m, User) && p.waiting.Some? && p.waiting.value.remaining != {} { ResultsWaitFor(p, m, mode); }
    }
  }

  /** A user turn that answers every awaited id and then has more results. */
  ghost predicate Overfull(wanted: set<string>, m: Message) {
    && IsTurn(m, User) && wanted != {}
    && var ids := ResultIds(m.content.blocks);
       ids != [] && Covers(ids[..|ids| - 1], wanted)
  }

  ghost predicate OverfullAt(history: seq<Message>, k: nat)
    requires k < |history|
  {
    var awaiting := Awaiting(history[..k]);
    awaiting.Some? && Overfull(awaiting.value, history[k])
  }

  /** `settled` are the deferrals that are not waiting any more. */
  ghost predicate Kept(p: Progress, direct: seq<Out>, settled: seq<Out>, once: bool) {
    Interleaved(p.out, direct, p.deferred) && Stretched(p.deferred, settled) && (once <==> |p.deferred| == |settled|)
  }

  lemma OneMoreSettled(p: Progress, direct: seq<Out>, settled: seq<Out>, once: bool, late: Out)
    requires Kept(p, direct, settled, once)
    ensures Interleaved(p.out + [late], direct, p.deferred + [late])
    ensures Stretched(p.deferred + [late], settled + [late])
  {
    hide Interleaved, Stretched;
    TakeSecond(p.out, direct, p.deferred, late);
    StretchedOne(p.deferred, settled, late);
  }

  lemma EndedWaitKeeps(p: Progress, m: Message, mode: ReplayMode, direct: seq<Out>, settled: seq<Out>, once: bool)
    requires Kept(p, direct, settled, once) && p.waiting.Some? && EndsWait(p.waiting.value, m)
    ensures Kept(Step(p, m, mode), direct + Direct(mode)(m), settled + Late(p.waiting, mode), once)
    ensures Step(p, m, mode).waiting == Opened(m)
  {
    hide Interleaved, Stretched, Direct, DeferredMessage, Opened;
    var late, own := DeferredMessage(p.waiting.value, mode), Direct(mode)(m);
    OneMoreSettled(p, direct, settled, once, late);
    MoreFirst(p.out + [late], direct, p.deferred + [late], own);
  }

  lemma ResultsKeep(p: Progress, m: Message, mode: ReplayMode, direct: seq<Out>, settled: seq<Out>, once: bool)
    returns (settled': seq<Out>)
    requires Kept(p, direct, settled, once) && p.waiting.Some? && !EndsWait(p.waiting.value, m) && IsTurn(m, User)
    ensures Kept(Step(p, m, mode), direct + Direct(mode)(m), settled', once && !Overfull(p.waiting.value.remaining, m))
    ensures settled' + Late(Step(p, m, mode).waiting, mode) == settled + Late(p.waiting, mode)
  {
    hide Interleaved, Stretched, ReadBlocks, AssistantMessage, Covers, ResultIds;
    var wanted, late := p.waiting.value.remaining, DeferredMessage(p.waiting.value, mode);
    var r, plain := ReadBlocks(m.content.blocks, wanted, Some(late)), ReadBlocks(m.content.blocks, {}, None);
    InjectionInterleaves(m.content.blocks, wanted, late);
    TimesEmitted(m.content.blocks, wanted, late);
    StretchedLength(p.deferred, settled);
    MoreFirst(r.out, plain.out, Copies(late, r.emitted), Flush(r.texts));
    InterleavedAppend(p.out, direct, p.deferred, r.out + Flush(r.texts), plain.out + Flush(r.texts), Copies(late, r.emitted));
    assert p.out + (r.out + Flush(r.texts)) == p.out + r.out + Flush(r.texts);
    if r.emitted > 0 {
      StretchedCopies(p.deferred, settled, late, r.emitted);
      settled' := settled + [late];
    } else {
      settled' := settled;
      assert Copies(late, 0) == [] && p.deferred + [] == p.deferred;
    }
  }

  lemma StepKeeps(p: Progress, m: Message, mode: ReplayMode, direct: seq<Out>, settled: seq<Out>, once: bool)
    returns (settled': seq<Out>)
    requires Kept(p, direct, settled, once)
    ensures Kept(Step(p, m, mode), direct + Direct(mode)(m), settled',
                 once && !(p.waiting.Some? && Overfull(p.waiting.value.remaining, m)))
    ensures settled' + Late(Step(p, m, mode).waiting, mode) == settled + Late(p.waiting, mode) + DeferralOf(mode)(m)
  {
    hide Interleaved, Stretched, Direct, DeferredMessage, ReadBlocks, Deferred, FirstToolUse, Covers, ResultIds;
    if p.waiting.Some? && EndsWait(p.waiting.value, m) {
      EndedWaitKeeps(p, m, mode, direct, settled, once);
      settled' := settled + Late(p.waiting, mode);
    } else if p.waiting.Some? && IsTurn(m, User) {
      settled' := ResultsKeep(p, m, mode, direct, settled, once);
    } else {
      settled' := settled;
      MoreFirst(p.out, direct, p.deferred, Direct(mode)(m));
    }
  }

  lemma {:induction false} RunKeeps(history: seq<Message>, mode: ReplayMode) returns (settled: seq<Out>)
    ensures Kept(Run(history, mode), Collect(Direct(mode), history), settled,
                 forall k | 0 <= k < |history| :: !OverfullAt(history, k))
    ensures settled + Late(Run(history, mode).waiting, mode) == Collect(DeferralOf(mode), history)
  {
    hide Step, Overfull, OverfullAt, DeferralOf, Direct, Late;
    if history == [] {
      settled := [];
      NothingKept(mode);
    } else {
      var last := |history| - 1;
      var before := history[..last];
      var earlier := RunKeeps(before, mode);
      settled := StepKeeps(Run(before, mode), history[last], mode, Collect(Direct(mode), before), earlier,
                           forall k | 0 <= k < |before| :: !OverfullAt(before, k));
      OverfullSnoc(history, mode);
    }
  }

  lemma OverfullSnoc(history: seq<Message>, mode: ReplayMode)
    requires history != []
    ensures var last := |history| - 1;
            var before := history[..last];
            var waiting := Run(before, mode).waiting;
            (forall k | 0 <= k < |history| :: !OverfullAt(history, k))
            <==> (forall k | 0 <= k < last :: !OverfullAt(before, k))
                 && !(waiting.Some? && Overfull(waiting.value.remaining, history[last]))
  {
    hide Run, Overfull, Awaiting;
    var last := |history| - 1;
    var before := history[..last];
    AwaitingIsWaiting(before, mode);
    forall k | 0 <= k < last ensures OverfullAt(before, k) == OverfullAt(history, k) {
      assert before[..k] == history[..k];
    }
    var waiting := Run(before, mode).waiting;
    assert OverfullAt(history, last) == (waiting.Some? && Overfull(waiting.value.remaining, history[last]));
  }

  lemma NothingKept(mode: ReplayMode)
    ensures Kept(START, [], [], true) && Late(None, mode) == []
  {}

  /** The converted history is the messages converted each for itself, in order, with deferred content put in between;
      every turn's deferred content is there. It is there exactly once for every turn if and only if no user turn
      has more results after the one that completes the turn. */
  lemma ContentIsNeverLost(history: seq<Message>, mode: ReplayMode)
    ensures var end, deferrals := End(Run(history, mode), mode), Collect(DeferralOf(mode), history);
            && Interleaved(end.out, Collect(Direct(mode), history), end.deferred)
            && Stretched(end.deferred, deferrals)
            && (end.deferred == deferrals <==> forall k | 0 <= k < |history| :: !OverfullAt(history, k))
  {
    hide Interleaved, Stretched, DeferredMessage, Direct, DeferralOf, Run, OverfullAt;
    var p := Run(history, mode);
    var settled := RunKeeps(history, mode);
    var once := forall k | 0 <= k < |history| :: !OverfullAt(history, k);
    if p.waiting.Some? {
      OneMoreSettled(p, Collect(Direct(mode), history), settled, once, DeferredMessage(p.waiting.value, mode));
    } else {
      assert settled + [] == settled;
    }
    StretchedLength(End(p, mode).deferred, Collect(DeferralOf(mode), history));
  }

  // ---- Histories that answer each call once ----

  /** The ids of the latest assistant turn's calls. */
  function Asked(history: seq<Message>): set<string> {
    if history == [] then {}
    else
      var m := history[|history| - 1];
      if IsTurn(m, Assistant) then WaitIds(Collect(UseOf, m.content.blocks)) else Asked(history[..|history| - 1])
  }

  /** The ids answered by user turns since then. */
  function Answered(history: seq<Message>): seq<string> {
    if history == [] then []
    else
      var m := history[|history| - 1];
      if IsTurn(m, Assistant) then []
      else Answered(history[..|history| - 1]) + if IsTurn(m, User) then ResultIds(m.content.blocks) else []
  }

  /** User turns answer only calls of the latest assistant turn, and none of them twice. */
  ghost predicate AnswersOnce(history: seq<Message>) {
    var ids := Answered(history);
    && (forall k | 0 <= k < |ids| :: ids[k] in Asked(history))
    && (forall j, k | 0 <= j < k < |ids| :: ids[j] != ids[k])
  }

  lemma {:induction false} AwaitingIsUnanswered(history: seq<Message>)
    requires Awaiting(history).Some?
    ensures forall x :: x in Awaiting(history).value <==> x in Asked(history) && x !in Answered(history)
  {
    hide ResultIds, WaitIds, Collect;
    var before, m := history[..|history| - 1], history[|history| - 1];
    if !IsTurn(m, Assistant) { AwaitingIsUnanswered(before); }
  }

  lemma AnswersOnceIsNotOverfull(before: seq<Message>, m: Message)
    requires AnswersOnce(before + [m]) && Awaiting(before).Some?
    ensures !Overfull(Awaiting(before).value, m)
  {
    hide ResultIds, WaitIds, Collect;
    assert (before + [m])[..|before|] == before;
    AwaitingIsUnanswered(before);
    if IsTurn(m, User) && ResultIds(m.content.blocks) != [] {
      var all, earlier, ids := Answered(before + [m]), Answered(before), ResultIds(m.content.blocks);
      var last := |ids| - 1;
      assert all == earlier + ids;
      assert all[|earlier| + last] == ids[last];
      assert forall k | 0 <= k < |earlier| :: all[k] == earlier[k];
      assert forall k | 0 <= k < last :: all[|earlier| + k] == ids[k];
      assert ids[last] !in earlier && ids[last] !in ids[..last];
      assert ids[last] in Awaiting(before).value;
    }
  }

  /** On histories whose user turns answer each call at most once, and no unknown ones, every turn's deferred content is
      there exactly once. */
  lemma DeferredOnce(history: seq<Message>, mode: ReplayMode)
    requires forall k | 0 <= k <= |history| :: AnswersOnce(history[..k])
    ensures End(Run(history, mode), mode).deferred == Collect(DeferralOf(mode), history)
    ensures Interleaved(End(Run(history, mode), mode).out, Collect(Direct(mode), history), Collect(DeferralOf(mode), history))
  {
    hide Run, AnswersOnce, Overfull, Interleaved, DeferralOf, Direct, Awaiting;
    ContentIsNeverLost(history, mode);
    forall k | 0 <= k < |history| ensures !OverfullAt(history, k) {
      if Awaiting(history[..k]).Some? {
        assert history[..k + 1] == history[..k] + [history[k]];
        AnswersOnceIsNotOverfull(history[..k], history[k]);
      }
    }
  }

  lemma {:induction false} PlainReading(blocks: seq<Block>, wanted: set<string>, late: Out)
    requires !Covers(ResultIds(blocks), wanted)
    ensures var r, plain := ReadBlocks(blocks, wanted, Some(late)), ReadBlocks(blocks, {}, None);
            r.out == plain.out && r.texts == plain.texts && r.emitted == 0
  {
    if blocks != [] {
      var before, b := blocks[..|blocks| - 1], blocks[|blocks| - 1];
      assert forall x | x in ResultIds(before) :: x in ResultIds(blocks);
      PlainReading(before, wanted, late);
      RemainingIds(blocks, wanted, Some(late));
    }
  }

  /** Without results, reading goes on the same way whatever was read before. */
  lemma {:induction false} ReadTexts(blocks: seq<Block>, q: nat, wanted: set<string>, inject: Option<Out>)
    requires q <= |blocks| && ReadBlocks(blocks[..q], wanted, inject).texts == []
    requires forall k | q <= k < |blocks| :: !blocks[k].ToolResult?
    ensures var r, head, rest := ReadBlocks(blocks, wanted, inject), ReadBlocks(blocks[..q], wanted, inject),
                                 ReadBlocks(blocks[q..], {}, None);
            r.out == head.out && rest.out == [] && r.texts == rest.texts && r.emitted == head.emitted
    decreases |blocks| - q
  {
    if q == |blocks| {
      assert blocks[..q] == blocks && blocks[q..] == [];
    } else {
      var last := |blocks| - 1;
      assert blocks[..last][..q] == blocks[..q] && blocks[..last][q..] == blocks[q..][..last - q];
      ReadTexts(blocks[..last], q, wanted, inject);
    }
  }

  lemma UpToLastResult(blocks: seq<Block>, wanted: set<string>, late: Out)
    requires blocks != [] && blocks[|blocks| - 1].ToolResult?
    requires Covers(ResultIds(blocks), wanted) && !Covers(ResultIds(blocks[..|blocks| - 1]), wanted)
    ensures var r := ReadBlocks(blocks, wanted, Some(late));
            r.out == UserMessages(blocks) + [late] && r.texts == [] && r.emitted == 1
  {
    hide Covers, ResultIds, Serialize, IdText;
    PlainReading(blocks[..|blocks| - 1], wanted, late);
    RemainingIds(blocks, wanted, Some(late));
    assert UserMessages(blocks) + [] == UserMessages(blocks);
  }

  /** The turn that answers the last awaited id: its blocks up to that result, the deferred content, then the rest. */
  lemma LastResultThenDeferred(blocks: seq<Block>, q: nat, wanted: set<string>, late: Out)
    requires 0 < q <= |blocks| && blocks[q - 1].ToolResult?
    requires Covers(ResultIds(blocks[..q]), wanted) && !Covers(ResultIds(blocks[..q - 1]), wanted)
    requires forall k | q <= k < |blocks| :: !blocks[k].ToolResult?
    ensures var r := ReadBlocks(blocks, wanted, Some(late));
            && r.out + Flush(r.texts) == UserMessages(blocks[..q]) + [late] + UserMessages(blocks[q..])
            && r.emitted == 1
  {
    hide Covers, ResultIds, ReadBlocks, Flush;
    assert blocks[..q][..q - 1] == blocks[..q - 1];
    UpToLastResult(blocks[..q], wanted, late);
    ReadTexts(blocks, q, wanted, Some(late));
    assert [] + Flush(ReadBlocks(blocks[q..], {}, None).texts) == Flush(ReadBlocks(blocks[q..], {}, None).texts);
  }

  lemma OneStillWaiting(p: Progress, m: Message, mode: ReplayMode)
    requires p.waiting.Some? && IsTurn(m, User) && !Covers(TurnIds(m), p.waiting.value.remaining)
    ensures var now := Step(p, m, mode);
            && now.out == p.out + Direct(mode)(m) && now.deferred == p.deferred && now.waiting.Some?
            && now.waiting.value.(remaining := p.waiting.value.remaining) == p.waiting.value
            && forall x :: x in now.waiting.value.remaining <==> x in p.waiting.value.remaining && x !in TurnIds(m)
  {
    hide ReadBlocks, ResultIds;
    var wanted, late := p.waiting.value.remaining, DeferredMessage(p.waiting.value, mode);
    PlainReading(m.content.blocks, wanted, late);
    RemainingIds(m.content.blocks, wanted, Some(late));
    assert p.deferred + Copies(late, 0) == p.deferred;
  }

  /** While some awaited id is not answered, user turns are converted as if nothing waited. */
  lemma {:induction false} StillWaiting(p: Progress, turns: seq<Message>, mode: ReplayMode) returns (now: Progress)
    requires p.waiting.Some? && p.waiting.value.remaining != {}
    requires forall k | 0 <= k < |turns| :: IsTurn(turns[k], User)
    requires !Covers(Collect(TurnIds, turns), p.waiting.value.remaining)
    ensures now == Steps(p, turns, mode)
    ensures now.out == p.out + Collect(Direct(mode), turns) && now.deferred == p.deferred && now.waiting.Some?
    ensures now.waiting.value.(remaining := p.waiting.value.remaining) == p.waiting.value
    ensures forall x :: x in now.waiting.value.remaining <==>
                        x in p.waiting.value.remaining && x !in Collect(TurnIds, turns)
  {
    hide Direct, Step, TurnIds;
    now := p;
    if turns != [] {
      var before, m := turns[..|turns| - 1], turns[|turns| - 1];
      assert forall x | x in Collect(TurnIds, before) :: x in Collect(TurnIds, turns);
      var w := StillWaiting(p, before, mode);
      OneStillWaiting(w, m, mode);
      now := Step(w, m, mode);
    }
  }

  function TurnIds(m: Message): seq<string> {
    if m.content.Blocks? then ResultIds(m.content.blocks) else []
  }

  function Steps(p: Progress, turns: seq<Message>, mode: ReplayMode): Progress {
    if turns == [] then p else Step(Steps(p, turns[..|turns| - 1], mode), turns[|turns| - 1], mode)
  }

  lemma {:induction false} RunSteps(before: seq<Message>, turns: seq<Message>, mode: ReplayMode)
    ensures Run(before + turns, mode) == Steps(Run(before, mode), turns, mode)
  {
    hide Step;
    if turns == [] {
      assert before + turns == before;
    } else {
      RunSteps(before, turns[..|turns| - 1], mode);
      assert (before + turns)[..|before + turns| - 1] == before + turns[..|turns| - 1];
    }
  }

  lemma OpensWait(p: Progress, a: Message, mode: ReplayMode)
    requires Opened(a).Some?
    ensures var now := Step(p, a, mode);
            && now.waiting == Opened(a)
            && now.out != [] && now.out[|now.out| - 1] == CallMessage(a.content.blocks, CleanReasoning(a.reasoning), mode)
  {}

  /** Content after a tool call goes right after the result that answers the last of the turn's calls, whatever else
      the user turns say before and after it. */
  lemma DeferredFollowsLastResult(before: seq<Message>, a: Message, turns: seq<Message>, u: Message, q: nat, mode: ReplayMode)
    requires Opened(a).Some? && Opened(a).value.remaining != {}
    requires IsTurn(u, User) && forall k | 0 <= k < |turns| :: IsTurn(turns[k], User)
    requires 0 < q <= |u.content.blocks| && u.content.blocks[q - 1].ToolResult?
    requires var answered, blocks := Collect(TurnIds, turns), u.content.blocks;
             && Covers(answered + ResultIds(blocks[..q]), Opened(a).value.remaining)
             && !Covers(answered + ResultIds(blocks[..q - 1]), Opened(a).value.remaining)
             && forall k | q <= k < |blocks| :: !blocks[k].ToolResult?
    ensures var start, end := Run(before + [a], mode), Run(before + [a] + turns + [u], mode);
            && start.out[|start.out| - 1..] == [CallMessage(a.content.blocks, CleanReasoning(a.reasoning), mode)]
            && end.out == start.out + Collect(Direct(mode), turns)
                          + (UserMessages(u.content.blocks[..q]) + [DeferredMessage(Opened(a).value, mode)]
                             + UserMessages(u.content.blocks[q..]))
            && end.waiting == None
  {
    hide Direct, UserMessages, ReadBlocks, AssistantMessage, CallMessage, Opened, ResultIds, TurnIds, Covers, Collect,
         CleanReasoning, Flush, Step, Run;
    var blocks := u.content.blocks;
    RunLast(before, a, mode);
    var start := Run(before + [a], mode);
    OpensWait(Run(before, mode), a, mode);
    RunSteps(before + [a], turns, mode);
    FewerIds(Collect(TurnIds, turns), ResultIds(blocks[..q - 1]), Opened(a).value.remaining);
    var w := StillWaiting(start, turns, mode);
    CoversRest(Opened(a).value.remaining, w.waiting.value.remaining, Collect(TurnIds, turns), ResultIds(blocks[..q]));
    CoversRest(Opened(a).value.remaining, w.waiting.value.remaining, Collect(TurnIds, turns), ResultIds(blocks[..q - 1]));
    LastStep(w, u, q, mode);
    RunLast(before + [a] + turns, u, mode);
  }

  lemma RunLast(before: seq<Message>, m: Message, mode: ReplayMode)
    ensures Run(before + [m], mode) == Step(Run(before, mode), m, mode)
  {
    assert (before + [m])[..|before|] == before;
  }

  lemma LastStep(p: Progress, u: Message, q: nat, mode: ReplayMode)
    requires p.waiting.Some? && IsTurn(u, User) && 0 < q <= |u.content.blocks| && u.content.blocks[q - 1].ToolResult?
    requires var blocks, wanted := u.content.blocks, p.waiting.value.remaining;
             && Covers(ResultIds(blocks[..q]), wanted) && !Covers(ResultIds(blocks[..q - 1]), wanted)
             && forall k | q <= k < |blocks| :: !blocks[k].ToolResult?
    ensures Step(p, u, mode).out
         == p.out + (UserMessages(u.content.blocks[..q]) + [DeferredMessage(p.waiting.value, mode)]
                     + UserMessages(u.content.blocks[q..]))
    ensures Step(p, u, mode).waiting == None
  {
    hide UserMessages, ReadBlocks, AssistantMessage, Covers, ResultIds, Flush, Direct;
    var wanted, late := p.waiting.value.remaining, DeferredMessage(p.waiting.value, mode);
    FewerIds([], ResultIds(u.content.blocks[..q - 1]), wanted) by {
      assert [] + ResultIds(u.content.blocks[..q - 1]) == ResultIds(u.content.blocks[..q - 1]);
    }
    LastResultThenDeferred(u.content.blocks, q, wanted, late);
    var r := ReadBlocks(u.content.blocks, wanted, Some(late));
    assert p.out + r.out + Flush(r.texts) == p.out + (r.out + Flush(r.texts));
  }

  lemma FewerIds(ids: seq<string>, more: seq<string>, wanted: set<string>)
    requires !Covers(ids + more, wanted)
    ensures !Covers(ids, wanted) && wanted != {}
  {}

  lemma CoversRest(all: set<string>, rest: set<string>, answered: seq<string>, ids: seq<string>)
    requires forall x :: x in rest <==> x in all && x !in answered
    ensures Covers(answered + ids, all) <==> Covers(ids, rest)
  {
    if Covers(ids, rest) {
      forall x | x in all ensures x in answered + ids {
        if x !in answered { assert x in rest; }
      }
    } else {
      var x :| x in rest && x !in ids;
      assert x !in answered + ids;
    }
  }

  const CALL := Message(Assistant, Blocks([ToolUse(Some("a"), "f", "{}"), Text("after")]), None)
  const ANSWERS := Message(User, Blocks([ToolResult(Some("a"), Absent), ToolResult(Some("b"), Absent)]), None)

  lemma CallWaits()
    ensures Opened(CALL).Some? && Opened(CALL).value.remaining == {"a"}
  {
    var blocks := CALL.content.blocks;
    assert FirstToolUse(blocks) == 0 && blocks[0..] == blocks;
    CollectTwo(UseOf, blocks[0], blocks[1]);
    CollectTwo(NotToolUse, blocks[0], blocks[1]);
    var calls := Collect(UseOf, blocks);
    assert calls == [ToolCall(Some("a"), "f", "{}")];
    assert !Blank("a") by { assert !IsSpace("a"[0]); }
    assert calls[0].id.value in WaitIds(calls);
  }

  lemma AnswersOverfill(wanted: set<string>)
    requires wanted == {"a"}
    ensures Overfull(wanted, ANSWERS)
  {
    CollectTwo(IdOf, ANSWERS.content.blocks[0], ANSWERS.content.blocks[1]);
    var ids := ResultIds(ANSWERS.content.blocks);
    assert ids == ["a", "b"] && ids[..1] == ["a"];
  }

  /** A result after the completing one repeats the deferred content: it is there more than once. */
  lemma RepeatedByLaterResult(mode: ReplayMode)
    ensures |End(Run([CALL, ANSWERS], mode), mode).deferred| > 1
    ensures |Collect(DeferralOf(mode), [CALL, ANSWERS])| == 1
  {
    hide Direct, AssistantMessage, ReadBlocks, Overfull, Opened;
    var history := [CALL, ANSWERS];
    CallWaits();
    assert history[..0] == [] && history[..1] == [CALL] && [CALL][..0] == [] && [CALL][..1] == [CALL];
    RunSnoc(history, 0, mode);
    AnswersOverfill(Opened(CALL).value.remaining);
    assert Awaiting([CALL]) == Some(Opened(CALL).value.remaining);
    assert OverfullAt(history, 1);
    CollectTwo(DeferralOf(mode), CALL, ANSWERS);
    NoWaitFromUser(ANSWERS);
    ContentIsNeverLost(history, mode);
    StretchedLength(End(Run(history, mode), mode).deferred, Collect(DeferralOf(mode), history));
  }

  lemma NoWaitFromUser(m: Message)
    requires m.role == User
    ensures Opened(m) == None
  {}

  // ---- Tool calls and results ----

  function CallsOf(o: Out): seq<ToolCall> {
    if o.AssistantOut? then o.toolCalls else []
  }

  function AnswerOf(o: Out): seq<(Option<string>, string)> {
    if o.ToolOut? then [(o.id, o.content)] else []
  }

  function UsesIn(m: Message): seq<ToolCall> {
    if IsTurn(m, Assistant) then Collect(UseOf, m.content.blocks) else []
  }

  function AnswerIn(b: Block): seq<(Option<string>, string)> {
    if b.ToolResult? then [(b.toolUseId, Serialize(b.content))] else []
  }

  function AnswersIn(m: Message): seq<(Option<string>, string)> {
    if IsTurn(m, User) then Collect(AnswerIn, m.content.blocks) else []
  }

  lemma FlushHasNoTools(out: seq<Out>, texts: seq<string>)
    ensures Collect(CallsOf, out + Flush(texts)) == Collect(CallsOf, out)
    ensures Collect(AnswerOf, out + Flush(texts)) == Collect(AnswerOf, out)
  {
    CollectAppend(CallsOf, out, Flush(texts));
    CollectAppend(AnswerOf, out, Flush(texts));
    if texts != [] {
      CollectTwo(CallsOf, Flush(texts)[0], Flush(texts)[0]);
      CollectTwo(AnswerOf, Flush(texts)[0], Flush(texts)[0]);
    }
  }

  lemma {:induction false} ReadingTools(blocks: seq<Block>)
    ensures var r := ReadBlocks(blocks, {}, None);
            Collect(CallsOf, r.out) == [] && Collect(AnswerOf, r.out) == Collect(AnswerIn, blocks)
  {
    hide Flush, Serialize;
    if blocks != [] {
      var b, r := blocks[|blocks| - 1], ReadBlocks(blocks[..|blocks| - 1], {}, None);
      ReadingTools(blocks[..|blocks| - 1]);
      if b.ToolResult? {
        FlushHasNoTools(r.out, r.texts);
        CollectSnoc(CallsOf, r.out + Flush(r.texts), ToolOut(b.toolUseId, Serialize(b.content)));
        CollectSnoc(AnswerOf, r.out + Flush(r.texts), ToolOut(b.toolUseId, Serialize(b.content)));
      }
    }
  }

  lemma {:induction false} NoUsesBefore(blocks: seq<Block>)
    requires forall k | 0 <= k < |blocks| :: !blocks[k].ToolUse?
    ensures Collect(UseOf, blocks) == []
  {
    if blocks != [] { NoUsesBefore(blocks[..|blocks| - 1]); }
  }

  lemma DirectTools(m: Message, mode: ReplayMode)
    ensures Collect(CallsOf, Direct(mode)(m)) == UsesIn(m) && Collect(AnswerOf, Direct(mode)(m)) == AnswersIn(m)
  {
    hide ReadBlocks, Flush, AssistantMessage, FirstToolUse, PlainMessage, CallMessage;
    if IsTurn(m, User) {
      var r := ReadBlocks(m.content.blocks, {}, None);
      ReadingTools(m.content.blocks);
      FlushHasNoTools(r.out, r.texts);
    } else if !m.content.Blocks? || m.role == Assistant {
      OneMessageTools(m, mode);
      CollectTwo(CallsOf, Direct(mode)(m)[0], Direct(mode)(m)[0]);
      CollectTwo(AnswerOf, Direct(mode)(m)[0], Direct(mode)(m)[0]);
    }
  }

  lemma OneMessageTools(m: Message, mode: ReplayMode)
    requires !m.content.Blocks? || m.role == Assistant
    ensures |Direct(mode)(m)| == 1 && CallsOf(Direct(mode)(m)[0]) == UsesIn(m) && AnswerOf(Direct(mode)(m)[0]) == []
  {
    hide ReadBlocks, Flush, Join, Collect;
  }

  lemma {:induction false} DirectsTools(history: seq<Message>, mode: ReplayMode)
    ensures Collect(CallsOf, Collect(Direct(mode), history)) == Collect(UsesIn, history)
    ensures Collect(AnswerOf, Collect(Direct(mode), history)) == Collect(AnswersIn, history)
  {
    hide Direct, UsesIn, AnswersIn, CallsOf, AnswerOf;
    if history != [] {
      var before, m := history[..|history| - 1], history[|history| - 1];
      DirectsTools(before, mode);
      DirectTools(m, mode);
      CollectAppend(CallsOf, Collect(Direct(mode), before), Direct(mode)(m));
      CollectAppend(AnswerOf, Collect(Direct(mode), before), Direct(mode)(m));
    }
  }

  lemma {:induction false} FilteredHasNoUses(blocks: seq<Block>)
    ensures Collect(UseOf, Collect(NotToolUse, blocks)) == []
  {
    if blocks != [] {
      var before, b := blocks[..|blocks| - 1], blocks[|blocks| - 1];
      FilteredHasNoUses(before);
      CollectSnoc(UseOf, Collect(NotToolUse, before), b);
      assert Collect(NotToolUse, before) + [] == Collect(NotToolUse, before);
    }
  }

  lemma {:induction false} DeferralsHaveNoTools(history: seq<Message>, mode: ReplayMode)
    ensures forall o | o in Collect(DeferralOf(mode), history) :: CallsOf(o) == [] && AnswerOf(o) == []
  {
    if history != [] {
      DeferralsHaveNoTools(history[..|history| - 1], mode);
      DeferralHasNoTools(history[|history| - 1], mode);
      hide Late, Opened, CallsOf, AnswerOf;
    }
  }

  lemma DeferralHasNoTools(m: Message, mode: ReplayMode)
    ensures forall o | o in DeferralOf(mode)(m) :: CallsOf(o) == [] && AnswerOf(o) == []
  {
    hide FirstToolUse, Join, Replayed, HasToolUse, Collect;
    if Opened(m).Some? { FilteredHasNoUses(m.content.blocks[FirstToolUse(m.content.blocks)..]); }
  }

  lemma {:induction false} StretchedFrom(e: seq<Out>, d: seq<Out>)
    requires Stretched(e, d)
    ensures forall k | 0 <= k < |e| :: e[k] in d
  {
    if e != [] {
      if Stretched(e[..|e| - 1], d[..|d| - 1]) {
        StretchedFrom(e[..|e| - 1], d[..|d| - 1]);
      } else {
        StretchedFrom(e[..|e| - 1], d);
      }
      forall k | 0 <= k < |e| ensures e[k] in d {
        if k < |e| - 1 { assert e[k] == e[..|e| - 1][k]; }
      }
    }
  }

  /** The tool calls in the converted history are exactly the tool uses of assistant turns, and the tool messages are
      exactly the results of user turns with their serialized contents, both in order. */
  lemma ToolsAreKept(history: seq<Message>, mode: ReplayMode)
    ensures Collect(CallsOf, End(Run(history, mode), mode).out) == Collect(UsesIn, history)
    ensures Collect(AnswerOf, End(Run(history, mode), mode).out) == Collect(AnswersIn, history)
  {
    hide Run, Direct, DeferralOf, Interleaved, Stretched, End, UsesIn, AnswersIn, CallsOf, AnswerOf;
    ContentIsNeverLost(history, mode);
    var end := End(Run(history, mode), mode);
    DeferralsHaveNoTools(history, mode);
    StretchedFrom(end.deferred, Collect(DeferralOf(mode), history));
    InterleavedCollect(CallsOf, end.out, Collect(Direct(mode), history), end.deferred);
    InterleavedCollect(AnswerOf, end.out, Collect(Direct(mode), history), end.deferred);
    DirectsTools(history, mode);
  }

  // ---- Text ----

  lemma {:induction false} UsesHaveNoText(blocks: seq<Block>, mode: ReplayMode)
    ensures Collect(PartOf(mode), Collect(NotToolUse, blocks)) == Collect(PartOf(mode), blocks)
  {
    if blocks != [] {
      var before, b := blocks[..|blocks| - 1], blocks[|blocks| - 1];
      UsesHaveNoText(before, mode);
      CollectSnoc(PartOf(mode), Collect(NotToolUse, before), b);
      assert Collect(NotToolUse, before) + [] == Collect(NotToolUse, before);
    }
  }

  /** The two messages of a split turn hold all its text parts, in order: the first what precedes the calls, the second
      what follows them. A message of one space stands for an empty one. */
  lemma SplitTurnKeepsText(blocks: seq<Block>, reasoning: Option<string>, mode: ReplayMode)
    requires HasToolUse(blocks)
    ensures var pre, post := Collect(PartOf(mode), blocks[..FirstToolUse(blocks)]), Collect(PartOf(mode), Deferred(blocks));
            var first := CallMessage(blocks, reasoning, mode);
            var second := DeferredMessage(Waiting({}, Deferred(blocks), reasoning), mode);
            && pre + post == Collect(PartOf(mode), blocks)
            && first.content == (if Join("\n\n", pre) == " " then "" else Join("\n\n", pre))
            && second.content == (if Join("\n\n", post) == "" then " " else Join("\n\n", post))
  {
    hide PartOf, Join, Collect, Replayed;
    var at := FirstToolUse(blocks);
    assert blocks[..at] + blocks[at..] == blocks;
    CollectAppend(PartOf(mode), blocks[..at], blocks[at..]);
    UsesHaveNoText(blocks[at..], mode);
    NoUsesBefore(blocks[..at]);
    FilteredHasNoUses(blocks[at..]);
    JoinNothing("\n\n");
  }

  lemma JoinNothing(sep: string)
    ensures Join(sep, []) == ""
  {}

  function UserText(o: Out): seq<string> {
    if o.RoleOut? then [o.content] else []
  }

  function TextIn(b: Block): seq<string> {
    if b.Text? then [b.text] else []
  }

  lemma {:induction false} JoinNested(sep: string, xs: seq<string>, ys: seq<string>)
    requires ys != []
    ensures Join(sep, xs + [Join(sep, ys)]) == Join(sep, xs + ys)
  {
    hide Join;
    var before, last := ys[..|ys| - 1], ys[|ys| - 1];
    assert xs + ys == xs + before + [last] && ys == before + [last];
    JoinSnoc(sep, before, last);
    if before == [] {
      assert xs + before == xs;
      return;
    }
    JoinSnoc(sep, xs, Join(sep, ys));
    if xs == [] {
      assert xs + ys == ys;
      return;
    }
    var all, firsts := Join(sep, xs), Join(sep, before);
    JoinNested(sep, xs, before);
    JoinSnoc(sep, xs, firsts);
    JoinSnoc(sep, xs + before, last);
    assert all + sep + (firsts + sep + last) == all + sep + firsts + sep + last;
  }

  lemma FlushedText(out: seq<Out>, texts: seq<string>)
    ensures Collect(UserText, out + Flush(texts))
         == Collect(UserText, out) + if texts == [] then [] else [Join("\n", texts)]
  {
    CollectAppend(UserText, out, Flush(texts));
    if texts != [] { CollectTwo(UserText, Flush(texts)[0], Flush(texts)[0]); }
  }

  lemma AnswerText(out: seq<Out>, texts: seq<string>, answer: Out)
    requires answer.ToolOut?
    ensures var now := out + Flush(texts) + [answer];
            && Join("\n", Collect(UserText, now) + []) == Join("\n", Collect(UserText, out) + texts)
            && (Collect(UserText, now) + [] == [] <==> Collect(UserText, out) + texts == [])
  {
    hide Join, Flush;
    FlushedText(out, texts);
    CollectSnoc(UserText, out + Flush(texts), answer);
    if texts != [] { JoinNested("\n", Collect(UserText, out), texts); }
    assert Collect(UserText, out + Flush(texts) + [answer]) + [] == Collect(UserText, out + Flush(texts));
  }

  lemma OneMoreText(xs: seq<string>, ys: seq<string>, text: string)
    requires Join("\n", xs) == Join("\n", ys) && (xs == [] <==> ys == [])
    ensures Join("\n", xs + [text]) == Join("\n", ys + [text])
  {
    JoinSnoc("\n", xs, text);
    JoinSnoc("\n", ys, text);
  }

  lemma {:induction false} ReadingText(blocks: seq<Block>)
    ensures var r := ReadBlocks(blocks, {}, None);
            && Join("\n", Collect(UserText, r.out) + r.texts) == Join("\n", Collect(TextIn, blocks))
            && (Collect(UserText, r.out) + r.texts == [] <==> Collect(TextIn, blocks) == [])
  {
    hide Join, Flush, Serialize;
    if blocks == [] {
      var none: seq<Out> := [];
      assert Collect(UserText, none) + [] == [];
    } else {
      var before, b := blocks[..|blocks| - 1], blocks[|blocks| - 1];
      var r := ReadBlocks(before, {}, None);
      ReadingText(before);
      if b.ToolResult? {
        AnswerText(r.out, r.texts, ToolOut(b.toolUseId, Serialize(b.content)));
        assert Collect(TextIn, before) + [] == Collect(TextIn, before);
      } else if b.Text? {
        OneMoreText(Collect(UserText, r.out) + r.texts, Collect(TextIn, before), b.text);
        assert Collect(UserText, r.out) + (r.texts + [b.text]) == Collect(UserText, r.out) + r.texts + [b.text];
      } else {
        assert Collect(TextIn, before) + [] == Collect(TextIn, before);
      }
    }
  }

  /** The user messages made from a turn say, line by line, what its text blocks say. */
  lemma UserTurnKeepsText(blocks: seq<Block>)
    ensures Join("\n", Collect(UserText, UserMessages(blocks))) == Join("\n", Collect(TextIn, blocks))
  {
    hide Join, Flush;
    var r := ReadBlocks(blocks, {}, None);
    ReadingText(blocks);
    FlushedText(r.out, r.texts);
    if r.texts != [] { JoinNested("\n", Collect(UserText, r.out), r.texts); }
    assert Collect(UserText, r.out) + [] == Collect(UserText, r.out);
  }
}
