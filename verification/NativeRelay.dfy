/** A native stream from upstream to client (providers/anthropic_messages.py): each event goes through the block policy, is
    formatted, and is sent in chunks that the tracker reads first; then upstream ends or fails, or the tracker does. */
module NativeRelay {
  import opened Basics
  import opened StreamContract
  import opened NativeBlockPolicy
  import opened NativeBlockTracking
  import opened NativeBlockTheorems
  import opened SseFraming
  import opened EmittedTracker

  /** `stream_chunk_mode`. */
  datatype ChunkMode = ByLine | ByEvent

  /** The chunks of one formatted output. */
  function Chunks(mode: ChunkMode, text: string): seq<string> {
    match mode
    case ByLine => KeepLines(text)
    case ByEvent => [text]
  }

  /** A start or stop without an index. */
  predicate Indexless(e: Event) {
    (e.BlockStart? || e.BlockStop?) && e.index.None?
  }

  // ---- What the tracker cannot note ----

  lemma {:induction false} ClosingHasIndices(s: State, i: int, n: nat)
    requires WellOrdered(s) && n <= |s.order|
    ensures forall k | 0 <= k < |CloseOthers(s, i, n).1| :: !Indexless(CloseOthers(s, i, n).1[k])
  {
    hide CloseOthers, WellOrdered;
    if n > 0 {
      ClosingHasIndices(s, i, n - 1);
      CloseOthersUnfolds(s, i, n);
    } else {
      NoneClosed(s, i);
    }
  }

  /** The policy passes an event without an index on as it is, and sends no other such event. */
  lemma PolicyKeepsIndices(s: State, e: Event, thinkingEnabled: bool)
    requires WellOrdered(s)
    ensures var out := Step(s, e, thinkingEnabled).1;
            if Indexless(e) then out == [e] else forall k | 0 <= k < |out| :: !Indexless(out[k])
  {
    hide CloseOthers, WellOrdered, ShouldDrop;
    if Forwarded(e, thinkingEnabled) { ClosingHasIndices(s, e.index.value, |s.order|); }
  }

  lemma NoteAllSnoc(events: seq<Event>, e: Event)
    ensures NoteAll(events + [e])
         == if NoteAll(events).None? then None else Note(NoteAll(events).value, e)
  {
    assert (events + [e])[..|events|] == events;
  }

  /** The tracker fails on exactly those. */
  lemma {:induction false} NotedUnlessIndexless(done: seq<Event>, out: seq<Event>)
    requires NoteAll(done).Some?
    ensures NoteAll(done + out).Some? <==> forall k | 0 <= k < |out| :: !Indexless(out[k])
  {
    hide NoteAll;
    if out == [] {
      assert done + out == done;
    } else {
      var init, last := out[..|out| - 1], out[|out| - 1];
      NotedUnlessIndexless(done, init);
      NoteAllSnoc(done + init, last);
      assert done + out == done + init + [last];
      assert forall k | 0 <= k < |init| :: out[k] == init[k];
    }
  }

  lemma {:induction false} EncodeAppend(codec: Codec, a: seq<Event>, b: seq<Event>)
    ensures EncodeAll(codec, a + b) == EncodeAll(codec, a) + EncodeAll(codec, b)
  {
    if b == [] {
      assert a + b == a && EncodeAll(codec, a) + [] == EncodeAll(codec, a);
    } else {
      EncodeAppend(codec, a, b[..|b| - 1]);
      assert (a + b)[..|a + b| - 1] == a + b[..|b| - 1];
    }
  }

  lemma {:induction false} FormatAppend(a: seq<Frame>, b: seq<Frame>)
    ensures FormatAll(a + b) == FormatAll(a) + FormatAll(b)
  {
    hide Format;
    if a == [] {
      assert a + b == b && "" + FormatAll(b) == FormatAll(b);
    } else {
      FormatAppend(a[1..], b);
      assert (a + b)[1..] == a[1..] + b && (a + b)[0] == a[0];
      FormatsOneByOne(a);
      FormatsOneByOne(a + b);
      hide FormatAll;
      var first, rest, more := Format(a[0]), FormatAll(a[1..]), FormatAll(b);
      assert first + (rest + more) == first + rest + more;
    }
  }

  /** Where the notes stop when the last of some events has no index. */
  lemma StoppedBeforeLast(codec: Codec, done: seq<Event>, e: Event, now: Notes)
    requires Faithful(codec, done + [e]) && NoteAll(done).Some?
    requires StoppedIn(codec, EncodeAll(codec, done + [e]), now)
    ensures NoteAll(done) == Some(now)
  {
    hide Note, NoteFrames, NoteAll, Clean;
    var frames := EncodeAll(codec, done);
    EncodeAppend(codec, done, [e]);
    assert EncodeAll(codec, [e]) == [codec.encode(e)];
    var all := frames + [codec.encode(e)];
    var n :| 0 <= n < |all| && NoteFrames(codec, all[..n]) == Some(now) && NoteFrames(codec, all[..n + 1]).None?;
    EncodedFrames(codec, done) by { assert forall k | 0 <= k < |done| :: (done + [e])[k] == done[k]; }
    assert n == |done| by {
      if n < |done| {
        assert all[..n + 1] == frames[..n + 1];
        NotedPrefix(codec, frames, n + 1);
      }
    }
    assert all[..n] == frames;
  }

  lemma NotedPrefix(codec: Codec, frames: seq<Frame>, n: nat)
    requires n <= |frames| && NoteFrames(codec, frames).Some?
    ensures NoteFrames(codec, frames[..n]).Some?
  {
    hide NoteFrames;
    assert frames[..n] + frames[n..] == frames;
    if NoteFrames(codec, frames[..n]).None? { NoteStuck(codec, frames[..n], frames[n..]); }
  }

  lemma StoppedIsNotNoted(codec: Codec, frames: seq<Frame>, now: Notes)
    requires StoppedIn(codec, frames, now)
    ensures NoteFrames(codec, frames).None?
  {
    hide NoteFrames;
    if NoteFrames(codec, frames).Some? {
      var n :| 0 <= n < |frames| && NoteFrames(codec, frames[..n]) == Some(now) && NoteFrames(codec, frames[..n + 1]).None?;
      NotedPrefix(codec, frames, n + 1);
    }
  }

  // ---- One output ----

  /** What the client has got of an event that the tracker fails on: by lines, all but the last line of its frame. */
  function Cut(codec: Codec, mode: ChunkMode, e: Event): string {
    match mode
    case ByLine => Body(codec.encode(e)) + "\n"
    case ByEvent => ""
  }

  lemma ChunksJoin(mode: ChunkMode, text: string)
    ensures Concat(Chunks(mode, text)) == text
  {
    if mode.ByLine? {
      KeptLinesJoin(text);
    } else {
      ConcatCons(text, []);
      assert [text] + [] == [text] && text + "" == text;
    }
  }

  /** What the events done before and the output are for the tracker. */
  lemma OutputFrames(codec: Codec, done: seq<Event>, out: seq<Event>)
    requires Faithful(codec, done + out)
    ensures Faithful(codec, done) && Faithful(codec, out)
    ensures var base, text := FormatAll(EncodeAll(codec, done)), FormatAll(EncodeAll(codec, out));
            && FramesIn(base) == EncodeAll(codec, done) && Split(base).1 == ""
            && FramesIn(base + text) == EncodeAll(codec, done + out) && Split(base + text).1 == ""
            && base + text == FormatAll(EncodeAll(codec, done + out))
            && NoteFrames(codec, FramesIn(base)) == NoteAll(done)
            && NoteFrames(codec, FramesIn(base + text)) == NoteAll(done + out)
  {
    hide FormatAll, NoteFrames, NoteAll, Split, PieceFrames, Clean;
    assert forall k | 0 <= k < |done| :: (done + out)[k] == done[k];
    assert forall k | 0 <= k < |out| :: (done + out)[|done| + k] == out[k];
    EncodedFrames(codec, done);
    EncodedFrames(codec, done + out);
    EncodeAppend(codec, done, out);
    FormatAppend(EncodeAll(codec, done), EncodeAll(codec, out));
    FormattedSplits(EncodeAll(codec, done));
    FormattedSplits(EncodeAll(codec, done + out));
  }

  /** Text that is not a whole frame yet completes none. */
  lemma NotYetAFrame(codec: Codec, done: seq<Event>, cut: string, now: Notes)
    requires Faithful(codec, done) && NoteAll(done).Some? && Find(cut, "\n\n") < 0
    ensures !StoppedIn(codec, FramesIn(FormatAll(EncodeAll(codec, done)) + cut), now)
  {
    hide FormatAll, NoteFrames, NoteAll, Split, PieceFrames, Clean, Find, StoppedIn, EncodeAll;
    EncodedFrames(codec, done);
    CutIsKeptBack(EncodeAll(codec, done), cut);
    if StoppedIn(codec, EncodeAll(codec, done), now) { StoppedIsNotNoted(codec, EncodeAll(codec, done), now); }
  }

  /** When the tracker fails at a chunk, it is the last of the frame of an event without an index. */
  lemma FailedAtEnd(codec: Codec, mode: ChunkMode, done: seq<Event>, e: Event, k: nat, now: Notes)
    requires Faithful(codec, done + [e]) && NoteAll(done).Some?
    requires var chunks := Chunks(mode, FormatAll(EncodeAll(codec, [e])));
             && k < |chunks|
             && StoppedIn(codec, FramesIn(FormatAll(EncodeAll(codec, done)) + Concat(chunks[..k + 1])), now)
    ensures Concat(Chunks(mode, FormatAll(EncodeAll(codec, [e])))[..k]) == Cut(codec, mode, e)
  {
    hide FormatAll, NoteAll, FramesIn, StoppedIn, Clean, Find, Body, Format;
    var f := codec.encode(e);
    var chunks := Chunks(mode, FormatAll(EncodeAll(codec, [e])));
    assert (done + [e])[|done|] == e && forall j | 0 <= j < |done| :: (done + [e])[j] == done[j];
    OneFrame(codec, e);
    if mode.ByLine? {
      var l0, l1 := "event: " + f.event + "\n", "data: " + f.data + "\n";
      KeptLinesOfFrame(f);
      ConcatThree(l0, l1, "\n");
      assert chunks[..1] == [l0] && chunks[..2] == [l0] + [l1];
      LinesHaveNoSeparator(f);
      if k == 0 { NotYetAFrame(codec, done, l0, now); }
      if k == 1 { NotYetAFrame(codec, done, l0 + l1, now); }
      CutIs(f);
    } else {
      assert chunks[..0] == [];
    }
  }

  lemma OneFrame(codec: Codec, e: Event)
    ensures FormatAll(EncodeAll(codec, [e])) == Format(codec.encode(e))
  {
    assert EncodeAll(codec, [e]) == [codec.encode(e)];
    assert Format(codec.encode(e)) + "" == Format(codec.encode(e));
  }

  lemma ConcatThree(a: string, b: string, c: string)
    ensures Concat([a]) == a && Concat([a] + [b]) == a + b && Concat([a] + [b] + [c]) == a + b + c
  {
    ConcatSnoc([], a);
    assert [] + [a] == [a] && "" + a == a;
    ConcatSnoc([a], b);
    ConcatSnoc([a] + [b], c);
  }

  lemma CutIs(f: Frame)
    ensures "event: " + f.event + "\n" + ("data: " + f.data + "\n") == Body(f) + "\n"
  {
    BodyIs(f);
  }

  lemma LinesHaveNoSeparator(f: Frame)
    requires Clean(f)
    ensures Find("event: " + f.event + "\n", "\n\n") < 0
    ensures Find("event: " + f.event + "\n" + ("data: " + f.data + "\n"), "\n\n") < 0
  {
    hide Find, Clean, Body;
    CleanParts(f);
    FieldLineHasNoBreak("event: ", f.event);
    NoSeparator("event: " + f.event + "\n");
    CutIs(f);
    WholeLinesNoSeparator(f);
  }

  /** The tracker fails at some chunk of the output `out`. */
  lemma OutputFails(codec: Codec, mode: ChunkMode, done: seq<Event>, out: seq<Event>, k: nat, now: Notes)
    requires Faithful(codec, done + out) && NoteAll(done).Some?
    requires (exists j | 0 <= j < |out| :: Indexless(out[j])) ==> |out| == 1
    requires var chunks := Chunks(mode, FormatAll(EncodeAll(codec, out)));
             && k < |chunks|
             && StoppedIn(codec, FramesIn(FormatAll(EncodeAll(codec, done)) + Concat(chunks[..k + 1])), now)
    ensures |out| == 1 && Indexless(out[0]) && NoteAll(done) == Some(now)
    ensures Concat(Chunks(mode, FormatAll(EncodeAll(codec, out)))[..k]) == Cut(codec, mode, out[0])
  {
    hide NoteAll, StoppedIn, Faithful, EncodeAll, FormatAll, FramesIn, Chunks, NoteFrames, Cut, Split;
    var text := FormatAll(EncodeAll(codec, out));
    var chunks, base := Chunks(mode, text), FormatAll(EncodeAll(codec, done));
    OutputFrames(codec, done, out);
    ChunksJoin(mode, text);
    var sent, rest := Concat(chunks[..k + 1]), Concat(chunks[k + 1..]);
    assert chunks == chunks[..k + 1] + chunks[k + 1..];
    ConcatAppend(chunks[..k + 1], chunks[k + 1..]);
    FramesAppend(base + sent, rest, Split(base + sent).1);
    assert base + sent + rest == base + text;
    StaysStopped(codec, FramesIn(base + sent), FramesIn(Split(base + sent).1 + rest), now);
    StoppedIsNotNoted(codec, FramesIn(base + text), now);
    NotedUnlessIndexless(done, out);
    assert out == [out[0]];
    StoppedBeforeLast(codec, done, out[0], now);
    FailedAtEnd(codec, mode, done, out[0], k, now);
  }

  /** Sends one output in its chunks, each read by the tracker first; stops where the tracker fails. */
  method SendOutput(tracker: Tracker, mode: ChunkMode, out: seq<Event>, ghost done: seq<Event>) returns (ok: bool, sent: string)
    requires tracker.buf == "" && NoteAll(done) == Some(tracker.Now()) && Faithful(tracker.codec, done + out)
    requires (exists j | 0 <= j < |out| :: Indexless(out[j])) ==> |out| == 1
    modifies tracker
    ensures ok <==> forall j | 0 <= j < |out| :: !Indexless(out[j])
    ensures if ok then sent == FormatAll(EncodeAll(tracker.codec, out)) && tracker.buf == ""
                       && NoteAll(done + out) == Some(tracker.Now())
            else sent == Cut(tracker.codec, mode, out[0]) && NoteAll(done) == Some(tracker.Now())
  {
    hide NoteAll, StoppedIn, Faithful, EncodeAll, FormatAll, FramesIn, Chunks, NoteFrames, Cut, Split, Indexless;
    var text := FormatAll(EncodeAll(tracker.codec, out));
    var chunks := Chunks(mode, text);
    ghost var base := FormatAll(EncodeAll(tracker.codec, done));
    OutputFrames(tracker.codec, done, out);
    ChunksJoin(mode, text);
    sent := "";
    assert base + sent == base;
    for k := 0 to |chunks|
      invariant sent == Concat(chunks[..k]) && tracker.buf == Split(base + sent).1
      invariant NoteFrames(tracker.codec, FramesIn(base + sent)) == Some(tracker.Now())
    {
      assert chunks[..k + 1] == chunks[..k] + [chunks[k]];
      ConcatSnoc(chunks[..k], chunks[k]);
      assert base + sent + chunks[k] == base + (sent + chunks[k]);
      ok := tracker.Feed(chunks[k], base + sent);
      if !ok {
        OutputFails(tracker.codec, mode, done, out, k, tracker.Now());
        return;
      }
      sent := sent + chunks[k];
    }
    assert chunks[..|chunks|] == chunks;
    NotedUnlessIndexless(done, out);
    ok := true;
  }

  // ---- The whole stream ----

  /** What an error message needs besides the events. */
  datatype Failure = Failure(message: string, freshId: string, model: string)

  /** How many events come before the first without an index. */
  function Noted(input: seq<Event>): (n: nat)
    ensures n <= |input| && (forall k | 0 <= k < n :: !Indexless(input[k])) && (n < |input| ==> Indexless(input[n]))
  {
    if input == [] || Indexless(input[0]) then 0 else 1 + Noted(input[1..])
  }

  /** The events the client has got whole before a failure. */
  function Relayed(input: seq<Event>, thinkingEnabled: bool): seq<Event> {
    Run(input[..Noted(input)], thinkingEnabled).1
  }

  /** The text the client has got of the event the tracker failed on. */
  function CutOff(codec: Codec, mode: ChunkMode, input: seq<Event>): string {
    if Noted(input) < |input| then Cut(codec, mode, input[Noted(input)]) else ""
  }

  /** What is sent after a failure: the recovery, or a message of its own if there was nothing to send before. */
  function Added(input: seq<Event>, thinkingEnabled: bool, failing: bool, f: Failure): seq<Event> {
    if Noted(input) == |input| && !failing then []
    else if Noted(input) == |input| && Relayed(input, thinkingEnabled) == [] then
      [MessageStart(f.freshId, f.model)] + ErrorTail(0, f.message)
    else
      match NoteAll(Relayed(input, thinkingEnabled))
      case Some(n) => Recovery(n, f.message)
      case None => []
  }

  /** Everything the client gets. */
  function StreamText(codec: Codec, mode: ChunkMode, input: seq<Event>, thinkingEnabled: bool, failing: bool, f: Failure): string
  {
    FormatAll(EncodeAll(codec, Relayed(input, thinkingEnabled))) + CutOff(codec, mode, input)
    + FormatAll(EncodeAll(codec, Added(input, thinkingEnabled, failing, f)))
  }

  lemma NothingRelayed(codec: Codec, input: seq<Event>, thinkingEnabled: bool)
    ensures Run(input[..0], thinkingEnabled) == (FRESH, []) && NoteAll([]) == Some(NOTHING)
    ensures FormatAll(EncodeAll(codec, [])) == ""
  {}

  lemma FaithfulPrefix(codec: Codec, input: seq<Event>, n: nat, thinkingEnabled: bool)
    requires n <= |input| && Faithful(codec, Run(input, thinkingEnabled).1)
    ensures Faithful(codec, Run(input[..n], thinkingEnabled).1)
  {
    hide Run, Clean;
    assert input[..n] + input[n..] == input;
    var rest := SentMore(input[..n], input[n..], thinkingEnabled);
    var sent := Run(input[..n], thinkingEnabled).1;
    assert forall k | 0 <= k < |sent| :: (sent + rest)[k] == sent[k];
  }

  /** After `n` events: the state of the policy and the tracker's notes. */
  ghost predicate Reached(input: seq<Event>, n: nat, thinkingEnabled: bool, s: State, now: Notes) {
    && n <= |input| && s == Run(input[..n], thinkingEnabled).0
    && NoteAll(Run(input[..n], thinkingEnabled).1) == Some(now)
  }

  lemma OneMoreEvent(codec: Codec, input: seq<Event>, n: nat, thinkingEnabled: bool, s': State, out: seq<Event>)
    requires n < |input| && Faithful(codec, Run(input, thinkingEnabled).1)
    requires (s', out) == Step(Run(input[..n], thinkingEnabled).0, input[n], thinkingEnabled)
    ensures Run(input[..n + 1], thinkingEnabled) == (s', Run(input[..n], thinkingEnabled).1 + out)
    ensures Faithful(codec, Run(input[..n], thinkingEnabled).1 + out)
    ensures if Indexless(input[n]) then out == [input[n]] else forall k | 0 <= k < |out| :: !Indexless(out[k])
    ensures var done := Run(input[..n], thinkingEnabled).1;
            FormatAll(EncodeAll(codec, done + out)) == FormatAll(EncodeAll(codec, done)) + FormatAll(EncodeAll(codec, out))
  {
    hide Run, Step, Faithful, FormatAll, EncodeAll, Indexless, FramesIn, NoteAll, NoteFrames;
    assert input[..n + 1] == input[..n] + [input[n]];
    RunSnoc(input[..n], input[n], thinkingEnabled);
    PolicyKeepsIndices(Run(input[..n], thinkingEnabled).0, input[n], thinkingEnabled);
    FaithfulPrefix(codec, input, n + 1, thinkingEnabled);
    OutputFrames(codec, Run(input[..n], thinkingEnabled).1, out);
  }

  /** One event through the policy, its output sent on. */
  method RelayEvent(policy: BlockPolicy, tracker: Tracker, mode: ChunkMode, input: seq<Event>, n: nat, thinkingEnabled: bool)
    returns (ok: bool, sent: string, sentAny: bool)
    requires n < |input| && Reached(input, n, thinkingEnabled, policy.Now(), tracker.Now()) && tracker.buf == ""
    requires Faithful(tracker.codec, Run(input, thinkingEnabled).1)
    modifies policy, tracker
    ensures ok <==> !Indexless(input[n])
    ensures if ok
            then Reached(input, n + 1, thinkingEnabled, policy.Now(), tracker.Now()) && tracker.buf == ""
                 && FormatAll(EncodeAll(tracker.codec, Run(input[..n + 1], thinkingEnabled).1))
                    == FormatAll(EncodeAll(tracker.codec, Run(input[..n], thinkingEnabled).1)) + sent
                 && (Run(input[..n + 1], thinkingEnabled).1 != [] <==> Run(input[..n], thinkingEnabled).1 != [] || sentAny)
            else NoteAll(Run(input[..n], thinkingEnabled).1) == Some(tracker.Now())
                 && sent == Cut(tracker.codec, mode, input[n])
  {
    hide Run, Step, NoteAll, Faithful, FormatAll, EncodeAll, Indexless, Cut, WellOrdered;
    ghost var done := Run(input[..n], thinkingEnabled).1;
    ok, sent, sentAny := true, "", false;
    NothingFormatted(tracker.codec);
    var out := policy.Transform(input[n], thinkingEnabled);
    OneMoreEvent(tracker.codec, input, n, thinkingEnabled, policy.Now(), out);
    if out == [] {
      assert done + out == done;
    } else {
      sentAny := true;
      assert Indexless(input[n]) ==> out[0] == input[n];
      ok, sent := SendOutput(tracker, mode, out, done);
    }
  }

  lemma NothingFormatted(codec: Codec)
    ensures FormatAll(EncodeAll(codec, [])) == ""
  {}

  /** All events until upstream is through or the tracker fails; `n` of them sent whole. */
  method RelayEvents(tracker: Tracker, mode: ChunkMode, input: seq<Event>, thinkingEnabled: bool)
    returns (text: string, ok: bool, sentAnyEvent: bool)
    requires Faithful(tracker.codec, Run(input, thinkingEnabled).1) && tracker.Now() == NOTHING && tracker.buf == ""
    modifies tracker
    ensures ok <==> Noted(input) == |input|
    ensures NoteAll(Relayed(input, thinkingEnabled)) == Some(tracker.Now())
    ensures text == FormatAll(EncodeAll(tracker.codec, Relayed(input, thinkingEnabled))) + CutOff(tracker.codec, mode, input)
    ensures sentAnyEvent <==> Relayed(input, thinkingEnabled) != [] || !ok
  {
    hide Run, Step, NoteAll, Faithful, FormatAll, EncodeAll, Indexless, Cut, Noted;
    var policy := new BlockPolicy();
    text, ok, sentAnyEvent := "", true, false;
    NothingRelayed(tracker.codec, input, thinkingEnabled);
    for n := 0 to |input|
      invariant n <= Noted(input) && fresh(policy) && ok && tracker.buf == ""
      invariant Reached(input, n, thinkingEnabled, policy.Now(), tracker.Now())
      invariant text == FormatAll(EncodeAll(tracker.codec, Run(input[..n], thinkingEnabled).1))
      invariant sentAnyEvent <==> Run(input[..n], thinkingEnabled).1 != []
    {
      var sent, sentAny;
      ok, sent, sentAny := RelayEvent(policy, tracker, mode, input, n, thinkingEnabled);
      text := text + sent;
      if !ok {
        sentAnyEvent := true;
        return;
      }
      sentAnyEvent := sentAnyEvent || sentAny;
    }
    assert input[..|input|] == input && text + "" == text;
  }

  /** `stream_response` on the events upstream sends; `failing` when it then raises. The tracker fails if and only if some
      start or stop has no index. */
  method StreamNative(codec: Codec, mode: ChunkMode, input: seq<Event>, thinkingEnabled: bool, failing: bool, f: Failure)
    returns (text: string, trackerFailed: bool)
    requires Faithful(codec, Run(input, thinkingEnabled).1)
    ensures trackerFailed <==> exists k | 0 <= k < |input| :: Indexless(input[k])
    ensures text == StreamText(codec, mode, input, thinkingEnabled, failing, f)
  {
    hide Run, NoteAll, Faithful, FormatAll, EncodeAll, Indexless, Relayed, CutOff, EmittedTracker.Closing, ErrorTail, Noted;
    var tracker := new Tracker(codec);
    var ok, sentAnyEvent;
    text, ok, sentAnyEvent := RelayEvents(tracker, mode, input, thinkingEnabled);
    trackerFailed := !ok;
    var added := [];
    if trackerFailed || failing {
      if sentAnyEvent {
        var stops := tracker.CloseUnclosedBlocks();
        var tail := tracker.MidstreamErrorTail(f.message);
        added := stops + tail;
      } else {
        added := [MessageStart(f.freshId, f.model)] + ErrorTail(0, f.message);
      }
    }
    assert added == Added(input, thinkingEnabled, failing, f);
    text := text + FormatAll(EncodeAll(codec, added));
  }

  // ---- What the client reads ----

  lemma AllClean(codec: Codec, events: seq<Event>)
    requires Faithful(codec, events)
    ensures forall k | 0 <= k < |EncodeAll(codec, events)| :: Clean(EncodeAll(codec, events)[k])
  {
    hide Clean;
    EncodedFrames(codec, events);
  }

  /** Whenever the stream fails something is added. */
  lemma SomethingAdded(input: seq<Event>, thinkingEnabled: bool, failing: bool, f: Failure)
    requires Noted(input) < |input| || failing
    ensures Added(input, thinkingEnabled, failing, f) != []
    ensures NoteAll(Relayed(input, thinkingEnabled)).Some?
  {
    hide Run, Step, Indexless, NoteAll, Noted;
    RelayedIsNoted(input, Noted(input), thinkingEnabled);
  }

  lemma {:induction false} RelayedIsNoted(input: seq<Event>, n: nat, thinkingEnabled: bool)
    requires n <= |input| && forall k | 0 <= k < n :: !Indexless(input[k])
    ensures NoteAll(Run(input[..n], thinkingEnabled).1).Some?
  {
    hide Run, Step, Indexless, NoteAll;
    if n == 0 {
      NothingRelayed(Codec((e: Event) => Frame("", ""), (f: Frame) => MessageStop), input, thinkingEnabled);
    } else {
      RelayedIsNoted(input, n - 1, thinkingEnabled);
      assert input[..n] == input[..n - 1] + [input[n - 1]];
      RunSnoc(input[..n - 1], input[n - 1], thinkingEnabled);
      var (s, done) := Run(input[..n - 1], thinkingEnabled);
      PolicyKeepsIndices(s, input[n - 1], thinkingEnabled);
      NotedUnlessIndexless(done, Step(s, input[n - 1], thinkingEnabled).1);
    }
  }

  /** Unless the tracker fails on a stream sent by lines, the client reads exactly the events relayed whole and those added.
      If it does, the first event added is spoiled: its data comes after that of the event the tracker failed on. */
  lemma ClientReadsStream(codec: Codec, mode: ChunkMode, input: seq<Event>, thinkingEnabled: bool, failing: bool, f: Failure)
    requires Faithful(codec, Run(input, thinkingEnabled).1) && Faithful(codec, Added(input, thinkingEnabled, failing, f))
    ensures var sent := EncodeAll(codec, Relayed(input, thinkingEnabled));
            var added := EncodeAll(codec, Added(input, thinkingEnabled, failing, f));
            var n := Noted(input);
            FramesIn(StreamText(codec, mode, input, thinkingEnabled, failing, f))
            == if n < |input| && mode.ByLine? && added != []
               then sent + ([Frame(added[0].event, codec.encode(input[n]).data + "\n" + added[0].data)] + added[1..])
               else sent + added
  {
    hide Run, Faithful, FramesIn, FormatAll, EncodeAll, Added, Clean, Body, Noted;
    var relayed, more := Relayed(input, thinkingEnabled), Added(input, thinkingEnabled, failing, f);
    var sent, added, n := EncodeAll(codec, relayed), EncodeAll(codec, more), Noted(input);
    FaithfulPrefix(codec, input, n, thinkingEnabled);
    AllClean(codec, relayed);
    AllClean(codec, more);
    var cut := CutOff(codec, mode, input);
    assert FormatAll(sent) + cut + FormatAll(added) == FormatAll(sent) + (cut + FormatAll(added));
    if n < |input| && mode.ByLine? {
      FailedIsClean(codec, input, thinkingEnabled);
      SomethingAdded(input, thinkingEnabled, failing, f);
      ClientReadsSpoiled(sent, codec.encode(input[n]), added);
    } else {
      FormatAppend(sent, added);
      assert cut == "" && "" + FormatAll(added) == FormatAll(added);
      ReadsWhole(sent + added);
    }
  }

  lemma ReadsWhole(frames: seq<Frame>)
    requires forall k | 0 <= k < |frames| :: Clean(frames[k])
    ensures FramesIn(FormatAll(frames)) == frames
  {
    hide FormatAll, PieceFrames, Split, Clean;
    FormattedSplits(frames);
  }

  lemma FailedIsClean(codec: Codec, input: seq<Event>, thinkingEnabled: bool)
    requires Faithful(codec, Run(input, thinkingEnabled).1) && Noted(input) < |input|
    ensures Clean(codec.encode(input[Noted(input)]))
  {
    hide Run, Step, Clean, Noted;
    var n := Noted(input);
    FaithfulPrefix(codec, input, n + 1, thinkingEnabled);
    assert input[..n + 1] == input[..n] + [input[n]];
    RunSnoc(input[..n], input[n], thinkingEnabled);
    PolicyKeepsIndices(Run(input[..n], thinkingEnabled).0, input[n], thinkingEnabled);
    var sent := Run(input[..n + 1], thinkingEnabled).1;
    assert sent[|sent| - 1] == input[n];
  }

  /** A stream that does not fail reaches the client as the policy sends it, and nothing is added. */
  lemma WholeStreamIsRelayed(codec: Codec, mode: ChunkMode, input: seq<Event>, thinkingEnabled: bool, f: Failure)
    requires Faithful(codec, Run(input, thinkingEnabled).1) && forall k | 0 <= k < |input| :: !Indexless(input[k])
    ensures var text := StreamText(codec, mode, input, thinkingEnabled, false, f);
            && text == FormatAll(EncodeAll(codec, Run(input, thinkingEnabled).1))
            && FramesIn(text) == EncodeAll(codec, Run(input, thinkingEnabled).1)
  {
    hide Run, Faithful, FramesIn, FormatAll, EncodeAll, Indexless, Noted, Clean;
    assert Noted(input) == |input| && input[..|input|] == input;
    var sent := EncodeAll(codec, Run(input, thinkingEnabled).1);
    NothingFormatted(codec);
    assert FormatAll(sent) + "" + "" == FormatAll(sent);
    AllClean(codec, Run(input, thinkingEnabled).1);
    ReadsWhole(sent);
  }

  /** What the client makes of a spoiled start or stop, if it finds no index in it: the stream breaks the contract. */
  lemma SpoiledBreaksContract(sent: seq<Event>, spoiled: Event, rest: seq<Event>, allowError: bool)
    requires Indexless(spoiled)
    ensures !Contract(sent + [spoiled] + rest, allowError)
  {
    ReplaySnoc(NO_BLOCKS, sent, spoiled);
    ReplayAppend(NO_BLOCKS, sent + [spoiled], rest);
  }

  /** Where upstream keeps the rules in `Track` until the failure: what the client gets whole and what is added meet the
      contract if and only if the message had been started, or nothing had been sent; and no error event was passed on. */
  lemma FailedStreamCompletes(input: seq<Event>, thinkingEnabled: bool, failing: bool, f: Failure, allowError: bool)
    requires TrackAll(input[..Noted(input)], thinkingEnabled).Some? && (Noted(input) < |input| || failing)
    ensures var before := input[..Noted(input)];
            Contract(Relayed(input, thinkingEnabled) + Added(input, thinkingEnabled, failing, f), allowError)
            <==> (Noted(input) == |input| && Relayed(input, thinkingEnabled) == [])
                 || (HasStart(before) && (allowError || NoErrors(before)))
  {
    hide Run, Contract, HasStart, NoErrors, Agree, Indexless, NoteAll, Replay, ErrorTail, Noted;
    var before := input[..Noted(input)];
    var relayed := Relayed(input, thinkingEnabled);
    RunAgrees(before, thinkingEnabled);
    StartsAndErrorsSurvive(before, thinkingEnabled);
    RecoveryCompletesStream(relayed, f.message, allowError);
    if Noted(input) == |input| && relayed == [] {
      OwnMessageMeetsContract(f, allowError);
      assert [] + ([MessageStart(f.freshId, f.model)] + ErrorTail(0, f.message))
          == [MessageStart(f.freshId, f.model)] + ErrorTail(0, f.message);
    }
  }

  lemma {:induction false} StopsSayNothing(openStack: seq<int>)
    ensures Collect(TextOf, EmittedTracker.Closing(openStack)) == ""
    ensures Collect(ThinkingOf, EmittedTracker.Closing(openStack)) == ""
  {
    if openStack != [] {
      var stop, rest := BlockStop(Some(openStack[|openStack| - 1])), EmittedTracker.Closing(openStack[..|openStack| - 1]);
      StopsSayNothing(openStack[..|openStack| - 1]);
      CollectAppend(TextOf, [stop], rest);
      CollectAppend(ThinkingOf, [stop], rest);
      CollectTwo(TextOf, stop, stop);
      CollectTwo(ThinkingOf, stop, stop);
    }
  }

  /** After some events: the message as a text block, then the end of the turn and of the message. */
  lemma TailSays(before: seq<Event>, next: int, message: string)
    ensures var all := before + ErrorTail(next, message);
            && Collect(TextOf, all) == Collect(TextOf, before) + message
            && Collect(ThinkingOf, all) == Collect(ThinkingOf, before)
            && |all| >= 2 && all[|all| - 1] == MessageStop && all[|all| - 2] == MessageDelta("end_turn")
  {
    hide Collect;
    var tail := ErrorTail(next, message);
    var one, two := before + [tail[0]], before + [tail[0]] + [tail[1]];
    var three, four := two + [tail[2]], two + [tail[2]] + [tail[3]];
    CollectSnoc(TextOf, before, tail[0]);
    CollectSnoc(TextOf, one, tail[1]);
    CollectSnoc(TextOf, two, tail[2]);
    CollectSnoc(TextOf, three, tail[3]);
    CollectSnoc(TextOf, four, tail[4]);
    CollectSnoc(ThinkingOf, before, tail[0]);
    CollectSnoc(ThinkingOf, one, tail[1]);
    CollectSnoc(ThinkingOf, two, tail[2]);
    CollectSnoc(ThinkingOf, three, tail[3]);
    CollectSnoc(ThinkingOf, four, tail[4]);
    assert before + tail == four + [tail[4]];
  }

  /** Whenever the stream fails the client is told: after the text relayed comes the error message as text, and the message ends
      as the end of a turn. Where nothing had been sent, it is a message of its own. */
  lemma FailureIsTold(input: seq<Event>, thinkingEnabled: bool, failing: bool, f: Failure)
    requires Noted(input) < |input| || failing
    ensures var relayed := Relayed(input, thinkingEnabled);
            var all := relayed + Added(input, thinkingEnabled, failing, f);
            && Collect(TextOf, all) == Collect(TextOf, relayed) + f.message
            && Collect(ThinkingOf, all) == Collect(ThinkingOf, relayed)
            && |all| >= 2 && all[|all| - 1] == MessageStop && all[|all| - 2] == MessageDelta("end_turn")
            && (Noted(input) == |input| && relayed == [] ==> all[0] == MessageStart(f.freshId, f.model))
  {
    hide Collect, Relayed, Noted, NoteAll, EmittedTracker.Closing, ErrorTail;
    var relayed := Relayed(input, thinkingEnabled);
    SomethingAdded(input, thinkingEnabled, failing, f);
    CollectNothing(TextOf);
    CollectNothing(ThinkingOf);
    if Noted(input) == |input| && relayed == [] {
      var start := MessageStart(f.freshId, f.model);
      TailSays([start], 0, f.message);
      CollectTwo(TextOf, start, start);
      CollectTwo(ThinkingOf, start, start);
      assert relayed + ([start] + ErrorTail(0, f.message)) == [start] + ErrorTail(0, f.message);
    } else {
      var n := NoteAll(relayed).value;
      var stops := EmittedTracker.Closing(n.openStack);
      StopsSayNothing(n.openStack);
      CollectAppend(TextOf, relayed, stops);
      CollectAppend(ThinkingOf, relayed, stops);
      TailSays(relayed + stops, n.maxIndex + 1, f.message);
      assert relayed + (stops + ErrorTail(n.maxIndex + 1, f.message)) == relayed + stops + ErrorTail(n.maxIndex + 1, f.message);
    }
  }

  lemma OwnMessageMeetsContract(f: Failure, allowError: bool)
    ensures Contract([MessageStart(f.freshId, f.model)] + ErrorTail(0, f.message), allowError)
  {
    var start := MessageStart(f.freshId, f.model);
    ReplaySnoc(NO_BLOCKS, [], start);
    assert [] + [start] == [start];
    StartNoted(start);
    RecoveryCompletesStream([start], f.message, allowError);
    assert [] + ErrorTail(0, f.message) == ErrorTail(0, f.message);
    assert [start][0] == start;
  }

  lemma StartNoted(start: Event)
    requires start.MessageStart?
    ensures NoteAll([start]).Some? && NoteAll([start]).value.openStack == [] && NoteAll([start]).value.maxIndex == -1
  {
    NoteAllSnoc([], start);
    assert [] + [start] == [start];
  }

  /** The shortest case: a message start and a stop without an index, by lines. The stop of the error text's block is
      untouched, but its start is read with the data of both events. */
  lemma IndexlessStopSpoils(codec: Codec, start: Event, f: Failure)
    requires start.MessageStart? && Faithful(codec, [start] + [BlockStop(None)]) && Faithful(codec, ErrorTail(0, f.message))
    ensures var input, tail := [start] + [BlockStop(None)], EncodeAll(codec, ErrorTail(0, f.message));
            FramesIn(StreamText(codec, ByLine, input, true, false, f))
            == [codec.encode(start)]
               + ([Frame(tail[0].event, codec.encode(BlockStop(None)).data + "\n" + tail[0].data)] + tail[1..])
  {
    hide Faithful, FramesIn, ErrorTail, FormatAll, StreamText, Run, Noted, Added, Relayed;
    StartThenFailure(start, f);
    assert EncodeAll(codec, [start]) == [codec.encode(start)];
    ClientReadsStream(codec, ByLine, [start] + [BlockStop(None)], true, false, f);
  }

  lemma StartThenFailure(start: Event, f: Failure)
    requires start.MessageStart?
    ensures var input := [start] + [BlockStop(None)];
            && Noted(input) == 1 && Relayed(input, true) == [start] && Run(input, true).1 == input
            && Added(input, true, false, f) == ErrorTail(0, f.message) != []
  {
    var input := [start] + [BlockStop(None)];
    RunSnoc([], start, true);
    assert [] + [start] == [start];
    RunSnoc([start], BlockStop(None), true);
    hide Run;
    NotedOne(start);
    assert input[..1] == [start];
    StartNoted(start);
    hide NoteAll, Noted;
    assert [] + ErrorTail(0, f.message) == ErrorTail(0, f.message);
  }

  lemma NotedOne(start: Event)
    requires start.MessageStart?
    ensures Noted([start] + [BlockStop(None)]) == 1
  {}
}
