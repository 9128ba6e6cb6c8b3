/** Watching the text already sent so that a failure at any point can still be ended as a legal stream
    (core/anthropic/emitted_sse_tracker.py). */
module EmittedTracker {
  import opened Basics
  import opened StreamContract
  import opened SseFraming

  /** JSON both ways, as the proxy uses it: every event has a frame and comes back from it. */
  datatype Codec = Codec(encode: Event -> Frame, decode: Frame -> Event)

  ghost predicate Faithful(codec: Codec, events: seq<Event>) {
    forall k | 0 <= k < |events| :: Clean(codec.encode(events[k])) && codec.decode(codec.encode(events[k])) == events[k]
  }

  /** What has been learned from the events sent so far. */
  datatype Notes = Notes(openStack: seq<int>, maxIndex: int, messageId: Option<string>, model: string)

  const NOTHING := Notes([], -1, None, "")

  function RemoveFirst(s: seq<int>, x: int): seq<int> {
    if s == [] then [] else if s[0] == x then s[1..] else [s[0]] + RemoveFirst(s[1..], x)
  }

  /** `_observe`; `None` where `event_index` raises. */
  function Note(n: Notes, e: Event): Option<Notes> {
    match e
    case MessageStart(id, model) =>
      Some(n.(messageId := if id != "" then Some(id) else n.messageId, model := if model != "" then model else n.model))
    case BlockStart(Some(i), _) =>
      Some(n.(maxIndex := if i > n.maxIndex then i else n.maxIndex, openStack := n.openStack + [i]))
    case BlockStart(None, _) => None
    case BlockStop(Some(i)) =>
      var top := |n.openStack| - 1;
      Some(n.(openStack := if n.openStack != [] && n.openStack[top] == i then n.openStack[..top]
                           else RemoveFirst(n.openStack, i)))
    case BlockStop(None) => None
    case _ => Some(n)
  }

  function NoteAll(events: seq<Event>): Option<Notes> {
    if events == [] then Some(NOTHING)
    else
      var before := NoteAll(events[..|events| - 1]);
      if before.None? then None else Note(before.value, events[|events| - 1])
  }

  /** Stops for the blocks still open, last started first. */
  function Closing(openStack: seq<int>): seq<Event> {
    if openStack == [] then []
    else [BlockStop(Some(openStack[|openStack| - 1]))] + Closing(openStack[..|openStack| - 1])
  }

  function ErrorTail(next: int, message: string): seq<Event> {
    [BlockStart(Some(next), Some(ContentBlock(Some("text"), "", None, None, None))),
     BlockDelta(Some(next), Some(DeltaBody(Some("text_delta"), message))),
     BlockStop(Some(next)), MessageDelta("end_turn"), MessageStop]
  }

  /** Everything sent after a failure. */
  function Recovery(n: Notes, message: string): seq<Event> {
    Closing(n.openStack) + ErrorTail(n.maxIndex + 1, message)
  }

  class Tracker {
    const codec: Codec
    var buf: string
    var openStack: seq<int>
    var maxIndex: int
    var messageId: Option<string>
    var model: string

    function Now(): Notes reads this {
      Notes(openStack, maxIndex, messageId, model)
    }

    constructor (codec: Codec)
      ensures this.codec == codec && buf == "" && Now() == NOTHING
    {
      this.codec := codec;
      buf, openStack, maxIndex, messageId, model := "", [], -1, None, "";
    }

    method Observe(e: Event) returns (ok: bool)
      modifies `openStack, `maxIndex, `messageId, `model
      ensures Note(old(Now()), e) == if ok then Some(Now()) else None
      ensures !ok ==> Now() == old(Now())
    {
      match e {
        case MessageStart(id, name) =>
          if id != "" { messageId := Some(id); }
          if name != "" { model := name; }
        case BlockStart(index, _) =>
          if index.None? { return false; }
          maxIndex := if index.value > maxIndex then index.value else maxIndex;
          openStack := openStack + [index.value];
        case BlockStop(index) =>
          if index.None? { return false; }
          if openStack != [] && openStack[|openStack| - 1] == index.value {
            openStack := openStack[..|openStack| - 1];
          } else {
            openStack := RemoveFirst(openStack, index.value);
          }
        case _ =>
      }
      ok := true;
    }

    /** Feeds the frames one by one; stops where the original raises. */
    method ObserveFrames(frames: seq<Frame>, ghost earlier: seq<Frame>) returns (ok: bool)
      requires NoteFrames(codec, earlier) == Some(Now())
      modifies `openStack, `maxIndex, `messageId, `model
      ensures NoteFrames(codec, earlier + frames) == if ok then Some(Now()) else None
      ensures !ok ==> StoppedIn(codec, earlier + frames, Now())
    {
      hide Note, NoteFrames, StoppedIn;
      assert earlier + frames[..0] == earlier;
      for k := 0 to |frames|
        invariant NoteFrames(codec, earlier + frames[..k]) == Some(Now())
      {
        NoteSnoc(codec, earlier + frames[..k], frames[k]);
        assert earlier + frames[..k + 1] == earlier + frames[..k] + [frames[k]];
        ok := Observe(codec.decode(frames[k]));
        if !ok {
          NoteStuck(codec, earlier + frames[..k + 1], frames[k + 1..]);
          assert earlier + frames == earlier + frames[..k + 1] + frames[k + 1..];
          StopsIn(codec, earlier + frames[..k], frames[k], frames[k + 1..], Now());
          return false;
        }
      }
      assert frames[..|frames|] == frames;
      ok := true;
    }

    /** `fed` is all text fed before. Afterwards the notes are those of every frame completed so far,
        wherever the text was cut; `ok` is false where the original raises, with the notes of the frames before. */
    method Feed(chunk: string, ghost fed: string) returns (ok: bool)
      requires buf == Split(fed).1 && NoteFrames(codec, FramesIn(fed)) == Some(Now())
      modifies this
      ensures NoteFrames(codec, FramesIn(fed + chunk)) == if ok then Some(Now()) else None
      ensures ok ==> buf == Split(fed + chunk).1
      ensures !ok ==> StoppedIn(codec, FramesIn(fed + chunk), Now())
    {
      hide StoppedIn;
      ghost var seen := FramesIn(fed);
      FramesAppend(fed, chunk, buf);
      buf := buf + chunk;
      while true
        invariant FramesIn(fed + chunk) == seen + FramesIn(buf)
        invariant Split(fed + chunk).1 == Split(buf).1
        invariant NoteFrames(codec, seen) == Some(Now())
        decreases |buf|
      {
        var sep := Find(buf, "\n\n");
        if sep < 0 { break; }
        var frame := buf[..sep];
        FirstFrame(buf, sep, seen);
        buf := buf[sep + 2..];
        ghost var later := FramesIn(buf);
        if Blank(frame) {
          assert seen + PieceFrames(frame) == seen;
          continue;
        }
        var events := ParseSseLines(SplitLines(frame));
        ok := ObserveFrames(events, seen);
        seen := seen + events;
        if !ok {
          NoteStuck(codec, seen, later);
          StaysStopped(codec, seen, later, Now());
          return false;
        }
      }
      assert seen + [] == seen;
      ok := true;
    }

    function NextContentIndex(): int reads this { maxIndex + 1 }

    method CloseUnclosedBlocks() returns (out: seq<Event>)
      modifies `openStack
      ensures out == Closing(old(openStack)) && openStack == []
    {
      out := [];
      while openStack != []
        invariant out + Closing(openStack) == Closing(old(openStack))
        decreases |openStack|
      {
        var top := |openStack| - 1;
        out := out + [BlockStop(Some(openStack[top]))];
        openStack := openStack[..top];
      }
      assert out + [] == out;
    }

    method MidstreamErrorTail(message: string) returns (out: seq<Event>)
      ensures out == ErrorTail(maxIndex + 1, message)
    {
      var index := NextContentIndex();
      out := [BlockStart(Some(index), Some(ContentBlock(Some("text"), "", None, None, None)))];
      out := out + [BlockDelta(Some(index), Some(DeltaBody(Some("text_delta"), message)))];
      out := out + [BlockStop(Some(index))];
      out := out + [MessageDelta("end_turn")] + [MessageStop];
    }
  }

  function NoteFrames(codec: Codec, frames: seq<Frame>): Option<Notes> {
    if frames == [] then Some(NOTHING)
    else
      var before := NoteFrames(codec, frames[..|frames| - 1]);
      if before.None? then None else Note(before.value, codec.decode(frames[|frames| - 1]))
  }

  /** The notes are those before the first frame that cannot be noted. */
  ghost predicate StoppedIn(codec: Codec, frames: seq<Frame>, now: Notes) {
    exists n | 0 <= n < |frames| :: NoteFrames(codec, frames[..n]) == Some(now) && NoteFrames(codec, frames[..n + 1]).None?
  }

  lemma StopsIn(codec: Codec, before: seq<Frame>, bad: Frame, after: seq<Frame>, now: Notes)
    requires NoteFrames(codec, before) == Some(now) && NoteFrames(codec, before + [bad]).None?
    ensures StoppedIn(codec, before + [bad] + after, now)
  {
    var frames := before + [bad] + after;
    assert frames[..|before|] == before && frames[..|before| + 1] == before + [bad];
  }

  lemma StaysStopped(codec: Codec, frames: seq<Frame>, more: seq<Frame>, now: Notes)
    requires StoppedIn(codec, frames, now)
    ensures StoppedIn(codec, frames + more, now)
  {
    hide NoteFrames;
    var n :| 0 <= n < |frames| && NoteFrames(codec, frames[..n]) == Some(now) && NoteFrames(codec, frames[..n + 1]).None?;
    assert (frames + more)[..n] == frames[..n] && (frames + more)[..n + 1] == frames[..n + 1];
  }

  /** The frames a text completes. */
  function FramesIn(text: string): seq<Frame> {
    Collect(PieceFrames, Split(text).0)
  }

  lemma NoteSnoc(codec: Codec, frames: seq<Frame>, last: Frame)
    ensures NoteFrames(codec, frames + [last])
         == if NoteFrames(codec, frames).None? then None
            else Note(NoteFrames(codec, frames).value, codec.decode(last))
  {
    assert (frames + [last])[..|frames|] == frames;
  }

  lemma {:induction false} NoteStuck(codec: Codec, frames: seq<Frame>, more: seq<Frame>)
    requires NoteFrames(codec, frames).None?
    ensures NoteFrames(codec, frames + more).None?
  {
    hide NoteFrames, Note;
    if more == [] {
      assert frames + more == frames;
    } else {
      NoteStuck(codec, frames, more[..|more| - 1]);
      NoteSnoc(codec, frames + more[..|more| - 1], more[|more| - 1]);
      assert frames + more == frames + more[..|more| - 1] + [more[|more| - 1]];
    }
  }

  /** However a text is cut, the frames are those of the part before and those completed by the rest. */
  lemma FramesAppend(a: string, b: string, left: string)
    requires left == Split(a).1
    ensures FramesIn(a + b) == FramesIn(a) + FramesIn(left + b)
    ensures Split(a + b).1 == Split(left + b).1
  {
    SplitAppend(a, b);
    CollectAppend(PieceFrames, Split(a).0, Split(left + b).0);
  }

  lemma FirstFrame(text: string, sep: nat, seen: seq<Frame>)
    requires Find(text, "\n\n") == sep
    ensures sep + 2 <= |text|
    ensures seen + FramesIn(text) == seen + PieceFrames(text[..sep]) + FramesIn(text[sep + 2..])
    ensures Split(text).1 == Split(text[sep + 2..]).1
  {
    SplitFirst(text, sep);
    CollectCons(seen, PieceFrames, Split(text).0, text[..sep], Split(text[sep + 2..]).0);
  }

  // ---- The tail completes the stream ----

  /** The notes agree with the stream checker: same open blocks, and no index above the largest noted. */
  ghost predicate Informed(n: Notes, c: Blocks) {
    && Distinct(n.openStack)
    && (forall d :: d in n.openStack <==> d in c.open)
    && (forall d | d in c.open :: d in c.seen)
    && (forall d | d in c.seen :: d <= n.maxIndex)
  }

  lemma {:induction false} RemoveFirstDistinct(s: seq<int>, x: int)
    requires Distinct(s)
    ensures Distinct(RemoveFirst(s, x))
    ensures forall d :: d in RemoveFirst(s, x) <==> d in s && d != x
  {
    if s != [] {
      RemoveFirstDistinct(s[1..], x);
      assert s == [s[0]] + s[1..];
      assert s[0] !in s[1..];
    }
  }

  lemma NoteInformed(n: Notes, c: Blocks, e: Event)
    requires Informed(n, c) && StreamContract.Observe(c, e).Some?
    ensures Note(n, e).Some? && Informed(Note(n, e).value, StreamContract.Observe(c, e).value)
  {
    if e.BlockStop? {
      StopInformed(n, c, e.index.value);
    }
  }

  lemma StopInformed(n: Notes, c: Blocks, i: int)
    requires Informed(n, c) && i in c.open
    ensures Informed(Note(n, BlockStop(Some(i))).value, c.(open := c.open - {i}))
  {
    hide RemoveFirst;
    var top := |n.openStack| - 1;
    if n.openStack != [] && n.openStack[top] == i {
      LastRemoved(n.openStack);
    } else {
      RemoveFirstDistinct(n.openStack, i);
    }
    hide Distinct;
  }

  lemma LastRemoved(s: seq<int>)
    requires Distinct(s) && s != []
    ensures Distinct(s[..|s| - 1]) && forall d :: d in s[..|s| - 1] <==> d in s && d != s[|s| - 1]
  {
    assert s == s[..|s| - 1] + [s[|s| - 1]];
  }

  lemma {:induction false} PrefixInformed(events: seq<Event>)
    requires Replay(events).Some?
    ensures NoteAll(events).Some? && Informed(NoteAll(events).value, Replay(events).value)
  {
    if events != [] {
      var before := events[..|events| - 1];
      PrefixInformed(before);
      NoteInformed(NoteAll(before).value, Replay(before).value, events[|events| - 1]);
    }
  }

  lemma {:induction false} ClosingCloses(n: Notes, c: Blocks)
    requires Informed(n, c)
    ensures ReplayFrom(c, Closing(n.openStack)).Some?
    ensures Informed(n.(openStack := []), ReplayFrom(c, Closing(n.openStack)).value)
    decreases |n.openStack|
  {
    if n.openStack != [] {
      var top := |n.openStack| - 1;
      var stop := BlockStop(Some(n.openStack[top]));
      NoteInformed(n, c, stop);
      var n', c' := n.(openStack := n.openStack[..top]), StreamContract.Observe(c, stop).value;
      ClosingCloses(n', c');
      ReplaySnoc(c, [], stop);
      assert [] + [stop] == [stop];
      ReplayAppend(c, [stop], Closing(n'.openStack));
    }
  }

  lemma TailReplays(c: Blocks, next: int, message: string)
    requires next !in c.seen && forall d :: d !in c.open
    ensures ReplayFrom(c, ErrorTail(next, message)).Some?
    ensures ReplayFrom(c, ErrorTail(next, message)).value.open == map[]
    ensures next in ReplayFrom(c, ErrorTail(next, message)).value.seen
  {
    var start := BlockStart(Some(next), Some(ContentBlock(Some("text"), "", None, None, None)));
    var delta := BlockDelta(Some(next), Some(DeltaBody(Some("text_delta"), message)));
    ErrorTextObserved(c, next, message);
    hide StreamContract.Observe, ReplayFrom;
    NoEvents(c);
    var one := [] + [start];
    var two := one + [delta];
    var three := two + [BlockStop(Some(next))];
    var four := three + [MessageDelta("end_turn")];
    ReplaySnoc(c, [], start);
    ReplaySnoc(c, one, delta);
    ReplaySnoc(c, two, BlockStop(Some(next)));
    ReplaySnoc(c, three, MessageDelta("end_turn"));
    ReplaySnoc(c, four, MessageStop);
    assert ErrorTail(next, message) == four + [MessageStop];
  }

  lemma ErrorTextObserved(c: Blocks, next: int, message: string)
    requires next !in c.seen && forall d :: d !in c.open
    ensures var started := Blocks(c.open[next := "text"], c.seen + {next});
            && StreamContract.Observe(c, BlockStart(Some(next), Some(ContentBlock(Some("text"), "", None, None, None))))
               == Some(started)
            && StreamContract.Observe(started, BlockDelta(Some(next), Some(DeltaBody(Some("text_delta"), message))))
               == Some(started)
            && StreamContract.Observe(started, BlockStop(Some(next))) == Some(Blocks(map[], c.seen + {next}))
    ensures forall c' :: StreamContract.Observe(c', MessageDelta("end_turn")) == Some(c')
                      && StreamContract.Observe(c', MessageStop) == Some(c')
  {
    NoKeys(c.open);
    assert c.open[next := "text"] - {next} == map[];
  }

  lemma {:induction false} ClosingOnlyStops(openStack: seq<int>)
    ensures forall k | 0 <= k < |Closing(openStack)| :: Closing(openStack)[k].BlockStop?
  {
    if openStack != [] { ClosingOnlyStops(openStack[..|openStack| - 1]); }
  }

  lemma RecoveryReplays(prefix: seq<Event>, message: string)
    requires Replay(prefix).Some?
    ensures NoteAll(prefix).Some?
    ensures var n := NoteAll(prefix).value;
            var end := Replay(prefix + Recovery(n, message));
            end.Some? && end.value.open == map[] && n.maxIndex + 1 in end.value.seen
  {
    PrefixInformed(prefix);
    var n, c := NoteAll(prefix).value, Replay(prefix).value;
    var closing := Closing(n.openStack);
    ClosingCloses(n, c);
    TailReplays(ReplayFrom(c, closing).value, n.maxIndex + 1, message);
    ReplayAppend(c, closing, ErrorTail(n.maxIndex + 1, message));
    ReplayAppend(NO_BLOCKS, prefix, Recovery(n, message));
  }

  /** Any prefix of a legal stream, followed by the tracker's stops and error tail, meets the whole contract if and only if
      `message_start` was in it: open blocks are stopped once, the message gets an unused index, and no error event and
      no start of the message is added. */
  lemma RecoveryCompletesStream(prefix: seq<Event>, message: string, allowError: bool)
    requires Replay(prefix).Some?
    ensures NoteAll(prefix).Some?
    ensures Contract(prefix + Recovery(NoteAll(prefix).value, message), allowError)
       <==> HasStart(prefix) && (allowError || NoErrors(prefix))
  {
    RecoveryReplays(prefix, message);
    var n := NoteAll(prefix).value;
    ClosingOnlyStops(n.openStack);
    hide Closing, Replay, ReplayFrom, NoteAll, StreamContract.Observe;
    AppendSilent(prefix, Recovery(n, message));
  }

  lemma AppendSilent(a: seq<Event>, b: seq<Event>)
    requires forall k | 0 <= k < |b| :: !b[k].MessageStart? && !b[k].Error?
    ensures HasStart(a + b) <==> HasStart(a)
    ensures NoErrors(a + b) <==> NoErrors(a)
  {
    AppendKeeps(a, b);
    if HasStart(a + b) {
      var i :| 0 <= i < |a + b| && (a + b)[i].MessageStart?;
      assert i < |a| && a[i].MessageStart?;
    }
    if NoErrors(a + b) {
      forall i | 0 <= i < |a| ensures !a[i].Error? { assert (a + b)[i] == a[i]; }
    }
  }

  function EncodeAll(codec: Codec, events: seq<Event>): (frames: seq<Frame>)
    ensures |frames| == |events|
  {
    if events == [] then [] else EncodeAll(codec, events[..|events| - 1]) + [codec.encode(events[|events| - 1])]
  }

  lemma {:induction false} EncodedFrames(codec: Codec, events: seq<Event>)
    requires Faithful(codec, events)
    ensures forall k | 0 <= k < |events| :: Clean(EncodeAll(codec, events)[k])
    ensures NoteFrames(codec, EncodeAll(codec, events)) == NoteAll(events)
  {
    if events != [] {
      EncodedFrames(codec, events[..|events| - 1]);
      NoteSnoc(codec, EncodeAll(codec, events[..|events| - 1]), codec.encode(events[|events| - 1]));
    }
  }

  /** A frame the tracker rejects stays rejected when more text arrives. */
  lemma {:induction false} LaterFrames(codec: Codec, chunks: seq<string>, k: nat)
    requires k <= |chunks| && NoteFrames(codec, FramesIn(Concat(chunks[..k]))).None?
    ensures NoteFrames(codec, FramesIn(Concat(chunks))).None?
    decreases |chunks| - k
  {
    if k == |chunks| {
      assert chunks[..k] == chunks;
    } else {
      var text := Concat(chunks[..k]);
      assert chunks[..k + 1] == chunks[..k] + [chunks[k]];
      ConcatSnoc(chunks[..k], chunks[k]);
      FramesAppend(text, chunks[k], Split(text).1);
      NoteStuck(codec, FramesIn(text), FramesIn(Split(text).1 + chunks[k]));
      LaterFrames(codec, chunks, k + 1);
    }
  }

  lemma NothingRead(codec: Codec)
    ensures Split("") == ([], "") && NoteFrames(codec, FramesIn("")) == Some(NOTHING)
  {}

  /** A formatted stream and the beginning of one more frame. */
  lemma CutIsKeptBack(frames: seq<Frame>, cut: string)
    requires (forall k | 0 <= k < |frames| :: Clean(frames[k])) && Find(cut, "\n\n") < 0
    ensures FramesIn(FormatAll(frames) + cut) == frames && Split(FormatAll(frames) + cut).1 == cut
  {
    hide Find, FormatAll, PieceFrames;
    FormattedSplits(frames);
    FramesAppend(FormatAll(frames), cut, "");
    assert "" + cut == cut;
    assert Split(cut) == ([], cut);
    assert frames + [] == frames;
  }

  /** However a formatted stream is cut into chunks, and even when its last frame is cut off, the tracker ends up knowing
      exactly the events sent whole. */
  method WatchChunks(codec: Codec, sent: seq<Event>, cut: string, chunks: seq<string>) returns (tracker: Tracker)
    requires Faithful(codec, sent) && NoteAll(sent).Some? && Find(cut, "\n\n") < 0
    requires Concat(chunks) == FormatAll(EncodeAll(codec, sent)) + cut
    ensures fresh(tracker) && tracker.buf == cut && NoteAll(sent) == Some(tracker.Now())
  {
    hide Split, Clean, Faithful, FormatAll, EncodeAll, Note, NoteAll, Find, FramesIn;
    NothingRead(codec);
    tracker := new Tracker(codec);
    EncodedFrames(codec, sent);
    CutIsKeptBack(EncodeAll(codec, sent), cut);
    ghost var fed := "";
    for k := 0 to |chunks|
      invariant fresh(tracker) && tracker.codec == codec && fed == Concat(chunks[..k])
      invariant tracker.buf == Split(fed).1 && NoteFrames(codec, FramesIn(fed)) == Some(tracker.Now())
    {
      assert chunks[..k + 1] == chunks[..k] + [chunks[k]];
      ConcatSnoc(chunks[..k], chunks[k]);
      var ok := tracker.Feed(chunks[k], fed);
      fed := fed + chunks[k];
      if !ok {
        LaterFrames(codec, chunks, k + 1);
        assert false;
      }
    }
    assert chunks[..|chunks|] == chunks;
  }

  /** A legal prefix is formatted and fed in any chunks, perhaps with a frame that has not been fed to its end. What the
      tracker adds then completes the events fed whole. */
  method RelayThenFail(codec: Codec, sent: seq<Event>, cut: string, chunks: seq<string>, message: string,
                       ghost allowError: bool)
    returns (added: seq<Event>)
    requires Faithful(codec, sent) && Concat(chunks) == FormatAll(EncodeAll(codec, sent)) + cut && Find(cut, "\n\n") < 0
    requires Replay(sent).Some?
    ensures added != [] && (Contract(sent + added, allowError) <==> HasStart(sent) && (allowError || NoErrors(sent)))
  {
    RecoveryCompletesStream(sent, message, allowError);
    hide Contract, Faithful, FormatAll, EncodeAll, NoteAll, Replay, ReplayFrom, HasStart, NoErrors, Find;
    var tracker := WatchChunks(codec, sent, cut, chunks);
    var stops := tracker.CloseUnclosedBlocks();
    var tail := tracker.MidstreamErrorTail(message);
    added := stops + tail;
  }

  lemma ReadsAfterCut(cut: string, added: seq<Frame>)
    requires Find(cut, "\n\n") < 0 && added != [] && forall k | 0 <= k < |added| :: Clean(added[k])
    ensures FramesIn(cut + FormatAll(added)) == PieceFrames(cut + Body(added[0])) + added[1..]
  {
    hide Find, PieceFrames, Split, Clean, Body, Format, FormatAll;
    var text, sep := cut + FormatAll(added), |cut + Body(added[0])|;
    FormatsOneByOne(added);
    assert text == cut + Format(added[0]) + FormatAll(added[1..]);
    CutHasNoSeparator(cut, added[0], FormatAll(added[1..]));
    FirstFrame(text, sep, []);
    FormatIs(added[0]);
    assert text[..sep] == cut + Body(added[0]) && text[sep + 2..] == FormatAll(added[1..]);
    FormattedSplits(added[1..]);
    assert [] + FramesIn(text) == FramesIn(text) && [] + PieceFrames(text[..sep]) == PieceFrames(text[..sep]);
  }

  lemma FormatsOneByOne(frames: seq<Frame>)
    requires frames != []
    ensures FormatAll(frames) == Format(frames[0]) + FormatAll(frames[1..])
  {}

  /** What a client reads off the whole text: the frames sent whole, the cut one run together with the first one added, and
      the others added. */
  lemma ClientReads(sent: seq<Frame>, cut: string, added: seq<Frame>)
    requires (forall k | 0 <= k < |sent| :: Clean(sent[k])) && forall k | 0 <= k < |added| :: Clean(added[k])
    requires Find(cut, "\n\n") < 0 && added != []
    ensures FramesIn(FormatAll(sent) + (cut + FormatAll(added))) == sent + (PieceFrames(cut + Body(added[0])) + added[1..])
  {
    hide Find, PieceFrames, Split, Clean, Body, FormatAll;
    FormattedSplits(sent);
    FramesAppend(FormatAll(sent), cut + FormatAll(added), "");
    assert "" + (cut + FormatAll(added)) == cut + FormatAll(added);
    ReadsAfterCut(cut, added);
  }

  lemma FormatIs(f: Frame)
    ensures Format(f) == Body(f) + "\n\n"
  {}

  /** Cut between frames, or after the event line of one, the client reads exactly what was sent whole and what was added. */
  lemma ClientReadsWhole(sent: seq<Frame>, cut: string, added: seq<Frame>)
    requires (forall k | 0 <= k < |sent| :: Clean(sent[k])) && forall k | 0 <= k < |added| :: Clean(added[k])
    requires added != [] && (cut == "" || exists name :: CleanField(name) && cut == "event: " + name + "\n")
    ensures FramesIn(FormatAll(sent) + (cut + FormatAll(added))) == sent + added
  {
    hide Find, PieceFrames, Split, Body, FramesIn, FormatAll;
    assert Find(cut, "\n\n") < 0 && PieceFrames(cut + Body(added[0])) == [added[0]] by {
      if cut == "" {
        NoSeparator("");
        ParseUndoesFormat(added[0]);
        assert "" + Body(added[0]) == Body(added[0]);
      } else {
        var name :| CleanField(name) && cut == "event: " + name + "\n";
        EventLineThenFrame(name, added[0]);
        NoSeparator(cut);
      }
    }
    ClientReads(sent, cut, added);
    assert [added[0]] + added[1..] == added;
  }

  lemma NoSeparator(text: string)
    requires forall k | 0 <= k < |text| - 1 :: text[k] != '\n'
    ensures Find(text, "\n\n") < 0
  {
    hide Find;
    if Find(text, "\n\n") >= 0 { TwoNewlines(text, Find(text, "\n\n")); }
  }

  /** Cut before the empty line of a frame, the data of the first event added is spoiled: it comes after the cut frame's. */
  lemma ClientReadsSpoiled(sent: seq<Frame>, last: Frame, added: seq<Frame>)
    requires (forall k | 0 <= k < |sent| :: Clean(sent[k])) && forall k | 0 <= k < |added| :: Clean(added[k])
    requires added != [] && Clean(last)
    ensures FramesIn(FormatAll(sent) + (Body(last) + "\n" + FormatAll(added)))
         == sent + ([Frame(added[0].event, last.data + "\n" + added[0].data)] + added[1..])
  {
    hide Find, PieceFrames, Split, Body, FramesIn, FormatAll, Clean;
    var cut := Body(last) + "\n";
    WholeLinesThenFrame(last, added[0]);
    WholeLinesNoSeparator(last);
    ClientReads(sent, cut, added);
  }

  lemma WholeLinesNoSeparator(f: Frame)
    requires Clean(f)
    ensures Find(Body(f) + "\n", "\n\n") < 0
  {
    hide Body, Clean;
    var cut := Body(f) + "\n";
    forall k | 0 <= k < |cut| ensures !("\n\n" <= cut[k..]) {
      TwoNewlines(cut, k);
      if k < |Body(f)| { BodyBreaks(f, k); }
    }
  }

  // ---- What the notes say ----

  /** The `k`-th event is the last message start that gives an id. */
  ghost predicate GivesId(events: seq<Event>, k: int) {
    && 0 <= k < |events| && events[k].MessageStart? && events[k].id != ""
    && forall j | k < j < |events| && events[j].MessageStart? :: events[j].id == ""
  }

  ghost predicate GivesModel(events: seq<Event>, k: int) {
    && 0 <= k < |events| && events[k].MessageStart? && events[k].model != ""
    && forall j | k < j < |events| && events[j].MessageStart? :: events[j].model == ""
  }

  ghost predicate Starts(events: seq<Event>, k: int, d: int) {
    0 <= k < |events| && events[k].BlockStart? && events[k].index == Some(d)
  }

  lemma GivesNext(before: seq<Event>, e: Event, k: int)
    ensures GivesId(before + [e], k) <==> if e.MessageStart? && e.id != "" then k == |before| else GivesId(before, k)
    ensures GivesModel(before + [e], k) <==> if e.MessageStart? && e.model != "" then k == |before| else GivesModel(before, k)
    ensures forall d :: Starts(before + [e], k, d)
                   <==> Starts(before, k, d) || (k == |before| && e.BlockStart? && e.index == Some(d))
  {
    var events := before + [e];
    assert events[|before|] == e && forall j | 0 <= j < |before| :: events[j] == before[j];
  }

  lemma NextNote(n: Notes, e: Event)
    requires Note(n, e).Some?
    ensures var now := Note(n, e).value;
            && now.messageId == (if e.MessageStart? && e.id != "" then Some(e.id) else n.messageId)
            && now.model == (if e.MessageStart? && e.model != "" then e.model else n.model)
            && now.maxIndex == if e.BlockStart? && e.index.value > n.maxIndex then e.index.value else n.maxIndex
  {}

  /** The message id and the model are the last ones given, and the highest index is that of a block started, or -1. */
  lemma {:induction false} NotesAreLatest(events: seq<Event>)
    requires NoteAll(events).Some?
    ensures NotesTell(events, NoteAll(events).value)
  {
    hide Note, NotesTell;
    if events == [] {
      NothingNoted();
    } else {
      var before, e := events[..|events| - 1], events[|events| - 1];
      assert before + [e] == events;
      NotesAreLatest(before);
      NextTell(before, e, NoteAll(before).value, NoteAll(events).value);
    }
  }

  ghost predicate NotesTell(events: seq<Event>, n: Notes) {
    && (if n.messageId.Some? then exists k :: GivesId(events, k) && events[k].id == n.messageId.value
        else forall k | 0 <= k < |events| && events[k].MessageStart? :: events[k].id == "")
    && (if n.model != "" then exists k :: GivesModel(events, k) && events[k].model == n.model
        else forall k | 0 <= k < |events| && events[k].MessageStart? :: events[k].model == "")
    && (forall k, d | Starts(events, k, d) :: d <= n.maxIndex)
    && (n.maxIndex != -1 ==> n.maxIndex >= 0 && exists k :: Starts(events, k, n.maxIndex))
  }

  lemma NextTell(before: seq<Event>, e: Event, n: Notes, now: Notes)
    requires NotesTell(before, n) && Note(n, e) == Some(now)
    ensures NotesTell(before + [e], now)
  {
    var events := before + [e];
    NextNote(n, e);
    hide Note, Starts, GivesId, GivesModel;
    assert events[|before|] == e && forall j | 0 <= j < |before| :: events[j] == before[j];
    GivesNext(before, e, |before|);
    if now.messageId.Some? && !(e.MessageStart? && e.id != "") {
      var k :| GivesId(before, k) && before[k].id == n.messageId.value;
      GivesNext(before, e, k);
      assert events[k].id == now.messageId.value;
    }
    if now.model != "" && !(e.MessageStart? && e.model != "") {
      var k :| GivesModel(before, k) && before[k].model == n.model;
      GivesNext(before, e, k);
      assert events[k].model == now.model;
    }
    forall k, d | Starts(events, k, d) ensures d <= now.maxIndex { GivesNext(before, e, k); }
    if now.maxIndex != -1 && now.maxIndex == n.maxIndex {
      var k :| Starts(before, k, n.maxIndex);
      GivesNext(before, e, k);
    }
  }

  lemma NothingNoted()
    ensures NoteAll([]) == Some(NOTHING) && NotesTell([], NOTHING)
  {}
}
