/** The shape an Anthropic event stream must have, and the checker for it
    (core/anthropic/stream_contracts.py). Every producer in this project is proved
    against the predicate `Contract`. */
module StreamContract {
  import opened Basics

  /** A `content_block` object. `None` stands for a field that is absent or of another JSON type;
      `input` is the JSON text of the object. */
  datatype ContentBlock = ContentBlock(
    kind: Option<string>, text: string, id: Option<string>, name: Option<string>, input: Option<string>)

  /** A `delta` object: its type and the one string it carries. */
  datatype DeltaBody = DeltaBody(kind: Option<string>, payload: string)

  /** One parsed SSE frame. `Other` is any event name that is not listed. */
  datatype Event =
    | MessageStart(id: string, model: string)
    | MessageDelta(stopReason: string)
    | MessageStop
    | Error(message: string)
    | Other(name: string)
    | BlockStart(index: Option<int>, block: Option<ContentBlock>)
    | BlockDelta(index: Option<int>, delta: Option<DeltaBody>)
    | BlockStop(index: Option<int>)

  const NO_DELTA_KINDS: set<string> :=
    {"server_tool_use", "web_search_tool_result", "web_fetch_tool_result", "text_eager", "redacted_thinking"}

  const ALLOWED_KINDS: set<string> :=
    {"text", "thinking", "tool_use", "redacted_thinking",
     "server_tool_use", "web_search_tool_result", "web_fetch_tool_result"}

  /** The checker's two collections: open block kinds by index, and every index ever started. */
  datatype Blocks = Blocks(open: map<int, string>, seen: set<int>)

  const NO_BLOCKS := Blocks(map[], {})

  /** What the checker remembers a started block as: text given in the start event takes no deltas. */
  function Storage(block: ContentBlock): string
    requires block.kind.Some?
  {
    if block.kind.value == "text" && !Blank(block.text) then "text_eager" else block.kind.value
  }

  predicate DeltaFits(kind: string, deltaKind: string) {
    || (kind == "thinking" && deltaKind in {"thinking_delta", "signature_delta"})
    || (kind == "text" && deltaKind == "text_delta")
    || (kind == "tool_use" && deltaKind == "input_json_delta")
  }

  /** One event seen by the checker; `None` when one of its assertions fails. */
  function Observe(c: Blocks, e: Event): Option<Blocks> {
    match e
    case BlockStart(Some(i), Some(b)) =>
      if b.kind.Some? && b.kind.value in ALLOWED_KINDS && i !in c.open && i !in c.seen then
        Some(Blocks(c.open[i := Storage(b)], c.seen + {i}))
      else None
    case BlockStart(_, _) => None
    case BlockDelta(Some(i), Some(d)) =>
      if i in c.open && d.kind.Some? && DeltaFits(c.open[i], d.kind.value) then Some(c) else None
    case BlockDelta(_, _) => None
    case BlockStop(Some(i)) => if i in c.open then Some(c.(open := c.open - {i})) else None
    case BlockStop(_) => None
    case _ => Some(c)
  }

  function ReplayFrom(c: Blocks, events: seq<Event>): Option<Blocks> {
    if events == [] then Some(c)
    else
      var before := ReplayFrom(c, events[..|events| - 1]);
      if before.None? then None else Observe(before.value, events[|events| - 1])
  }

  function Replay(events: seq<Event>): Option<Blocks> {
    ReplayFrom(NO_BLOCKS, events)
  }

  predicate HasStart(events: seq<Event>) {
    exists i | 0 <= i < |events| :: events[i].MessageStart?
  }

  predicate NoErrors(events: seq<Event>) {
    forall i | 0 <= i < |events| :: !events[i].Error?
  }

  predicate Contract(events: seq<Event>, allowError: bool) {
    && events != []
    && HasStart(events)
    && events[|events| - 1].MessageStop?
    && (allowError || NoErrors(events))
    && var end := Replay(events);
       end.Some? && end.value.open == map[] && end.value.seen != {}
  }

  /** The text a client sees: eager text of start events, and text deltas. */
  function TextOf(e: Event): string {
    match e
    case BlockStart(_, Some(b)) => if b.kind == Some("text") then b.text else ""
    case BlockDelta(_, Some(d)) => if d.kind == Some("text_delta") then d.payload else ""
    case _ => ""
  }

  function ThinkingOf(e: Event): string {
    match e
    case BlockDelta(_, Some(d)) => if d.kind == Some("thinking_delta") then d.payload else ""
    case _ => ""
  }

  lemma {:induction false} ReplayAppend(c: Blocks, a: seq<Event>, b: seq<Event>)
    ensures ReplayFrom(c, a + b)
         == if ReplayFrom(c, a).None? then None else ReplayFrom(ReplayFrom(c, a).value, b)
  {
    if b == [] {
      assert a + b == a;
    } else {
      ReplayAppend(c, a, b[..|b| - 1]);
      assert (a + b)[..|a + b| - 1] == a + b[..|b| - 1];
    }
  }

  lemma AppendKeeps(a: seq<Event>, b: seq<Event>)
    ensures HasStart(a) ==> HasStart(a + b)
    ensures NoErrors(a) && NoErrors(b) ==> NoErrors(a + b)
  {
    if HasStart(a) {
      var i :| 0 <= i < |a| && a[i].MessageStart?;
      assert (a + b)[i].MessageStart?;
    }
  }

  lemma NoEvents(c: Blocks)
    ensures ReplayFrom(c, []) == Some(c)
  {}

  lemma ReplaySnoc(c: Blocks, a: seq<Event>, e: Event)
    ensures ReplayFrom(c, a + [e])
         == if ReplayFrom(c, a).None? then None else Observe(ReplayFrom(c, a).value, e)
  {
    assert (a + [e])[..|a|] == a;
  }

  /** `text_content`. */
  method TextContent(events: seq<Event>) returns (text: string)
    ensures text == Collect(TextOf, events)
  {
    text := "";
    for k := 0 to |events|
      invariant text == Collect(TextOf, events[..k])
    {
      assert events[..k + 1] == events[..k] + [events[k]];
      CollectSnoc(TextOf, events[..k], events[k]);
      match events[k] {
        case BlockStart(_, Some(block)) =>
          if block.kind == Some("text") { text := text + block.text; }
        case BlockDelta(_, Some(delta)) =>
          if delta.kind == Some("text_delta") { text := text + delta.payload; }
        case _ =>
      }
    }
    assert events[..|events|] == events;
  }

  /** `thinking_content`. */
  method ThinkingContent(events: seq<Event>) returns (text: string)
    ensures text == Collect(ThinkingOf, events)
  {
    text := "";
    for k := 0 to |events|
      invariant text == Collect(ThinkingOf, events[..k])
    {
      assert events[..k + 1] == events[..k] + [events[k]];
      CollectSnoc(ThinkingOf, events[..k], events[k]);
      if events[k].BlockDelta? && events[k].delta.Some? && events[k].delta.value.kind == Some("thinking_delta") {
        text := text + events[k].delta.value.payload;
      }
    }
    assert events[..|events|] == events;
  }

  lemma NothingReplayed(events: seq<Event>)
    ensures Replay(events[..0]) == Some(NO_BLOCKS)
  {}

  /** A stream meets the contract only if it does so event by event. */
  lemma OneEvent(events: seq<Event>, k: nat, allowError: bool)
    requires k < |events| && Replay(events[..k]).Some?
    ensures Replay(events[..k + 1]) == Observe(Replay(events[..k]).value, events[k])
    ensures Observe(Replay(events[..k]).value, events[k]).None? || (events[k].Error? && !allowError)
            ==> !Contract(events, allowError)
  {
    assert events[..k + 1] == events[..k] + [events[k]];
    ReplaySnoc(NO_BLOCKS, events[..k], events[k]);
    ReplayAppend(NO_BLOCKS, events[..k + 1], events[k + 1..]);
    assert events[..k + 1] + events[k + 1..] == events;
  }

  lemma AllEvents(events: seq<Event>, allowError: bool)
    requires events != [] && Replay(events).Some? && events[|events| - 1].MessageStop?
    requires exists i | 0 <= i < |events| :: events[i].MessageStart?
    requires allowError || forall i | 0 <= i < |events| :: !events[i].Error?
    ensures Contract(events, allowError) <==> Replay(events).value.open == map[] && Replay(events).value.seen != {}
  {}

  /** `assert_anthropic_stream_contract`: `false` where the original raises. */
  method CheckContract(events: seq<Event>, allowError: bool) returns (ok: bool)
    ensures ok <==> Contract(events, allowError)
  {
    if events == [] || !(exists i | 0 <= i < |events| :: events[i].MessageStart?)
       || !events[|events| - 1].MessageStop? {
      return false;
    }
    hide Contract, HasStart, NoErrors, Replay, ReplayFrom;
    var open: map<int, string>, seen: set<int> := map[], {};
    var k := 0;
    NothingReplayed(events);
    while k < |events|
      invariant 0 <= k <= |events|
      invariant Replay(events[..k]) == Some(Blocks(open, seen))
      invariant allowError || forall i | 0 <= i < k :: !events[i].Error?
    {
      var e := events[k];
      OneEvent(events, k, allowError);
      if e.Error? && !allowError {
        return false;
      }
      match e {
        case BlockStart(index, block) =>
          if index.None? || block.None? || block.value.kind.None? { return false; }
          if block.value.kind.value !in ALLOWED_KINDS { return false; }
          if index.value in open || index.value in seen { return false; }
          var storage := if block.value.kind.value == "text" && !Blank(block.value.text)
                         then "text_eager" else block.value.kind.value;
          open, seen := open[index.value := storage], seen + {index.value};
        case BlockDelta(index, delta) =>
          if index.None? || index.value !in open { return false; }
          var kind := open[index.value];
          if kind in NO_DELTA_KINDS || delta.None? || delta.value.kind.None? { return false; }
          var fits := if kind == "thinking" then delta.value.kind.value in {"thinking_delta", "signature_delta"}
                      else DeltaFits(kind, delta.value.kind.value);
          if !fits { return false; }
        case BlockStop(index) =>
          if index.None? || index.value !in open { return false; }
          open := open - {index.value};
        case _ =>
      }
      k := k + 1;
    }
    assert events[..k] == events;
    AllEvents(events, allowError);
    ok := open == map[] && seen != {};
  }
}
