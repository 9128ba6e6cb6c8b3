/** The think-tag parser inside the response stream: the loop over `delta.content` in `_stream_response_impl`
    (providers/openai_compat.py) for text in which the heuristic parser finds no tool. */
module TaggedResponse {
  import opened Basics
  import opened StreamContract
  import opened ThinkTags
  import opened OpenAiInput
  import opened OpenAiResponse

  function CharOf(kind: ContentType): ((char, ContentType)) -> string {
    (c: (char, ContentType)) => if c.1 == kind then [c.0] else []
  }

  /** The characters with one label. */
  function Chars(labels: seq<(char, ContentType)>, kind: ContentType): string {
    Collect(CharOf(kind), labels)
  }

  function AsPart(chunk: Chunk): seq<Part> {
    [if chunk.kind == THINKING then ThinkingPart(chunk.content) else TextPart(chunk.content, [])]
  }

  function AsRest(chunk: Option<Chunk>): Rest {
    if chunk.None? then NoRest
    else if chunk.value.kind == THINKING then RestThinking(chunk.value.content)
    else RestText(chunk.value.content)
  }

  function AsPiece(chunks: seq<Chunk>): Piece {
    Piece("", Collect(AsPart, chunks), [])
  }

  lemma {:induction false} CharsOfLabel(content: string, kind: ContentType, wanted: ContentType)
    ensures Chars(Label(content, kind), wanted) == if kind == wanted then content else ""
  {
    if content != "" {
      CharsOfLabel(content[1..], kind, wanted);
      var first := (content[0], kind);
      CollectAppend(CharOf(wanted), [first], Label(content[1..], kind));
      CollectTwo(CharOf(wanted), first, first);
    }
  }

  lemma OneText(text: string)
    ensures Concat([text]) == text && Concat([]) == ""
  {
    ConcatSnoc([], text);
    assert [] + [text] == [text];
  }

  /** The parts made from chunks say what the chunks spell. */
  lemma {:induction false} PartsSpell(chunks: seq<Chunk>, thinkingEnabled: bool)
    ensures Concat(Collect(PartTexts, Collect(AsPart, chunks))) == Chars(Spell(chunks), TEXT)
    ensures Concat(Collect(PartThoughts(thinkingEnabled), Collect(AsPart, chunks)))
         == if thinkingEnabled then Chars(Spell(chunks), THINKING) else ""
  {
    if chunks != [] {
      var before, last := chunks[..|chunks| - 1], chunks[|chunks| - 1];
      PartsSpell(before, thinkingEnabled);
      OnePartSpells(Collect(AsPart, before), Spell(before), last, thinkingEnabled);
    }
  }

  lemma OnePartSpells(parts: seq<Part>, spelled: seq<(char, ContentType)>, last: Chunk, thinkingEnabled: bool)
    ensures Concat(Collect(PartTexts, parts + AsPart(last)))
         == Concat(Collect(PartTexts, parts)) + Chars(ChunkLabels(last), TEXT)
    ensures Concat(Collect(PartThoughts(thinkingEnabled), parts + AsPart(last)))
         == Concat(Collect(PartThoughts(thinkingEnabled), parts))
            + if thinkingEnabled then Chars(ChunkLabels(last), THINKING) else ""
    ensures Chars(spelled + ChunkLabels(last), TEXT) == Chars(spelled, TEXT) + Chars(ChunkLabels(last), TEXT)
    ensures Chars(spelled + ChunkLabels(last), THINKING) == Chars(spelled, THINKING) + Chars(ChunkLabels(last), THINKING)
  {
    hide Collect, Concat, Label;
    var part := AsPart(last)[0];
    OneMorePart(PartTexts, parts, part);
    OneMorePart(PartThoughts(thinkingEnabled), parts, part);
    OneText(last.content);
    CharsOfLabel(last.content, last.kind, TEXT);
    CharsOfLabel(last.content, last.kind, THINKING);
    CollectAppend(CharOf(TEXT), spelled, ChunkLabels(last));
    CollectAppend(CharOf(THINKING), spelled, ChunkLabels(last));
  }

  lemma OneMorePart(f: Part -> seq<string>, parts: seq<Part>, part: Part)
    ensures Concat(Collect(f, parts + [part])) == Concat(Collect(f, parts)) + Concat(f(part))
  {
    CollectSnoc(f, parts, part);
    ConcatAppend(Collect(f, parts), f(part));
  }

  /** What has been streamed so far, piece by piece, is what the parser has said. */
  ghost predicate Streamed(
    texts: seq<string>, thoughts: seq<string>, said: seq<(char, ContentType)>, thinkingEnabled: bool)
  {
    && Concat(texts) == Chars(said, TEXT)
    && Concat(thoughts) == (if thinkingEnabled then Chars(said, THINKING) else "")
    && NoneEmpty(texts) && NoneEmpty(thoughts)
  }

  lemma LastPart(chunks: seq<Chunk>)
    requires chunks != []
    ensures Collect(AsPart, chunks) == Collect(AsPart, chunks[..|chunks| - 1]) + AsPart(chunks[|chunks| - 1])
  {}

  predicate NoneEmpty(parts: seq<string>) {
    forall k | 0 <= k < |parts| :: parts[k] != ""
  }

  lemma MoreNoneEmpty(parts: seq<string>, more: seq<string>)
    requires NoneEmpty(parts) && NoneEmpty(more)
    ensures NoneEmpty(parts + more)
  {}

  lemma {:induction false} PartsSaySomething(chunks: seq<Chunk>, thinkingEnabled: bool)
    requires forall k | 0 <= k < |chunks| :: chunks[k].content != ""
    ensures NoneEmpty(Collect(PartTexts, Collect(AsPart, chunks)))
    ensures NoneEmpty(Collect(PartThoughts(thinkingEnabled), Collect(AsPart, chunks)))
  {
    hide Collect;
    if chunks == [] {
      CollectNothing(AsPart);
      CollectNothing(PartTexts);
      CollectNothing(PartThoughts(thinkingEnabled));
    } else {
      var before, last := chunks[..|chunks| - 1], chunks[|chunks| - 1];
      var f, parts := PartThoughts(thinkingEnabled), Collect(AsPart, before);
      PartsSaySomething(before, thinkingEnabled);
      LastPart(chunks);
      CollectSnoc(PartTexts, parts, AsPart(last)[0]);
      CollectSnoc(f, parts, AsPart(last)[0]);
      MoreNoneEmpty(Collect(PartTexts, parts), PartTexts(AsPart(last)[0]));
      MoreNoneEmpty(Collect(f, parts), f(AsPart(last)[0]));
    }
  }

  lemma PieceStreamed(texts: seq<string>, thoughts: seq<string>, said: seq<(char, ContentType)>, chunks: seq<Chunk>,
                      thinkingEnabled: bool)
    requires Streamed(texts, thoughts, said, thinkingEnabled) && forall k | 0 <= k < |chunks| :: chunks[k].content != ""
    ensures Streamed(texts + PieceTexts(AsPiece(chunks)), thoughts + PieceThoughts(thinkingEnabled)(AsPiece(chunks)),
                     said + Spell(chunks), thinkingEnabled)
  {
    hide Collect, Concat;
    var moreTexts := Collect(PartTexts, Collect(AsPart, chunks));
    var moreThoughts := Collect(PartThoughts(thinkingEnabled), Collect(AsPart, chunks));
    assert [] + moreThoughts == moreThoughts;
    PartsSpell(chunks, thinkingEnabled);
    PartsSaySomething(chunks, thinkingEnabled);
    ConcatAppend(texts, moreTexts);
    ConcatAppend(thoughts, moreThoughts);
    CollectAppend(CharOf(TEXT), said, Spell(chunks));
    CollectAppend(CharOf(THINKING), said, Spell(chunks));
    MoreNoneEmpty(texts, moreTexts);
    MoreNoneEmpty(thoughts, moreThoughts);
    assert PieceTexts(AsPiece(chunks)) == moreTexts && PieceThoughts(thinkingEnabled)(AsPiece(chunks)) == moreThoughts;
  }

  lemma RestStreamed(texts: seq<string>, thoughts: seq<string>, said: seq<(char, ContentType)>, last: Option<Chunk>,
                     thinkingEnabled: bool)
    requires Streamed(texts, thoughts, said, thinkingEnabled) && (last.Some? ==> last.value.content != "")
    ensures Streamed(texts + RestTexts(AsRest(last)), thoughts + RestThoughts(AsRest(last), thinkingEnabled),
                     said + (if last.Some? then ChunkLabels(last.value) else []), thinkingEnabled)
  {
    hide Collect, Concat, Label;
    if last.Some? {
      CharsOfLabel(last.value.content, last.value.kind, TEXT);
      CharsOfLabel(last.value.content, last.value.kind, THINKING);
      CollectAppend(CharOf(TEXT), said, ChunkLabels(last.value));
      CollectAppend(CharOf(THINKING), said, ChunkLabels(last.value));
      OneText(last.value.content);
      ConcatAppend(texts, RestTexts(AsRest(last)));
      ConcatAppend(thoughts, RestThoughts(AsRest(last), thinkingEnabled));
    } else {
      assert texts + [] == texts && thoughts + [] == thoughts && said + [] == said;
    }
  }

  lemma SomethingSaid(parts: seq<string>)
    requires NoneEmpty(parts)
    ensures parts == [] <==> Concat(parts) == ""
  {}

  lemma NoCallsNoTasks(env: Env)
    ensures !AnyTool([]) && !Raised(env, [])
  {
    assert forall t :: NameOf([], t) == "" && Blank("") && !Raises(env, Fragments([], t));
  }

  lemma {:induction false} TextHasNoCalls(pieces: seq<Piece>)
    requires forall k | 0 <= k < |pieces| :: pieces[k].toolCalls == []
    ensures Collect(PieceCalls, pieces) == []
  {
    if pieces != [] { TextHasNoCalls(pieces[..|pieces| - 1]); }
  }

  lemma FilledText(texts: seq<string>, thoughts: seq<string>, said: seq<(char, ContentType)>, thinkingEnabled: bool)
    requires Streamed(texts, thoughts, said, thinkingEnabled)
    ensures var text, thought := Concat(texts), Concat(thoughts);
            && (texts == [] && thoughts == [] <==> text == "" && thought == "")
            && Concat(texts + [" "]) == text + " " && Concat(texts + []) == text
  {
    hide Blank, Chars;
    SomethingSaid(texts);
    SomethingSaid(thoughts);
    ConcatSnoc(texts, " ");
    assert texts + [] == texts;
  }

  /** However the provider cuts its text into chunks, the client's text and thinking are what one pass over the whole
      text finds outside and inside the think tags. */
  method StreamTaggedText(env: Env, id: string, model: string, thinkingEnabled: bool, contents: seq<string>,
                          finishReason: Option<string>, errorMessage: string)
    returns (events: seq<Event>, completed: bool)
    ensures completed && Contract(events, false)
    ensures var scanned := Scan(Concat(contents), false);
            var text, thought := Chars(scanned, TEXT), if thinkingEnabled then Chars(scanned, THINKING) else "";
            var silent := (text == "" && thought == "") || (Blank(text) && !Blank(thought));
            Collect(TextOf, events) == text + (if silent then " " else "") && Collect(ThinkingOf, events) == thought
  {
    hide Collect, Concat, Chars, Contract, AnyTool, Raised, Scan, PieceTexts, PieceThoughts, PieceCalls,
         RestTexts, RestThoughts, Spell, ChunkLabels, AsPiece, Streamed, AsRest, Blank;
    ghost var said;
    var pieces, last;
    pieces, last, said := ParsePieces(contents, thinkingEnabled);
    var end := Finished(AsRest(last), [], finishReason);
    ghost var shown, calls, blocks;
    events, completed, shown, calls, blocks :=
      StreamResponse(env, id, model, thinkingEnabled, pieces, end, errorMessage);
    TextHasNoCalls(pieces[..shown]);
    TextHasNoCalls(pieces);
    NoCallsNoTasks(env);
    assert calls == [];
    assert pieces[..|pieces|] == pieces;
    var texts, thoughts := ShownTexts(pieces, end, true), ShownThoughts(pieces, end, thinkingEnabled, true);
    FilledText(texts, thoughts, Scan(Concat(contents), false), thinkingEnabled);
    StreamedSays(texts, thoughts, Scan(Concat(contents), false), thinkingEnabled);
  }

  /** When the provider fails instead, the client has got the same but for what the parser still holds back, which is at most
      the beginning of a tag; then the error. */
  method FailTaggedText(env: Env, id: string, model: string, thinkingEnabled: bool, contents: seq<string>,
                        errorMessage: string)
    returns (events: seq<Event>, completed: bool, ghost said: seq<(char, ContentType)>, ghost held: Option<Chunk>)
    ensures !completed && Contract(events, false)
    ensures said + (if held.Some? then ChunkLabels(held.value) else []) == Scan(Concat(contents), false)
    ensures held.Some? ==> PartialTag(held.value.content, held.value.kind == THINKING)
    ensures Collect(TextOf, events) == Chars(said, TEXT) + errorMessage
    ensures Collect(ThinkingOf, events) == if thinkingEnabled then Chars(said, THINKING) else ""
  {
    hide Collect, Concat, Chars, Contract, AnyTool, Raised, Scan, PieceTexts, PieceThoughts, PieceCalls,
         RestTexts, RestThoughts, Spell, ChunkLabels, AsPiece, Streamed, AsRest, Blank, PartialTag;
    var pieces, last;
    pieces, last, said := ParsePieces(contents, thinkingEnabled);
    held := last;
    ghost var shown, calls, blocks;
    events, completed, shown, calls, blocks :=
      StreamResponse(env, id, model, thinkingEnabled, pieces, Failed, errorMessage);
    TextHasNoCalls(pieces[..shown]);
    TextHasNoCalls(pieces);
    NoCallsNoTasks(env);
    assert calls == [];
    assert pieces[..|pieces|] == pieces;
    var texts, thoughts := Collect(PieceTexts, pieces), Collect(PieceThoughts(thinkingEnabled), pieces);
    assert texts + [] == texts && thoughts + [] == thoughts;
    StreamedSays(texts, thoughts, said, thinkingEnabled);
    ConcatSnoc(texts, errorMessage);
  }

  lemma StreamedSays(texts: seq<string>, thoughts: seq<string>, said: seq<(char, ContentType)>, thinkingEnabled: bool)
    requires Streamed(texts, thoughts, said, thinkingEnabled)
    ensures Concat(texts) == Chars(said, TEXT) && Concat(thoughts) == if thinkingEnabled then Chars(said, THINKING) else ""
  {}

  /** Chunks in, pieces out, with what the parser still holds at the end. */
  method ParsePieces(contents: seq<string>, thinkingEnabled: bool)
    returns (pieces: seq<Piece>, last: Option<Chunk>, ghost said: seq<(char, ContentType)>)
    ensures forall k | 0 <= k < |pieces| :: pieces[k].toolCalls == []
    ensures Streamed(Collect(PieceTexts, pieces) + RestTexts(AsRest(last)),
                     Collect(PieceThoughts(thinkingEnabled), pieces) + RestThoughts(AsRest(last), thinkingEnabled),
                     Scan(Concat(contents), false), thinkingEnabled)
    ensures Streamed(Collect(PieceTexts, pieces), Collect(PieceThoughts(thinkingEnabled), pieces), said, thinkingEnabled)
    ensures said + (if last.Some? then ChunkLabels(last.value) else []) == Scan(Concat(contents), false)
    ensures last.Some? ==> PartialTag(last.value.content, last.value.kind == THINKING)
  {
    hide Collect, Concat, Chars, Scan, Streamed, PieceTexts, PieceThoughts, RestTexts, RestThoughts, AsRest, Spell, OnTrack;
    var parser := new ThinkTagParser();
    pieces := [];
    NothingStreamed(thinkingEnabled);
    for n := 0 to |contents|
      invariant fresh(parser) && parser.Valid() && parser.fed == Concat(contents[..n])
      invariant forall k | 0 <= k < |pieces| :: pieces[k].toolCalls == []
      invariant Streamed(Collect(PieceTexts, pieces), Collect(PieceThoughts(thinkingEnabled), pieces), parser.said,
                         thinkingEnabled)
    {
      assert contents[..n + 1] == contents[..n] + [contents[n]];
      ConcatSnoc(contents[..n], contents[n]);
      said := parser.said;
      var chunks := parser.Feed(contents[n]);
      CollectSnoc(PieceTexts, pieces, AsPiece(chunks));
      CollectSnoc(PieceThoughts(thinkingEnabled), pieces, AsPiece(chunks));
      PieceStreamed(Collect(PieceTexts, pieces), Collect(PieceThoughts(thinkingEnabled), pieces), said, chunks, thinkingEnabled);
      pieces := pieces + [AsPiece(chunks)];
    }
    assert contents[..|contents|] == contents;
    said := parser.said;
    last := parser.Flush();
    RestStreamed(Collect(PieceTexts, pieces), Collect(PieceThoughts(thinkingEnabled), pieces), said, last, thinkingEnabled);
  }

  lemma NothingStreamed(thinkingEnabled: bool)
    ensures Concat([]) == "" && Collect(PieceTexts, []) == [] && Collect(PieceThoughts(thinkingEnabled), []) == []
    ensures Streamed([], [], [], thinkingEnabled)
  {}

  lemma CharsAfter(said: string, kind: ContentType, wanted: ContentType, rest: seq<(char, ContentType)>)
    ensures Chars(LabelAt(said, kind) + rest, wanted) == (if kind == wanted then said else "") + Chars(rest, wanted)
  {
    LabelIsEach(said, kind);
    CharsOfLabel(said, kind, wanted);
    CollectAppend(CharOf(wanted), Label(said, kind), rest);
  }

  /** So a client reads what stands before the first tags as text, what stands between them as thinking, and then the rest. */
  lemma TaggedTextReads(before: string, inside: string, after: string)
    requires forall p: nat | p <= |before| :: !("<think>" <= before[p..]) && !("</think>" <= before[p..])
    requires forall p: nat | p <= |inside| :: !("</think>" <= inside[p..])
    ensures var scanned, rest := Scan(before + ("<think>" + (inside + ("</think>" + after))), false), Scan(after, false);
            && Chars(scanned, TEXT) == before + Chars(rest, TEXT) && Chars(scanned, THINKING) == inside + Chars(rest, THINKING)
  {
    ReadsTags(before, inside, after);
    hide Scan, Chars, LabelAt;
    var rest := Scan(after, false);
    var later := LabelAt(inside, THINKING) + rest;
    CharsAfter(before, TEXT, TEXT, later);
    CharsAfter(before, TEXT, THINKING, later);
    CharsAfter(inside, THINKING, TEXT, rest);
    CharsAfter(inside, THINKING, THINKING, rest);
    assert "" + Chars(later, THINKING) == Chars(later, THINKING) && "" + Chars(rest, TEXT) == Chars(rest, TEXT);
  }
}
