/** Incremental parser for `<think>...</think>` in streamed text (core/anthropic/thinking.py), proved against
    one left-to-right pass over the whole text. */
module ThinkTags {
  import opened Basics

  datatype ContentType = TEXT | THINKING

  datatype Chunk = Chunk(kind: ContentType, content: string)

  const OPEN_TAG: string := "<think>"
  const CLOSE_TAG: string := "</think>"

  function Kind(inThink: bool): ContentType {
    if inThink then THINKING else TEXT
  }

  function Label(content: string, kind: ContentType): seq<(char, ContentType)> {
    if content == "" then [] else [(content[0], kind)] + Label(content[1..], kind)
  }

  function ChunkLabels(chunk: Chunk): seq<(char, ContentType)> {
    Label(chunk.content, chunk.kind)
  }

  /** The characters of a list of chunks, each with its label. */
  function Spell(chunks: seq<Chunk>): seq<(char, ContentType)> {
    Collect(ChunkLabels, chunks)
  }

  /** The reference: one pass over the whole text. Open and close tags switch the label and vanish,
      and so does a close tag that closes nothing; every other character keeps the current label. */
  function Scan(text: string, inThink: bool): seq<(char, ContentType)> {
    if text == "" then []
    else if CLOSE_TAG <= text then Scan(text[|CLOSE_TAG|..], false)
    else if !inThink && OPEN_TAG <= text then Scan(text[|OPEN_TAG|..], true)
    else [(text[0], Kind(inThink))] + Scan(text[1..], inThink)
  }

  /** `s.rfind("<")`. */
  function LastBracket(s: string): (at: int)
    ensures -1 <= at < |s|
    ensures at >= 0 ==> s[at] == '<'
    ensures forall k | at < k < |s| :: s[k] != '<'
  {
    if s == "" then -1 else if s[|s| - 1] == '<' then |s| - 1 else LastBracket(s[..|s| - 1])
  }

  predicate TagAt(s: string, k: nat, inThink: bool)
    requires k <= |s|
  {
    CLOSE_TAG <= s[k..] || (!inThink && OPEN_TAG <= s[k..])
  }

  /** A proper, non-empty beginning of a tag that matters in this mode: what may be held back. */
  predicate PartialTag(s: string, inThink: bool) {
    && s != ""
    && ((|s| < |CLOSE_TAG| && s <= CLOSE_TAG) || (!inThink && |s| < |OPEN_TAG| && s <= OPEN_TAG))
  }

  lemma ScanOne(s: string, inThink: bool)
    requires s != "" && !TagAt(s, 0, inThink)
    ensures Scan(s, inThink) == [(s[0], Kind(inThink))] + Scan(s[1..], inThink)
  {
    assert s[0..] == s;
  }

  lemma NothingLabelled(kind: ContentType)
    ensures Label("", kind) == []
  {}

  lemma LabelOne(content: string, kind: ContentType)
    requires content != ""
    ensures Label(content, kind) == [(content[0], kind)] + Label(content[1..], kind)
  {}

  lemma TagAtLater(s: string, p: nat, inThink: bool)
    requires p < |s|
    ensures TagAt(s[1..], p, inThink) <==> TagAt(s, p + 1, inThink)
  {
    assert s[1..][p..] == s[p + 1..];
  }

  lemma {:induction false} ScanPlain(s: string, k: nat, inThink: bool)
    requires k <= |s| && forall p: nat | p < k :: !TagAt(s, p, inThink)
    ensures Scan(s, inThink) == Label(s[..k], Kind(inThink)) + Scan(s[k..], inThink)
  {
    hide Scan, Label, TagAt;
    if k > 0 {
      var rest := s[1..];
      assert !TagAt(s, 0, inThink);
      forall p: nat | p < k - 1 ensures !TagAt(rest, p, inThink) {
        TagAtLater(s, p, inThink);
      }
      ScanPlain(rest, k - 1, inThink);
      ScanOne(s, inThink);
      LabelOne(s[..k], Kind(inThink));
      assert s[..k][1..] == rest[..k - 1] && rest[k - 1..] == s[k..];
      var first, mark, after := [(s[0], Kind(inThink))], Label(rest[..k - 1], Kind(inThink)), Scan(s[k..], inThink);
      assert first + (mark + after) == (first + mark) + after;
    } else {
      NothingLabelled(Kind(inThink));
      assert s[0..] == s && s[..0] == "";
    }
  }

  lemma PrefixWithin(a: string, b: string, tag: string)
    requires tag <= a + b
    ensures |tag| <= |a| ==> tag <= a
  {
    if |tag| <= |a| {
      assert forall k | 0 <= k < |tag| :: tag[k] == (a + b)[k] == a[k];
    }
  }

  lemma CutTag(s: string, rest: string, p: nat, tag: string)
    requires p < |s| && tag <= (s + rest)[p..] && !(tag <= s[p..])
    requires tag != "" && tag[0] == '<' && forall k | 0 < k < |tag| :: tag[k] != '<'
    ensures |s[p..]| < |tag| && s[p..] <= tag && LastBracket(s) == p
  {
    assert (s + rest)[p..] == s[p..] + rest;
    PrefixWithin(s[p..], rest, tag);
    forall k | p <= k < |s| ensures s[k] == tag[k - p] {
      assert s[k] == s[p..][k - p] == (s[p..] + rest)[k - p];
    }
  }

  lemma OneBracket()
    ensures OPEN_TAG[0] == '<' && forall k | 0 < k < |OPEN_TAG| :: OPEN_TAG[k] != '<'
    ensures CLOSE_TAG[0] == '<' && forall k | 0 < k < |CLOSE_TAG| :: CLOSE_TAG[k] != '<'
  {}

  /** A tag that starts inside `s` but is only complete with what follows starts at the last bracket of `s`. */
  lemma TagAcrossEnd(s: string, rest: string, p: nat, inThink: bool)
    requires p < |s| && TagAt(s + rest, p, inThink) && !TagAt(s, p, inThink)
    ensures PartialTag(s[p..], inThink) && LastBracket(s) == p
  {
    OneBracket();
    if CLOSE_TAG <= (s + rest)[p..] {
      CutTag(s, rest, p, CLOSE_TAG);
    } else {
      CutTag(s, rest, p, OPEN_TAG);
    }
  }

  lemma ScanTag(tag: string, after: string, inThink: bool)
    requires tag == CLOSE_TAG || (!inThink && tag == OPEN_TAG)
    ensures Scan(tag + after, inThink) == Scan(after, tag == OPEN_TAG)
  {
    assert (tag + after)[|tag|..] == after;
    assert (tag + after)[1] == tag[1];
  }

  /** Text before a complete tag is settled whatever comes later, and the tag switches the mode. */
  lemma TagFound(s: string, k: nat, tag: string, inThink: bool, rest: string)
    requires k <= |s| && tag <= s[k..] && (tag == CLOSE_TAG || (!inThink && tag == OPEN_TAG))
    requires forall p: nat | p < k :: !TagAt(s, p, inThink)
    ensures Scan(s + rest, inThink)
         == Label(s[..k], Kind(inThink)) + Scan(s[k + |tag|..] + rest, tag == OPEN_TAG)
  {
    hide Scan, Label;
    assert s[k] == s[k..][0] == '<';
    forall p: nat | p < k ensures !TagAt(s + rest, p, inThink) {
      if TagAt(s + rest, p, inThink) { TagAcrossEnd(s, rest, p, inThink); }
    }
    ScanPlain(s + rest, k, inThink);
    assert (s + rest)[..k] == s[..k];
    assert (s + rest)[k..] == tag + (s[k + |tag|..] + rest);
    ScanTag(tag, s[k + |tag|..] + rest, inThink);
  }

  /** With no tag in `s`, everything before a held-back partial tag (or all of it) is settled. */
  lemma NothingFound(s: string, k: nat, inThink: bool, rest: string)
    requires k <= |s| && forall p: nat | p <= |s| :: !TagAt(s, p, inThink)
    requires k == |s| || k == LastBracket(s)
    requires k == |s| ==> LastBracket(s) < 0 || !PartialTag(s[LastBracket(s)..], inThink)
    ensures Scan(s + rest, inThink) == Label(s[..k], Kind(inThink)) + Scan(s[k..] + rest, inThink)
  {
    hide Scan, Label;
    forall p: nat | p < k ensures !TagAt(s + rest, p, inThink) {
      if TagAt(s + rest, p, inThink) { TagAcrossEnd(s, rest, p, inThink); }
    }
    ScanPlain(s + rest, k, inThink);
    assert (s + rest)[..k] == s[..k] && (s + rest)[k..] == s[k..] + rest;
  }

  /** A held-back partial tag that never completes is ordinary text. */
  lemma HeldIsPlain(s: string, inThink: bool)
    requires PartialTag(s, inThink)
    ensures Scan(s, inThink) == Label(s, Kind(inThink))
  {
    forall p: nat | p < |s| ensures !TagAt(s, p, inThink) {
      if |s[p..]| == |OPEN_TAG| {
        assert p == 0 && s[p..] == s && s[1] == CLOSE_TAG[1];
      }
    }
    ScanPlain(s, |s|, inThink);
    assert s[..|s|] == s;
  }

  lemma SpellSnoc(before: seq<(char, ContentType)>, chunks: seq<Chunk>, last: Chunk)
    ensures before + Spell(chunks + [last]) == before + Spell(chunks) + Label(last.content, last.kind)
  {
    assert (chunks + [last])[..|chunks|] == chunks;
  }

  ghost predicate ReadsRight(
    fed: string, said: seq<(char, ContentType)>, buffer: string, inThink: bool, rest: string)
  {
    Scan(fed + rest, false) == said + Scan(buffer + rest, inThink)
  }

  /** After `said`, the text fed so far will be read right however it continues. */
  ghost predicate OnTrack(fed: string, said: seq<(char, ContentType)>, buffer: string, inThink: bool) {
    forall rest :: ReadsRight(fed, said, buffer, inThink, rest)
  }

  ghost predicate Settles(
    s: string, inThink: bool, mark: seq<(char, ContentType)>, s': string, inThink': bool, rest: string)
  {
    Scan(s + rest, inThink) == mark + Scan(s' + rest, inThink')
  }

  lemma StepOnTrack(fed: string, said: seq<(char, ContentType)>, s: string, inThink: bool,
                    mark: seq<(char, ContentType)>, s': string, inThink': bool)
    requires OnTrack(fed, said, s, inThink) && forall rest :: Settles(s, inThink, mark, s', inThink', rest)
    ensures OnTrack(fed, said + mark, s', inThink')
  {
    var said' := said + mark;
    forall rest ensures ReadsRight(fed, said', s', inThink', rest) {
      assert ReadsRight(fed, said, s, inThink, rest) && Settles(s, inThink, mark, s', inThink', rest);
    }
  }

  lemma TagOnTrack(fed: string, said: seq<(char, ContentType)>, s: string, k: nat, tag: string, inThink: bool)
    requires OnTrack(fed, said, s, inThink)
    requires k <= |s| && tag <= s[k..] && (tag == CLOSE_TAG || (!inThink && tag == OPEN_TAG))
    requires forall p: nat | p < k :: !TagAt(s, p, inThink)
    ensures OnTrack(fed, said + Label(s[..k], Kind(inThink)), s[k + |tag|..], tag == OPEN_TAG)
  {
    var mark, s', inThink' := Label(s[..k], Kind(inThink)), s[k + |tag|..], tag == OPEN_TAG;
    forall rest ensures Settles(s, inThink, mark, s', inThink', rest) {
      TagFound(s, k, tag, inThink, rest);
    }
    StepOnTrack(fed, said, s, inThink, mark, s', inThink');
  }

  lemma NothingOnTrack(fed: string, said: seq<(char, ContentType)>, s: string, k: nat, inThink: bool)
    requires OnTrack(fed, said, s, inThink)
    requires k <= |s| && forall p: nat | p <= |s| :: !TagAt(s, p, inThink)
    requires k == |s| || k == LastBracket(s)
    requires k == |s| ==> LastBracket(s) < 0 || !PartialTag(s[LastBracket(s)..], inThink)
    ensures OnTrack(fed, said + Label(s[..k], Kind(inThink)), s[k..], inThink)
  {
    var mark, s' := Label(s[..k], Kind(inThink)), s[k..];
    forall rest ensures Settles(s, inThink, mark, s', inThink, rest) {
      NothingFound(s, k, inThink, rest);
    }
    StepOnTrack(fed, said, s, inThink, mark, s', inThink);
  }

  lemma MoreFed(fed: string, said: seq<(char, ContentType)>, s: string, inThink: bool, content: string)
    requires OnTrack(fed, said, s, inThink)
    ensures OnTrack(fed + content, said, s + content, inThink)
  {
    var fed', s' := fed + content, s + content;
    forall rest ensures ReadsRight(fed', said, s', inThink, rest) {
      assert fed' + rest == fed + (content + rest) && s' + rest == s + (content + rest);
      assert ReadsRight(fed, said, s, inThink, content + rest);
    }
  }

  /** Which tag comes first outside a tag. */
  lemma FirstTag(s: string)
    ensures var open, close := Find(s, OPEN_TAG), Find(s, CLOSE_TAG);
            var first := if close != -1 && (open == -1 || close < open) then close else open;
            && forall p: nat | p <= |s| && (first == -1 || p < first) :: !TagAt(s, p, false)
  {
    hide Find;
  }

  class ThinkTagParser {
    var buffer: string
    var inThink: bool
    ghost var fed: string
    ghost var said: seq<(char, ContentType)>

    ghost predicate Valid() reads this {
      OnTrack(fed, said, buffer, inThink) && (buffer == "" || PartialTag(buffer, inThink))
    }

    constructor ()
      ensures Valid() && fed == "" && said == [] && buffer == ""
    {
      buffer, inThink, fed, said := "", false, "", [];
    }

    /** Text without a complete tag: the beginning of one at its end is kept back. */
    method EmitUntaggedText() returns (chunk: Option<Chunk>)
      requires OnTrack(fed, said, buffer, inThink) && !inThink && buffer != ""
      requires forall p: nat | p <= |buffer| :: !TagAt(buffer, p, false)
      modifies `buffer, `said
      ensures OnTrack(fed, said, buffer, inThink)
      ensures said == old(said) + if chunk.Some? then Label(chunk.value.content, chunk.value.kind) else []
      ensures chunk.Some? ==> chunk.value.content != ""
      ensures |buffer| < |old(buffer)| || (chunk.None? && buffer == old(buffer) && PartialTag(buffer, inThink))
    {
      hide Scan, OnTrack, Label, LastBracket, TagAt;
      NothingLabelled(TEXT);
      var lastBracket := LastBracket(buffer);
      if lastBracket != -1 {
        var potentialTag := buffer[lastBracket..];
        if (|potentialTag| < |OPEN_TAG| && potentialTag <= OPEN_TAG)
           || (|potentialTag| < |CLOSE_TAG| && potentialTag <= CLOSE_TAG) {
          var emit := buffer[..lastBracket];
          NothingOnTrack(fed, said, buffer, lastBracket, false);
          buffer := potentialTag;
          said := said + Label(emit, TEXT);
          return if emit != "" then Some(Chunk(TEXT, emit)) else None;
        }
      }
      var emit := buffer;
      NothingOnTrack(fed, said, buffer, |buffer|, false);
      assert buffer[..|buffer|] == buffer && buffer[|buffer|..] == "";
      buffer := "";
      said := said + Label(emit, TEXT);
      return if emit != "" then Some(Chunk(TEXT, emit)) else None;
    }

    method ParseOutsideThink() returns (chunk: Option<Chunk>)
      requires OnTrack(fed, said, buffer, inThink) && !inThink && buffer != ""
      modifies `buffer, `inThink, `said
      ensures OnTrack(fed, said, buffer, inThink)
      ensures said == old(said) + if chunk.Some? then Label(chunk.value.content, chunk.value.kind) else []
      ensures chunk.Some? ==> chunk.value.content != ""
      ensures |buffer| < |old(buffer)| || (chunk.None? && buffer == old(buffer) && PartialTag(buffer, inThink))
    {
      hide Scan, OnTrack, Label, Find, LastBracket, TagAt, PartialTag;
      NothingLabelled(TEXT);
      FirstTag(buffer);
      var thinkStart := Find(buffer, OPEN_TAG);
      var orphanClose := Find(buffer, CLOSE_TAG);
      if orphanClose != -1 && (thinkStart == -1 || orphanClose < thinkStart) {
        var preOrphan := buffer[..orphanClose];
        TagOnTrack(fed, said, buffer, orphanClose, CLOSE_TAG, false);
        buffer := buffer[orphanClose + |CLOSE_TAG|..];
        said := said + Label(preOrphan, TEXT);
        return if preOrphan != "" then Some(Chunk(TEXT, preOrphan)) else None;
      }
      if thinkStart == -1 {
        chunk := EmitUntaggedText();
        return;
      }
      var preThink := buffer[..thinkStart];
      TagOnTrack(fed, said, buffer, thinkStart, OPEN_TAG, false);
      buffer := buffer[thinkStart + |OPEN_TAG|..];
      inThink := true;
      said := said + Label(preThink, TEXT);
      return if preThink != "" then Some(Chunk(TEXT, preThink)) else None;
    }

    method ParseInsideThink() returns (chunk: Option<Chunk>)
      requires OnTrack(fed, said, buffer, inThink) && inThink && buffer != ""
      modifies `buffer, `inThink, `said
      ensures OnTrack(fed, said, buffer, inThink)
      ensures said == old(said) + if chunk.Some? then Label(chunk.value.content, chunk.value.kind) else []
      ensures chunk.Some? ==> chunk.value.content != ""
      ensures |buffer| < |old(buffer)| || (chunk.None? && buffer == old(buffer) && PartialTag(buffer, inThink))
    {
      hide Scan, OnTrack, Label, Find, LastBracket;
      NothingLabelled(THINKING);
      var thinkEnd := Find(buffer, CLOSE_TAG);
      if thinkEnd == -1 {
        var lastBracket := LastBracket(buffer);
        if lastBracket != -1 && |buffer| - lastBracket < |CLOSE_TAG| {
          var potentialTag := buffer[lastBracket..];
          if potentialTag <= CLOSE_TAG {
            var emit := buffer[..lastBracket];
            NothingOnTrack(fed, said, buffer, lastBracket, true);
            buffer := potentialTag;
            said := said + Label(emit, THINKING);
            return if emit != "" then Some(Chunk(THINKING, emit)) else None;
          }
        }
        var emit := buffer;
        NothingOnTrack(fed, said, buffer, |buffer|, true);
        assert buffer[..|buffer|] == buffer && buffer[|buffer|..] == "";
        buffer := "";
        said := said + Label(emit, THINKING);
        return if emit != "" then Some(Chunk(THINKING, emit)) else None;
      }
      var content := buffer[..thinkEnd];
      TagOnTrack(fed, said, buffer, thinkEnd, CLOSE_TAG, true);
      buffer := buffer[thinkEnd + |CLOSE_TAG|..];
      inThink := false;
      said := said + Label(content, THINKING);
      return if content != "" then Some(Chunk(THINKING, content)) else None;
    }

    /** What is yielded is settled; what is kept back is at most the beginning of a tag. */
    method Feed(content: string) returns (chunks: seq<Chunk>)
      requires Valid()
      modifies this
      ensures Valid() && fed == old(fed) + content && said == old(said) + Spell(chunks)
      ensures forall k | 0 <= k < |chunks| :: chunks[k].content != ""
    {
      hide OnTrack, PartialTag, Label;
      MoreFed(fed, said, buffer, inThink, content);
      buffer, fed := buffer + content, fed + content;
      chunks := [];
      while buffer != ""
        invariant OnTrack(fed, said, buffer, inThink) && fed == old(fed) + content
        invariant said == old(said) + Spell(chunks)
        invariant forall k | 0 <= k < |chunks| :: chunks[k].content != ""
        decreases |buffer|
      {
        var prevLen := |buffer|;
        var chunk;
        if !inThink {
          chunk := ParseOutsideThink();
        } else {
          chunk := ParseInsideThink();
        }
        if chunk.Some? {
          SpellSnoc(old(said), chunks, chunk.value);
          chunks := chunks + [chunk.value];
        } else if |buffer| == prevLen {
          break;
        }
      }
    }

    method Flush() returns (chunk: Option<Chunk>)
      requires Valid()
      modifies `buffer, `said
      ensures said == old(said) + (if chunk.Some? then Label(chunk.value.content, chunk.value.kind) else [])
                   == Scan(fed, false)
      ensures buffer == "" && (chunk.Some? <==> old(buffer) != "") && (chunk.Some? ==> chunk.value.content == old(buffer))
      ensures chunk.Some? ==> PartialTag(chunk.value.content, chunk.value.kind == THINKING)
    {
      assert ReadsRight(fed, said, buffer, inThink, "");
      assert fed + "" == fed && buffer + "" == buffer;
      chunk := None;
      if buffer != "" {
        HeldIsPlain(buffer, inThink);
        chunk := Some(Chunk(Kind(inThink), buffer));
        said := said + Label(buffer, Kind(inThink));
        buffer := "";
      }
    }
  }

  /** Any chunking of a text, then `flush`: character by character what one pass over the joined text gives. */
  method ParseInPieces(pieces: seq<string>) returns (chunks: seq<Chunk>)
    ensures Spell(chunks) == Scan(Concat(pieces), false)
  {
    var parser := new ThinkTagParser();
    chunks := [];
    for n := 0 to |pieces|
      invariant fresh(parser) && parser.Valid()
      invariant parser.fed == Concat(pieces[..n]) && parser.said == Spell(chunks)
    {
      var more := parser.Feed(pieces[n]);
      assert pieces[..n + 1] == pieces[..n] + [pieces[n]];
      ConcatSnoc(pieces[..n], pieces[n]);
      CollectAppend(ChunkLabels, chunks, more);
      chunks := chunks + more;
    }
    assert pieces[..|pieces|] == pieces;
    var last := parser.Flush();
    if last.Some? {
      SpellSnoc([], chunks, last.value);
      chunks := chunks + [last.value];
    }
  }

  // ---- The tags themselves ----

  function LabelAt(text: string, kind: ContentType): seq<(char, ContentType)> {
    seq(|text|, i requires 0 <= i < |text| => (text[i], kind))
  }

  lemma {:induction false} LabelIsEach(text: string, kind: ContentType)
    ensures Label(text, kind) == LabelAt(text, kind)
  {
    if text != "" { LabelIsEach(text[1..], kind); }
  }

  lemma NoTagBefore(s: string, tag: string, after: string, p: nat, inThink: bool)
    requires p < |s| && (tag == OPEN_TAG || tag == CLOSE_TAG) && !TagAt(s, p, inThink)
    ensures !TagAt(s + (tag + after), p, inThink)
  {
    OneBracket();
    assert (s + (tag + after))[p..][|s| - p] == tag[0] == '<';
    if TagAt(s + (tag + after), p, inThink) { TagAcrossEnd(s, tag + after, p, inThink); }
  }

  /** Text without tags up to a tag, wherever the next one is. */
  lemma ScanToTag(s: string, tag: string, after: string, inThink: bool)
    requires tag == CLOSE_TAG || (tag == OPEN_TAG && !inThink)
    requires forall p: nat | p <= |s| :: !TagAt(s, p, inThink)
    ensures Scan(s + (tag + after), inThink) == LabelAt(s, Kind(inThink)) + Scan(after, tag == OPEN_TAG)
  {
    hide Scan, Label, TagAt;
    var text := s + (tag + after);
    forall p: nat | p < |s| ensures !TagAt(text, p, inThink) { NoTagBefore(s, tag, after, p, inThink); }
    ScanPlain(text, |s|, inThink);
    assert text[..|s|] == s && text[|s|..] == tag + after;
    LabelIsEach(s, Kind(inThink));
    ScanTag(tag, after, inThink);
  }

  /** How a text reads. What comes before any tag is text; an open tag starts thinking, which goes on to the next close tag,
      whatever else it holds, or to the end; a close tag without an open one is left out. */
  lemma ReadsTags(before: string, inside: string, after: string)
    requires forall p: nat | p <= |before| :: !("<think>" <= before[p..]) && !("</think>" <= before[p..])
    requires forall p: nat | p <= |inside| :: !("</think>" <= inside[p..])
    ensures Scan(before, false) == LabelAt(before, TEXT)
    ensures Scan(before + ("</think>" + after), false) == LabelAt(before, TEXT) + Scan(after, false)
    ensures Scan(before + ("<think>" + inside), false) == LabelAt(before, TEXT) + LabelAt(inside, THINKING)
    ensures Scan(before + ("<think>" + (inside + ("</think>" + after))), false)
         == LabelAt(before, TEXT) + (LabelAt(inside, THINKING) + Scan(after, false))
  {
    hide Scan, Label;
    ScanToEnd(before, false);
    ScanToTag(before, CLOSE_TAG, after, false);
    ScanToTag(before, OPEN_TAG, inside, false);
    ScanToEnd(inside, true);
    ScanToTag(before, OPEN_TAG, inside + ("</think>" + after), false);
    ScanToTag(inside, CLOSE_TAG, after, true);
  }

  lemma ScanToEnd(s: string, inThink: bool)
    requires forall p: nat | p <= |s| :: !TagAt(s, p, inThink)
    ensures Scan(s, inThink) == LabelAt(s, Kind(inThink))
  {
    ScanPlain(s, |s|, inThink);
    assert s[..|s|] == s;
    LabelIsEach(s, Kind(inThink));
  }

  /** All that can be held back. */
  lemma HeldBack(s: string)
    ensures PartialTag(s, true) <==> s in ["<", "</", "</t", "</th", "</thi", "</thin", "</think"]
    ensures PartialTag(s, false) <==> PartialTag(s, true) || s in ["<t", "<th", "<thi", "<thin", "<think"]
  {
    var open, close := "<think>", "</think>";
    assert close[..1] == "<" && close[..2] == "</" && close[..3] == "</t" && close[..4] == "</th" && close[..5] == "</thi";
    assert close[..6] == "</thin" && close[..7] == "</think";
    assert open[..2] == "<t" && open[..3] == "<th" && open[..4] == "<thi" && open[..5] == "<thin" && open[..6] == "<think";
    assert s <= close ==> s == close[..|s|];
    assert s <= open ==> s == open[..|s|];
  }
}
