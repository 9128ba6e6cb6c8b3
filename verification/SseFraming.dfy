/** The `event:`/`data:` subset of server-sent events (WHATWG HTML Living Standard, section 9.2.6) that the
    proxy writes (core/anthropic/sse.py) and reads back (core/anthropic/stream_contracts.py and
    core/anthropic/emitted_sse_tracker.py). JSON stays text here. */
module SseFraming {
  import opened Basics

  datatype Frame = Frame(event: string, data: string)

  /** `format_sse_event`, for data already dumped to JSON text. */
  function Format(f: Frame): string {
    Body(f) + "\n\n"
  }

  function Body(f: Frame): string {
    "event: " + f.event + "\ndata: " + f.data
  }

  function FormatAll(frames: seq<Frame>): string {
    if frames == [] then "" else Format(frames[0]) + FormatAll(frames[1..])
  }

  /** The line boundaries of `str.splitlines`. */
  predicate IsBreak(c: char) {
    || '\n' <= c <= '\r'
    || '\U{1c}' <= c <= '\U{1e}'
    || c == '\U{85}' || c == '\U{2028}' || c == '\U{2029}'
  }

  function FirstBreak(s: string): (at: nat)
    ensures at <= |s| && (at < |s| ==> IsBreak(s[at])) && forall k | 0 <= k < at :: !IsBreak(s[k])
  {
    if s == "" || IsBreak(s[0]) then 0 else 1 + FirstBreak(s[1..])
  }

  /** `s.splitlines()`. */
  function SplitLines(s: string): seq<string> {
    var at := FirstBreak(s);
    if s == "" then []
    else if at == |s| then [s]
    else
      var width := if s[at] == '\r' && at + 1 < |s| && s[at + 1] == '\n' then 2 else 1;
      [s[..at]] + SplitLines(s[at + width..])
  }

  /** `s.splitlines(keepends=True)`. */
  function KeepLines(s: string): seq<string> {
    var at := FirstBreak(s);
    if s == "" then []
    else if at == |s| then [s]
    else
      var width := if s[at] == '\r' && at + 1 < |s| && s[at + 1] == '\n' then 2 else 1;
      [s[..at + width]] + KeepLines(s[at + width..])
  }

  lemma FirstLineKept(s: string) returns (n: nat)
    requires s != ""
    ensures 0 < n <= |s| && KeepLines(s) == [s[..n]] + KeepLines(s[n..])
  {
    var at := FirstBreak(s);
    n := if at == |s| then at else if s[at] == '\r' && at + 1 < |s| && s[at + 1] == '\n' then at + 2 else at + 1;
    if at == |s| { assert s[..n] == s && s[n..] == "" && [s] + [] == [s]; }
  }

  lemma {:induction false} KeptLinesJoin(s: string)
    ensures Concat(KeepLines(s)) == s
    decreases |s|
  {
    hide KeepLines, Concat;
    if s == "" {
      NothingKept();
      ConcatNothing();
    } else {
      var n := FirstLineKept(s);
      KeptLinesJoin(s[n..]);
      ConcatCons(s[..n], KeepLines(s[n..]));
      assert s[..n] + s[n..] == s;
    }
  }

  lemma KeepLine(line: string, rest: string)
    requires forall k | 0 <= k < |line| :: !IsBreak(line[k])
    ensures KeepLines(line + "\n" + rest) == [line + "\n"] + KeepLines(rest)
  {
    var text := line + ("\n" + rest);
    BreakAfter(line, "\n" + rest);
    assert line + "\n" + rest == text && text[..|line| + 1] == line + "\n" && text[|line| + 1..] == rest;
    assert text[|line|] == '\n';
  }

  /** The lines of a formatted frame. */
  lemma KeptLinesOfFrame(f: Frame)
    requires Clean(f)
    ensures KeepLines(Format(f)) == ["event: " + f.event + "\n"] + ["data: " + f.data + "\n"] + ["\n"]
  {
    hide KeepLines, Clean;
    var l0, l1 := "event: " + f.event, "data: " + f.data;
    BodyIs(f);
    assert CleanField(f.event) && CleanField(f.data) by { CleanParts(f); }
    FieldLineHasNoBreak("event: ", f.event);
    FieldLineHasNoBreak("data: ", f.data);
    KeepLine(l0, l1 + "\n" + "\n");
    KeepLine(l1, "\n");
    KeepLine("", "");
    assert KeepLines("") == [] by { NothingKept(); }
    assert "" + "\n" + "" == "\n" && "" + "\n" == "\n" && ["\n"] + [] == ["\n"];
    assert Format(f) == l0 + "\n" + (l1 + "\n" + "\n");
    assert [l0 + "\n"] + ([l1 + "\n"] + ["\n"]) == [l0 + "\n"] + [l1 + "\n"] + ["\n"];
  }

  lemma NothingKept()
    ensures KeepLines("") == []
  {}

  lemma CleanParts(f: Frame)
    requires Clean(f)
    ensures CleanField(f.event) && CleanField(f.data)
  {}

  /** `s.rstrip("\r\n")`. */
  function RStripNewlines(s: string): string {
    if s != "" && s[|s| - 1] in "\r\n" then RStripNewlines(s[..|s| - 1]) else s
  }

  /** The local variables of `parse_sse_lines`. */
  datatype Reading = Reading(events: seq<Frame>, event: string, data: seq<string>)

  function AppendEvent(r: Reading): seq<Frame> {
    if r.event == "" && r.data == [] then r.events else r.events + [Frame(r.event, Join("\n", r.data))]
  }

  function ReadLine(r: Reading, line: string): Reading {
    var stripped := RStripNewlines(line);
    if stripped == "" then Reading(AppendEvent(r), "", [])
    else if "event:" <= stripped then r.(event := Strip(stripped[6..]))
    else if "data:" <= stripped then r.(data := r.data + [Strip(stripped[5..])])
    else r
  }

  function ReadLines(lines: seq<string>): Reading {
    if lines == [] then Reading([], "", []) else ReadLine(ReadLines(lines[..|lines| - 1]), lines[|lines| - 1])
  }

  /** `parse_sse_lines`. */
  method ParseSseLines(lines: seq<string>) returns (events: seq<Frame>)
    ensures events == AppendEvent(ReadLines(lines))
  {
    events := [];
    var currentEvent, dataParts: seq<string> := "", [];
    for n := 0 to |lines|
      invariant ReadLines(lines[..n]) == Reading(events, currentEvent, dataParts)
    {
      assert lines[..n + 1][..n] == lines[..n];
      var stripped := RStripNewlines(lines[n]);
      if stripped == "" {
        if currentEvent != "" || dataParts != [] {
          events := events + [Frame(currentEvent, Join("\n", dataParts))];
        }
        currentEvent, dataParts := "", [];
        continue;
      }
      if "event:" <= stripped {
        currentEvent := Strip(stripped[6..]);
      } else if "data:" <= stripped {
        dataParts := dataParts + [Strip(stripped[5..])];
      }
    }
    assert lines[..|lines|] == lines;
    if currentEvent != "" || dataParts != [] {
      events := events + [Frame(currentEvent, Join("\n", dataParts))];
    }
  }

  /** Cutting a text at every `"\n\n"`: the complete pieces, and what is left in the buffer. */
  function Split(text: string): (r: (seq<string>, string))
    decreases |text|
  {
    var at := Find(text, "\n\n");
    if at < 0 then ([], text)
    else
      var (pieces, left) := Split(text[at + 2..]);
      ([text[..at]] + pieces, left)
  }

  /** The frames in one piece: none if it is blank. */
  function PieceFrames(piece: string): seq<Frame> {
    if Blank(piece) then [] else AppendEvent(ReadLines(SplitLines(piece)))
  }

  // ---- The formatter and the line parser undo each other ----

  /** A one-line field that survives `strip`: event names and JSON dumps of objects are of this kind. */
  predicate CleanField(s: string) {
    && s != ""
    && !IsSpace(s[0]) && !IsSpace(s[|s| - 1])
    && forall k | 0 <= k < |s| :: !IsBreak(s[k])
  }

  predicate Clean(f: Frame) {
    CleanField(f.event) && CleanField(f.data)
  }

  lemma StripPadded(field: string)
    requires CleanField(field)
    ensures Strip(" " + field) == field
  {
    assert (" " + field)[1..] == field;
    assert LStrip(" " + field) == LStrip(field) == field;
  }

  lemma {:induction false} BreakAfter(line: string, rest: string)
    requires forall k | 0 <= k < |line| :: !IsBreak(line[k])
    requires rest == "" || IsBreak(rest[0])
    ensures FirstBreak(line + rest) == |line|
  {
    if line == "" {
      assert line + rest == rest;
    } else {
      BreakAfter(line[1..], rest);
      assert (line + rest)[1..] == line[1..] + rest;
    }
  }

  lemma KeepsClean(prefix: string, field: string)
    requires CleanField(field)
    ensures RStripNewlines(prefix + field) == prefix + field
  {
    assert (prefix + field)[|prefix + field| - 1] == field[|field| - 1];
  }

  lemma BodyIs(f: Frame)
    ensures Body(f) == "event: " + f.event + "\n" + ("data: " + f.data)
  {}

  lemma BodyNotBlank(f: Frame)
    ensures !Blank(Body(f))
  {
    assert Body(f)[0] == 'e';
  }

  lemma LineThen(line: string, rest: string)
    requires rest != "" && forall k | 0 <= k < |line| :: !IsBreak(line[k])
    ensures SplitLines(line + "\n" + rest) == [line] + SplitLines(rest)
  {
    var text := line + ("\n" + rest);
    BreakAfter(line, "\n" + rest);
    assert line + "\n" + rest == text && text[..|line|] == line && text[|line| + 1..] == rest && text[|line|] == '\n';
  }

  lemma FieldLineHasNoBreak(prefix: string, field: string)
    requires CleanField(field) && forall k | 0 <= k < |prefix| :: !IsBreak(prefix[k])
    ensures forall k | 0 <= k < |prefix + field| :: !IsBreak((prefix + field)[k])
  {}

  lemma NoLines()
    ensures ReadLines([]) == Reading([], "", [])
  {}

  lemma JoinTwo(sep: string, a: string, b: string)
    ensures Join(sep, [a, b]) == a + sep + b
  {
    JoinSnoc(sep, [], a);
    JoinSnoc(sep, [a], b);
    assert [] + [a] == [a] && [a] + [b] == [a, b];
  }

  lemma ReadLinesSnoc(lines: seq<string>, line: string)
    ensures ReadLines(lines + [line]) == ReadLine(ReadLines(lines), line)
  {
    assert (lines + [line])[..|lines|] == lines;
  }

  lemma ReadEventLine(r: Reading, name: string)
    requires CleanField(name)
    ensures ReadLine(r, "event: " + name) == r.(event := name)
  {
    KeepsClean("event: ", name);
    StripPadded(name);
    assert ("event: " + name)[6..] == " " + name;
  }

  lemma ReadDataLine(r: Reading, data: string)
    requires CleanField(data)
    ensures ReadLine(r, "data: " + data) == r.(data := r.data + [data])
  {
    KeepsClean("data: ", data);
    StripPadded(data);
    var line := "data: " + data;
    assert line[5..] == " " + data && line[0] == 'd';
  }

  lemma NotBlankBefore(line: string, rest: string)
    requires !Blank(line)
    ensures !Blank(line + rest)
  {
    var k :| 0 <= k < |line| && !IsSpace(line[k]);
    assert (line + rest)[k] == line[k];
  }

  lemma OneLine(line: string)
    requires line != "" && forall k | 0 <= k < |line| :: !IsBreak(line[k])
    ensures SplitLines(line) == [line]
  {
    BreakAfter(line, "");
    assert line + "" == line;
  }

  lemma BodyLines(f: Frame)
    requires Clean(f)
    ensures SplitLines(Body(f)) == ["event: " + f.event, "data: " + f.data]
  {
    hide Body, SplitLines;
    var l1, l2 := "event: " + f.event, "data: " + f.data;
    BodyIs(f);
    FieldLineHasNoBreak("event: ", f.event);
    FieldLineHasNoBreak("data: ", f.data);
    LineThen(l1, l2);
    OneLine(l2);
    assert [l1] + [l2] == [l1, l2];
  }

  lemma TwoLinesRead(r: Reading, f: Frame, lines: seq<string>)
    requires Clean(f) && ReadLines(lines) == r
    ensures ReadLines(lines + ["event: " + f.event, "data: " + f.data]) == r.(event := f.event, data := r.data + [f.data])
  {
    hide ReadLine, ReadLines;
    var l1, l2 := "event: " + f.event, "data: " + f.data;
    assert lines + [l1, l2] == lines + [l1] + [l2];
    ReadLinesSnoc(lines, l1);
    ReadLinesSnoc(lines + [l1], l2);
    ReadEventLine(r, f.event);
    ReadDataLine(r.(event := f.event), f.data);
  }

  /** Reading a formatted frame back gives the frame. */
  lemma ParseUndoesFormat(f: Frame)
    requires Clean(f)
    ensures PieceFrames(Body(f)) == [f]
  {
    hide Body, SplitLines, ReadLines, Blank, Join;
    BodyLines(f);
    NoLines();
    TwoLinesRead(Reading([], "", []), f, []);
    assert [] + ["event: " + f.event, "data: " + f.data] == ["event: " + f.event, "data: " + f.data];
    assert [] + [f.data] == [f.data];
    JoinOne("\n", f.data);
    BodyNotBlank(f);
  }

  lemma JoinOne(sep: string, a: string)
    ensures Join(sep, [a]) == a
  {}

  // ---- Chunking does not matter ----

  lemma FoundStays(a: string, b: string)
    requires Find(a, "\n\n") >= 0
    ensures Find(a + b, "\n\n") == Find(a, "\n\n")
  {
    hide Find;
    var at := Find(a, "\n\n");
    TwoNewlines(a, at);
    TwoNewlines(a + b, at);
    forall k | 0 <= k < at ensures !("\n\n" <= (a + b)[k..]) {
      TwoNewlines(a, k);
      TwoNewlines(a + b, k);
    }
  }

  lemma TwoNewlines(s: string, k: nat)
    requires k <= |s|
    ensures "\n\n" <= s[k..] <==> k + 1 < |s| && s[k] == '\n' && s[k + 1] == '\n'
  {
    if "\n\n" <= s[k..] { assert s[k..][0] == '\n' && s[k..][1] == '\n'; }
  }

  lemma SplitFirst(text: string, at: nat)
    requires Find(text, "\n\n") == at
    ensures at + 2 <= |text|
    ensures Split(text) == ([text[..at]] + Split(text[at + 2..]).0, Split(text[at + 2..]).1)
  {}

  lemma SplitFirstOfBoth(a: string, b: string, at: nat)
    requires Find(a, "\n\n") == at
    ensures at + 2 <= |a|
    ensures Split(a + b) == ([a[..at]] + Split(a[at + 2..] + b).0, Split(a[at + 2..] + b).1)
  {
    FoundStays(a, b);
    SplitFirst(a + b, at);
    assert (a + b)[at + 2..] == a[at + 2..] + b && (a + b)[..at] == a[..at];
  }

  /** Splitting may stop after any prefix and resume with what was left. */
  lemma {:induction false} SplitAppend(a: string, b: string)
    ensures Split(a + b).0 == Split(a).0 + Split(Split(a).1 + b).0
    ensures Split(a + b).1 == Split(Split(a).1 + b).1
    decreases |a|
  {
    var at := Find(a, "\n\n");
    if at < 0 {
      assert Split(a) == ([], a);
      assert [] + Split(a + b).0 == Split(a + b).0;
    } else {
      SplitFirst(a, at);
      SplitFirstOfBoth(a, b, at);
      SplitAppend(a[at + 2..], b);
      Regroup(a[..at], Split(a[at + 2..]).0, Split(Split(a[at + 2..]).1 + b).0);
    }
  }

  lemma Regroup(first: string, x: seq<string>, y: seq<string>)
    ensures [first] + (x + y) == [first] + x + y
  {}

  lemma BodyHasNoSeparator(f: Frame, rest: string)
    requires Clean(f)
    ensures Find(Format(f) + rest, "\n\n") == |Body(f)|
  {
    CutHasNoSeparator("", f, rest);
    assert "" + Format(f) + rest == Format(f) + rest && "" + Body(f) == Body(f);
  }

  /** A body has one line break, inside, and no two in a row. */
  lemma BodyBreaks(f: Frame, k: nat)
    requires Clean(f) && k < |Body(f)|
    ensures Body(f)[0] != '\n' && (Body(f)[k] == '\n' ==> k + 1 < |Body(f)| && Body(f)[k + 1] != '\n')
  {
    var split := |"event: " + f.event|;
    assert Body(f)[split] == '\n' && Body(f)[split + 1] == 'd';
    if k < split {
      assert Body(f)[k] == ("event: " + f.event)[k];
    } else if k > split {
      assert Body(f)[k] == ("\ndata: " + f.data)[k - split];
    }
  }

  /** Text without an empty line, then a frame: the first empty line is the one that ends the frame. */
  lemma CutHasNoSeparator(cut: string, f: Frame, rest: string)
    requires Clean(f) && Find(cut, "\n\n") < 0
    ensures Find(cut + Format(f) + rest, "\n\n") == |cut + Body(f)|
  {
    hide Body, Find, Clean;
    var text, body := cut + Format(f) + rest, Body(f);
    assert body != "" by { BodyIsLonger(f); }
    assert text == cut + body + ("\n\n" + rest);
    assert text[|cut + body|..] == "\n\n" + rest;
    forall k | 0 <= k < |cut + body| ensures !("\n\n" <= text[k..]) {
      TwoNewlines(text, k);
      if k < |cut| {
        TwoNewlines(cut, k);
        BodyBreaks(f, 0);
        assert text[k] == cut[k] && (k + 1 < |cut| ==> text[k + 1] == cut[k + 1]) && text[|cut|] == body[0];
      } else {
        BodyBreaks(f, k - |cut|);
        assert text[k] == body[k - |cut|] && (k + 1 < |cut + body| ==> text[k + 1] == body[k + 1 - |cut|]);
      }
    }
  }

  lemma BodyIsLonger(f: Frame)
    ensures Body(f) != ""
  {}

  /** A formatted stream splits into exactly its frames and leaves nothing in the buffer. */
  lemma {:induction false} FormattedSplits(frames: seq<Frame>)
    requires forall k | 0 <= k < |frames| :: Clean(frames[k])
    ensures Collect(PieceFrames, Split(FormatAll(frames)).0) == frames && Split(FormatAll(frames)).1 == ""
  {
    hide Find, PieceFrames, Body, Clean, Split, FormatAll, Collect;
    FormatsFirst(frames);
    if frames == [] {
      NothingSplit();
      CollectNothing(PieceFrames);
    } else {
      var body, rest := Body(frames[0]), FormatAll(frames[1..]);
      FormattedSplits(frames[1..]);
      BodyHasNoSeparator(frames[0], rest);
      var text := Format(frames[0]) + rest;
      SplitFirst(text, |body|);
      assert text[..|body|] == body && text[|body| + 2..] == rest;
      CollectAppend(PieceFrames, [body], Split(rest).0);
      CollectTwo(PieceFrames, body, body);
      ParseUndoesFormat(frames[0]);
      assert [frames[0]] + frames[1..] == frames;
    }
  }

  lemma FormatsFirst(frames: seq<Frame>)
    ensures FormatAll(frames) == if frames == [] then "" else Format(frames[0]) + FormatAll(frames[1..])
  {}

  lemma NothingSplit()
    ensures Split("") == ([], "")
  {}

  // ---- A frame cut in the middle ----

  lemma LineThenBody(line: string, f: Frame)
    requires forall k | 0 <= k < |line| :: !IsBreak(line[k])
    ensures SplitLines(line + "\n" + Body(f)) == [line] + SplitLines(Body(f))
  {
    BodyIsLonger(f);
    LineThen(line, Body(f));
  }

  /** A frame of which only the event line has come does no harm: the next frame is read as it was sent. */
  lemma EventLineThenFrame(name: string, f: Frame)
    requires CleanField(name) && Clean(f)
    ensures PieceFrames("event: " + name + "\n" + Body(f)) == [f]
  {
    hide Body, SplitLines, ReadLines, ReadLine, Blank, Join;
    var l0 := "event: " + name;
    FieldLineHasNoBreak("event: ", name);
    LineThenBody(l0, f);
    BodyLines(f);
    NoLines();
    ReadLinesSnoc([], l0);
    ReadEventLine(Reading([], "", []), name);
    assert [] + [l0] == [l0];
    TwoLinesRead(Reading([], name, []), f, [l0]);
    assert [] + [f.data] == [f.data];
    JoinOne("\n", f.data);
    EventLineNotBlank(name, "\n" + Body(f));
    assert l0 + "\n" + Body(f) == l0 + ("\n" + Body(f));
  }

  lemma EventLineNotBlank(name: string, rest: string)
    ensures !Blank("event: " + name + rest)
  {
    assert ("event: " + name + rest)[0] == 'e';
  }

  lemma TwoBodiesLines(g: Frame, f: Frame)
    requires Clean(g) && Clean(f)
    ensures SplitLines(Body(g) + "\n" + Body(f))
         == ["event: " + g.event, "data: " + g.data, "event: " + f.event, "data: " + f.data]
  {
    hide Body, SplitLines;
    var l0, l1 := "event: " + g.event, "data: " + g.data;
    BodyIs(g);
    FieldLineHasNoBreak("event: ", g.event);
    FieldLineHasNoBreak("data: ", g.data);
    var rest := l1 + "\n" + Body(f);
    LineThenBody(l1, f);
    BodyLines(f);
    LineThen(l0, rest);
    assert Body(g) + "\n" + Body(f) == l0 + "\n" + rest;
  }

  lemma FourLinesRead(g: Frame, f: Frame)
    requires Clean(g) && Clean(f)
    ensures ReadLines(["event: " + g.event, "data: " + g.data, "event: " + f.event, "data: " + f.data])
         == Reading([], f.event, [g.data, f.data])
  {
    hide ReadLine, ReadLines;
    var two := ["event: " + g.event, "data: " + g.data];
    NoLines();
    TwoLinesRead(Reading([], "", []), g, []);
    assert [] + two == two && [] + [g.data] == [g.data] && [g.data] + [f.data] == [g.data, f.data];
    TwoLinesRead(Reading([], g.event, [g.data]), f, two);
    assert two + ["event: " + f.event, "data: " + f.data]
        == ["event: " + g.event, "data: " + g.data, "event: " + f.event, "data: " + f.data];
  }

  /** A frame that lacks only its empty line does: its data is read as part of the next frame. */
  lemma WholeLinesThenFrame(g: Frame, f: Frame)
    requires Clean(g) && Clean(f)
    ensures PieceFrames(Body(g) + "\n" + Body(f)) == [Frame(f.event, g.data + "\n" + f.data)]
  {
    hide Body, SplitLines, ReadLines, Blank, Join;
    TwoBodiesLines(g, f);
    FourLinesRead(g, f);
    JoinTwo("\n", g.data, f.data);
    assert !Blank(Body(g)) by { BodyNotBlank(g); }
    NotBlankBefore(Body(g), "\n" + Body(f));
    assert Body(g) + "\n" + Body(f) == Body(g) + ("\n" + Body(f));
  }

  // ---- The texts themselves ----

  lemma FrameText(event: string, data: string)
    ensures Format(Frame(event, data)) == "event: " + event + "\n" + "data: " + data + "\n\n"
    ensures FormatAll([Frame(event, data)]) == Format(Frame(event, data))
  {}

  lemma LineBreaks(c: char)
    ensures IsBreak(c) <==> c in "\n\U{b}\U{c}\r\U{1c}\U{1d}\U{1e}\U{85}\U{2028}\U{2029}"
  {}

  /** A line ends at its first break, where a carriage return and the line feed after it are one. */
  lemma LineEndsAtBreak(line: string, end: string, rest: string)
    requires forall k | 0 <= k < |line| :: !IsBreak(line[k])
    requires end == "\r\n" || (|end| == 1 && IsBreak(end[0]) && !(end == "\r" && "\n" <= rest))
    ensures SplitLines(line + (end + rest)) == [line] + SplitLines(rest)
    ensures KeepLines(line + (end + rest)) == [line + end] + KeepLines(rest)
  {
    var text, at := line + (end + rest), |line|;
    BreakAfter(line, end + rest);
    var width := if text[at] == '\r' && at + 1 < |text| && text[at + 1] == '\n' then 2 else 1;
    assert text[at] == end[0] && (at + 1 < |text| ==> text[at + 1] == (end + rest)[1]);
    assert width == |end|;
    hide FirstBreak, IsBreak;
    assert text == (line + end) + rest;
    assert text[..at] == line && text[..at + width] == line + end && text[at + width..] == rest;
  }

  /** Lines read as frames: several data lines make one frame's data, lines of other kinds are left out, and the last frame needs
      no empty line after it. */
  lemma LinesRead(event: string, first: string, second: string, comment: string)
    requires CleanField(event) && CleanField(first) && CleanField(second) && CleanField(comment)
    ensures AppendEvent(ReadLines(["data: " + first] + [": " + comment] + ["data: " + second] + ["\r\n"] + ["event: " + event]))
         == [Frame("", first + "\n" + second)] + [Frame(event, "")]
  {
    assert event != "";
    hide CleanField, ReadLine, ReadLines, Join;
    var a, b, c, d, e := "data: " + first, ": " + comment, "data: " + second, "\r\n", "event: " + event;
    var frame := Frame("", first + "\n" + second);
    NoLines();
    assert [] + [a] == [a];
    ReadLinesSnoc([], a);
    ReadDataLine(Reading([], "", []), first);
    ReadLinesSnoc([a], b);
    OtherLine(ReadLines([a]), comment);
    ReadLinesSnoc([a] + [b], c);
    ReadDataLine(ReadLines([a] + [b]), second);
    var two := ReadLines([a] + [b] + [c]);
    assert two.data == [] + [first] + [second] == [first, second];
    JoinTwo("\n", first, second);
    ReadLinesSnoc([a] + [b] + [c], d);
    EmptyLine(two);
    assert AppendEvent(two) == [frame];
    ReadLinesSnoc([a] + [b] + [c] + [d], e);
    ReadEventLine(ReadLines([a] + [b] + [c] + [d]), event);
    assert Join("\n", []) == "" by { JoinOfNothing(); }
  }

  lemma JoinOfNothing()
    ensures Join("\n", []) == ""
  {}

  /** Empty lines make no frame by themselves, an empty text has no lines, and a field may be empty. */
  lemma NothingRead(r: Reading)
    ensures SplitLines("") == KeepLines("") == [] && AppendEvent(ReadLines([])) == AppendEvent(ReadLines(["\r\n"])) == []
    ensures ReadLine(r, "data:") == r.(data := r.data + [""]) && ReadLine(r, "event:") == r.(event := "")
    ensures PieceFrames("") == []
  {
    NoLines();
    EmptyLine(Reading([], "", []));
    assert [] + ["\r\n"] == ["\r\n"];
    ReadLinesSnoc([], "\r\n");
    assert "data:"[4] == ':' && "data:"[5..] == "" && "event:"[5] == ':' && "event:"[6..] == "";
    assert Strip("") == "";
  }

  lemma OtherLine(r: Reading, comment: string)
    requires CleanField(comment)
    ensures ReadLine(r, ": " + comment) == r
  {
    KeepsClean(": ", comment);
    assert (": " + comment)[0] == ':';
  }

  lemma EmptyLine(r: Reading)
    ensures ReadLine(r, "\r\n") == Reading(AppendEvent(r), "", [])
  {
    assert "\r\n"[..1] == "\r" && "\r"[..0] == "";
    assert RStripNewlines("\r\n") == RStripNewlines("\r") == RStripNewlines("") == "";
  }
}
