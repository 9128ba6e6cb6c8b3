/** Fitting a transcript into a message of limited length (`TranscriptBuffer.render` in messaging/transcript.py): the
    oldest segments are dropped. */
module TranscriptRender {
  import opened Basics

  /** A segment's text; nothing is shown for a segment that cannot be rendered or renders to nothing. */
  function Shown(out: Option<string>): seq<string> {
    if out.Some? && out.value != "" then [out.value] else []
  }

  /** The status as it ends a text. */
  function StatusText(status: string): string {
    if status == "" then "" else "\n\n" + status
  }

  /** The segments from `k` on, marked as cut off. */
  function Tail(parts: seq<string>, k: nat, marker: string, ending: string): string
    requires k <= |parts|
  {
    var body := Join("\n", parts[k..]);
    (if body != "" then marker + body else body) + ending
  }

  /** The end of the last segment, marked as cut off. */
  function LastEnd(last: string, budget: nat, marker: string, ending: string): string
    requires 3 <= budget && budget - 3 <= |last|
  {
    marker + "..." + last[|last| - (budget - 3)..] + ending
  }

  function WithoutLeadingNewlines(s: string): string {
    if s != "" && s[0] == '\n' then WithoutLeadingNewlines(s[1..]) else s
  }

  function Minimal(marker: string, ending: string): string {
    marker + WithoutLeadingNewlines(ending)
  }

  predicate TailFits(parts: seq<string>, k: nat, marker: string, ending: string, limit: int)
    requires k <= |parts|
  {
    |Tail(parts, k, marker, ending)| <= limit
  }

  ghost predicate SomeTailFits(parts: seq<string>, marker: string, ending: string, limit: int) {
    exists k | 0 <= k < |parts| :: TailFits(parts, k, marker, ending, limit)
  }

  /** The tail that starts first among those that fit. */
  ghost predicate LongestTail(text: string, parts: seq<string>, marker: string, ending: string, limit: int) {
    exists k | 0 <= k < |parts| ::
      && TailFits(parts, k, marker, ending, limit) && text == Tail(parts, k, marker, ending)
      && forall j | 0 <= j < k :: !TailFits(parts, j, marker, ending, limit)
  }

  method DropOldest(rendered: seq<string>, marker: string, ending: string, limit: int) returns (candidate: Option<string>)
    ensures candidate.Some? ==> |candidate.value| <= limit && SomeTailFits(rendered, marker, ending, limit)
    ensures candidate.Some? ==> LongestTail(candidate.value, rendered, marker, ending, limit)
    ensures candidate.None? ==> !SomeTailFits(rendered, marker, ending, limit)
  {
    var parts := rendered;
    ghost var k := 0;
    while parts != []
      invariant k <= |rendered| && parts == rendered[k..]
      invariant forall j | 0 <= j < k :: !TailFits(rendered, j, marker, ending, limit)
      decreases |parts|
    {
      var body := Join("\n", parts);
      var text := (if body != "" then marker + body else body) + ending;
      assert text == Tail(rendered, k, marker, ending);
      if |text| <= limit {
        assert TailFits(rendered, k, marker, ending, limit);
        return Some(text);
      }
      parts := parts[1..];
      k := k + 1;
    }
    candidate := None;
  }

  /** The text shown for `outs`: everything when it fits; otherwise as many of the newest segments as fit, marked;
      otherwise the end of the newest, filling the limit exactly; otherwise the marker and the status; otherwise the
      status. Only a status alone can be over the limit. */
  method Render(outs: seq<Option<string>>, marker: string, status: string, limit: int) returns (text: string)
    ensures |text| <= limit || text == status
    ensures var parts, ending := Collect(Shown, outs), if status == "" then "" else "\n\n" + status;
            var n, budget := |parts|, limit - |marker| - |ending|;
            if |Join("\n", parts) + ending| <= limit then text == Join("\n", parts) + ending
            else if SomeTailFits(parts, marker, ending, limit) then LongestTail(text, parts, marker, ending, limit)
            else if n > 0 && budget > 20 then
              |parts[n - 1]| > budget && text == LastEnd(parts[n - 1], budget, marker, ending) && |text| == limit
            else if n > 0 && |Minimal(marker, ending)| <= limit then text == Minimal(marker, ending)
            else text == status
  {
    hide TailFits, LongestTail, SomeTailFits, Join, WithoutLeadingNewlines, Collect;
    var rendered := RenderedParts(outs);
    var ending := StatusText(status);
    var candidate := Join("\n", rendered) + ending;
    if |candidate| <= limit { return candidate; }
    var tail := DropOldest(rendered, marker, ending, limit);
    if tail.Some? { return tail.value; }
    if rendered == [] {
      NoTails(marker, ending, limit);
      return status;
    }
    var lastPart := rendered[|rendered| - 1];
    LastTooLong(rendered, marker, ending, limit);
    var budget := limit - |marker| - |ending|;
    if budget > 20 {
      return marker + "..." + lastPart[|lastPart| - (budget - 3)..] + ending;
    }
    var minimal := marker + WithoutLeadingNewlines(ending);
    if |minimal| <= limit { return minimal; }
    text := status;
  }

  method RenderedParts(outs: seq<Option<string>>) returns (rendered: seq<string>)
    ensures rendered == Collect(Shown, outs) && forall j | 0 <= j < |rendered| :: rendered[j] != ""
  {
    rendered := [];
    for k := 0 to |outs|
      invariant rendered == Collect(Shown, outs[..k]) && forall j | 0 <= j < |rendered| :: rendered[j] != ""
    {
      assert outs[..k + 1] == outs[..k] + [outs[k]];
      CollectSnoc(Shown, outs[..k], outs[k]);
      if outs[k].Some? && outs[k].value != "" { rendered := rendered + [outs[k].value]; }
    }
    assert outs[..|outs|] == outs;
  }

  lemma NoTails(marker: string, ending: string, limit: int)
    ensures !SomeTailFits([], marker, ending, limit)
  {}

  lemma LastTooLong(parts: seq<string>, marker: string, ending: string, limit: int)
    requires parts != [] && parts[|parts| - 1] != "" && !SomeTailFits(parts, marker, ending, limit)
    ensures |parts[|parts| - 1]| > limit - |marker| - |ending|
  {
    LastAlone(parts, marker, ending);
    assert !TailFits(parts, |parts| - 1, marker, ending, limit);
  }

  lemma LastAlone(parts: seq<string>, marker: string, ending: string)
    requires parts != [] && parts[|parts| - 1] != ""
    ensures Tail(parts, |parts| - 1, marker, ending) == marker + parts[|parts| - 1] + ending
  {
    assert parts[|parts| - 1..] == [parts[|parts| - 1]];
  }

  lemma {:induction false} JoinDropsFirst(parts: seq<string>)
    requires parts != []
    ensures Join("\n", parts) == if |parts| == 1 then parts[0] else parts[0] + "\n" + Join("\n", parts[1..])
  {
    hide Join;
    var before, rest, last := parts[..|parts| - 1], parts[1..], parts[|parts| - 1];
    assert parts == before + [last];
    JoinSnoc("\n", before, last);
    if before != [] {
      JoinDropsFirst(before);
      assert rest == before[1..] + [last];
      JoinSnoc("\n", before[1..], last);
    }
  }

  /** Fewer segments are never longer, so the tail shown is the longest that fits. */
  lemma {:induction false} ShorterTailsAreShorter(parts: seq<string>, j: nat, k: nat, marker: string, ending: string)
    requires j <= k <= |parts|
    ensures |Tail(parts, j, marker, ending)| >= |Tail(parts, k, marker, ending)|
    decreases k - j
  {
    if j < k {
      ShorterTailsAreShorter(parts, j + 1, k, marker, ending);
      JoinDropsFirst(parts[j..]);
      assert parts[j..][1..] == parts[j + 1..];
    }
  }

  // ---- The texts themselves ----

  ghost predicate ShownAt(outs: seq<Option<string>>, p: nat) {
    p < |outs| && outs[p].Some? && outs[p].value != ""
  }

  ghost predicate ArePlaces(outs: seq<Option<string>>, places: seq<nat>, parts: seq<string>) {
    && |places| == |parts| && (forall j, k | 0 <= j < k < |places| :: places[j] < places[k])
    && (forall p :: p in places <==> ShownAt(outs, p))
    && forall k | 0 <= k < |places| :: places[k] < |outs| && outs[places[k]] == Some(parts[k])
  }

  lemma OneMorePlace(before: seq<Option<string>>, out: string, places: seq<nat>, parts: seq<string>)
    requires ArePlaces(before, places, parts) && out != ""
    ensures ArePlaces(before + [Some(out)], places + [|before|], parts + [out])
  {}

  lemma SamePlaces(before: seq<Option<string>>, out: Option<string>, places: seq<nat>, parts: seq<string>)
    requires ArePlaces(before, places, parts) && (out == None || out == Some(""))
    ensures ArePlaces(before + [out], places, parts + [])
  {}

  lemma NoPlaces()
    ensures ArePlaces([], [], [])
  {}

  /** Segments that render to nothing leave no trace; the others keep their order. */
  lemma {:induction false} PartsAreShown(outs: seq<Option<string>>) returns (places: seq<nat>)
    ensures ArePlaces(outs, places, Collect(Shown, outs))
  {
    hide ArePlaces;
    places := [];
    NoPlaces();
    if outs != [] {
      var before, out := outs[..|outs| - 1], outs[|outs| - 1];
      assert before + [out] == outs;
      places := PartsAreShown(before);
      if out.Some? && out.value != "" {
        OneMorePlace(before, out.value, places, Collect(Shown, before));
        places := places + [|before|];
      } else {
        SamePlaces(before, out, places, Collect(Shown, before));
      }
    }
  }

  /** A tail is the marker and all its segments; the end of a segment has what the budget leaves after three dots; the least
      text drops only line breaks before the status. */
  lemma ShortTexts(parts: seq<string>, k: nat, rest: string, end: string, marker: string, status: string)
    requires k <= |parts|
    ensures Join("\n", parts[k..]) != "" ==> Tail(parts, k, marker, status) == marker + Join("\n", parts[k..]) + status
    ensures LastEnd(rest + end, |end| + 3, marker, status) == marker + "..." + end + status
    ensures status == "" || status[0] != '\n' ==> Minimal(marker, status) == Minimal(marker, "\n\n" + status) == marker + status
  {
    hide Join;
    assert (rest + end)[|rest|..] == end;
    if status == "" || status[0] != '\n' {
      var one, two := "\n" + status, "\n\n" + status;
      assert one[0] == '\n' && two[0] == '\n' && one[1..] == status && two[1..] == one;
      assert WithoutLeadingNewlines(status) == WithoutLeadingNewlines(one) == WithoutLeadingNewlines(two) == status;
    }
  }
}
