/** Small vocabulary shared by every model in this project. */
module Basics {

  datatype Option<+T> = None | Some(value: T)

  /** Python's `"".join(parts)`. */
  function Concat(parts: seq<string>): string {
    if parts == [] then "" else Concat(parts[..|parts| - 1]) + parts[|parts| - 1]
  }

  lemma ConcatSnoc(parts: seq<string>, last: string)
    ensures Concat(parts + [last]) == Concat(parts) + last
  {
    assert (parts + [last])[..|parts|] == parts;
  }

  lemma ConcatNothing()
    ensures Concat([]) == ""
  {}

  lemma {:induction false} ConcatAppend(a: seq<string>, b: seq<string>)
    ensures Concat(a + b) == Concat(a) + Concat(b)
  {
    hide Concat;
    var x := Concat(a);
    if b == [] {
      ConcatNothing();
      assert a + b == a && x + "" == x;
    } else {
      var before, last := b[..|b| - 1], b[|b| - 1];
      ConcatAppend(a, before);
      assert a + b == a + before + [last] && before + [last] == b;
      ConcatSnoc(a + before, last);
      ConcatSnoc(before, last);
      var y := Concat(before);
      assert x + y + last == x + (y + last);
    }
  }

  /** `sep.join(parts)`. */
  function Join(sep: string, parts: seq<string>): string {
    if parts == [] then ""
    else if |parts| == 1 then parts[0]
    else Join(sep, parts[..|parts| - 1]) + sep + parts[|parts| - 1]
  }

  lemma JoinSnoc(sep: string, xs: seq<string>, x: string)
    ensures Join(sep, xs + [x]) == if xs == [] then x else Join(sep, xs) + sep + x
  {
    assert (xs + [x])[..|xs|] == xs;
  }

  lemma {:induction false} ConcatCons(first: string, rest: seq<string>)
    ensures Concat([first] + rest) == first + Concat(rest)
  {
    var all := [first] + rest;
    if rest == [] {
      assert all == [first] && all[..0] == [] && first + "" == first && "" + first == first;
    } else {
      ConcatCons(first, rest[..|rest| - 1]);
      assert all[..|all| - 1] == [first] + rest[..|rest| - 1];
    }
  }

  /** What `f` reads off each element, in order. */
  function Collect<A, B>(f: A -> seq<B>, xs: seq<A>): seq<B> {
    if xs == [] then [] else Collect(f, xs[..|xs| - 1]) + f(xs[|xs| - 1])
  }

  lemma {:induction false} CollectAppend<A, B>(f: A -> seq<B>, a: seq<A>, b: seq<A>)
    ensures Collect(f, a + b) == Collect(f, a) + Collect(f, b)
  {
    if b == [] {
      assert a + b == a;
    } else {
      CollectAppend(f, a, b[..|b| - 1]);
      assert (a + b)[..|a + b| - 1] == a + b[..|b| - 1];
    }
  }

  lemma CollectSnoc<A, B>(f: A -> seq<B>, a: seq<A>, last: A)
    ensures Collect(f, a + [last]) == Collect(f, a) + f(last)
  {
    assert (a + [last])[..|a|] == a;
  }

  lemma CollectTwo<A, B>(f: A -> seq<B>, a: A, b: A)
    ensures Collect(f, [a]) == f(a) && Collect(f, [a, b]) == f(a) + f(b)
  {
    CollectSnoc(f, [], a);
    CollectSnoc(f, [a], b);
    assert [] + [a] == [a] && [a] + [b] == [a, b];
  }

  lemma CollectOneOrTwo<A, B>(f: A -> seq<B>, xs: seq<A>)
    requires 1 <= |xs| <= 2
    ensures Collect(f, xs) == if |xs| == 1 then f(xs[0]) else f(xs[0]) + f(xs[1])
  {
    CollectTwo(f, xs[0], xs[|xs| - 1]);
    assert xs == if |xs| == 1 then [xs[0]] else [xs[0], xs[1]];
  }

  lemma CollectCons<A, B>(before: seq<B>, f: A -> seq<B>, xs: seq<A>, first: A, rest: seq<A>)
    requires xs == [first] + rest
    ensures before + Collect(f, xs) == before + f(first) + Collect(f, rest)
  {
    CollectAppend(f, [first], rest);
    CollectTwo(f, first, first);
  }

  /** The characters `str.strip` and `str.isspace` treat as white space. */
  predicate IsSpace(c: char) {
    || '\t' <= c <= '\r'
    || '\U{1c}' <= c <= ' '
    || c == '\U{85}' || c == '\U{a0}' || c == '\U{1680}'
    || '\U{2000}' <= c <= '\U{200a}'
    || c == '\U{2028}' || c == '\U{2029}' || c == '\U{202f}' || c == '\U{205f}' || c == '\U{3000}'
  }

  /** `not s.strip()`. */
  predicate Blank(s: string) {
    forall i | 0 <= i < |s| :: IsSpace(s[i])
  }

  function LStrip(s: string): string {
    if s != "" && IsSpace(s[0]) then LStrip(s[1..]) else s
  }

  function RStrip(s: string): string {
    if s != "" && IsSpace(s[|s| - 1]) then RStrip(s[..|s| - 1]) else s
  }

  /** `s.strip()`. */
  function Strip(s: string): string {
    RStrip(LStrip(s))
  }

  /** `pattern in s`. */
  predicate Contains(s: string, pattern: string) {
    exists i | 0 <= i <= |s| :: pattern <= s[i..]
  }

  /** `s.find(pattern)`. */
  function Find(s: string, pattern: string): (at: int)
    ensures -1 <= at <= |s|
    ensures at >= 0 ==> pattern <= s[at..]
    ensures forall k | 0 <= k <= |s| && (at < 0 || k < at) :: !(pattern <= s[k..])
  {
    if pattern <= s then 0
    else if s == "" then -1
    else
      var later := Find(s[1..], pattern);
      assert forall k | 0 < k <= |s| :: s[k..] == s[1..][k - 1..];
      if later < 0 then -1 else later + 1
  }

  lemma EmptyOrInhabited(s: set<int>)
    ensures s == {} || exists x :: x in s
  {
    if forall x | x in s :: false {
      assert s == {};
    }
  }

  lemma EmptyOrHasString(s: set<string>)
    ensures s == {} || exists x :: x in s
  {
    if forall x | x in s :: false {
      assert s == {};
    }
  }

  lemma NoKeys(m: map<int, string>)
    requires forall k :: k !in m
    ensures m == map[]
  {
    EmptyOrInhabited(m.Keys);
    assert forall k :: k !in m.Keys;
    assert m.Keys == {};
  }

  /** `str` of a natural number. */
  function Decimal(n: nat): (s: string)
    ensures s != ""
  {
    var digit := [(n % 10 + '0' as int) as char];
    if n < 10 then digit else Decimal(n / 10) + digit
  }

  predicate Distinct<T(==)>(xs: seq<T>) {
    forall i, j | 0 <= i < j < |xs| :: xs[i] != xs[j]
  }

  lemma CollectNothing<A, B>(f: A -> seq<B>)
    ensures Collect(f, []) == []
  {}

  /** The number that decimal digits stand for. */
  function NumberOf(digits: string): int {
    if digits == "" then 0 else 10 * NumberOf(digits[..|digits| - 1]) + (digits[|digits| - 1] as int - '0' as int)
  }

  lemma {:induction false} DecimalStandsForNumber(n: nat)
    ensures NumberOf(Decimal(n)) == n && forall k | 0 <= k < |Decimal(n)| :: '0' <= Decimal(n)[k] <= '9'
    ensures Decimal(n)[0] == '0' ==> Decimal(n) == "0"
  {
    if n >= 10 {
      assert NumberOf("0") == 0 by { assert "0"[..0] == ""; }
      DecimalStandsForNumber(n / 10);
      assert Decimal(n)[..|Decimal(n)| - 1] == Decimal(n / 10);
    } else {
      assert Decimal(n)[..0] == "";
    }
  }

  /** What `strip` leaves: all but the white space at both ends. */
  lemma StripTakesEnds(s: string) returns (before: string, after: string)
    ensures s == before + Strip(s) + after && Blank(before) && Blank(after)
    ensures Strip(s) != "" ==> !IsSpace(Strip(s)[0]) && !IsSpace(Strip(s)[|Strip(s)| - 1])
  {
    before := LStripTakes(s);
    after := RStripTakes(LStrip(s));
    if Strip(s) != "" { assert Strip(s)[0] == LStrip(s)[0]; }
  }

  lemma {:induction false} LStripTakes(s: string) returns (before: string)
    ensures s == before + LStrip(s) && Blank(before) && (LStrip(s) != "" ==> !IsSpace(LStrip(s)[0]))
  {
    before := "";
    if s != "" && IsSpace(s[0]) {
      before := LStripTakes(s[1..]);
      before := [s[0]] + before;
    }
  }

  lemma {:induction false} RStripTakes(s: string) returns (after: string)
    ensures s == RStrip(s) + after && Blank(after) && (RStrip(s) != "" ==> !IsSpace(RStrip(s)[|RStrip(s)| - 1]))
  {
    after := "";
    if s != "" && IsSpace(s[|s| - 1]) {
      after := RStripTakes(s[..|s| - 1]);
      after := after + [s[|s| - 1]];
    }
  }

  /** Which characters are white space: of ASCII, space, tab, line ends and separators. */
  lemma WhiteSpace()
    ensures forall c | c <= '\U{7f}' :: IsSpace(c) <==> c == ' ' || '\t' <= c <= '\r' || '\U{1c}' <= c <= '\U{1f}'
    ensures IsSpace('\U{85}') && IsSpace('\U{a0}') && IsSpace('\U{2003}') && IsSpace('\U{2028}') && IsSpace('\U{3000}')
    ensures !IsSpace('\U{200b}') && Blank("") && Blank(" \t\n") && !Blank(" a ")
  {
    assert " a "[1] == 'a';
  }
}
