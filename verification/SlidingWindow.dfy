/** The strict sliding-window rate limiter (core/rate_limit.py). One call of `TryAcquire` is one passage through the
    lock in `acquire`; time is a real number read from a clock that never goes back. */
module SlidingWindow {

  predicate Sorted(times: seq<real>) {
    forall i, j | 0 <= i < j < |times| :: times[i] <= times[j]
  }

  /** What is left of `times` when everything up to `cutoff` is popped from the left. */
  function After(times: seq<real>, cutoff: real): seq<real> {
    if times == [] || times[0] > cutoff then times else After(times[1..], cutoff)
  }

  /** Reference: an acquisition at `now` is granted when the whole history holds fewer than `limit` in the last window. */
  function Grants(history: seq<real>, now: real, limit: nat, window: real): bool {
    |After(history, now - window)| < limit
  }

  /** The acquisitions granted when acquirers come at the given times, by the reference rule. */
  function Granted(attempts: seq<real>, limit: nat, window: real): seq<real> {
    if attempts == [] then []
    else
      var before, now := Granted(attempts[..|attempts| - 1], limit, window), attempts[|attempts| - 1];
      if Grants(before, now, limit, window) then before + [now] else before
  }

  lemma {:induction false} AfterIsSuffix(times: seq<real>, cutoff: real) returns (n: nat)
    requires Sorted(times)
    ensures n <= |times| && After(times, cutoff) == times[n..]
    ensures (forall k | 0 <= k < n :: times[k] <= cutoff) && forall k | n <= k < |times| :: times[k] > cutoff
  {
    if times == [] || times[0] > cutoff {
      n := 0;
    } else {
      var m := AfterIsSuffix(times[1..], cutoff);
      n := m + 1;
      assert forall k | 1 <= k < |times| :: times[k] == times[1..][k - 1];
    }
  }

  /** Popping twice is popping up to the later cutoff. */
  lemma {:induction false} AfterTwice(times: seq<real>, c1: real, c2: real)
    requires c1 <= c2
    ensures After(After(times, c1), c2) == After(times, c2)
  {
    if times != [] && times[0] <= c1 { AfterTwice(times[1..], c1, c2); }
  }

  lemma {:induction false} AfterSnoc(times: seq<real>, t: real, cutoff: real)
    requires t > cutoff
    ensures After(times + [t], cutoff) == After(times, cutoff) + [t]
  {
    if times != [] && times[0] <= cutoff {
      AfterSnoc(times[1..], t, cutoff);
      assert (times + [t])[1..] == times[1..] + [t];
    }
  }

  class StrictSlidingWindowLimiter {
    const rateLimit: nat
    const rateWindow: real
    var times: seq<real>
    ghost var attempts: seq<real>

    ghost predicate Valid() reads this {
      && rateLimit > 0 && rateWindow > 0.0 && Sorted(attempts)
      && (attempts == [] ==> times == [])
      && (attempts != [] ==>
            times == After(Granted(attempts, rateLimit, rateWindow), attempts[|attempts| - 1] - rateWindow))
      && |times| <= rateLimit
    }

    constructor (rateLimit: nat, rateWindow: real)
      requires rateLimit > 0 && rateWindow > 0.0
      ensures Valid() && attempts == [] && this.rateLimit == rateLimit && this.rateWindow == rateWindow
    {
      this.rateLimit, this.rateWindow, times, attempts := rateLimit, rateWindow, [], [];
    }

    /** The short deque decides as the whole history would; a refused caller is told exactly how long the window
        stays full if nobody else acquires. */
    method TryAcquire(now: real) returns (acquired: bool, waitTime: real)
      requires Valid() && (attempts == [] || attempts[|attempts| - 1] <= now)
      modifies `times, `attempts
      ensures Valid() && attempts == old(attempts) + [now]
      ensures var history := Granted(old(attempts), rateLimit, rateWindow);
              && (acquired <==> Grants(history, now, rateLimit, rateWindow))
              && times == After(history, now - rateWindow) + (if acquired then [now] else [])
              && (!acquired ==>
                    waitTime > 0.0
                    && forall t | t >= now :: Grants(history, t, rateLimit, rateWindow) <==> t >= now + waitTime)
    {
      hide Granted, After, Sorted;
      ghost var history := Granted(attempts, rateLimit, rateWindow);
      OneMoreAttempt(attempts, now, rateLimit, rateWindow);
      AfterNothing(now - rateWindow);
      var cutoff := now - rateWindow;
      ghost var deque := times;
      while times != [] && times[0] <= cutoff
        modifies `times
        invariant After(times, cutoff) == After(deque, cutoff) && |times| <= |deque|
        decreases |times|
      {
        AfterPops(times, cutoff);
        times := times[1..];
      }
      AfterStops(times, cutoff);
      if attempts != [] { AfterTwice(history, attempts[|attempts| - 1] - rateWindow, cutoff); }
      assert times == After(history, cutoff);
      attempts := attempts + [now];
      waitTime := 0.0;
      if |times| < rateLimit {
        AfterSnoc(history, now, cutoff);
        times := times + [now];
        return true, waitTime;
      }
      var oldest := times[0];
      waitTime := if oldest + rateWindow - now > 0.0 then oldest + rateWindow - now else 0.0;
      forall t | t >= now ensures Grants(history, t, rateLimit, rateWindow) <==> t >= now + waitTime {
        FullUntilOldestLeaves(history, cutoff, t - rateWindow);
      }
      acquired := false;
    }
  }

  lemma AfterNothing(cutoff: real)
    ensures After([], cutoff) == [] && Sorted([])
  {}

  lemma AfterPops(times: seq<real>, cutoff: real)
    requires times != [] && times[0] <= cutoff
    ensures After(times[1..], cutoff) == After(times, cutoff)
  {}

  lemma AfterStops(times: seq<real>, cutoff: real)
    requires times == [] || times[0] > cutoff
    ensures After(times, cutoff) == times
  {}

  lemma OneMoreAttempt(attempts: seq<real>, now: real, limit: nat, window: real)
    requires Sorted(attempts) && (attempts == [] || attempts[|attempts| - 1] <= now)
    ensures Sorted(attempts + [now])
    ensures var before := Granted(attempts, limit, window);
            Granted(attempts + [now], limit, window) == if Grants(before, now, limit, window) then before + [now] else before
    ensures attempts == [] ==> Granted(attempts, limit, window) == []
  {
    assert (attempts + [now])[..|attempts|] == attempts;
  }

  /** What is in the window stays there until its oldest acquisition is popped. */
  lemma FullUntilOldestLeaves(history: seq<real>, cutoff: real, later: real)
    requires cutoff <= later && After(history, cutoff) != []
    ensures var full := After(history, cutoff); |After(history, later)| < |full| <==> full[0] <= later
  {
    var full := After(history, cutoff);
    AfterTwice(history, cutoff, later);
    AfterShrinks(full[1..], later);
  }

  lemma {:induction false} AfterShrinks(times: seq<real>, cutoff: real)
    ensures |After(times, cutoff)| <= |times|
  {
    if times != [] && times[0] <= cutoff { AfterShrinks(times[1..], cutoff); }
  }

  // ---- What the limiter guarantees ----

  /** `limit` acquisitions apart there is at least one window between two acquisitions. */
  ghost predicate Spaced(history: seq<real>, limit: nat, window: real) {
    forall i, j | 0 <= i && j == i + limit && j < |history| :: history[j] - history[i] >= window
  }

  lemma SpacedSnoc(history: seq<real>, now: real, limit: nat, window: real)
    requires Spaced(history, limit, window) && limit > 0
    requires |history| >= limit ==> history[|history| - limit] <= now - window
    ensures Spaced(history + [now], limit, window)
  {}

  lemma {:induction false} GrantedIsSpaced(attempts: seq<real>, limit: nat, window: real)
    requires Sorted(attempts) && limit > 0 && window > 0.0
    ensures var history := Granted(attempts, limit, window);
            && Sorted(history) && Spaced(history, limit, window)
            && (history != [] ==> history[|history| - 1] <= attempts[|attempts| - 1])
  {
    hide Sorted, Spaced, Grants, After;
    NothingSpaced(limit, window);
    if attempts != [] {
      var before, now := attempts[..|attempts| - 1], attempts[|attempts| - 1];
      SortedPrefix(attempts);
      GrantedIsSpaced(before, limit, window);
      var earlier := Granted(before, limit, window);
      if Grants(earlier, now, limit, window) { GrantSpaced(earlier, now, limit, window); }
    }
  }

  lemma NothingSpaced(limit: nat, window: real)
    ensures Sorted([]) && Spaced([], limit, window)
  {}

  lemma GrantSpaced(history: seq<real>, now: real, limit: nat, window: real)
    requires Sorted(history) && Spaced(history, limit, window) && limit > 0
    requires (history == [] || history[|history| - 1] <= now) && Grants(history, now, limit, window)
    ensures Sorted(history + [now]) && Spaced(history + [now], limit, window)
  {
    hide Spaced;
    var n := AfterIsSuffix(history, now - window);
    var i := |history| - limit;
    assert i >= 0 ==> i < n && history[i] <= now - window;
    SpacedSnoc(history, now, limit, window);
  }

  predicate InRange(t: real, from: real, to: real, closed: bool) {
    from <= t && (t < to || (closed && t == to))
  }

  /** Acquisitions in `[from, to)`, or in `[from, to]` when `closed`. */
  function Within(history: seq<real>, from: real, to: real, closed: bool): seq<real> {
    if history == [] then []
    else
      var t := history[|history| - 1];
      Within(history[..|history| - 1], from, to, closed) + if InRange(t, from, to, closed) then [t] else []
  }

  lemma {:induction false} WithinIsSlice(history: seq<real>, from: real, to: real, closed: bool) returns (i: nat, j: nat)
    requires Sorted(history)
    ensures i <= j <= |history| && Within(history, from, to, closed) == history[i..j]
    ensures forall k | 0 <= k < |history| :: i <= k < j <==> InRange(history[k], from, to, closed)
  {
    hide InRange, Sorted, After, Granted;
    i, j := 0, 0;
    if history != [] {
      var last := |history| - 1;
      var before := history[..last];
      SortedPrefix(history);
      i, j := WithinIsSlice(before, from, to, closed);
      PrefixAgrees(history);
      WithinSnoc(history, from, to, closed);
      hide Within;
      if InRange(history[last], from, to, closed) {
        if i == j {
          assert before[i..j] == before[last..last];
          i, j := last, last;
        }
        if j < last { Between(history, i, j, from, to, closed); }
        OneMoreInSlice(history, i, j);
        j := last + 1;
      } else {
        SliceOfPrefix(history, i, j);
      }
    }
  }

  lemma PrefixAgrees(history: seq<real>)
    requires history != []
    ensures forall k | 0 <= k < |history| - 1 :: history[..|history| - 1][k] == history[k]
  {}

  lemma WithinSnoc(history: seq<real>, from: real, to: real, closed: bool)
    requires history != []
    ensures Within(history, from, to, closed)
         == Within(history[..|history| - 1], from, to, closed)
            + if InRange(history[|history| - 1], from, to, closed) then [history[|history| - 1]] else []
  {}

  lemma SliceOfPrefix(history: seq<real>, i: nat, j: nat)
    requires i <= j < |history|
    ensures history[..|history| - 1][i..j] + [] == history[i..j]
  {}

  lemma OneMoreInSlice(history: seq<real>, i: nat, j: nat)
    requires history != [] && i <= j == |history| - 1
    ensures history[..j][i..j] + [history[j]] == history[i..j + 1]
  {}

  lemma SortedPrefix(history: seq<real>)
    requires Sorted(history) && history != []
    ensures var last := |history| - 1;
            Sorted(history[..last]) && (last > 0 ==> history[..last][last - 1] <= history[last])
  {}

  lemma Between(history: seq<real>, i: nat, j: nat, from: real, to: real, closed: bool)
    requires Sorted(history) && i <= j < |history|
    requires InRange(history[i], from, to, closed) && InRange(history[|history| - 1], from, to, closed)
    ensures InRange(history[j], from, to, closed)
  {}

  /** Any half-open window holds at most `limit` acquisitions, whoever tries whenever. */
  lemma WindowHoldsAtMostLimit(attempts: seq<real>, limit: nat, window: real, from: real)
    requires Sorted(attempts) && limit > 0 && window > 0.0
    ensures |Within(Granted(attempts, limit, window), from, from + window, false)| <= limit
  {
    hide Granted, Within, Sorted;
    var history := Granted(attempts, limit, window);
    GrantedIsSpaced(attempts, limit, window);
    var i, j := WithinIsSlice(history, from, from + window, false);
    if i + limit < |history| { assert history[i + limit] - history[i] >= window; }
  }

  function InClosedWindow(history: seq<real>, from: real, window: real): nat {
    |Within(history, from, from + window, true)|
  }

  /** Some acquisition comes exactly one window after the one `limit` places before it. */
  ghost predicate ExactlyOneWindowApart(history: seq<real>, limit: nat, window: real) {
    exists i, j | 0 <= i && j == i + limit && j < |history| :: history[j] == history[i] + window
  }

  /** Closed intervals, which the class documentation speaks of, hold at most `limit` exactly when no acquisition
      comes exactly one window after the one `limit` places before it. */
  lemma ClosedWindowsHoldLimitIff(attempts: seq<real>, limit: nat, window: real)
    requires Sorted(attempts) && limit > 0 && window > 0.0
    ensures var history := Granted(attempts, limit, window);
            (forall from :: InClosedWindow(history, from, window) <= limit) <==> !ExactlyOneWindowApart(history, limit, window)
  {
    hide Granted, Within, Sorted, Spaced;
    var history := Granted(attempts, limit, window);
    GrantedIsSpaced(attempts, limit, window);
    if ExactlyOneWindowApart(history, limit, window) {
      var i, j :| 0 <= i && j == i + limit && j < |history| && history[j] == history[i] + window;
      CountAtLeast(history, i, j, history[i], history[j]);
      assert InClosedWindow(history, history[i], window) > limit;
    } else {
      forall from ensures InClosedWindow(history, from, window) <= limit {
        ClosedWindowHoldsLimit(history, limit, window, from);
      }
    }
  }

  lemma OneWindowApartSnoc(history: seq<real>, now: real, limit: nat, window: real)
    requires limit > 0
    ensures ExactlyOneWindowApart(history + [now], limit, window)
       <==> || ExactlyOneWindowApart(history, limit, window)
            || (|history| >= limit && history[|history| - limit] == now - window)
  {
    var history' := history + [now];
    if ExactlyOneWindowApart(history, limit, window) {
      var i, j :| 0 <= i && j == i + limit && j < |history| && history[j] == history[i] + window;
      assert history'[j] == history'[i] + window;
    }
    if |history| >= limit && history[|history| - limit] == now - window {
      assert history'[|history|] == history'[|history| - limit] + window;
    }
    if ExactlyOneWindowApart(history', limit, window) {
      var i, j :| 0 <= i && j == i + limit && j < |history'| && history'[j] == history'[i] + window;
      assert j < |history| ==> history[j] == history[i] + window;
    }
  }

  /** What a caller can see before an attempt: while closed windows hold the limit, they still do after an attempt at `now`
      unless it is granted and the acquisition `limit` places back was exactly one window ago. */
  lemma AttemptKeepsClosedWindowsIff(attempts: seq<real>, now: real, limit: nat, window: real)
    requires Sorted(attempts) && (attempts == [] || attempts[|attempts| - 1] <= now) && limit > 0 && window > 0.0
    requires forall from :: InClosedWindow(Granted(attempts, limit, window), from, window) <= limit
    ensures (forall from :: InClosedWindow(Granted(attempts + [now], limit, window), from, window) <= limit)
       <==> var history := Granted(attempts, limit, window);
            !(Grants(history, now, limit, window) && |history| >= limit && history[|history| - limit] == now - window)
  {
    hide Granted, InClosedWindow, ExactlyOneWindowApart, Grants;
    OneMoreAttempt(attempts, now, limit, window);
    ClosedWindowsHoldLimitIff(attempts, limit, window);
    ClosedWindowsHoldLimitIff(attempts + [now], limit, window);
    OneWindowApartSnoc(Granted(attempts, limit, window), now, limit, window);
  }

  lemma ClosedWindowHoldsLimit(history: seq<real>, limit: nat, window: real, from: real)
    requires Sorted(history) && Spaced(history, limit, window) && !ExactlyOneWindowApart(history, limit, window)
    ensures InClosedWindow(history, from, window) <= limit
  {
    var i, j := WithinIsSlice(history, from, from + window, true);
    var next := i + limit;
    if next < |history| { assert history[next] - history[i] >= window && history[next] != history[i] + window; }
  }

  lemma {:induction false} CountAtLeast(history: seq<real>, i: nat, j: nat, from: real, to: real)
    requires Sorted(history) && i <= j < |history| && from <= history[i] && history[j] <= to
    ensures |Within(history, from, to, true)| >= j - i + 1
  {
    var last := |history| - 1;
    assert history[i] <= history[last] && history[..last][i..] == history[i..last];
    if j < last {
      CountAtLeast(history[..last], i, j, from, to);
    } else if i < j {
      CountAtLeast(history[..last], i, j - 1, from, to);
    }
  }

  lemma BothGranted()
    ensures Granted([0.0, 1.0], 1, 1.0) == [0.0, 1.0]
  {
    assert Grants([], 0.0, 1, 1.0) by { AfterNothing(0.0 - 1.0); }
    assert Grants([0.0], 1.0, 1, 1.0) by {
      AfterPops([0.0], 0.0);
      AfterNothing(0.0);
    }
    hide Granted, Grants, After;
    OneMoreAttempt([], 0.0, 1, 1.0);
    assert [] + [0.0] == [0.0] && [0.0] + [1.0] == [0.0, 1.0];
    OneMoreAttempt([0.0], 1.0, 1, 1.0);
  }

  /** One acquisition a second: a closed second can hold two. */
  lemma ClosedWindowCanHoldMore()
    ensures InClosedWindow(Granted([0.0, 1.0], 1, 1.0), 0.0, 1.0) == 2
  {
    hide Granted, Within;
    BothGranted();
    var i, j := WithinIsSlice([0.0, 1.0], 0.0, 1.0, true);
    CountAtLeast([0.0, 1.0], 0, 1, 0.0, 1.0);
  }

  /** An attempt is granted exactly when there are fewer than `limit` acquisitions or the one `limit` places back is at least a
      window ago: nobody is refused without need. */
  lemma GrantedIff(attempts: seq<real>, now: real, limit: nat, window: real)
    requires Sorted(attempts) && (attempts == [] || attempts[|attempts| - 1] <= now) && limit > 0 && window > 0.0
    ensures var history := Granted(attempts, limit, window);
            Granted(attempts + [now], limit, window)
            == if |history| < limit || history[|history| - limit] <= now - window then history + [now] else history
  {
    hide Granted, Spaced, After, Sorted;
    var history := Granted(attempts, limit, window);
    OneMoreAttempt(attempts, now, limit, window);
    GrantedIsSpaced(attempts, limit, window);
    var n := AfterIsSuffix(history, now - window);
    assert |history| >= limit ==> (|history| - limit < n <==> history[|history| - limit] <= now - window);
  }
}
