/** The circuit breaker of one provider (providers/health.py, and the three methods of providers/registry.py that use
    it). Times are clock readings; recording a failure reads the clock twice. */
module ProviderHealth {
  import opened Basics

  const FAILURE_THRESHOLD := 2
  const COOLDOWN_SECONDS := 60.0

  datatype Op =
    | Success(at: real)
    | Failure(at: real, openedAt: real, errorType: string)
    | Query(at: real)

  datatype State = State(
    status: string, consecutiveFailures: nat, lastSuccessAt: Option<real>, lastFailureAt: Option<real>,
    lastErrorType: string, circuitOpenUntil: Option<real>)

  const UNKNOWN := State("unknown", 0, None, None, "", None)

  predicate Available(s: State, now: real) {
    s.circuitOpenUntil.None? || s.circuitOpenUntil.value <= now
  }

  /** A query clears a circuit whose time is over. */
  function Step(s: State, op: Op): State {
    match op
    case Success(at) => State("healthy", 0, Some(at), s.lastFailureAt, "", None)
    case Failure(at, openedAt, errorType) =>
      var n := s.consecutiveFailures + 1;
      if n >= FAILURE_THRESHOLD
      then State("circuit_open", n, s.lastSuccessAt, Some(at), errorType, Some(openedAt + COOLDOWN_SECONDS))
      else State("unhealthy", n, s.lastSuccessAt, Some(at), errorType, s.circuitOpenUntil)
    case Query(at) =>
      if s.circuitOpenUntil.Some? && s.circuitOpenUntil.value <= at then s.(circuitOpenUntil := None, status := "unknown")
      else s
  }

  function Run(ops: seq<Op>): State {
    if ops == [] then UNKNOWN else Step(Run(ops[..|ops| - 1]), ops[|ops| - 1])
  }

  class Health {
    var status: string
    var consecutiveFailures: nat
    var lastSuccessAt: Option<real>
    var lastFailureAt: Option<real>
    var lastErrorType: string
    var circuitOpenUntil: Option<real>

    function Now(): State reads this {
      State(status, consecutiveFailures, lastSuccessAt, lastFailureAt, lastErrorType, circuitOpenUntil)
    }

    constructor ()
      ensures Now() == UNKNOWN
    {
      status, consecutiveFailures, lastErrorType := "unknown", 0, "";
      lastSuccessAt, lastFailureAt, circuitOpenUntil := None, None, None;
    }

    method IsAvailable(now: real) returns (available: bool)
      modifies `status, `circuitOpenUntil
      ensures Now() == Step(old(Now()), Query(now)) && (available <==> Available(old(Now()), now))
    {
      if circuitOpenUntil.None? { return true; }
      if circuitOpenUntil.value <= now {
        circuitOpenUntil := None;
        status := "unknown";
        return true;
      }
      available := false;
    }

    method RecordSuccess(at: real)
      modifies this
      ensures Now() == Step(old(Now()), Success(at))
    {
      status := "healthy";
      consecutiveFailures := 0;
      lastSuccessAt := Some(at);
      lastErrorType := "";
      circuitOpenUntil := None;
    }

    method RecordFailure(at: real, openedAt: real, errorType: string)
      modifies this
      ensures Now() == Step(old(Now()), Failure(at, openedAt, errorType))
    {
      status := "unhealthy";
      consecutiveFailures := consecutiveFailures + 1;
      lastFailureAt := Some(at);
      lastErrorType := errorType;
      if consecutiveFailures >= FAILURE_THRESHOLD {
        status := "circuit_open";
        circuitOpenUntil := Some(openedAt + COOLDOWN_SECONDS);
      }
    }
  }

  // ---- What availability means ----

  /** Failures since the last success. */
  function Failures(ops: seq<Op>): nat {
    if ops == [] then 0
    else
      match ops[|ops| - 1]
      case Success(_) => 0
      case Failure(_, _, _) => Failures(ops[..|ops| - 1]) + 1
      case Query(_) => Failures(ops[..|ops| - 1])
  }

  /** When the latest failure was recorded, if there was one since the last success. */
  function LatestFailure(ops: seq<Op>): Option<real> {
    if ops == [] then None
    else
      match ops[|ops| - 1]
      case Success(_) => None
      case Failure(_, openedAt, _) => Some(openedAt)
      case Query(_) => LatestFailure(ops[..|ops| - 1])
  }

  /** At least two failures since the last success, and less than 60 seconds since the latest. */
  predicate Blocked(ops: seq<Op>, now: real) {
    Failures(ops) >= 2 && LatestFailure(ops).Some? && now < LatestFailure(ops).value + 60.0
  }

  /** A query since the latest failure found the circuit's time over. */
  predicate Cleared(ops: seq<Op>) {
    ops != [] && ops[|ops| - 1].Query?
    && (Cleared(ops[..|ops| - 1]) || !Blocked(ops[..|ops| - 1], ops[|ops| - 1].at))
  }

  lemma {:induction false} StateByHistory(ops: seq<Op>)
    ensures Run(ops).consecutiveFailures == Failures(ops)
    ensures Failures(ops) > 0 <==> LatestFailure(ops).Some?
    ensures Run(ops).circuitOpenUntil
         == if Failures(ops) >= 2 && !Cleared(ops) then Some(LatestFailure(ops).value + 60.0) else None
  {
    if ops != [] { StateByHistory(ops[..|ops| - 1]); }
  }

  /** Whatever the clock does: unavailable exactly when blocked and not cleared by an earlier query. */
  lemma AvailableUnlessBlocked(ops: seq<Op>, now: real)
    ensures Available(Run(ops), now) <==> !Blocked(ops, now) || Cleared(ops)
  {
    StateByHistory(ops);
  }

  /** The clock does not go back from one reading to the next, and `now` is not before them. */
  ghost predicate ClockRuns(ops: seq<Op>, now: real) {
    ops != [] ==>
      var last := ops[|ops| - 1];
      ClockRuns(ops[..|ops| - 1], last.at) && last.at <= now && (last.Failure? ==> last.at <= last.openedAt <= now)
  }

  lemma {:induction false} ClearedIsOver(ops: seq<Op>, now: real)
    requires ClockRuns(ops, now) && Cleared(ops)
    ensures !Blocked(ops, now)
  {
    var before, last := ops[..|ops| - 1], ops[|ops| - 1];
    if Cleared(before) { ClearedIsOver(before, last.at); }
  }

  /** On a clock that does not go back, a provider is unavailable exactly while it is blocked. */
  lemma UnavailableExactlyWhileBlocked(ops: seq<Op>, now: real)
    requires ClockRuns(ops, now)
    ensures Available(Run(ops), now) <==> !Blocked(ops, now)
  {
    AvailableUnlessBlocked(ops, now);
    if Cleared(ops) { ClearedIsOver(ops, now); }
  }

  function WithoutQueries(ops: seq<Op>): seq<Op> {
    if ops == [] then []
    else WithoutQueries(ops[..|ops| - 1]) + if ops[|ops| - 1].Query? then [] else [ops[|ops| - 1]]
  }

  lemma {:induction false} QueriesDoNotBlock(ops: seq<Op>)
    ensures var without := WithoutQueries(ops);
            && Failures(without) == Failures(ops) && LatestFailure(without) == LatestFailure(ops) && !Cleared(without)
  {
    if ops != [] {
      var before, last := ops[..|ops| - 1], ops[|ops| - 1];
      QueriesDoNotBlock(before);
      if last.Query? {
        assert WithoutQueries(ops) == WithoutQueries(before);
      } else {
        assert WithoutQueries(ops)[..|WithoutQueries(ops)| - 1] == WithoutQueries(before);
      }
    }
  }

  /** Then the clearing done by queries never changes a later answer. */
  lemma QueriesDoNotMatter(ops: seq<Op>, now: real)
    requires ClockRuns(ops, now)
    ensures Available(Run(ops), now) <==> Available(Run(WithoutQueries(ops)), now)
  {
    UnavailableExactlyWhileBlocked(ops, now);
    AvailableUnlessBlocked(WithoutQueries(ops), now);
    QueriesDoNotBlock(ops);
  }

  lemma HistorySnoc(ops: seq<Op>, op: Op)
    ensures Failures(ops + [op])
         == match op case Success(_) => 0 case Failure(_, _, _) => Failures(ops) + 1 case Query(_) => Failures(ops)
    ensures LatestFailure(ops + [op])
         == match op
            case Success(_) => None
            case Failure(_, openedAt, _) => Some(openedAt)
            case Query(_) => LatestFailure(ops)
    ensures Cleared(ops + [op]) <==> op.Query? && (Cleared(ops) || !Blocked(ops, op.at))
  {
    assert (ops + [op])[..|ops|] == ops;
  }

  /** On a clock that is set back they do: here a query at 60 makes the provider available at 30. */
  lemma ClockSetBack()
    ensures var failures := [Failure(0.0, 0.0, "")] + [Failure(0.0, 0.0, "")];
            !Available(Run(failures), 30.0) && Available(Run(failures + [Query(60.0)]), 30.0)
  {
    var f := Failure(0.0, 0.0, "");
    HistorySnoc([], f);
    assert [] + [f] == [f];
    HistorySnoc([f], f);
    HistorySnoc([f] + [f], Query(60.0));
    hide Run, Failures, LatestFailure, Cleared;
    AvailableUnlessBlocked([f] + [f], 30.0);
    AvailableUnlessBlocked([f] + [f] + [Query(60.0)], 30.0);
  }
}
