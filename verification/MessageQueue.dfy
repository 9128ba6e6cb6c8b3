/** The compacting queue of outgoing chat messages (messaging/limiter.py): submissions under a key that is still queued
    replace its function and share its run. Functions and futures are known by numbers; one worker takes tasks. */
module MessageQueue {
  import opened Basics

  datatype Task = Task(func: int, futures: seq<int>)

  datatype Outcome = Result(value: int) | Exception

  datatype Op =
    | Submit(key: string, func: int, futures: seq<int>, front: bool)
    | Pop
    | Finish(outcome: Outcome)

  /** The queue, what the worker is running, and the futures' outcomes. */
  datatype State = State(order: seq<string>, tasks: map<string, Task>, inFlight: Option<Task>, outcomes: map<int, Outcome>)

  const EMPTY := State([], map[], None, map[])

  function SetOutcomes(outcomes: map<int, Outcome>, futures: seq<int>, outcome: Outcome): map<int, Outcome> {
    if futures == [] then outcomes
    else
      var before, f := SetOutcomes(outcomes, futures[..|futures| - 1], outcome), futures[|futures| - 1];
      if f in before then before else before[f := outcome]
  }

  predicate CanPop(s: State) {
    s.inFlight.None? && s.order != [] && s.order[0] in s.tasks
  }

  /** Steps that cannot be taken now leave the state alone. */
  function Step(s: State, op: Op): State {
    match op
    case Submit(key, func, futures, front) =>
      if key in s.tasks then s.(tasks := s.tasks[key := Task(func, s.tasks[key].futures + futures)])
      else s.(tasks := s.tasks[key := Task(func, futures)], order := if front then [key] + s.order else s.order + [key])
    case Pop =>
      if CanPop(s) then
        s.(order := s.order[1..], tasks := s.tasks - {s.order[0]}, inFlight := Some(s.tasks[s.order[0]]))
      else s
    case Finish(outcome) =>
      if s.inFlight.None? then s
      else s.(inFlight := None, outcomes := SetOutcomes(s.outcomes, s.inFlight.value.futures, outcome))
  }

  function Run(ops: seq<Op>): State {
    if ops == [] then EMPTY else Step(Run(ops[..|ops| - 1]), ops[|ops| - 1])
  }

  class Queue {
    var queueList: seq<string>
    var queueMap: map<string, Task>
    var inFlight: Option<Task>
    var outcomes: map<int, Outcome>

    function Now(): State reads this {
      State(queueList, queueMap, inFlight, outcomes)
    }

    constructor ()
      ensures Now() == EMPTY
    {
      queueList, queueMap, inFlight, outcomes := [], map[], None, map[];
    }

    /** `_enqueue_internal_multi`. */
    method Enqueue(func: int, futures: seq<int>, key: string, front: bool)
      modifies `queueList, `queueMap
      ensures Now() == Step(old(Now()), Submit(key, func, futures, front))
    {
      if key in queueMap {
        var oldFutures := queueMap[key].futures;
        queueMap := queueMap[key := Task(func, oldFutures + futures)];
      } else {
        queueMap := queueMap[key := Task(func, futures)];
        if front {
          queueList := [key] + queueList;
        } else {
          queueList := queueList + [key];
        }
      }
    }

    /** The part of `_worker` under the condition. The key just taken always has a task. */
    method TakeNext() returns (task: Option<Task>)
      requires inFlight.None? && forall k | k in queueList :: k in queueMap
      modifies `queueList, `queueMap, `inFlight
      ensures Now() == Step(old(Now()), Pop)
      ensures task == if old(queueList) == [] then None else Some(old(queueMap)[old(queueList)[0]])
    {
      if queueList == [] { return None; }
      var key := queueList[0];
      queueList := queueList[1..];
      task := Some(queueMap[key]);
      queueMap := queueMap - {key};
      inFlight := task;
    }

    /** The part of `_worker` after the function has returned or raised. */
    method SetFutures(outcome: Outcome)
      requires inFlight.Some?
      modifies `inFlight, `outcomes
      ensures Now() == Step(old(Now()), Finish(outcome))
    {
      var futures := inFlight.value.futures;
      for k := 0 to |futures|
        modifies `outcomes
        invariant outcomes == SetOutcomes(old(outcomes), futures[..k], outcome)
      {
        assert futures[..k + 1][..k] == futures[..k];
        if futures[k] !in outcomes { outcomes := outcomes[futures[k] := outcome]; }
      }
      assert futures[..|futures|] == futures;
      inFlight := None;
    }
  }

  // ---- The list and the map ----

  ghost predicate Consistent(s: State) {
    Distinct(s.order) && forall k :: k in s.order <==> k in s.tasks
  }

  lemma StepConsistent(s: State, op: Op)
    requires Consistent(s)
    ensures Consistent(Step(s, op))
  {
    if op.Pop? && CanPop(s) {
      assert s.order == [s.order[0]] + s.order[1..];
    } else if op.Submit? && op.key !in s.tasks {
      assert op.key !in s.order;
    }
  }

  /** In every reachable state the list has no repeats and lists exactly the keys of the map. */
  lemma {:induction false} ListMatchesMap(ops: seq<Op>)
    ensures Consistent(Run(ops))
  {
    if ops != [] {
      ListMatchesMap(ops[..|ops| - 1]);
      StepConsistent(Run(ops[..|ops| - 1]), ops[|ops| - 1]);
    }
  }

  // ---- Compaction ----

  /** The submissions for `key` since it was last taken. */
  function Since(ops: seq<Op>, key: string): seq<Op> {
    if ops == [] then []
    else
      var before, op := ops[..|ops| - 1], ops[|ops| - 1];
      if op.Submit? && op.key == key then Since(before, key) + [op]
      else if op.Pop? && CanPop(Run(before)) && Run(before).order[0] == key then []
      else Since(before, key)
  }

  function FuturesOf(op: Op): seq<int> {
    if op.Submit? then op.futures else []
  }

  /** A queued key has the function of the last of these submissions and the futures of all of them, in order; so
      that is what its run will use. */
  lemma {:induction false} LastFunctionAllFutures(ops: seq<Op>, key: string)
    ensures var since, s := Since(ops, key), Run(ops);
            && (key in s.tasks <==> since != [])
            && (forall k | 0 <= k < |since| :: since[k].Submit?)
            && (since != [] ==> s.tasks[key] == Task(since[|since| - 1].func, Collect(FuturesOf, since)))
  {
    hide Step, Collect;
    CollectNothing(FuturesOf);
    if ops != [] {
      var before, op := ops[..|ops| - 1], ops[|ops| - 1];
      LastFunctionAllFutures(before, key);
      StepOnKey(Run(before), op, key);
      if op.Submit? && op.key == key {
        CollectSnoc(FuturesOf, Since(before, key), op);
        assert [] + op.futures == op.futures;
      }
    }
  }

  lemma StepOnKey(s: State, op: Op, key: string)
    ensures var s' := Step(s, op);
            if op.Submit? && op.key == key then
              key in s'.tasks
              && s'.tasks[key] == Task(op.func, (if key in s.tasks then s.tasks[key].futures else []) + op.futures)
            else if op.Pop? && CanPop(s) && s.order[0] == key then key !in s'.tasks
            else (key in s'.tasks <==> key in s.tasks) && (key in s.tasks ==> s'.tasks[key] == s.tasks[key])
  {
    if op.Submit? && op.key == key && key !in s.tasks { assert [] + op.futures == op.futures; }
  }

  // ---- Futures ----

  function Queued(order: seq<string>, tasks: map<string, Task>): multiset<int> {
    if order == [] then multiset{}
    else (if order[0] in tasks then multiset(tasks[order[0]].futures) else multiset{}) + Queued(order[1..], tasks)
  }

  function Running(s: State): multiset<int> {
    if s.inFlight.Some? then multiset(s.inFlight.value.futures) else multiset{}
  }

  /** The futures given an outcome, in order. */
  function Finished(ops: seq<Op>): seq<int> {
    if ops == [] then []
    else
      var before, op := ops[..|ops| - 1], ops[|ops| - 1];
      var s := Run(before);
      Finished(before) + if op.Finish? && s.inFlight.Some? then s.inFlight.value.futures else []
  }

  lemma {:induction false} QueuedIgnores(order: seq<string>, tasks: map<string, Task>, tasks': map<string, Task>)
    requires forall k | k in order :: k in tasks && k in tasks' && tasks[k] == tasks'[k]
    ensures Queued(order, tasks) == Queued(order, tasks')
  {
    if order != [] {
      QueuedIgnores(order[1..], tasks, tasks');
    }
  }

  lemma {:induction false} QueuedAtEnd(order: seq<string>, tasks: map<string, Task>, key: string)
    requires key in tasks
    ensures Queued(order + [key], tasks) == Queued(order, tasks) + multiset(tasks[key].futures)
  {
    if order == [] {
      assert [] + [key] == [key] && [key][1..] == [];
    } else {
      QueuedAtEnd(order[1..], tasks, key);
      assert (order + [key])[1..] == order[1..] + [key];
    }
  }

  lemma {:induction false} QueuedCompacts(order: seq<string>, tasks: map<string, Task>, key: string, func: int, more: seq<int>)
    requires Distinct(order) && key in order && (forall k | k in order :: k in tasks)
    ensures Queued(order, tasks[key := Task(func, tasks[key].futures + more)]) == Queued(order, tasks) + multiset(more)
  {
    var tasks' := tasks[key := Task(func, tasks[key].futures + more)];
    var rest := order[1..];
    assert order == [order[0]] + rest;
    assert multiset(tasks[key].futures + more) == multiset(tasks[key].futures) + multiset(more);
    if order[0] == key {
      assert key !in rest;
      QueuedIgnores(rest, tasks, tasks');
    } else {
      QueuedCompacts(rest, tasks, key, func, more);
    }
  }

  lemma QueuedInFront(order: seq<string>, tasks: map<string, Task>, key: string)
    requires key in tasks
    ensures Queued([key] + order, tasks) == multiset(tasks[key].futures) + Queued(order, tasks)
  {
    assert ([key] + order)[1..] == order;
  }

  lemma SubmitNew(s: State, key: string, func: int, futures: seq<int>, front: bool)
    requires Consistent(s) && key !in s.tasks
    ensures var s' := Step(s, Submit(key, func, futures, front));
            Queued(s'.order, s'.tasks) == Queued(s.order, s.tasks) + multiset(futures)
  {
    hide Queued;
    var tasks := s.tasks[key := Task(func, futures)];
    QueuedIgnores(s.order, s.tasks, tasks);
    if front { QueuedInFront(s.order, tasks, key); } else { QueuedAtEnd(s.order, tasks, key); }
  }

  lemma SubmitConserves(s: State, op: Op)
    requires Consistent(s) && op.Submit?
    ensures var s' := Step(s, op); Queued(s'.order, s'.tasks) == Queued(s.order, s.tasks) + multiset(op.futures)
    ensures Running(Step(s, op)) == Running(s)
  {
    hide Queued;
    if op.key in s.tasks {
      QueuedCompacts(s.order, s.tasks, op.key, op.func, op.futures);
    } else {
      SubmitNew(s, op.key, op.func, op.futures, op.front);
    }
  }

  lemma PopConserves(s: State)
    requires Consistent(s)
    ensures var s' := Step(s, Pop);
            Queued(s'.order, s'.tasks) + Running(s') == Queued(s.order, s.tasks) + Running(s)
  {
    if CanPop(s) {
      var s' := Step(s, Pop);
      assert s.order == [s.order[0]] + s.order[1..];
      QueuedIgnores(s.order[1..], s.tasks, s'.tasks);
    }
  }

  lemma FinishConserves(s: State, op: Op)
    requires op.Finish?
    ensures var s' := Step(s, op);
            && s'.order == s.order && s'.tasks == s.tasks
            && Running(s) == Running(s') + if s.inFlight.Some? then multiset(s.inFlight.value.futures) else multiset{}
  {}

  /** No future is lost or duplicated: those submitted are those queued, those of the running task, and those
      finished. */
  lemma {:induction false} FuturesConserved(ops: seq<Op>)
    ensures var s := Run(ops);
            multiset(Collect(FuturesOf, ops)) == Queued(s.order, s.tasks) + Running(s) + multiset(Finished(ops))
  {
    hide Queued, Consistent, Step, Running;
    NothingQueued();
    if ops == [] {
    } else {
      var before, op := ops[..|ops| - 1], ops[|ops| - 1];
      FuturesConserved(before);
      ListMatchesMap(before);
      var s := Run(before);
      Together(Collect(FuturesOf, before), FuturesOf(op));
      hide Run;
      match op {
        case Submit(_, _, _, _) => SubmitConserves(s, op);
        case Pop => PopConserves(s);
        case Finish(_) => FinishConserves(s, op);
      }
    }
  }

  lemma NothingQueued()
    ensures Queued([], map[]) == multiset{} && Running(EMPTY) == multiset{}
  {}

  lemma Together(xs: seq<int>, ys: seq<int>)
    ensures multiset(xs + ys) == multiset(xs) + multiset(ys)
  {}

  ghost predicate IsQueued(s: State, f: int) {
    f in Queued(s.order, s.tasks)
  }

  lemma OnlyOnce(xs: seq<int>, f: int)
    requires Distinct(xs)
    ensures multiset(xs)[f] <= 1
  {
    if xs != [] {
      assert xs == xs[..|xs| - 1] + [xs[|xs| - 1]];
      OnlyOnce(xs[..|xs| - 1], f);
      if f == xs[|xs| - 1] { assert f !in xs[..|xs| - 1]; }
    }
  }

  /** When every future is submitted once, each is in exactly one place. */
  lemma EachFutureInOnePlace(ops: seq<Op>, f: int)
    requires Distinct(Collect(FuturesOf, ops))
    ensures var s := Run(ops);
            var queued, running, finished := IsQueued(s, f), f in Running(s), f in Finished(ops);
            && (f in Collect(FuturesOf, ops) <==> queued || running || finished)
            && !(queued && running) && !(queued && finished) && !(running && finished)
  {
    hide Run, Queued, Running, Collect, Finished;
    FuturesConserved(ops);
    OnlyOnce(Collect(FuturesOf, ops), f);
    var s := Run(ops);
    var all := Queued(s.order, s.tasks) + Running(s) + multiset(Finished(ops));
    assert all[f] == Queued(s.order, s.tasks)[f] + Running(s)[f] + multiset(Finished(ops))[f];
    assert f in Collect(FuturesOf, ops) <==> f in multiset(Collect(FuturesOf, ops));
  }

  lemma SetOutcomesSets(outcomes: map<int, Outcome>, futures: seq<int>, outcome: Outcome, f: int)
    ensures var now := SetOutcomes(outcomes, futures, outcome);
            && (f in now <==> f in outcomes || f in futures)
            && (f in outcomes ==> now[f] == outcomes[f])
            && (f !in outcomes && f in futures ==> now[f] == outcome)
  {}

  lemma {:induction false} OutcomesAreOfFinished(ops: seq<Op>, f: int)
    ensures f in Run(ops).outcomes <==> f in Finished(ops)
  {
    if ops != [] {
      var before, op := ops[..|ops| - 1], ops[|ops| - 1];
      OutcomesAreOfFinished(before, f);
      var s := Run(before);
      if op.Finish? && s.inFlight.Some? { SetOutcomesSets(s.outcomes, s.inFlight.value.futures, op.outcome, f); }
    }
  }

  lemma {:induction false} OutcomesStay(ops: seq<Op>, n: nat, f: int)
    requires n <= |ops| && f in Run(ops[..n]).outcomes
    ensures f in Run(ops).outcomes && Run(ops).outcomes[f] == Run(ops[..n]).outcomes[f]
  {
    if n == |ops| {
      assert ops[..n] == ops;
    } else {
      var before, op := ops[..|ops| - 1], ops[|ops| - 1];
      assert before[..n] == ops[..n];
      OutcomesStay(before, n, f);
      var s := Run(before);
      if op.Finish? && s.inFlight.Some? { SetOutcomesSets(s.outcomes, s.inFlight.value.futures, op.outcome, f); }
    }
  }

  lemma SubmittedBefore(ops: seq<Op>, n: nat)
    requires n <= |ops| && Distinct(Collect(FuturesOf, ops))
    ensures Distinct(Collect(FuturesOf, ops[..n]))
  {
    assert ops[..n] + ops[n..] == ops;
    CollectAppend(FuturesOf, ops[..n], ops[n..]);
    var a, all := Collect(FuturesOf, ops[..n]), Collect(FuturesOf, ops);
    forall i, j | 0 <= i < j < |a| ensures a[i] != a[j] {
      assert all[i] == a[i] && all[j] == a[j];
    }
  }

  lemma RunAt(ops: seq<Op>, n: nat)
    requires n < |ops|
    ensures Run(ops[..n + 1]) == Step(Run(ops[..n]), ops[n])
  {
    assert ops[..n + 1][..n] == ops[..n];
  }

  /** A future ends up with the outcome of the run that carried it, and keeps it. */
  lemma FutureGetsItsRun(ops: seq<Op>, n: nat, f: int)
    requires Distinct(Collect(FuturesOf, ops)) && n < |ops| && ops[n].Finish?
    requires Run(ops[..n]).inFlight.Some? && f in Run(ops[..n]).inFlight.value.futures
    ensures f in Run(ops).outcomes && Run(ops).outcomes[f] == ops[n].outcome
  {
    var s := Run(ops[..n]);
    hide Run, Step, SetOutcomes, Queued, Finished, Collect, Distinct;
    SubmittedBefore(ops, n);
    EachFutureInOnePlace(ops[..n], f);
    OutcomesAreOfFinished(ops[..n], f);
    FinishSets(s, ops[n], f);
    RunAt(ops, n);
    OutcomesStay(ops, n + 1, f);
  }

  lemma FinishSets(s: State, op: Op, f: int)
    requires op.Finish? && s.inFlight.Some? && f in s.inFlight.value.futures && f !in s.outcomes
    ensures f in Step(s, op).outcomes && Step(s, op).outcomes[f] == op.outcome
  {
    SetOutcomesSets(s.outcomes, s.inFlight.value.futures, op.outcome, f);
  }

  // ---- Order of service ----

  /** How many tasks are taken by `more` after `ops`. */
  function Taken(ops: seq<Op>, more: seq<Op>): nat {
    if more == [] then 0
    else
      var before, op := more[..|more| - 1], more[|more| - 1];
      Taken(ops, before) + if op.Pop? && CanPop(Run(ops + before)) then 1 else 0
  }

  lemma RunLast(ops: seq<Op>, more: seq<Op>)
    requires more != []
    ensures Run(ops + more) == Step(Run(ops + more[..|more| - 1]), more[|more| - 1])
  {
    hide Run, Step;
    var last := |more| - 1;
    assert ops + more == (ops + more[..last]) + [more[last]];
    RunSnoc(ops + more[..last], more[last]);
  }

  lemma RunSnoc(ops: seq<Op>, op: Op)
    ensures Run(ops + [op]) == Step(Run(ops), op)
  {
    hide Step;
    assert (ops + [op])[..|ops|] == ops;
  }

  /** How many new keys `more` inserts at the front after `ops`. */
  function Fronts(ops: seq<Op>, more: seq<Op>): nat {
    if more == [] then 0
    else
      var before, op := more[..|more| - 1], more[|more| - 1];
      Fronts(ops, before) + if op.Submit? && op.front && op.key !in Run(ops + before).tasks then 1 else 0
  }

  /** The key at place `p` is not taken by `more`. */
  ghost predicate NotReached(ops: seq<Op>, more: seq<Op>, p: nat) {
    forall m | 0 <= m <= |more| :: Taken(ops, more[..m]) <= p + Fronts(ops, more[..m])
  }

  lemma MovesByOne(s: State, op: Op, place: nat)
    requires Consistent(s) && place < |s.order| && (op.Pop? && CanPop(s) ==> place > 0)
    ensures var place' := place - (if op.Pop? && CanPop(s) then 1 else 0)
                          + if op.Submit? && op.front && op.key !in s.tasks then 1 else 0;
            place' < |Step(s, op).order| && Step(s, op).order[place'] == s.order[place]
  {}

  /** Where a queued key is, whatever is submitted, compacted and inserted at the front: one place up for every task taken,
      one place down for every new key inserted at the front. */
  lemma {:induction false} KeyMoves(ops: seq<Op>, more: seq<Op>, p: nat)
    requires p < |Run(ops).order| && NotReached(ops, more, p)
    ensures var place, order := p - Taken(ops, more) + Fronts(ops, more), Run(ops + more).order;
            0 <= place < |order| && order[place] == Run(ops).order[p]
  {
    hide Run, Step;
    if more == [] {
      assert ops + more == ops;
    } else {
      var last := |more| - 1;
      var before := more[..last];
      assert more[..|more|] == more;
      assert forall m | 0 <= m <= last :: before[..m] == more[..m];
      assert Taken(ops, more) <= p + Fronts(ops, more) by { assert more[..|more|] == more; }
      KeyMoves(ops, before, p);
      RunLast(ops, more);
      ListMatchesMap(ops + before);
      MovesByOne(Run(ops + before), more[last], p - Taken(ops, before) + Fronts(ops, before));
    }
  }

  /** So the key at place `p` is the one taken after `p` others and those inserted before them at the front. */
  lemma KeyServedInTurn(ops: seq<Op>, more: seq<Op>, p: nat)
    requires p < |Run(ops).order| && NotReached(ops, more, p) && Taken(ops, more) == p + Fronts(ops, more)
    requires Run(ops + more).inFlight.None?
    ensures var key, s := Run(ops).order[p], Run(ops + more);
            && key in s.tasks && Run(ops + more + [Pop]).inFlight == Some(s.tasks[key])
            && key !in Run(ops + more + [Pop]).order
  {
    hide Run, Step, NotReached, Taken, Fronts, Consistent;
    KeyMoves(ops, more, p);
    ListMatchesMap(ops + more);
    RunLast(ops + more, [Pop]);
    assert [Pop][..0] == [] && ops + more + [] == ops + more;
    PopServesFirst(Run(ops + more));
  }

  lemma PopServesFirst(s: State)
    requires Consistent(s) && s.order != [] && s.inFlight.None?
    ensures var key, s' := s.order[0], Step(s, Pop);
            key in s.tasks && s'.inFlight == Some(s.tasks[key]) && key !in s'.order
  {
    assert s.order == [s.order[0]] + s.order[1..];
  }

  // ---- The worker ----

  /** The `n`-th operation finds the worker free and a key queued, and nothing has finished since. */
  ghost predicate RunsSince(ops: seq<Op>, n: nat) {
    && n < |ops| && ops[n].Pop? && Run(ops[..n]).inFlight.None? && Run(ops[..n]).order != []
    && forall m | n < m < |ops| :: !ops[m].Finish?
  }

  lemma RunsSinceNext(before: seq<Op>, op: Op, n: nat)
    ensures RunsSince(before + [op], n)
       <==> if n < |before| then RunsSince(before, n) && !op.Finish?
            else n == |before| && op.Pop? && Run(before).inFlight.None? && Run(before).order != []
  {
    hide Run;
    var ops := before + [op];
    assert ops[..|before|] == before && ops[|before|] == op;
    if n < |before| { assert ops[..n] == before[..n]; }
  }

  /** The worker is busy exactly from when it takes a task until that has finished. */
  lemma {:induction false} WorkerIsBusyIff(ops: seq<Op>)
    ensures Run(ops).inFlight.Some? <==> exists n: nat :: RunsSince(ops, n)
  {
    hide RunsSince;
    if ops == [] {
      assert forall n: nat :: !RunsSince([], n) by { NothingRuns(); }
    } else {
      var before, op := ops[..|ops| - 1], ops[|ops| - 1];
      assert before + [op] == ops;
      WorkerIsBusyIff(before);
      ListMatchesMap(before);
      forall n: nat { RunsSinceNext(before, op, n); }
      if exists n: nat :: RunsSince(before, n) {
        var n: nat :| RunsSince(before, n);
        assert n < |before| by { RunsWithin(before, n); }
        assert !op.Finish? ==> RunsSince(ops, n);
      }
      if op.Pop? && Run(before).inFlight.None? && Run(before).order != [] { assert RunsSince(ops, |before|); }
    }
  }

  lemma NothingRuns()
    ensures forall n: nat :: !RunsSince([], n)
  {}

  lemma RunsWithin(ops: seq<Op>, n: nat)
    requires RunsSince(ops, n)
    ensures n < |ops|
  {}
}
