/** The session manager's four dictionaries (cli/manager.py). Sessions are known by numbers in order of creation; a new
    session waits under a temporary id until its real id is registered. */
module SessionManager {
  import opened Basics

  datatype State = State(
    sessions: map<string, int>, pending: map<string, int>,
    tempToReal: map<string, string>, realToTemp: map<string, string>,
    stopped: set<int>, created: nat)

  const EMPTY := State(map[], map[], map[], map[], {}, 0)

  /** Calls to the manager; `newId` is the temporary id a new session would get. */
  datatype Op =
    | GetOrCreate(wanted: Option<string>, newId: string)
    | Register(temp: string, realId: string)
    | Remove(id: string)
    | StopAll

  predicate IsTemp(id: string) {
    "pending_" <= id
  }

  function Lookup(m: map<string, string>, k: string): Option<string> {
    if k in m then Some(m[k]) else None
  }

  function Without(m: map<string, string>, k: Option<string>): map<string, string> {
    if k.Some? then m - {k.value} else m
  }

  /** The session an id leads to. */
  function Find(s: State, id: string): Option<int> {
    var lookup := if id in s.tempToReal then s.tempToReal[id] else id;
    if lookup in s.sessions then Some(s.sessions[lookup])
    else if lookup in s.pending then Some(s.pending[lookup])
    else None
  }

  function Known(s: State, id: Option<string>): Option<int> {
    if id.Some? && id.value != "" then Find(s, id.value) else None
  }

  /** Mappings of an id that leads nowhere. */
  function Forget(s: State, id: Option<string>): State {
    if id.None? || id.value == "" then s
    else
      var staleReal := Lookup(s.tempToReal, id.value);
      var tempToReal, realToTemp := s.tempToReal - {id.value}, Without(s.realToTemp, staleReal);
      var staleTemp := Lookup(realToTemp, id.value);
      s.(tempToReal := Without(tempToReal, staleTemp), realToTemp := realToTemp - {id.value})
  }

  function Step(s: State, op: Op): State {
    match op
    case GetOrCreate(id, newId) =>
      if Known(s, id).Some? then s
      else var f := Forget(s, id); f.(pending := f.pending[newId := f.created], created := f.created + 1)
    case Register(temp, realId) =>
      if temp !in s.pending then s
      else
        var session := s.pending[temp];
        var replaced := realId in s.sessions && s.sessions[realId] != session;
        var oldTemp := if replaced then Lookup(s.realToTemp, realId) else None;
        State(s.sessions[realId := session], s.pending - {temp},
              Without(s.tempToReal, oldTemp)[temp := realId], s.realToTemp[realId := temp],
              if replaced then s.stopped + {s.sessions[realId]} else s.stopped, s.created)
    case Remove(id) =>
      if id in s.pending then s.(pending := s.pending - {id}, stopped := s.stopped + {s.pending[id]})
      else if id in s.sessions then
        s.(sessions := s.sessions - {id}, stopped := s.stopped + {s.sessions[id]},
           tempToReal := Without(s.tempToReal, Lookup(s.realToTemp, id)), realToTemp := s.realToTemp - {id})
      else s
    case StopAll => State(map[], map[], map[], map[], s.stopped + s.sessions.Values + s.pending.Values, s.created)
  }

  function Run(ops: seq<Op>): State {
    if ops == [] then EMPTY else Step(Run(ops[..|ops| - 1]), ops[|ops| - 1])
  }

  class CLISessionManager {
    var sessions: map<string, int>
    var pendingSessions: map<string, int>
    var tempToReal: map<string, string>
    var realToTemp: map<string, string>
    var stopped: set<int>
    var created: nat

    function Now(): State reads this {
      State(sessions, pendingSessions, tempToReal, realToTemp, stopped, created)
    }

    constructor ()
      ensures Now() == EMPTY
    {
      sessions, pendingSessions, tempToReal, realToTemp, stopped, created := map[], map[], map[], map[], {}, 0;
    }

    method GetOrCreateSession(id: Option<string>, newId: string) returns (session: int, sessionId: string, isNew: bool)
      modifies this
      ensures Now() == Step(old(Now()), GetOrCreate(id, newId))
      ensures isNew <==> Known(old(Now()), id).None?
      ensures isNew ==> session == old(created) && sessionId == newId
      ensures !isNew ==> Known(old(Now()), id) == Some(session)
      ensures !isNew ==> sessionId == (if id.value in tempToReal then tempToReal[id.value] else id.value)
    {
      if id.Some? && id.value != "" {
        var key := id.value;
        var lookupId := if key in tempToReal then tempToReal[key] else key;
        if lookupId in sessions { return sessions[lookupId], lookupId, false; }
        if lookupId in pendingSessions { return pendingSessions[lookupId], lookupId, false; }
        var staleRealId := Lookup(tempToReal, key);
        tempToReal := tempToReal - {key};
        if staleRealId.Some? { realToTemp := realToTemp - {staleRealId.value}; }
        var staleTempId := Lookup(realToTemp, key);
        realToTemp := realToTemp - {key};
        if staleTempId.Some? { tempToReal := tempToReal - {staleTempId.value}; }
      }
      session, sessionId, isNew := created, newId, true;
      created := created + 1;
      pendingSessions := pendingSessions[newId := session];
    }

    method RegisterRealSessionId(tempId: string, realSessionId: string) returns (ok: bool)
      modifies this
      ensures Now() == Step(old(Now()), Register(tempId, realSessionId))
      ensures ok <==> tempId in old(pendingSessions)
    {
      if tempId !in pendingSessions { return false; }
      var session := pendingSessions[tempId];
      pendingSessions := pendingSessions - {tempId};
      var oldSessionToStop: Option<int> := None;
      if realSessionId in sessions && sessions[realSessionId] != session {
        var oldTempId := Lookup(realToTemp, realSessionId);
        realToTemp := realToTemp - {realSessionId};
        if oldTempId.Some? { tempToReal := tempToReal - {oldTempId.value}; }
        oldSessionToStop := Some(sessions[realSessionId]);
      }
      assert realToTemp[realSessionId := tempId] == old(realToTemp)[realSessionId := tempId];
      ghost var oldTemp := if oldSessionToStop.Some? then Lookup(old(realToTemp), realSessionId) else None;
      assert tempToReal == Without(old(tempToReal), oldTemp);
      sessions := sessions[realSessionId := session];
      tempToReal := tempToReal[tempId := realSessionId];
      realToTemp := realToTemp[realSessionId := tempId];
      if oldSessionToStop.Some? { stopped := stopped + {oldSessionToStop.value}; }
      ok := true;
    }

    method RemoveSession(id: string) returns (ok: bool)
      modifies this
      ensures Now() == Step(old(Now()), Remove(id))
      ensures ok <==> id in old(pendingSessions) || id in old(sessions)
    {
      if id in pendingSessions {
        stopped := stopped + {pendingSessions[id]};
        pendingSessions := pendingSessions - {id};
        return true;
      }
      if id in sessions {
        stopped := stopped + {sessions[id]};
        sessions := sessions - {id};
        var tempId := Lookup(realToTemp, id);
        realToTemp := realToTemp - {id};
        if tempId.Some? { tempToReal := tempToReal - {tempId.value}; }
        return true;
      }
      ok := false;
    }

    method StopEverything()
      modifies this
      ensures Now() == Step(old(Now()), StopAll)
    {
      stopped := stopped + sessions.Values + pendingSessions.Values;
      sessions, pendingSessions, tempToReal, realToTemp := map[], map[], map[], map[];
    }
  }

  // ---- What holds in every reachable state ----

  /** Temporary ids are new each time and never look like real ones. */
  ghost predicate Fresh(ops: seq<Op>) {
    && (forall k | 0 <= k < |ops| && ops[k].GetOrCreate? :: IsTemp(ops[k].newId))
    && (forall k | 0 <= k < |ops| && ops[k].Register? :: !IsTemp(ops[k].realId))
    && (forall j, k | 0 <= j < k < |ops| && ops[j].GetOrCreate? && ops[k].GetOrCreate? :: ops[j].newId != ops[k].newId)
  }

  ghost predicate Offered(ops: seq<Op>, temp: string) {
    exists k | 0 <= k < |ops| && ops[k].GetOrCreate? :: ops[k].newId == temp
  }

  /** Temporary and real ids are paired off, one pair for each session with a real id. */
  ghost predicate Paired(s: State) {
    && (forall r :: r in s.realToTemp <==> r in s.sessions)
    && (forall t | t in s.tempToReal :: s.tempToReal[t] in s.realToTemp && s.realToTemp[s.tempToReal[t]] == t)
    && (forall r | r in s.realToTemp :: s.realToTemp[r] in s.tempToReal && s.tempToReal[s.realToTemp[r]] == r)
    && (forall r | r in s.sessions :: !IsTemp(r))
    && (forall t | t in s.pending :: IsTemp(t) && t !in s.tempToReal)
    && (forall t | t in s.tempToReal :: IsTemp(t))
  }

  /** The sessions the manager holds, by their keys. */
  function Holding(s: State): map<string, int> {
    s.pending + s.sessions
  }

  ghost predicate HeldOnce(held: map<string, int>, stopped: set<int>, created: nat) {
    && (forall k | k in held :: 0 <= held[k] < created && held[k] !in stopped)
    && (forall j, k | j in held && k in held && j != k :: held[j] != held[k])
    && (forall n | n in stopped :: 0 <= n < created)
    && (forall n | 0 <= n < created && n !in stopped :: exists k :: k in held && held[k] == n)
  }

  /** Every session created is held under exactly one key or has been stopped. */
  ghost predicate Accounted(s: State) {
    HeldOnce(Holding(s), s.stopped, s.created)
  }

  ghost predicate OnlyOffered(s: State, ops: seq<Op>) {
    && (forall t | t in s.pending :: Offered(ops, t))
    && (forall t | t in s.tempToReal :: Offered(ops, t))
  }

  lemma UnknownChangesNothing(s: State, id: Option<string>)
    requires Paired(s) && Known(s, id).None?
    ensures Forget(s, id) == s
  {
    if id.Some? && id.value != "" {
      assert id.value !in s.tempToReal && id.value !in s.realToTemp;
    }
  }

  lemma CreatePaired(s: State, newId: string)
    requires Paired(s) && IsTemp(newId) && newId !in s.tempToReal
    ensures Paired(s.(pending := s.pending[newId := s.created], created := s.created + 1))
  {}

  lemma RegisterPaired(s: State, temp: string, realId: string)
    requires Paired(s) && temp in s.pending && !IsTemp(realId)
    requires realId in s.sessions ==> s.sessions[realId] != s.pending[temp]
    ensures Paired(Step(s, Register(temp, realId)))
  {
    hide IsTemp;
    if realId in s.sessions { assert s.tempToReal[s.realToTemp[realId]] == realId; }
  }

  lemma RemovePaired(s: State, id: string)
    requires Paired(s)
    ensures Paired(Step(s, Remove(id)))
  {}

  lemma Different(s: State, temp: string, realId: string)
    requires Paired(s) && Accounted(s)
    ensures temp in s.pending && realId in s.sessions ==> s.sessions[realId] != s.pending[temp]
  {
    if temp in s.pending && realId in s.sessions {
      assert Holding(s)[realId] == s.sessions[realId] && Holding(s)[temp] == s.pending[temp];
    }
  }

  lemma StepPaired(s: State, op: Op)
    requires Paired(s) && Accounted(s)
    requires op.GetOrCreate? ==> IsTemp(op.newId) && op.newId !in s.tempToReal
    requires op.Register? ==> !IsTemp(op.realId)
    ensures Paired(Step(s, op))
  {
    match op {
      case GetOrCreate(wanted, newId) =>
        hide Paired, Find;
        if Known(s, wanted).None? {
          UnknownChangesNothing(s, wanted);
          CreatePaired(s, newId);
        }
      case Register(temp, realId) =>
        Different(s, temp, realId);
        hide Paired, Accounted;
        if temp in s.pending { RegisterPaired(s, temp, realId); }
      case Remove(id) => RemovePaired(s, id);
      case StopAll =>
    }
  }

  lemma HoldOneMore(held: map<string, int>, stopped: set<int>, created: nat, k: string)
    requires HeldOnce(held, stopped, created) && k !in held
    ensures HeldOnce(held[k := created], stopped, created + 1)
  {
    var held' := held[k := created];
    forall n | 0 <= n < created + 1 && n !in stopped ensures exists j :: j in held' && held'[j] == n {
      if n == created {
        assert held'[k] == n;
      } else {
        var j :| j in held && held[j] == n;
        assert held'[j] == n;
      }
    }
  }

  lemma StopOne(held: map<string, int>, stopped: set<int>, created: nat, k: string)
    requires HeldOnce(held, stopped, created) && k in held
    ensures HeldOnce(held - {k}, stopped + {held[k]}, created)
  {
    forall n | 0 <= n < created && n !in stopped && n != held[k] ensures exists j :: j in held - {k} && (held - {k})[j] == n {
      var j :| j in held && held[j] == n;
      assert (held - {k})[j] == n;
    }
  }

  lemma Rename(held: map<string, int>, stopped: set<int>, created: nat, j: string, k: string)
    requires HeldOnce(held, stopped, created) && j in held && k !in held
    ensures HeldOnce((held - {j})[k := held[j]], stopped, created)
  {
    var held' := (held - {j})[k := held[j]];
    forall n | 0 <= n < created && n !in stopped ensures exists i :: i in held' && held'[i] == n {
      var i :| i in held && held[i] == n;
      if i == j { assert held'[k] == n; } else { assert held'[i] == n; }
    }
  }

  lemma CreateHolding(s: State, newId: string)
    requires Paired(s) && newId !in s.pending && IsTemp(newId)
    ensures newId !in Holding(s)
    ensures Holding(s.(pending := s.pending[newId := s.created], created := s.created + 1)) == Holding(s)[newId := s.created]
  {
    assert newId !in s.sessions;
    hide Paired;
  }

  lemma CreateAccounted(s: State, newId: string)
    requires Paired(s) && Accounted(s) && newId !in s.pending && IsTemp(newId)
    ensures Accounted(s.(pending := s.pending[newId := s.created], created := s.created + 1))
  {
    hide HeldOnce, Holding, Paired;
    CreateHolding(s, newId);
    HoldOneMore(Holding(s), s.stopped, s.created, newId);
  }

  lemma RegisterHolding(s: State, temp: string, realId: string)
    requires Paired(s) && temp in s.pending && !IsTemp(realId)
    ensures temp in Holding(s) && Holding(s)[temp] == s.pending[temp] && (realId in Holding(s) <==> realId in s.sessions)
    ensures Holding(Step(s, Register(temp, realId))) == (Holding(s) - {realId} - {temp})[realId := Holding(s)[temp]]
    ensures realId in s.sessions ==> Holding(s)[realId] == s.sessions[realId]
  {
    assert temp !in s.sessions && realId !in s.pending;
    hide Paired;
    MergeRenamed(s.pending, s.sessions, temp, realId);
  }

  lemma MergeRenamed(pending: map<string, int>, sessions: map<string, int>, temp: string, realId: string)
    requires temp in pending && temp !in sessions && realId !in pending
    ensures (pending - {temp}) + sessions[realId := pending[temp]]
         == (pending + sessions - {realId} - {temp})[realId := pending[temp]]
  {}

  lemma RegisterAccounted(s: State, temp: string, realId: string)
    requires Paired(s) && Accounted(s) && temp in s.pending && !IsTemp(realId)
    ensures Accounted(Step(s, Register(temp, realId)))
  {
    var held := Holding(s);
    RegisterHolding(s, temp, realId);
    Different(s, temp, realId);
    hide Holding, HeldOnce, Paired;
    if realId in s.sessions {
      StopOne(held, s.stopped, s.created, realId);
      Rename(held - {realId}, s.stopped + {held[realId]}, s.created, temp, realId);
    } else {
      assert held - {realId} == held;
      Rename(held, s.stopped, s.created, temp, realId);
    }
  }

  lemma RemoveHolding(s: State, id: string)
    requires Paired(s)
    ensures var s' := Step(s, Remove(id));
            && s'.created == s.created && Holding(s') == Holding(s) - {id}
            && s'.stopped == if id in Holding(s) then s.stopped + {Holding(s)[id]} else s.stopped
  {
    assert id in s.pending ==> id !in s.sessions;
    hide Paired;
    if id in s.pending {
      MergeWithout(s.pending, s.sessions, id);
    } else {
      MergeWithout(s.sessions, s.pending, id);
    }
  }

  lemma MergeWithout(m: map<string, int>, other: map<string, int>, id: string)
    requires id !in other
    ensures (m - {id}) + other == (m + other) - {id} && other + (m - {id}) == (other + m) - {id}
    ensures id in m ==> (m + other)[id] == m[id] && (other + m)[id] == m[id]
  {}

  lemma RemoveAccounted(s: State, id: string)
    requires Paired(s) && Accounted(s)
    ensures Accounted(Step(s, Remove(id)))
  {
    hide HeldOnce, Holding, Step, Paired;
    RemoveHolding(s, id);
    if id in Holding(s) {
      StopOne(Holding(s), s.stopped, s.created, id);
    } else {
      assert Holding(s) - {id} == Holding(s);
    }
  }

  lemma HoldingValues(s: State)
    requires Paired(s)
    ensures Holding(s).Values == s.sessions.Values + s.pending.Values
  {
    assert forall t | t in s.pending :: t !in s.sessions && Holding(s)[t] == s.pending[t];
    assert forall r | r in s.sessions :: Holding(s)[r] == s.sessions[r];
  }

  lemma AllStopped(held: map<string, int>, stopped: set<int>, created: nat)
    requires HeldOnce(held, stopped, created)
    ensures HeldOnce(map[], stopped + held.Values, created)
  {}

  lemma StopAccounted(s: State)
    requires Paired(s) && Accounted(s)
    ensures Accounted(Step(s, StopAll))
  {
    hide Step, HeldOnce, Paired, Holding;
    HoldingValues(s);
    AllStopped(Holding(s), s.stopped, s.created);
    StopHoldsNothing(s);
    assert s.stopped + (s.sessions.Values + s.pending.Values) == s.stopped + s.sessions.Values + s.pending.Values;
  }

  lemma StopHoldsNothing(s: State)
    ensures var s' := Step(s, StopAll);
            && Holding(s') == map[] && s'.created == s.created
            && s'.stopped == s.stopped + s.sessions.Values + s.pending.Values
  {}

  lemma StepAccounted(s: State, op: Op)
    requires Paired(s) && Accounted(s)
    requires op.GetOrCreate? ==> op.newId !in s.pending && IsTemp(op.newId)
    requires op.Register? ==> !IsTemp(op.realId)
    ensures Accounted(Step(s, op))
  {
    hide Paired, Accounted, Find, IsTemp;
    match op {
      case GetOrCreate(wanted, newId) =>
        if Known(s, wanted).None? {
          UnknownChangesNothing(s, wanted);
          CreateAccounted(s, newId);
        }
      case Register(temp, realId) => if temp in s.pending { RegisterAccounted(s, temp, realId); }
      case Remove(id) => RemoveAccounted(s, id);
      case StopAll => StopAccounted(s);
    }
  }

  lemma StaysOffered(ops: seq<Op>, op: Op, t: string)
    ensures Offered(ops, t) ==> Offered(ops + [op], t)
    ensures op.GetOrCreate? ==> Offered(ops + [op], op.newId)
  {
    if Offered(ops, t) {
      var k :| 0 <= k < |ops| && ops[k].GetOrCreate? && ops[k].newId == t;
      assert (ops + [op])[k] == ops[k];
    }
    assert (ops + [op])[|ops|] == op;
  }

  lemma StepOffered(s: State, ops: seq<Op>, op: Op)
    requires Paired(s) && OnlyOffered(s, ops)
    ensures OnlyOffered(Step(s, op), ops + [op])
  {
    if op.GetOrCreate? && Known(s, op.wanted).None? { UnknownChangesNothing(s, op.wanted); }
    hide Offered, Paired, Find, Forget;
    forall t { StaysOffered(ops, op, t); }
  }

  lemma NothingYet()
    ensures Paired(EMPTY) && Accounted(EMPTY) && OnlyOffered(EMPTY, [])
  {}

  /** Whatever calls are made: temporary and real ids are paired one to one, real ids are those of the active
      sessions, and every session created is held under exactly one key or has been stopped. */
  lemma {:induction false} ManagerIsConsistent(ops: seq<Op>)
    requires Fresh(ops)
    ensures Paired(Run(ops)) && Accounted(Run(ops)) && OnlyOffered(Run(ops), ops)
  {
    hide Step, Paired, Accounted;
    NothingYet();
    if ops != [] {
      var before, op := ops[..|ops| - 1], ops[|ops| - 1];
      ManagerIsConsistent(before);
      var s := Run(before);
      assert op.GetOrCreate? ==> !Offered(before, op.newId);
      StepPaired(s, op);
      StepAccounted(s, op);
      StepOffered(s, before, op);
      assert before + [op] == ops;
    }
  }

  // ---- Looking a session up ----

  /** Calls that end or replace the session with a real id. */
  predicate Disturbs(op: Op, realId: string) {
    op.StopAll? || (op.Remove? && op.id == realId) || (op.Register? && op.realId == realId)
  }

  /** The session registered under a pair of ids. */
  ghost predicate RegisteredAs(s: State, temp: string, realId: string, session: int) {
    temp in s.tempToReal && s.tempToReal[temp] == realId && realId in s.sessions && s.sessions[realId] == session
  }

  lemma StepKeepsPair(s: State, op: Op, temp: string, realId: string, session: int)
    requires Paired(s) && RegisteredAs(s, temp, realId, session) && !Disturbs(op, realId)
    ensures RegisteredAs(Step(s, op), temp, realId, session)
  {
    match op {
      case GetOrCreate(wanted, newId) =>
        if Known(s, wanted).None? {
          UnknownChangesNothing(s, wanted);
          hide Find, Forget, IsTemp, Paired;
        }
      case Register(otherTemp, otherId) => RegisterKeepsPair(s, otherTemp, otherId, temp, realId, session);
      case Remove(id) => RemoveKeepsPair(s, id, temp, realId, session);
      case StopAll =>
    }
  }

  lemma RegisterKeepsPair(s: State, otherTemp: string, otherId: string, temp: string, realId: string, session: int)
    requires Paired(s) && RegisteredAs(s, temp, realId, session) && otherId != realId
    ensures RegisteredAs(Step(s, Register(otherTemp, otherId)), temp, realId, session)
  {
    hide IsTemp;
    assert s.realToTemp[realId] == temp;
    assert otherTemp in s.pending ==> otherTemp != temp;
    assert otherId in s.realToTemp ==> s.tempToReal[s.realToTemp[otherId]] == otherId;
    hide Paired;
  }

  lemma RemoveKeepsPair(s: State, id: string, temp: string, realId: string, session: int)
    requires Paired(s) && RegisteredAs(s, temp, realId, session) && id != realId
    ensures RegisteredAs(Step(s, Remove(id)), temp, realId, session)
  {
    hide IsTemp;
    assert id in s.realToTemp ==> s.tempToReal[s.realToTemp[id]] == id;
    hide Paired;
  }

  lemma FoundByBoth(s: State, temp: string, realId: string, session: int)
    requires Paired(s) && RegisteredAs(s, temp, realId, session)
    ensures Find(s, temp) == Some(session) && Find(s, realId) == Some(session)
  {}

  lemma FreshPrefix(ops: seq<Op>, n: nat)
    requires Fresh(ops) && n <= |ops|
    ensures Fresh(ops[..n])
  {}

  /** Once registered, a temporary id and its real id lead to the same session through any calls, until the session is
      removed by its real id, replaced under it, or everything is stopped. */
  lemma {:induction false} BothIdsLeadToSession(ops: seq<Op>, more: seq<Op>, temp: string, realId: string, session: int)
    requires Fresh(ops + more) && RegisteredAs(Run(ops), temp, realId, session)
    requires forall k | 0 <= k < |more| :: !Disturbs(more[k], realId)
    ensures RegisteredAs(Run(ops + more), temp, realId, session)
    ensures Find(Run(ops + more), temp) == Some(session) && Find(Run(ops + more), realId) == Some(session)
  {
    hide Fresh, Paired, Accounted, OnlyOffered, RegisteredAs, Find, Step, Disturbs;
    if more == [] {
      assert ops + more == ops;
    } else {
      var all, last := ops + more, |more| - 1;
      assert all[..|all| - 1] == ops + more[..last];
      FreshPrefix(all, |all| - 1);
      BothIdsLeadToSession(ops, more[..last], temp, realId, session);
      ManagerIsConsistent(ops + more[..last]);
      StepKeepsPair(Run(ops + more[..last]), more[last], temp, realId, session);
    }
    ManagerIsConsistent(ops + more);
    FoundByBoth(Run(ops + more), temp, realId, session);
  }

  /** After those calls it does not: removal forgets both ids, and a replacement takes the real id over. */
  lemma DisturbedPairEnds(s: State, op: Op, temp: string, realId: string, session: int)
    requires Paired(s) && Accounted(s) && RegisteredAs(s, temp, realId, session) && Disturbs(op, realId)
    requires op.Register? ==> op.temp in s.pending
    ensures Find(Step(s, op), temp) == None
    ensures Find(Step(s, op), realId) == if op.Register? then Some(s.pending[op.temp]) else None
    ensures session in Step(s, op).stopped
  {
    hide HeldOnce, Accounted;
    if op.Register? { Different(s, op.temp, realId); }
  }

  lemma FoundIsHeld(s: State, id: string)
    requires Paired(s) && Accounted(s) && Find(s, id).Some?
    ensures Find(s, id).value !in s.stopped
    ensures id in s.tempToReal ==> id !in s.pending && id !in s.sessions
    ensures id !in s.tempToReal && id in s.sessions ==> id !in s.pending && Find(s, id) == Some(s.sessions[id])
    ensures id !in s.tempToReal && id !in s.sessions ==> id in s.pending && Find(s, id) == Some(s.pending[id])
  {
    var lookup := if id in s.tempToReal then s.tempToReal[id] else id;
    assert lookup in Holding(s) && Holding(s)[lookup] == Find(s, id).value;
  }

  /** An id that leads to a session removes it if and only if it is not a temporary id that has been registered: that one
      still leads to the session, but a removal by it fails and changes nothing. */
  lemma RemoveStopsExactlyUnregisteredIds(ops: seq<Op>, id: string)
    requires Fresh(ops) && Find(Run(ops), id).Some?
    ensures var s, session := Run(ops), Find(Run(ops), id).value;
            && (session in Step(s, Remove(id)).stopped <==> id !in s.tempToReal)
            && (id in s.tempToReal ==> Step(s, Remove(id)) == s && id !in s.pending && id !in s.sessions)
  {
    hide Fresh, Paired, Accounted;
    ManagerIsConsistent(ops);
    FoundIsHeld(Run(ops), id);
  }

  /** Create, register, remove by the temporary id: the session goes on. */
  lemma TempIdDoesNotRemove()
    ensures var ops := [GetOrCreate(None, "pending_1")] + [Register("pending_1", "real")];
            && Fresh(ops + [Remove("pending_1")])
            && Run(ops + [Remove("pending_1")]) == Run(ops)
            && Find(Run(ops), "pending_1") == Some(0) && 0 !in Run(ops).stopped
  {
    var create, register, remove := GetOrCreate(None, "pending_1"), Register("pending_1", "real"), Remove("pending_1");
    var ops := [create] + [register];
    RunSnoc([], create);
    assert [] + [create] == [create];
    RunSnoc([create], register);
    RunSnoc(ops, remove);
    assert "pending_1"[..8] == "pending_";
    assert Run(ops) == State(map["real" := 0], map[], map["pending_1" := "real"], map["real" := "pending_1"], {}, 1);
  }

  lemma RunSnoc(ops: seq<Op>, op: Op)
    ensures Run(ops + [op]) == Step(Run(ops), op)
  {
    assert (ops + [op])[..|ops|] == ops;
  }

  // ---- Before and at registration ----

  /** Calls that end a session that waits under a temporary id, or give it its real one. */
  predicate Settles(op: Op, temp: string) {
    op.StopAll? || (op.Remove? && op.id == temp) || (op.Register? && op.temp == temp)
  }

  ghost predicate WaitsAs(s: State, temp: string, session: int) {
    temp in s.pending && s.pending[temp] == session
  }

  lemma StepKeepsWaiting(s: State, op: Op, temp: string, session: int)
    requires Paired(s) && WaitsAs(s, temp, session) && !Settles(op, temp) && (op.GetOrCreate? ==> op.newId != temp)
    ensures WaitsAs(Step(s, op), temp, session)
  {
    if op.GetOrCreate? && Known(s, op.wanted).None? { UnknownChangesNothing(s, op.wanted); }
    hide Paired, Find, Forget;
  }

  lemma WaitingIsFound(s: State, temp: string, session: int)
    requires Paired(s) && WaitsAs(s, temp, session)
    ensures Find(s, temp) == Some(session)
  {}

  lemma NewWaits(s: State, wanted: Option<string>, newId: string)
    requires Known(s, wanted).None?
    ensures WaitsAs(Step(s, GetOrCreate(wanted, newId)), newId, s.created)
  {
    hide Find;
  }

  /** A new session is found by its temporary id through any calls until it is registered or removed under that id or
      everything is stopped. */
  lemma {:induction false} TempIdLeadsToNewSession(ops: seq<Op>, wanted: Option<string>, newId: string, more: seq<Op>)
    requires Fresh(ops + [GetOrCreate(wanted, newId)] + more) && Known(Run(ops), wanted).None?
    requires forall k | 0 <= k < |more| :: !Settles(more[k], newId)
    ensures var s := Run(ops + [GetOrCreate(wanted, newId)] + more);
            WaitsAs(s, newId, Run(ops).created) && Find(s, newId) == Some(Run(ops).created)
  {
    hide Paired, Accounted, OnlyOffered, WaitsAs, Known, Find, Step, Settles, Run;
    var create := GetOrCreate(wanted, newId);
    var all := ops + [create] + more;
    if more == [] {
      assert all == ops + [create];
      RunSnoc(ops, create);
      NewWaits(Run(ops), wanted, newId);
    } else {
      var last := |more| - 1;
      var before := ops + [create] + more[..last];
      assert all == before + [more[last]] && all[..|before|] == before;
      FreshPrefix(all, |before|);
      TempIdLeadsToNewSession(ops, wanted, newId, more[..last]);
      ManagerIsConsistent(before);
      assert all[|ops|] == create && all[|before|] == more[last];
      StepKeepsWaiting(Run(before), more[last], newId, Run(ops).created);
      RunSnoc(before, more[last]);
    }
    ManagerIsConsistent(all);
    WaitingIsFound(Run(all), newId, Run(ops).created);
  }

  /** Registration makes the pair: both ids lead to the session that was waiting. */
  lemma RegistrationPairs(ops: seq<Op>, temp: string, realId: string, session: int)
    requires Fresh(ops + [Register(temp, realId)]) && WaitsAs(Run(ops), temp, session)
    ensures RegisteredAs(Run(ops + [Register(temp, realId)]), temp, realId, session)
  {
    RunSnoc(ops, Register(temp, realId));
  }

  /** An id that was never handed out or registered leads nowhere. */
  lemma UnknownIdLeadsNowhere(ops: seq<Op>, id: string)
    requires Fresh(ops) && !Offered(ops, id) && forall k | 0 <= k < |ops| && ops[k].Register? :: ops[k].realId != id
    ensures Find(Run(ops), id) == None
  {
    hide Accounted, IsTemp;
    ManagerIsConsistent(ops);
    RealIdsAreRegistered(ops, id);
  }

  lemma {:induction false} RealIdsAreRegistered(ops: seq<Op>, id: string)
    requires forall k | 0 <= k < |ops| && ops[k].Register? :: ops[k].realId != id
    ensures id !in Run(ops).sessions
  {
    if ops != [] {
      RealIdsAreRegistered(ops[..|ops| - 1], id);
      hide Find, Run;
    }
  }

  /** No id, or an empty one, asks for a new session; any other for the one it leads to. */
  lemma WantsSession(s: State, id: string)
    ensures Known(s, None) == None && Known(s, Some("")) == None
    ensures id != "" ==> Known(s, Some(id)) == Find(s, id)
  {}
}
