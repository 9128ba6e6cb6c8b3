/** The log of sent and received message ids per chat (messaging/session.py), with its id index and its optional cap. */
module MessageLog {
  import opened Basics

  datatype Record = Record(id: string, ts: string, direction: string, kind: string)

  /** The log and the id index, per chat. */
  datatype Store = Store(log: map<string, seq<Record>>, ids: map<string, set<string>>)

  const EMPTY := Store(map[], map[])

  /** What can happen to a store. A stored item is `None` where it is not an object or has no message id. */
  datatype Op =
    | Load(raw: map<string, seq<Option<Record>>>)
    | Add(chat: string, r: Record)
    | Clear

  function IdsOf(log: seq<Record>): set<string> {
    set k | 0 <= k < |log| :: log[k].id
  }

  /** The last `n`; everything when `n` is not positive. */
  function Last<T>(xs: seq<T>, n: int): seq<T> {
    if 0 < n < |xs| then xs[|xs| - n..] else xs
  }

  /** Loading keeps the first item of each id. */
  function Loaded(items: seq<Option<Record>>): seq<Record> {
    if items == [] then []
    else
      var before, item := Loaded(items[..|items| - 1]), items[|items| - 1];
      if item.None? || item.value.id in IdsOf(before) then before else before + [item.value]
  }

  function ItemIds(items: seq<Option<Record>>): set<string> {
    set k | 0 <= k < |items| && items[k].Some? :: items[k].value.id
  }

  function LogOf(s: Store, chat: string): seq<Record> {
    if chat in s.log then s.log[chat] else []
  }

  function SeenIn(s: Store, chat: string): set<string> {
    if chat in s.ids then s.ids[chat] else {}
  }

  /** No cap is a `cap` that is not positive. */
  function Step(s: Store, op: Op, cap: int): Store {
    match op
    case Load(raw) => Store(map chat | chat in raw :: Loaded(raw[chat]), map chat | chat in raw :: ItemIds(raw[chat]))
    case Add(chat, r) =>
      if r.id in SeenIn(s, chat) then s
      else
        var items := LogOf(s, chat) + [r];
        if 0 < cap < |items| then Store(s.log[chat := Last(items, cap)], s.ids[chat := IdsOf(Last(items, cap))])
        else Store(s.log[chat := items], s.ids[chat := SeenIn(s, chat) + {r.id}])
    case Clear => EMPTY
  }

  function Run(ops: seq<Op>, cap: int): Store {
    if ops == [] then EMPTY else Step(Run(ops[..|ops| - 1], cap), ops[|ops| - 1], cap)
  }

  /** All chats of a file but those in `todo` have been loaded. */
  ghost predicate Filled(raw: map<string, seq<Option<Record>>>, todo: set<string>, s: Store) {
    && s.log.Keys == raw.Keys - todo && s.ids.Keys == raw.Keys - todo
    && forall chat | chat in raw && chat !in todo :: s.log[chat] == Loaded(raw[chat]) && s.ids[chat] == ItemIds(raw[chat])
  }

  lemma NothingFilled(raw: map<string, seq<Option<Record>>>)
    ensures Filled(raw, raw.Keys, EMPTY)
  {}

  lemma FillOne(raw: map<string, seq<Option<Record>>>, todo: set<string>, s: Store, chat: string)
    requires Filled(raw, todo, s) && chat in todo && chat in raw
    ensures Filled(raw, todo - {chat}, Store(s.log[chat := Loaded(raw[chat])], s.ids[chat := ItemIds(raw[chat])]))
  {
    assert raw.Keys - (todo - {chat}) == raw.Keys - todo + {chat};
  }

  lemma AllFilled(raw: map<string, seq<Option<Record>>>, s: Store)
    requires Filled(raw, {}, s)
    ensures s == Store(map chat | chat in raw :: Loaded(raw[chat]), map chat | chat in raw :: ItemIds(raw[chat]))
  {
    assert s.log == map chat | chat in raw :: Loaded(raw[chat]);
    assert s.ids == map chat | chat in raw :: ItemIds(raw[chat]);
  }

  class SessionStore {
    const cap: Option<int>
    var messageLog: map<string, seq<Record>>
    var messageLogIds: map<string, set<string>>

    function Now(): Store reads this {
      Store(messageLog, messageLogIds)
    }

    constructor (cap: Option<int>)
      ensures Now() == EMPTY && this.cap == cap
    {
      this.cap, messageLog, messageLogIds := cap, map[], map[];
    }

    /** `record_message_id` after the message id has been found to exist. */
    method RecordMessageId(chat: string, r: Record)
      modifies this
      ensures Now() == Step(old(Now()), Add(chat, r), if cap.Some? then cap.value else 0)
    {
      hide IdsOf;
      var seen := if chat in messageLogIds then messageLogIds[chat] else {};
      if r.id in seen { return; }
      var items := (if chat in messageLog then messageLog[chat] else []) + [r];
      seen := seen + {r.id};
      if cap.Some? && cap.value > 0 && |items| > cap.value {
        items := items[|items| - cap.value..];
        seen := IdsOf(items);
      }
      messageLog := messageLog[chat := items];
      messageLogIds := messageLogIds[chat := seen];
    }

    /** The message-log part of `_load`. */
    method LoadLog(raw: map<string, seq<Option<Record>>>)
      modifies this
      ensures Now() == Step(old(Now()), Load(raw), if cap.Some? then cap.value else 0)
    {
      hide Filled, ItemIds, Loaded;
      messageLog, messageLogIds := map[], map[];
      var todo := raw.Keys;
      NothingFilled(raw);
      while todo != {}
        invariant todo <= raw.Keys && Filled(raw, todo, Now())
        decreases |todo|
      {
        var chat :| chat in todo;
        var cleaned, seen := LoadChat(raw[chat]);
        FillOne(raw, todo, Now(), chat);
        messageLog := messageLog[chat := cleaned];
        messageLogIds := messageLogIds[chat := seen];
        todo := todo - {chat};
      }
      AllFilled(raw, Now());
    }

    method ClearAll()
      modifies this
      ensures Now() == Step(old(Now()), Clear, if cap.Some? then cap.value else 0)
    {
      messageLog, messageLogIds := map[], map[];
    }
  }

  method LoadChat(items: seq<Option<Record>>) returns (cleaned: seq<Record>, seen: set<string>)
    ensures cleaned == Loaded(items) && seen == ItemIds(items)
  {
    hide IdsOf, ItemIds;
    cleaned, seen := [], {};
    NoItems();
    for k := 0 to |items|
      invariant cleaned == Loaded(items[..k]) && seen == ItemIds(items[..k]) && seen == IdsOf(cleaned)
    {
      ItemIdsSnoc(items, k);
      assert items[..k + 1][..k] == items[..k];
      if items[k].Some? {
        IdsSnoc(cleaned, items[k].value);
        if items[k].value.id !in seen {
          seen := seen + {items[k].value.id};
          cleaned := cleaned + [items[k].value];
        } else {
          assert seen + {items[k].value.id} == seen;
        }
      }
    }
    assert items[..|items|] == items;
  }

  lemma NoItems()
    ensures IdsOf([]) == {} && ItemIds([]) == {}
  {}

  lemma ItemIdsSnoc(items: seq<Option<Record>>, k: nat)
    requires k < |items|
    ensures ItemIds(items[..k + 1]) == ItemIds(items[..k]) + if items[k].Some? then {items[k].value.id} else {}
  {
    var now, before := items[..k + 1], items[..k];
    forall id ensures id in ItemIds(now) <==> id in ItemIds(before) || (items[k].Some? && id == items[k].value.id) {
      if id in ItemIds(before) {
        var j :| 0 <= j < |before| && before[j].Some? && before[j].value.id == id;
        assert now[j] == before[j];
      }
      if items[k].Some? && id == items[k].value.id { assert now[k].value.id == id; }
    }
  }

  lemma IdsSnoc(log: seq<Record>, r: Record)
    ensures IdsOf(log + [r]) == IdsOf(log) + {r.id}
  {
    forall id ensures id in IdsOf(log + [r]) <==> id in IdsOf(log) || id == r.id {
      if id in IdsOf(log) {
        var k :| 0 <= k < |log| && log[k].id == id;
        assert (log + [r])[k].id == id;
      }
      if id == r.id { assert (log + [r])[|log|].id == id; }
    }
  }

  // ---- The index and the log ----

  predicate DistinctIds(log: seq<Record>) {
    forall i, j | 0 <= i < j < |log| :: log[i].id != log[j].id
  }

  ghost predicate Consistent(s: Store) {
    && s.log.Keys == s.ids.Keys
    && forall chat | chat in s.log :: s.ids[chat] == IdsOf(s.log[chat]) && DistinctIds(s.log[chat])
  }

  lemma {:induction false} LoadedIsConsistent(items: seq<Option<Record>>)
    ensures IdsOf(Loaded(items)) == ItemIds(items) && DistinctIds(Loaded(items))
  {
    hide IdsOf, ItemIds;
    NoItems();
    if items != [] {
      var before, last := items[..|items| - 1], |items| - 1;
      LoadedIsConsistent(before);
      ItemIdsSnoc(items, last);
      assert items[..last + 1] == items;
      if items[last].Some? {
        IdsSnoc(Loaded(before), items[last].value);
        if items[last].value.id in ItemIds(before) {
          assert ItemIds(before) + {items[last].value.id} == ItemIds(before);
        } else {
          StaysDistinct(Loaded(before), items[last].value);
        }
      }
    }
  }

  lemma StaysDistinct(log: seq<Record>, r: Record)
    requires DistinctIds(log) && r.id !in IdsOf(log)
    ensures DistinctIds(log + [r])
  {}

  lemma LastStaysDistinct(log: seq<Record>, n: int)
    requires DistinctIds(log)
    ensures DistinctIds(Last(log, n))
  {}

  lemma StepConsistent(s: Store, op: Op, cap: int)
    requires Consistent(s)
    ensures Consistent(Step(s, op, cap))
  {
    hide IdsOf, ItemIds, Loaded, DistinctIds;
    match op {
      case Load(raw) =>
        forall chat | chat in raw { LoadedIsConsistent(raw[chat]); }
      case Add(chat, r) =>
        NoItems();
        assert DistinctIds([]) by { EmptyIsDistinct(); }
        if r.id !in SeenIn(s, chat) {
          var items := LogOf(s, chat);
          StaysDistinct(items, r);
          IdsSnoc(items, r);
          LastStaysDistinct(items + [r], cap);
        }
      case Clear =>
    }
  }

  lemma EmptyIsDistinct()
    ensures DistinctIds([])
  {}

  /** Whatever is loaded, recorded and cleared: each chat's id set is the ids of its log, and no id is in it twice. */
  lemma {:induction false} IdsMatchLog(ops: seq<Op>, cap: int)
    ensures Consistent(Run(ops, cap))
  {
    hide Step;
    if ops != [] {
      IdsMatchLog(ops[..|ops| - 1], cap);
      StepConsistent(Run(ops[..|ops| - 1], cap), ops[|ops| - 1], cap);
    }
  }

  // ---- Order and cap ----

  /** An operation that adds a record to a chat. */
  predicate Adds(s: Store, op: Op, chat: string) {
    op.Add? && op.chat == chat && op.r.id !in SeenIn(s, chat)
  }

  /** What has been put into a chat's log since it was last loaded or cleared, in the order it came. */
  function Inserted(ops: seq<Op>, cap: int, chat: string): seq<Record> {
    if ops == [] then []
    else
      var before, op := ops[..|ops| - 1], ops[|ops| - 1];
      match op
      case Load(raw) => if chat in raw then Loaded(raw[chat]) else []
      case Add(_, r) => Inserted(before, cap, chat) + if Adds(Run(before, cap), op, chat) then [r] else []
      case Clear => []
  }

  /** The newest part of all, of which nothing is missing that fits under the cap. */
  ghost predicate IsTail(log: seq<Record>, all: seq<Record>, cap: int) {
    && |log| <= |all| && log == all[|all| - |log|..]
    && (|log| < |all| ==> 0 < cap <= |log|)
  }

  lemma TailOfMore(log: seq<Record>, all: seq<Record>, r: Record, cap: int)
    requires IsTail(log, all, cap)
    ensures IsTail(Last(log + [r], cap), all + [r], cap) && Last(log + [r], cap) == Last(all + [r], cap)
  {
    var kept, whole := log + [r], all + [r];
    assert kept == whole[|whole| - |kept|..];
    LastOfTail(kept, whole, cap);
  }

  lemma LastOfTail(kept: seq<Record>, whole: seq<Record>, cap: int)
    requires |kept| <= |whole| && kept == whole[|whole| - |kept|..] && (|kept| < |whole| ==> 0 < cap < |kept|)
    ensures Last(kept, cap) == Last(whole, cap) && IsTail(Last(kept, cap), whole, cap)
  {}

  lemma StepIsTail(before: seq<Op>, op: Op, cap: int, chat: string)
    requires IsTail(LogOf(Run(before, cap), chat), Inserted(before, cap, chat), cap)
    ensures IsTail(LogOf(Step(Run(before, cap), op, cap), chat), Inserted(before + [op], cap, chat), cap)
    ensures Adds(Run(before, cap), op, chat) ==>
              LogOf(Step(Run(before, cap), op, cap), chat) == Last(Inserted(before + [op], cap, chat), cap)
  {
    hide IdsOf, ItemIds, Loaded, Run, IsTail, Last;
    assert (before + [op])[..|before|] == before;
    var s, inserted := Run(before, cap), Inserted(before, cap, chat);
    if Adds(s, op, chat) {
      TailOfMore(LogOf(s, chat), inserted, op.r, cap);
      AddsToLog(s, op, cap, chat);
    } else if op.Add? {
      assert inserted + [] == inserted;
    } else {
      WholeIsTail(LogOf(Step(s, op, cap), chat), cap);
    }
  }

  lemma WholeIsTail(log: seq<Record>, cap: int)
    ensures IsTail(log, log, cap)
  {}

  lemma AddsToLog(s: Store, op: Op, cap: int, chat: string)
    requires Adds(s, op, chat)
    ensures LogOf(Step(s, op, cap), chat) == Last(LogOf(s, chat) + [op.r], cap)
  {
    hide IdsOf, ItemIds, Loaded;
  }

  /** A log is in the order of insertion: it is the newest part of what has been put in, and lacks nothing that fits. */
  lemma {:induction false} LogIsNewestPart(ops: seq<Op>, cap: int, chat: string)
    ensures IsTail(LogOf(Run(ops, cap), chat), Inserted(ops, cap, chat), cap)
  {
    hide Step, Inserted, IsTail;
    if ops == [] {
      assert IsTail([], Inserted([], cap, chat), cap) by { NothingInserted(cap, chat); }
    } else {
      var before, op := ops[..|ops| - 1], ops[|ops| - 1];
      LogIsNewestPart(before, cap, chat);
      StepIsTail(before, op, cap, chat);
      assert before + [op] == ops;
    }
  }

  lemma NothingInserted(cap: int, chat: string)
    ensures IsTail([], Inserted([], cap, chat), cap)
  {}

  /** In every run, right after a record has been added under a cap, the log is exactly the newest `cap` of what has been put
      in, even when a longer log was loaded before. */
  lemma NewRecordCutsToCap(before: seq<Op>, op: Op, cap: int, chat: string)
    requires cap > 0 && Adds(Run(before, cap), op, chat)
    ensures var log := LogOf(Run(before + [op], cap), chat);
            log == Last(Inserted(before + [op], cap, chat), cap) && 0 < |log| <= cap && log[|log| - 1] == op.r
  {
    hide IdsOf, ItemIds, Loaded, IsTail, Step;
    LogIsNewestPart(before, cap, chat);
    StepIsTail(before, op, cap, chat);
    assert (before + [op])[..|before|] == before;
  }

  // ---- The cap and the log without it ----

  /** The log without a cap: the first recording of each id since the chat was last loaded or cleared. */
  function Ever(ops: seq<Op>, chat: string): seq<Record> {
    if ops == [] then []
    else
      var before := Ever(ops[..|ops| - 1], chat);
      match ops[|ops| - 1]
      case Load(raw) => if chat in raw then Loaded(raw[chat]) else []
      case Add(other, r) => if other == chat && r.id !in IdsOf(before) then before + [r] else before
      case Clear => []
  }

  /** Some id has been new to the chat since it was last loaded or cleared. A loaded log is cut only then. */
  predicate Grew(ops: seq<Op>, chat: string) {
    ops != [] &&
    var before, op := ops[..|ops| - 1], ops[|ops| - 1];
    op.Add? && ((op.chat == chat && op.r.id !in IdsOf(Ever(before, chat))) || Grew(before, chat))
  }

  /** At least `cap` newer ids have come after an id. */
  predicate Buried(ever: seq<Record>, cap: int, id: string) {
    exists p | 0 <= p < |ever| :: |ever| - p > cap && ever[p].id == id
  }

  /** The `n`-th operation records an id again after at least `cap` newer ids. */
  predicate ComesBack(ops: seq<Op>, cap: int, chat: string, n: nat)
    requires n < |ops|
  {
    && ops[n].Add? && ops[n].chat == chat && Grew(ops[..n], chat)
    && Buried(Ever(ops[..n], chat), cap, ops[n].r.id)
  }

  /** The newest `cap` of the log without a cap, once it has grown. */
  function Newest(ops: seq<Op>, cap: int, chat: string): seq<Record> {
    if Grew(ops, chat) then Last(Ever(ops, chat), cap) else Ever(ops, chat)
  }

  ghost predicate KeepsNewest(ops: seq<Op>, cap: int, chat: string, n: nat)
    requires n <= |ops|
  {
    LogOf(Run(ops[..n], cap), chat) == Newest(ops[..n], cap, chat)
  }

  /** That is the log without a cap. */
  lemma {:induction false} EverIsUncapped(ops: seq<Op>, chat: string)
    ensures LogOf(Run(ops, 0), chat) == Ever(ops, chat)
  {
    hide IdsOf, ItemIds, Loaded;
    if ops != [] {
      EverIsUncapped(ops[..|ops| - 1], chat);
      IdsMatchLog(ops[..|ops| - 1], 0);
      NoItems();
    }
  }

  lemma LastThenMore<T>(xs: seq<T>, x: T, n: int)
    requires n > 0
    ensures Last(Last(xs, n) + [x], n) == Last(xs + [x], n)
  {}

  lemma LastHas(log: seq<Record>, n: int, id: string)
    requires n > 0 && DistinctIds(log) && id in IdsOf(log)
    ensures id in IdsOf(Last(log, n)) <==> !Buried(log, n, id)
  {
    var last := Last(log, n);
    var k :| 0 <= k < |log| && log[k].id == id;
    var cut := |log| - |last|;
    if k >= cut { assert last[k - cut].id == id; }
    if id in IdsOf(last) { var j :| 0 <= j < |last| && last[j].id == id; assert log[cut + j].id == id; }
  }

  lemma LastIds(log: seq<Record>, n: int)
    ensures IdsOf(Last(log, n)) <= IdsOf(log)
  {
    var last := Last(log, n);
    forall id | id in IdsOf(last) ensures id in IdsOf(log) {
      var k :| 0 <= k < |last| && last[k].id == id;
      assert log[|log| - |last| + k].id == id;
    }
  }

  lemma {:induction false} EverIsDistinct(ops: seq<Op>, chat: string)
    ensures DistinctIds(Ever(ops, chat))
  {
    EverIsUncapped(ops, chat);
    IdsMatchLog(ops, 0);
  }

  /** A returned id ends up last, where the log without a cap has a newer one. */
  lemma ReturnedIsDifferent(ever: seq<Record>, r: Record, cap: int)
    requires cap > 0 && DistinctIds(ever) && Buried(ever, cap, r.id)
    ensures Last(Last(ever, cap) + [r], cap) != Last(ever, cap)
  {
    var p :| 0 <= p < |ever| && |ever| - p > cap && ever[p].id == r.id;
    var returned, kept := Last(Last(ever, cap) + [r], cap), Last(ever, cap);
    assert returned[|returned| - 1] == r && kept[|kept| - 1] == ever[|ever| - 1];
  }

  lemma AddKeepsNewest(before: seq<Op>, chat: string, r: Record, cap: int)
    requires cap > 0 && LogOf(Run(before, cap), chat) == Newest(before, cap, chat)
    ensures LogOf(Step(Run(before, cap), Add(chat, r), cap), chat) == Newest(before + [Add(chat, r)], cap, chat)
       <==> !(Grew(before, chat) && Buried(Ever(before, chat), cap, r.id))
  {
    hide IdsOf, DistinctIds, Run;
    var ever, s, op := Ever(before, chat), Run(before, cap), Add(chat, r);
    assert (before + [op])[..|before|] == before;
    IdsMatchLog(before, cap);
    NoItems();
    EverIsDistinct(before, chat);
    LastIds(ever, cap);
    LastThenMore(ever, r, cap);
    if r.id in IdsOf(ever) {
      LastHas(ever, cap, r.id);
      if Grew(before, chat) && r.id !in IdsOf(Last(ever, cap)) { ReturnedIsDifferent(ever, r, cap); }
    } else {
      NotEver(ever, r.id);
    }
  }

  lemma NotEver(ever: seq<Record>, id: string)
    requires id !in IdsOf(ever)
    ensures forall p | 0 <= p < |ever| :: ever[p].id != id
  {}

  lemma OtherKeepsNewest(before: seq<Op>, op: Op, chat: string, cap: int)
    requires cap > 0 && LogOf(Run(before, cap), chat) == Newest(before, cap, chat)
    requires !(op.Add? && op.chat == chat)
    ensures LogOf(Step(Run(before, cap), op, cap), chat) == Newest(before + [op], cap, chat)
  {
    hide IdsOf, ItemIds, Loaded, Run;
    assert (before + [op])[..|before|] == before;
  }

  lemma StepKeepsNewest(ops: seq<Op>, cap: int, chat: string, n: nat)
    requires cap > 0 && n < |ops| && KeepsNewest(ops, cap, chat, n)
    ensures KeepsNewest(ops, cap, chat, n + 1) <==> !ComesBack(ops, cap, chat, n)
  {
    hide Step, Newest, Ever, Grew;
    assert ops[..n + 1] == ops[..n] + [ops[n]] && ops[..n + 1][..n] == ops[..n];
    if ops[n].Add? && ops[n].chat == chat {
      AddKeepsNewest(ops[..n], chat, ops[n].r, cap);
    } else {
      OtherKeepsNewest(ops[..n], ops[n], chat, cap);
    }
  }

  /** Through any loads, records and clears: a chat's log is always the newest part of the log without a cap, if and only
      if no id is recorded again after at least `cap` newer ones. */
  lemma CappedIsNewestIff(ops: seq<Op>, cap: int, chat: string)
    requires cap > 0
    ensures (forall n | 0 <= n <= |ops| :: KeepsNewest(ops, cap, chat, n))
       <==> (forall n | 0 <= n < |ops| :: !ComesBack(ops, cap, chat, n))
  {
    hide KeepsNewest, ComesBack;
    if forall n | 0 <= n < |ops| :: !ComesBack(ops, cap, chat, n) {
      forall n | 0 <= n <= |ops| ensures KeepsNewest(ops, cap, chat, n) { NewestUpTo(ops, cap, chat, n); }
    } else {
      var n :| 0 <= n < |ops| && ComesBack(ops, cap, chat, n);
      if KeepsNewest(ops, cap, chat, n) { StepKeepsNewest(ops, cap, chat, n); }
    }
  }

  lemma {:induction false} NewestUpTo(ops: seq<Op>, cap: int, chat: string, n: nat)
    requires cap > 0 && n <= |ops| && forall k | 0 <= k < |ops| :: !ComesBack(ops, cap, chat, k)
    ensures KeepsNewest(ops, cap, chat, n)
  {
    if n == 0 {
      assert ops[..0] == [];
    } else {
      hide KeepsNewest, ComesBack;
      NewestUpTo(ops, cap, chat, n - 1);
      StepKeepsNewest(ops, cap, chat, n - 1);
    }
  }

  lemma RunSnoc(ops: seq<Op>, op: Op, cap: int, chat: string)
    ensures Run(ops + [op], cap) == Step(Run(ops, cap), op, cap)
    ensures op.Add? && op.chat == chat ==>
              Ever(ops + [op], chat) == Ever(ops, chat) + if op.r.id in IdsOf(Ever(ops, chat)) then [] else [op.r]
  {
    assert (ops + [op])[..|ops|] == ops;
  }

  /** Ids a, b, a under a cap of one: the log has a, the newest of the log without a cap is b. */
  lemma ReturnedIdComesBack(chat: string, a: Record, b: Record)
    requires a.id != b.id
    ensures var ops := [Add(chat, a)] + [Add(chat, b)] + [Add(chat, a)];
            LogOf(Run(ops, 1), chat) == [a] && Last(Ever(ops, chat), 1) == [b]
  {
    var first, second := [Add(chat, a)], [Add(chat, a)] + [Add(chat, b)];
    RunSnoc([], Add(chat, a), 1, chat);
    assert [] + first == first;
    RunSnoc(first, Add(chat, b), 1, chat);
    RunSnoc(second, Add(chat, a), 1, chat);
    NoItems();
    IdsSnoc([], a);
    IdsSnoc([a], b);
    IdsSnoc([], b);
    assert [] + [a] == [a] && [] + [b] == [b];
    assert LogOf(Run(first, 1), chat) == [a] && LogOf(Run(second, 1), chat) == [b];
  }

  // ---- A loaded log ----

  /** The item at `p` is the first with its id. */
  ghost predicate FirstOfId(items: seq<Option<Record>>, p: nat) {
    && p < |items| && items[p].Some?
    && forall q | 0 <= q < p && items[q].Some? :: items[q].value.id != items[p].value.id
  }

  ghost predicate ArePlaces(items: seq<Option<Record>>, places: seq<nat>, log: seq<Record>) {
    && |places| == |log| && (forall j, k | 0 <= j < k < |places| :: places[j] < places[k])
    && (forall p :: p in places <==> FirstOfId(items, p))
    && forall k | 0 <= k < |places| :: places[k] < |items| && items[places[k]] == Some(log[k])
  }

  lemma FirstOfIdNext(before: seq<Option<Record>>, item: Option<Record>, p: nat)
    ensures FirstOfId(before + [item], p)
       <==> FirstOfId(before, p) || (p == |before| && item.Some? && item.value.id !in ItemIds(before))
  {
    var items := before + [item];
    if p == |before| && item.Some? && item.value.id !in ItemIds(before) {
      forall q | 0 <= q < p && items[q].Some? ensures items[q].value.id != item.value.id {
        assert before[q].value.id in ItemIds(before);
      }
    }
    if FirstOfId(before, p) { assert forall q | 0 <= q < p :: items[q] == before[q]; }
    if FirstOfId(items, p) {
      forall q | 0 <= q < p && before[q].Some? ensures before[q].value.id != items[p].value.id {
        assert items[q] == before[q];
      }
    }
  }

  /** A loaded log is the first item of each id, in the order of the file. */
  lemma {:induction false} LoadedInOrder(items: seq<Option<Record>>) returns (places: seq<nat>)
    ensures ArePlaces(items, places, Loaded(items))
  {
    hide FirstOfId, IdsOf, ItemIds;
    places := [];
    if items == [] {
      assert ArePlaces([], [], []) by { NoPlaces(); }
    } else {
      var before, item := items[..|items| - 1], items[|items| - 1];
      assert before + [item] == items;
      places := LoadedInOrder(before);
      LoadedIsConsistent(before);
      forall p: nat { FirstOfIdNext(before, item, p); }
      if item.Some? && item.value.id !in ItemIds(before) {
        OneMorePlace(before, item.value, places, Loaded(before));
        places := places + [|before|];
      }
    }
  }

  lemma NoPlaces()
    ensures ArePlaces([], [], [])
  {}

  lemma OneMorePlace(before: seq<Option<Record>>, r: Record, places: seq<nat>, log: seq<Record>)
    requires ArePlaces(before, places, log) && r.id !in ItemIds(before)
    ensures ArePlaces(before + [Some(r)], places + [|before|], log + [r])
  {
    hide FirstOfId, ItemIds;
    forall p: nat { FirstOfIdNext(before, Some(r), p); }
  }
}
