/** What every run of the protocol keeps about the system as a whole: the key table, the write log
    and the table the log amounts to. */
module LifecycleSafety {
  import opened Domain
  import opened IdempotencyKeys
  import opened TradesTable
  import opened Lifecycle
  import opened LifecycleInvariants

  // ---------------------------------------------------------------- keys

  /** The keys claimed for a base, in the order they were claimed. */
  function Issued(ts: seq<Trade>, base: string): seq<string> {
    if ts == [] then []
    else
      var t := ts[|ts| - 1];
      Issued(ts[..|ts| - 1], base) + if t.base == base then [t.Key()] else []
  }

  /** Attempts 0, 1, ..., n - 1 of a base. */
  function FirstKeys(base: string, n: nat): seq<string> {
    seq(n, (k: nat) => ComposeKey(base, k))
  }

  predicate Claims(s: State, base: string) {
    NextKey(s, base) in s.seen
  }

  /** The trade still holds its key. */
  predicate Holds(s: State, i: int, key: string) {
    0 <= i < |s.trades| && s.trades[i].forgets == 0 && s.trades[i].Key() == key
  }

  /** A trade that holds its key is at the current attempt of its base; one that gave it up is before. */
  predicate Stamped(s: State, t: Trade) {
    && IsBase(t.base) && t.forgets <= 1
    && (t.forgets == 0 ==> t.attempt == AttemptsOf(s.attempts, t.base) && t.Key() in s.seen)
    && (t.forgets == 1 ==> t.attempt < AttemptsOf(s.attempts, t.base))
  }

  predicate AllStamped(s: State) {
    forall i :: 0 <= i < |s.trades| ==> Stamped(s, s.trades[i])
  }

  ghost predicate SeenIsHeld(s: State) {
    forall k :: k in s.seen ==> exists i :: Holds(s, i, k)
  }

  predicate AttemptsGrow(ts: seq<Trade>) {
    forall i, j :: 0 <= i < j < |ts| && ts[i].base == ts[j].base ==> ts[i].attempt < ts[j].attempt
  }

  function IssuedCount(s: State, base: string): nat {
    AttemptsOf(s.attempts, base) + if Claims(s, base) then 1 else 0
  }

  ghost predicate IssuedExactly(s: State) {
    forall base :: IsBase(base) ==> Issued(s.trades, base) == FirstKeys(base, IssuedCount(s, base))
  }

  ghost predicate KeysKept(s: State) {
    AllStamped(s) && SeenIsHeld(s) && AttemptsGrow(s.trades) && IssuedExactly(s)
  }

  /** Same trades as far as keys go. */
  predicate SameKeys(ts: seq<Trade>, ts': seq<Trade>) {
    |ts| == |ts'| && forall i :: 0 <= i < |ts| ==> ts'[i].base == ts[i].base && ts'[i].attempt == ts[i].attempt
  }

  lemma {:induction false} IssuedSame(ts: seq<Trade>, ts': seq<Trade>, base: string)
    requires SameKeys(ts, ts')
    ensures Issued(ts, base) == Issued(ts', base)
  {
    if ts != [] {
      IssuedSame(ts[..|ts| - 1], ts'[..|ts| - 1], base);
    }
  }

  lemma KeysInit(c: Config)
    ensures KeysKept(Init(c))
  {
  }

  predicate Claimed(s: State, t: Trade, s': State) {
    && IsBase(t.base) && t.attempt == AttemptsOf(s.attempts, t.base) && t.forgets == 0 && t.Key() !in s.seen
    && s'.seen == s.seen + {t.Key()} && s'.attempts == s.attempts && s'.trades == s.trades + [t]
  }

  lemma IssuedClaim(s: State, t: Trade, s': State)
    requires IssuedExactly(s) && Claimed(s, t, s')
    ensures IssuedExactly(s')
  {
    assert s'.trades[..|s.trades|] == s.trades;
    forall b | IsBase(b)
      ensures Issued(s'.trades, b) == FirstKeys(b, IssuedCount(s', b))
    {
      ComposedKeysInjective(b, AttemptsOf(s.attempts, b), t.base, t.attempt);
      assert b != t.base ==> Issued(s'.trades, b) == Issued(s.trades, b) + [];
    }
  }

  /** Claiming the next key of a base issues exactly that key. */
  lemma KeysClaim(s: State, t: Trade, s': State)
    requires KeysKept(s) && Claimed(s, t, s')
    ensures KeysKept(s')
  {
    hide ComposeKey, IsDate;
    IssuedClaim(s, t, s');
    forall i | 0 <= i < |s'.trades|
      ensures Stamped(s', s'.trades[i])
      ensures i < |s.trades| && s'.trades[i].base == t.base ==> s'.trades[i].attempt < t.attempt
    {
      if i < |s.trades| { assert Stamped(s, s.trades[i]); }
    }
    forall k | k in s'.seen
      ensures exists i :: Holds(s', i, k)
    {
      if k in s.seen {
        var i :| Holds(s, i, k);
        assert Holds(s', i, k);
      } else {
        assert Holds(s', |s.trades|, k);
      }
    }
  }

  lemma StampsKept(s: State, s': State)
    requires AllStamped(s) && AttemptsGrow(s.trades)
    requires s'.seen == s.seen && s'.attempts == s.attempts && SameKeys(s.trades, s'.trades)
    requires forall i :: 0 <= i < |s.trades| ==> s'.trades[i].forgets == s.trades[i].forgets
    ensures AllStamped(s') && AttemptsGrow(s'.trades)
  {
    hide ComposeKey, IsDate;
    forall i | 0 <= i < |s'.trades|
      ensures Stamped(s', s'.trades[i])
    {
      assert Stamped(s, s.trades[i]);
    }
  }

  /** A step that forgets nothing leaves the key table alone. */
  lemma KeysAct(s: State, s': State)
    requires KeysKept(s) && s'.seen == s.seen && s'.attempts == s.attempts && SameKeys(s.trades, s'.trades)
    requires forall i :: 0 <= i < |s.trades| ==> s'.trades[i].forgets == s.trades[i].forgets
    ensures KeysKept(s')
  {
    hide ComposeKey, IsDate, Stamped;
    StampsKept(s, s');
    forall k | k in s'.seen
      ensures exists i :: Holds(s', i, k)
    {
      var i :| Holds(s, i, k);
      assert Holds(s', i, k);
    }
    forall b | IsBase(b)
      ensures Issued(s'.trades, b) == FirstKeys(b, IssuedCount(s', b))
    {
      IssuedSame(s.trades, s'.trades, b);
    }
  }

  /** Of the trades of one base only the last can still hold its key. */
  lemma OtherTrades(s: State, id: nat, i: nat)
    requires KeysKept(s) && id < |s.trades| && i < |s.trades| && i != id && s.trades[id].forgets == 0
    ensures s.trades[i].base == s.trades[id].base ==> s.trades[i].forgets == 1
    ensures s.trades[i].Key() != s.trades[id].Key()
  {
    var t, u := s.trades[id], s.trades[i];
    assert Stamped(s, t) && Stamped(s, u);
    ComposedKeysInjective(u.base, u.attempt, t.base, t.attempt);
  }

  predicate Forgot(s: State, id: nat, s': State) {
    && id < |s.trades| && s.trades[id].forgets == 0 && SameKeys(s.trades, s'.trades)
    && (forall i :: 0 <= i < |s.trades| ==> s'.trades[i].forgets == if i == id then 1 else s.trades[i].forgets)
    && s'.seen == s.seen - {s.trades[id].Key()}
    && s'.attempts == s.attempts[s.trades[id].base := s.trades[id].attempt + 1]
  }

  lemma ForgetIssues(s: State, id: nat, b: string, s': State)
    requires KeysKept(s) && Forgot(s, id, s') && IsBase(b)
    ensures IssuedCount(s', b) == IssuedCount(s, b)
  {
    var t := s.trades[id];
    assert Stamped(s, t);
    if b == t.base {
      if Claims(s', b) {
        var i :| Holds(s, i, NextKey(s', b));
        assert Stamped(s, s.trades[i]);
        ComposedKeysInjective(s.trades[i].base, s.trades[i].attempt, b, t.attempt + 1);
      }
    } else {
      ComposedKeysInjective(b, AttemptsOf(s.attempts, b), t.base, t.attempt);
    }
  }

  lemma OthersStamped(s: State, id: nat, s': State)
    requires KeysKept(s) && Forgot(s, id, s')
    ensures AllStamped(s') && AttemptsGrow(s'.trades)
  {
    hide ComposeKey, IsDate, SeenIsHeld, IssuedExactly;
    assert Stamped(s, s.trades[id]);
    forall i | 0 <= i < |s'.trades|
      ensures Stamped(s', s'.trades[i])
    {
      assert Stamped(s, s.trades[i]);
      if i != id { OtherTrades(s, id, i); }
    }
  }

  /** Forgetting the key of a trade that still holds it frees the base for its next attempt. */
  lemma KeysForget(s: State, id: nat, s': State)
    requires KeysKept(s) && Forgot(s, id, s')
    ensures KeysKept(s')
  {
    hide ComposeKey, IsDate, Stamped;
    OthersStamped(s, id, s');
    forall k | k in s'.seen
      ensures exists i :: Holds(s', i, k)
    {
      var i :| Holds(s, i, k);
      assert Holds(s', i, k);
    }
    forall b | IsBase(b)
      ensures Issued(s'.trades, b) == FirstKeys(b, IssuedCount(s', b))
    {
      IssuedSame(s.trades, s'.trades, b);
      ForgetIssues(s, id, b, s');
    }
  }

  // ---------------------------------------------------------------- the write log and its table

  /** The statuses the log gives to one trade, in order. */
  function StatusLog(log: seq<Task>, id: nat): seq<Status> {
    if log == [] then []
    else
      var task := log[|log| - 1];
      StatusLog(log[..|log| - 1], id) + if task.id == id then [Stated(task)] else []
  }

  /** The table the log amounts to, applied in order. */
  function LoggedTable(log: seq<Task>): Result<Table> {
    Transact(map[], log)
  }

  function SheetIn(table: Table, log: seq<Task>, id: nat): Sheet {
    Sheet(if id in table then Some(table[id]) else None, StatusLog(log, id))
  }

  predicate SheetsKept(c: Config, ts: seq<Trade>, table: Table, log: seq<Task>) {
    forall id :: 0 <= id < |ts| ==> SheetKept(c, ts[id], SheetIn(table, log, id))
  }

  /** Every update finds its row. */
  predicate UpdatesLand(log: seq<Task>) {
    forall k :: 0 <= k < |log| && log[k].Update? ==>
        LoggedTable(log[..k]).Ok? && log[k].id in LoggedTable(log[..k]).value
  }

  /** No write is ever refused, and every row stands where its trade stands. */
  predicate LogKept(s: State) {
    && LoggedTable(s.log).Ok? && UpdatesLand(s.log)
    && (forall id :: id in LoggedTable(s.log).value ==> id < |s.trades|)
    && (forall k :: 0 <= k < |s.log| ==> s.log[k].id < |s.trades|)
    && SheetsKept(s.config, s.trades, LoggedTable(s.log).value, s.log)
  }

  predicate TradesKept(s: State) {
    forall i :: 0 <= i < |s.trades| ==> s.trades[i].id == i && TradeKept(s.config, s.trades[i])
  }

  ghost predicate SystemKept(s: State) {
    TradesKept(s) && KeysKept(s) && LogKept(s)
  }

  /** No two trades ever share a key. */
  lemma KeysDistinct(s: State, i: nat, j: nat)
    requires KeysKept(s) && i < |s.trades| && j < |s.trades| && i != j
    ensures s.trades[i].Key() != s.trades[j].Key()
  {
    var t, u := s.trades[i], s.trades[j];
    assert Stamped(s, t) && Stamped(s, u);
    ComposedKeysInjective(t.base, t.attempt, u.base, u.attempt);
  }

  lemma {:induction false} StatusLogAbsent(log: seq<Task>, id: nat)
    requires forall k :: 0 <= k < |log| ==> log[k].id != id
    ensures StatusLog(log, id) == []
  {
    if log != [] {
      StatusLogAbsent(log[..|log| - 1], id);
    }
  }

  // ---------------------------------------------------------------- one step

  /** A step about trade id, seen from outside the trade. */
  predicate SystemStep(s: State, id: nat, w: Option<Task>, m: Trade, forgets: bool, s': State) {
    && id < |s.trades| && LocalStep(s.config, s.trades[id], w, m, forgets)
    && s'.config == s.config && s'.trades == s.trades[id := m]
    && s'.log == s.log + (if w.Some? then [w.value] else [])
    && (if forgets then
          var f := Forget(s, s.trades[id].Key());
          s'.seen == f.seen && s'.attempts == f.attempts
        else s'.seen == s.seen && s'.attempts == s.attempts)
  }

  lemma ActedIsSystemStep(s: State, id: nat, a: Action)
    requires TradesKept(s) && Enabled(s, On(id, a))
    ensures SystemStep(s, id, Write(s.config, s.trades[id], a), Next(s.config, s.trades[id], a), Forgets(a),
                       Acted(s, id, a))
  {
    hide Control, OrdersKept, HoldsKept, TrailKept, TurnKept, RaceKept, Guard, Next, Write, LocalStep, SplitAttempt,
         ComposeKey;
    StepIsLocal(s.config, s.trades[id], a);
    assert s.log + [] == s.log;
  }

  ghost predicate DistinctKeys(ts: seq<Trade>) {
    forall i, j :: 0 <= i < j < |ts| ==> ts[i].Key() != ts[j].Key()
  }

  lemma SheetHasKey(c: Config, t: Trade, h: Sheet)
    requires SheetKept(c, t, h)
    ensures h.row.None? <==> NoRowYet(t)
    ensures h.row.Some? ==> h.row.value.key == t.Key()
  {
    hide StatusKept, LiveKept, PaperKept;
  }

  /** The write of a step is accepted: an insert meets a fresh key, an update an existing row. */
  lemma WriteLands(c: Config, ts: seq<Trade>, table: Table, log: seq<Task>, id: nat, task: Task, m: Trade,
                   forgets: bool)
    requires DistinctKeys(ts) && SheetsKept(c, ts, table, log) && (forall i :: i in table ==> i < |ts|)
    requires id < |ts| && ts[id].id == id && LocalStep(c, ts[id], Some(task), m, forgets)
    ensures Execute(table, task).Ok? && (task.Update? ==> id in table)
    ensures forall i :: i in Execute(table, task).value ==> i < |ts|
    ensures forall i :: 0 <= i < |ts| ==> SheetIn(Execute(table, task).value, log + [task], i) ==
                                          if i == id then Written(SheetIn(table, log, id), Some(task))
                                              else SheetIn(table, log, i)
  {
    hide SheetKept, ComposeKey, Qty, Notional, NoRowYet;
    SheetHasKey(c, ts[id], SheetIn(table, log, id));
    match task {
      case Insert(_, row) =>
        forall i | i in table
          ensures table[i].key != row.key
        {
          SheetHasKey(c, ts[i], SheetIn(table, log, i));
          assert ts[i].Key() != ts[id].Key();
        }
      case Update(_, _) =>
    }
    assert (log + [task])[..|log|] == log;
  }

  /** One more write lands if its row is there. */
  lemma UpdateLands(log: seq<Task>, task: Task)
    requires UpdatesLand(log) && LoggedTable(log).Ok? && (task.Update? ==> task.id in LoggedTable(log).value)
    ensures UpdatesLand(log + [task])
  {
    hide LoggedTable;
    assert forall k :: 0 <= k <= |log| ==> (log + [task])[..k] == log[..k];
    assert log[..|log|] == log;
  }

  lemma LogStep(s: State, id: nat, w: Option<Task>, m: Trade, forgets: bool, s': State)
    requires KeysKept(s) && LogKept(s) && SystemStep(s, id, w, m, forgets, s') && s.trades[id].id == id
    requires forall h :: SheetKept(s.config, s.trades[id], h) ==> SheetKept(s.config, m, Written(h, w))
    ensures LogKept(s')
  {
    hide SheetKept, LocalStep, Forget, Execute, KeysKept, UpdatesLand, StatusLog;
    var table := LoggedTable(s.log).value;
    if w.Some? {
      forall i, j | 0 <= i < j < |s.trades|
        ensures s.trades[i].Key() != s.trades[j].Key()
      {
        KeysDistinct(s, i, j);
      }
      TransactSnoc(map[], s.log, w.value);
      WriteLands(s.config, s.trades, table, s.log, id, w.value, m, forgets);
      TaskIsAbout(s.config, s.trades[id], w.value, m, forgets);
      UpdateLands(s.log, w.value);
    } else {
      assert s'.log == s.log;
    }
    forall i | 0 <= i < |s'.trades|
      ensures SheetKept(s.config, s'.trades[i], SheetIn(LoggedTable(s'.log).value, s'.log, i))
    {
      assert SheetKept(s.config, s.trades[i], SheetIn(table, s.log, i));
    }
  }

  lemma TaskIsAbout(c: Config, t: Trade, task: Task, m: Trade, forgets: bool)
    requires LocalStep(c, t, Some(task), m, forgets)
    ensures task.id == t.id
  {
  }

  lemma KeysStep(s: State, id: nat, w: Option<Task>, m: Trade, forgets: bool, s': State)
    requires KeysKept(s) && SystemStep(s, id, w, m, forgets, s') && m.forgets <= 1
    ensures KeysKept(s')
  {
    hide WriteInTurn, SplitAttempt, ComposeKey;
    if forgets {
      assert Stamped(s, s.trades[id]);
      SplitAttemptOfSignal(s.trades[id].base, s.trades[id].attempt);
      KeysForget(s, id, s');
    } else {
      KeysAct(s, s');
    }
  }

  lemma ForgetsOnce(c: Config, t: Trade)
    requires TradeKept(c, t)
    ensures t.forgets <= 1
  {
    hide OrdersKept, HoldsKept, TrailKept, TurnKept, RaceKept;
  }

  lemma ActionKept(s: State, id: nat, a: Action)
    requires SystemKept(s) && Enabled(s, On(id, a))
    ensures SystemKept(Acted(s, id, a))
  {
    hide TradeKept, SheetKept, Guard, Next, Write, Acted, KeysKept, LogKept, SystemStep;
    var t := s.trades[id];
    var m, w, s' := Next(s.config, t, a), Write(s.config, t, a), Acted(s, id, a);
    TradeStepKept(s.config, t, a);
    ForgetsOnce(s.config, m);
    forall h | SheetKept(s.config, t, h)
      ensures SheetKept(s.config, m, Written(h, w))
    {
      SheetStepKept(s.config, t, h, a);
    }
    ActedIsSystemStep(s, id, a);
    KeysStep(s, id, w, m, Forgets(a), s');
    LogStep(s, id, w, m, Forgets(a), s');
    TradesStep(s, id, w, m, Forgets(a), s');
  }

  lemma TradesStep(s: State, id: nat, w: Option<Task>, m: Trade, forgets: bool, s': State)
    requires TradesKept(s) && SystemStep(s, id, w, m, forgets, s') && TradeKept(s.config, m)
    ensures TradesKept(s') && s'.config == s.config
  {
    hide TradeKept, WriteInTurn, Forget;
  }

  /** `Begun` adds a fresh trade under the key it claims. */
  predicate Joined(s: State, t: Trade, s': State) {
    && s'.config == s.config && s'.log == s.log && Claimed(s, t, s') && t.id == |s.trades|
  }

  lemma BegunJoins(s: State, entry: Entry, price: real, date: string) returns (t: Trade)
    requires Enabled(s, Begin(entry, price, date))
    ensures Joined(s, t, Begun(s, entry, price, date)) && TradeKept(s.config, t)
    ensures SheetKept(s.config, t, Sheet(None, []))
  {
    hide TradeKept, SheetKept, BaseKey;
    var base := BaseOf(s.config, entry, date);
    BaseKeyIsBase(s.config.mode, entry.symbol, entry.reason, date);
    NewTradeKept(s.config, |s.trades|, base, AttemptsOf(s.attempts, base), entry, price);
    t := Trade(|s.trades|, base, AttemptsOf(s.attempts, base), entry, price);
  }

  lemma LogJoined(s: State, t: Trade, s': State)
    requires LogKept(s) && Joined(s, t, s') && SheetKept(s.config, t, Sheet(None, []))
    ensures LogKept(s')
  {
    hide SheetKept, IsBase;
    StatusLogAbsent(s.log, |s.trades|);
  }

  lemma JoinKept(s: State, t: Trade, s': State)
    requires SystemKept(s) && Joined(s, t, s') && TradeKept(s.config, t) && SheetKept(s.config, t, Sheet(None, []))
    ensures SystemKept(s')
  {
    hide SheetKept, TradeKept, KeysKept, LogKept, IsBase;
    KeysClaim(s, t, s');
    LogJoined(s, t, s');
  }

  lemma StepKept(s: State, ev: Event)
    requires SystemKept(s) && Enabled(s, ev)
    ensures SystemKept(Step(s, ev)) && Step(s, ev).config == s.config
  {
    hide SystemKept, Guard, Next, Write, SplitAttempt;
    match ev
    case Begin(entry, price, date) =>
      var t := BegunJoins(s, entry, price, date);
      JoinKept(s, t, Begun(s, entry, price, date));
    case On(id, a) => ActionKept(s, id, a);
  }

  /** Whatever the threads, the broker and the cash service do. */
  lemma {:induction false} RunKept(c: Config, evs: seq<Event>)
    requires Run(Init(c), evs).Some?
    ensures SystemKept(Run(Init(c), evs).value) && Run(Init(c), evs).value.config == c
    decreases |evs|
  {
    hide Step, Enabled;
    if evs == [] {
      KeysInit(c);
    } else {
      RunKept(c, evs[..|evs| - 1]);
      StepKept(Run(Init(c), evs[..|evs| - 1]).value, evs[|evs| - 1]);
    }
  }
}
