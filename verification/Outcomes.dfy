/** What the calls of the service do to the table and to the trades, in plain figures: prices, sides, columns. */
module Outcomes {
  import opened Domain
  import opened IdempotencyKeys
  import opened Sizing
  import opened TradesTable
  import opened Lifecycle
  import opened LifecycleInvariants
  import opened LifecycleSafety
  import opened LifecycleTheorems
  import opened Scripts
  import opened Calls
  import R = Rehydration
  import B = PositionBooks

  // ---------------------------------------------------------------- execute

  /** The row of a signal, whatever became of it. */
  predicate SignalRow(c: Config, e: Entry, price: real, date: string, attempt: nat, r: Row) {
    && r.isPaper == c.mode.Paper? && r.symbol == e.symbol && r.kind == e.kind
    && r.side == (if e.kind.Long? then Buy else Sell)
    && r.targetBuy == e.buyPrice && r.targetSell == Some(e.sellPrice) && r.triggerPrice == price
    && r.notional == r.quantity * price
    && r.key == ComposeKey(BaseKey(c.mode, e.symbol, e.reason, date), attempt)
    && r.exitOrderId.None? && r.exitReason.None? && r.exitQty.None? && r.exitPrice.None? && r.closedAt.None?
  }

  /** What became of it: filled at once on paper; live refused for funds exactly when a balance was read that is
      below the value of the shares, failed when the cash service or the broker failed, submitted otherwise. */
  predicate EntryRow(c: Config, id: nat, price: real, cash: CashAnswer, accepted: bool, r: Row) {
    if c.mode.Paper? then
      && r.status.FILLED? && r.filledQty == Some(r.quantity) && r.filledPrice == Some(price)
      && r.brokerOrderId.None? && r.holdId.None? && r.errorCode.None?
    else
      && r.filledQty.None? && r.filledPrice.None?
      && (r.status.INSUFFICIENT_FUNDS? <==> cash.Balance? && cash.amount < r.quantity * price)
      && if cash.Balance? && cash.amount >= r.quantity * price && cash.holdPlaced then
           && r.holdId == Some(id)
           && if accepted then r.status.SUBMITTED? && r.brokerOrderId == Some(EntryOrder(id)) && r.errorCode.None?
              else r.status.FAILED? && r.brokerOrderId.None? && r.errorCode == Some("BROKER_ERROR")
         else
           && r.holdId.None? && r.brokerOrderId.None?
           && (!r.status.INSUFFICIENT_FUNDS? ==> r.status.FAILED? && r.errorCode == Some("CASH_ERROR"))
  }

  /** The trade: a position for the shares of the row at the price, open on paper and pending live, one order for
      them on the signal's side, one hold for their value. */
  predicate EntryTrade(c: Config, e: Entry, price: real, cash: CashAnswer, accepted: bool, r: Row, t: Trade) {
    var held := c.mode.Live? && cash.Balance? && cash.amount >= r.quantity * price && cash.holdPlaced;
    && (t.pos.Some? <==> c.mode.Paper? || (held && accepted))
    && (t.pos.Some? ==>
          var p := t.pos.value;
          && p.symbol == e.symbol && p.kind == e.kind && p.quantity == r.quantity && p.entryPrice == price
          && p.sellPrice == Some(e.sellPrice) && p.isPaper == c.mode.Paper? && p.key == r.key
          && p.state == if c.mode.Paper? then OPEN else PENDING_ENTRY)
    && t.entryOrder ==
         (if held && accepted then Some(Order(if e.kind.Long? then Buy else Sell, r.quantity)) else None)
    && t.holds == (if !held then []
                   else if accepted then [Placed(r.quantity * price, cash.amount)]
                   else [Placed(r.quantity * price, cash.amount), Released])
  }

  /** `execute`, once past its dedup: an order that cannot be sized leaves the table alone; any other adds the row of
      its signal and touches no other row. */
  ghost predicate EntryMade(s: State, m: State, e: Entry, price: real, date: string, cash: CashAnswer, accepted: bool) {
    var id, rule, before, after := |s.trades|, s.config.rule, TableOf(s), TableOf(m);
    && id !in before && |m.trades| == id + 1 && m.trades[..id] == s.trades
    && if price <= 0.0 || rule.notionalUsd.Some? == rule.quantity.Some? then
         after == before && m.trades[id].pos.None? && m.trades[id].entryOrder.None? && m.trades[id].holds == []
       else
         && after.Keys == before.Keys + {id} && (forall i :: i in before ==> after[i] == before[i])
         && ComputeSizing(price, rule).Ok? && after[id].quantity == ComputeSizing(price, rule).value.0 as real
         && SignalRow(s.config, e, price, date,
                      AttemptsOf(s.attempts, BaseKey(s.config.mode, e.symbol, e.reason, date)), after[id])
         && EntryRow(s.config, id, price, cash, accepted, after[id])
         && EntryTrade(s.config, e, price, cash, accepted, after[id], m.trades[id])
  }

  lemma EntryOutcome(s: State, e: Entry, price: real, date: string, cash: CashAnswer, accepted: bool)
    requires Reachable(s) && Enabled(s, Begin(e, price, date))
    ensures EntryMade(s, Entered(s, e, price, date, cash, accepted), e, price, date, cash, accepted)
  {
    hide Run, Reachable, TableOf, ComputeSizing, ComposeKey, BaseKey, EntryDone, EntryTasks, SignalRow, EntryRow,
         EntryTrade, NewRow, NewPos, Qty, Notional;
    var id, m := |s.trades|, Entered(s, e, price, date, cash, accepted);
    var t := Begun(s, e, price, date).trades[id];
    NotionalIsSharesTimesPrice(price, s.config.rule);
    if id in TableOf(s) { R.RowHasTrade(s, id); }
    EntryRuns(s, e, price, date, cash, accepted);
    if ComputeSizing(price, s.config.rule).Err? {
      UnsizedLeavesNothing(s.config, t, cash, accepted);
      assert m.log == s.log;
      TableFollowsLog(s, m);
    } else {
      EntryTable(s, t, m, cash, accepted);
      EntryFigures(s.config, t, cash, accepted, date);
    }
  }

  lemma UnsizedLeavesNothing(c: Config, t: Trade, cash: CashAnswer, accepted: bool)
    requires ComputeSizing(t.price, c.rule).Err?
    ensures EntryTasks(c, t, cash, accepted) == [] && EntryDone(c, t, cash, accepted) == t.(entryPc := Unsized)
  {
    hide ComputeSizing;
  }

  /** The table is a matter of the log alone. */
  lemma TableFollowsLog(s: State, m: State)
    requires m.log == s.log
    ensures TableOf(m) == TableOf(s)
  {
  }

  /** A row after these updates of it. */
  function RowAfter(r: Row, updates: seq<Task>): Row
    requires forall k :: 0 <= k < |updates| ==> updates[k].Update?
  {
    if updates == [] then r
    else updates[|updates| - 1].fields.Apply(RowAfter(r, updates[..|updates| - 1]))
  }

  predicate UpdatesOf(id: nat, updates: seq<Task>) {
    forall k :: 0 <= k < |updates| ==> updates[k].Update? && updates[k].id == id
  }

  lemma {:induction false} InsertThenUpdates(t: Table, id: nat, r: Row, updates: seq<Task>)
    requires UpdatesOf(id, updates) && Transact(t, [Insert(id, r)] + updates).Ok?
    ensures id !in t && Transact(t, [Insert(id, r)] + updates) == Ok(t[id := RowAfter(r, updates)])
    decreases |updates|
  {
    hide KeyFree;
    if updates == [] {
      assert [Insert(id, r)] + updates == [Insert(id, r)] && [Insert(id, r)][..0] == [];
    } else {
      var init, last := updates[..|updates| - 1], updates[|updates| - 1];
      assert [Insert(id, r)] + updates == ([Insert(id, r)] + init) + [last];
      TransactSnoc(t, [Insert(id, r)] + init, last);
      InsertThenUpdates(t, id, r, init);
      assert t[id := RowAfter(r, init)][id := RowAfter(r, updates)] == t[id := RowAfter(r, updates)];
    }
  }

  lemma EntryTasksApart(c: Config, t: Trade, cash: CashAnswer, accepted: bool)
    requires t == Trade(t.id, t.base, t.attempt, t.entry, t.price) && ComputeSizing(t.price, c.rule).Ok?
    ensures var tasks := EntryTasks(c, t, cash, accepted);
            tasks != [] && tasks == [Insert(t.id, NewRow(c, t))] + tasks[1..] && UpdatesOf(t.id, tasks[1..])
  {
    hide ComputeSizing, Notional, Qty, NewRow, EntryDone, EntryTasks;
    EntryShape(c, t, cash, accepted);
  }

  lemma EntryTable(s: State, t: Trade, m: State, cash: CashAnswer, accepted: bool)
    requires Reachable(s) && Reachable(m) && m.log == s.log + EntryTasks(s.config, t, cash, accepted)
    requires t == Trade(t.id, t.base, t.attempt, t.entry, t.price) && ComputeSizing(t.price, s.config.rule).Ok?
    ensures |EntryTasks(s.config, t, cash, accepted)| > 0 && t.id !in TableOf(s)
    ensures UpdatesOf(t.id, EntryTasks(s.config, t, cash, accepted)[1..])
    ensures TableOf(m) ==
            TableOf(s)[t.id := RowAfter(NewRow(s.config, t), EntryTasks(s.config, t, cash, accepted)[1..])]
  {
    hide Run, Reachable, ComputeSizing, NewRow, EntryTasks, SheetsKept, TradesKept, KeysKept, UpdatesLand, Transact,
         RowAfter;
    ReachableKept(s);
    ReachableKept(m);
    EntryTasksApart(s.config, t, cash, accepted);
    var tasks := EntryTasks(s.config, t, cash, accepted);
    TransactSplit(map[], s.log, tasks);
    InsertThenUpdates(TableOf(s), t.id, NewRow(s.config, t), tasks[1..]);
  }

  lemma RowAfterOne(r: Row, u: Task)
    requires u.Update?
    ensures RowAfter(r, [u]) == u.fields.Apply(r)
  {
    assert [u][..0] == [];
    assert RowAfter(r, []) == r;
  }

  lemma RowAfterTwo(r: Row, u: Task, v: Task)
    requires u.Update? && v.Update?
    ensures RowAfter(r, [u, v]) == v.fields.Apply(u.fields.Apply(r))
  {
    assert [u, v][..1] == [u];
    RowAfterOne(r, u);
  }

  lemma EntryFigures(c: Config, t: Trade, cash: CashAnswer, accepted: bool, date: string)
    requires t == Trade(t.id, t.base, t.attempt, t.entry, t.price) && ComputeSizing(t.price, c.rule).Ok?
    requires t.base == BaseKey(c.mode, t.entry.symbol, t.entry.reason, date)
    requires |EntryTasks(c, t, cash, accepted)| > 0 && UpdatesOf(t.id, EntryTasks(c, t, cash, accepted)[1..])
    ensures var r := RowAfter(NewRow(c, t), EntryTasks(c, t, cash, accepted)[1..]);
            && r.quantity == ComputeSizing(t.price, c.rule).value.0 as real
            && SignalRow(c, t.entry, t.price, date, t.attempt, r)
            && EntryRow(c, t.id, t.price, cash, accepted, r)
            && EntryTrade(c, t.entry, t.price, cash, accepted, r, EntryDone(c, t, cash, accepted))
  {
    hide ComputeSizing, ComposeKey, BaseKey, EntryDone, EntryTasks, RowAfter;
    EntryShape(c, t, cash, accepted);
    NotionalIs(c, t);
    var us := EntryTasks(c, t, cash, accepted)[1..];
    if |us| == 1 {
      assert us == [us[0]];
      RowAfterOne(NewRow(c, t), us[0]);
    } else {
      assert us == [us[0], us[1]];
      RowAfterTwo(NewRow(c, t), us[0], us[1]);
    }
  }

  // ---------------------------------------------------------------- check_exits and liquidate_all

  /** The row after an exit: closed at the price on paper; live submitted with the next exit id, or failed. No other
      column changes. */
  predicate ExitRow(c: Config, t: Trade, price: real, why: ExitReason, accepted: bool, now: int, was: Row, r: Row) {
    && t.pos.Some?
    && if c.mode.Paper? then
         r == was.(status := CLOSED, exitReason := Some(why), exitQty := Some(t.pos.value.quantity),
                   exitPrice := Some(price), closedAt := Some(now))
       else if accepted then
         r == was.(status := EXIT_SUBMITTED, exitOrderId := Some(ExitOrder(t.id, |t.exitOrders|)),
                   exitReason := Some(why))
       else r == was.(status := EXIT_FAILED, errorCode := Some("EXIT_BROKER_ERROR"))
  }

  /** The trade after it: without position on paper; live exiting on one more order for all of the position, on the
      side that leaves it, or open as before. */
  predicate ExitTrade(c: Config, t: Trade, accepted: bool, t': Trade) {
    && t.pos.Some? && t' != t
    && if c.mode.Paper? then t'.pos.None?
       else if accepted then
         && InState(t', EXITING) && t'.pos.value.exitOrderId == Some(ExitOrder(t.id, |t.exitOrders|))
         && t'.exitOrders ==
              t.exitOrders + [Order(if t.entry.kind.Long? then Sell else Buy, t.pos.value.quantity)]
       else
         && InState(t', OPEN) && t'.exitOrders == t.exitOrders
         && t'.pos.value == t.pos.value.(exitOrderId := None)
  }

  lemma {:induction false} ExitTasksAre(c: Config, ts: seq<Trade>, order: seq<nat>, prices: map<string, real>,
                                        why: ExitReason, accepted: set<nat>, now: int)
    requires AllQuiet(ts) && forall k :: 0 <= k < |order| ==> order[k] < |ts| && CanClaim(ts[order[k]], prices, why)
    ensures var tasks := ExitTasks(c, ts, order, prices, why, accepted, now);
            && |tasks| == |order|
            && forall k :: 0 <= k < |order| ==>
                 tasks[k] == ExitTask(c, ClaimTrade(ts[order[k]], prices, why), order[k] in accepted, now)
    decreases |order|
  {
    hide CanClaim, ClaimTrade, ExitTask, AllQuiet;
    if order != [] {
      ExitTasksAre(c, ts, order[..|order| - 1], prices, why, accepted, now);
    }
  }

  lemma ExitTaskIs(c: Config, t: Trade, prices: map<string, real>, why: ExitReason, accepted: bool, now: int)
    requires CanClaim(t, prices, why) && AtRest(t)
    ensures var task := ExitTask(c, ClaimTrade(t, prices, why), accepted, now);
            && task.Update? && task.id == t.id
            && forall was: Row :: ExitRow(c, t, PriceFor(prices, t.pos.value), why, accepted, now, was,
                                          task.fields.Apply(was))
  {
    hide PriceFor;
  }

  lemma ExitOfIs(c: Config, t: Trade, prices: map<string, real>, why: ExitReason, accepted: bool)
    requires CanClaim(t, prices, why) && AtRest(t)
    ensures ExitTrade(c, t, accepted, ExitOf(c, t, prices, why, accepted))
  {
    hide PriceFor;
    assert |t.trail + [Claimed]| > |t.trail|;
  }

  /** m is where the exits of these positions lead from s. */
  ghost predicate Exited(s: State, m: State, ids: set<nat>, order: seq<nat>, prices: map<string, real>,
                         why: ExitReason, accepted: set<nat>, now: int) {
    && AllQuiet(s.trades) && AllCanClaim(s.trades, ids, prices, why) && ListsIds(order, ids) && m.config == s.config
    && m.trades == Exiting(s.config, s.trades, ids, ids, prices, why, accepted)
    && m.log == s.log + ExitTasks(s.config, s.trades, order, prices, why, accepted, now)
  }

  /** Updates of different rows, appended to the log, change those rows and no other. */
  lemma TableUpdated(s: State, m: State, tasks: seq<Task>)
    requires Reachable(s) && m.log == s.log + tasks && UpdatesApart(tasks)
    ensures TableOf(m).Keys == TableOf(s).Keys
    ensures forall k :: 0 <= k < |tasks| && tasks[k].id in TableOf(s) ==>
              TableOf(m)[tasks[k].id] == tasks[k].fields.Apply(TableOf(s)[tasks[k].id])
    ensures forall id :: id in TableOf(s) && (forall k :: 0 <= k < |tasks| ==> tasks[k].id != id) ==>
              TableOf(m)[id] == TableOf(s)[id]
  {
    hide Run, Reachable, Transact, TradesKept, KeysKept, SheetsKept, UpdatesLand;
    ReachableKept(s);
    TransactSplit(map[], s.log, tasks);
    UpdatesApply(TableOf(s), tasks);
  }

  lemma ExitTasksApart(s: State, ids: set<nat>, order: seq<nat>, prices: map<string, real>, why: ExitReason,
                       accepted: set<nat>, now: int)
    requires Reachable(s) && AllQuiet(s.trades) && AllCanClaim(s.trades, ids, prices, why) && ListsIds(order, ids)
    ensures var tasks := ExitTasks(s.config, s.trades, order, prices, why, accepted, now);
            && UpdatesApart(tasks) && |tasks| == |order|
            && forall k :: 0 <= k < |order| ==> tasks[k].id == order[k]
  {
    hide Reachable, AtRest, CanClaim, ClaimTrade, ExitTask, ExitRow;
    ExitTasksAre(s.config, s.trades, order, prices, why, accepted, now);
    forall k | 0 <= k < |order|
      ensures var task := ExitTasks(s.config, s.trades, order, prices, why, accepted, now)[k];
              task.Update? && task.id == order[k]
    {
      ExitTaskIs(s.config, s.trades[order[k]], prices, why, order[k] in accepted, now);
      R.IdIsIndex(s, order[k]);
    }
  }

  /** Each of them has its row and its trade changed, no other row or trade is. */
  lemma ExitsLeave(s: State, m: State, ids: set<nat>, order: seq<nat>, prices: map<string, real>, why: ExitReason,
                   accepted: set<nat>, now: int)
    requires Reachable(s) && Exited(s, m, ids, order, prices, why, accepted, now)
    ensures |m.trades| == |s.trades| && TableOf(m).Keys == TableOf(s).Keys
    ensures forall id :: id in ids ==>
              var t := s.trades[id];
              && id in TableOf(s) && t.pos.Some? && ExitTrade(s.config, t, id in accepted, m.trades[id])
              && ExitRow(s.config, t, PriceFor(prices, t.pos.value), why, id in accepted, now,
                         TableOf(s)[id], TableOf(m)[id])
    ensures forall id :: 0 <= id < |s.trades| && id !in ids ==> m.trades[id] == s.trades[id]
    ensures forall id :: id in TableOf(s) && id !in ids ==> TableOf(m)[id] == TableOf(s)[id]
  {
    hide Reachable, AtRest, CanClaim, ClaimTrade, ExitTask, ExitTrade, ExitRow, PriceFor, TableOf, ExitOf, ExitTasks,
         UpdatesApart;
    var tasks := ExitTasks(s.config, s.trades, order, prices, why, accepted, now);
    ExitTasksAre(s.config, s.trades, order, prices, why, accepted, now);
    ExitTasksApart(s, ids, order, prices, why, accepted, now);
    TableUpdated(s, m, tasks);
    forall id | id in ids
      ensures id in TableOf(s) && s.trades[id].pos.Some?
      ensures ExitTrade(s.config, s.trades[id], id in accepted, m.trades[id])
      ensures ExitRow(s.config, s.trades[id], PriceFor(prices, s.trades[id].pos.value), why, id in accepted, now,
                      TableOf(s)[id], TableOf(m)[id])
    {
      ClaimedHasPosition(s.trades[id], prices, why);
      R.PositionHasRow(s, id);
      ExitTaskIs(s.config, s.trades[id], prices, why, id in accepted, now);
      ExitOfIs(s.config, s.trades[id], prices, why, id in accepted);
      var k :| 0 <= k < |order| && order[k] == id;
      assert tasks[k].id == id;
    }
  }

  lemma ClaimedHasPosition(t: Trade, prices: map<string, real>, why: ExitReason)
    requires CanClaim(t, prices, why)
    ensures InState(t, OPEN)
  {
  }

  /** `liquidate_all` at these prices: every open position, and nothing else, is exited at the last price of its
      symbol, or at its own entry price if there is none. */
  ghost predicate AllLiquidated(s: State, m: State, prices: map<string, real>, accepted: set<nat>, now: int) {
    && |m.trades| == |s.trades| && TableOf(m).Keys == TableOf(s).Keys
    && forall id: nat :: id < |s.trades| ==>
         var t, t' := s.trades[id], m.trades[id];
         if InState(t, OPEN) then
           var p := t.pos.value;
           && id in TableOf(s) && ExitTrade(s.config, t, id in accepted, t')
           && ExitRow(s.config, t, if p.symbol in prices then prices[p.symbol] else p.entryPrice, MarketClose,
                      id in accepted, now, TableOf(s)[id], TableOf(m)[id])
         else t' == t && (id in TableOf(s) ==> TableOf(m)[id] == TableOf(s)[id])
  }

  lemma LiquidationOutcome(s: State, m: State, order: seq<nat>, prices: map<string, real>, accepted: set<nat>, now: int)
    requires Reachable(s) && Exited(s, m, B.Opens(R.BookOf(s.trades)), order, prices, MarketClose, accepted, now)
    ensures AllLiquidated(s, m, prices, accepted, now)
  {
    hide Reachable, TableOf, Exited, ExitRow, ExitTrade;
    ExitsLeave(s, m, B.Opens(R.BookOf(s.trades)), order, prices, MarketClose, accepted, now);
  }

  /** `check_exits`: exactly the open positions of the symbol with a target that the price is at or beyond, above for
      a LONG and below for a SHORT, are exited, at that price. */
  ghost predicate TargetsTaken(s: State, m: State, symbol: string, price: real, accepted: set<nat>, now: int) {
    && |m.trades| == |s.trades| && TableOf(m).Keys == TableOf(s).Keys
    && forall id: nat :: id < |s.trades| ==>
         var t, t' := s.trades[id], m.trades[id];
         if InState(t, OPEN) && t.pos.value.symbol == symbol && t.pos.value.sellPrice.Some?
            && (if t.pos.value.kind.Long? then price >= t.pos.value.sellPrice.value
                else price <= t.pos.value.sellPrice.value)
         then
           && id in TableOf(s) && ExitTrade(s.config, t, id in accepted, t')
           && ExitRow(s.config, t, price, TargetPrice, id in accepted, now, TableOf(s)[id], TableOf(m)[id])
         else t' == t && (id in TableOf(s) ==> TableOf(m)[id] == TableOf(s)[id])
  }

  lemma TargetOutcome(s: State, m: State, order: seq<nat>, symbol: string, price: real, accepted: set<nat>, now: int)
    requires Reachable(s)
    requires Exited(s, m, B.TriggeredIds(R.BookOf(s.trades), symbol, price), order, map[symbol := price], TargetPrice,
                    accepted, now)
    ensures TargetsTaken(s, m, symbol, price, accepted, now)
  {
    hide Reachable, TableOf, Exited, ExitRow, ExitTrade;
    ExitsLeave(s, m, B.TriggeredIds(R.BookOf(s.trades), symbol, price), order, map[symbol := price], TargetPrice,
               accepted, now);
  }
}
