/** The worker: what one tick does, and what a start rebuilds from the table. */
module Executor {
  import opened Domain
  import opened IdempotencyKeys
  import opened Sizing
  import opened TradesTable
  import opened Lifecycle
  import opened LifecycleSafety
  import opened LifecycleTheorems
  import opened Scripts
  import opened Calls
  import opened Matching
  import opened PaperLedger
  import opened AsyncDbWriters
  import opened ExecutionServices
  import opened Outcomes
  import R = Rehydration
  import B = PositionBooks

  datatype Tick = Tick(symbol: string, price: real, date: string)

  /** One match: nothing if its key is taken; false if sizing raised. */
  function EnterOne(s: State, e: Entry, tick: Tick, answer: (CashAnswer, bool)): (State, bool) {
    if NextKey(s, BaseOf(s.config, e, tick.date)) in s.seen then (s, true)
    else (Entered(s, e, tick.price, tick.date, answer.0, answer.1), ComputeSizing(tick.price, s.config.rule).Ok?)
  }

  /** The matches one after the other, up to the first that raises. */
  function EnterAll(s: State, es: seq<Entry>, tick: Tick, answers: nat -> (CashAnswer, bool)): (State, bool) {
    if es == [] then (s, true)
    else
      var n := |es| - 1;
      var (m, ok) := EnterAll(s, es[..n], tick, answers);
      if ok then EnterOne(m, es[n], tick, answers(n)) else (m, false)
  }

  lemma EnterOneQuiet(s: State, e: Entry, tick: Tick, answer: (CashAnswer, bool))
    requires AllQuiet(s.trades)
    ensures AllQuiet(EnterOne(s, e, tick, answer).0.trades) && EnterOne(s, e, tick, answer).0.config == s.config
  {
    hide ComputeSizing, BaseKey, ComposeKey, Qty, Notional, NewPos, EntryTasks;
  }

  /** Whatever happened since, a signal is ignored if and only if some trade of its base still holds its key:
      from the claim of the key until the trade that claimed it is forgotten. */
  lemma SignalIgnoredIff(s: State, e: Entry, tick: Tick, answer: (CashAnswer, bool))
    requires Reachable(s) && IsDate(tick.date)
    ensures EnterOne(s, e, tick, answer) == (s, true) <==>
            exists i :: 0 <= i < |s.trades| && s.trades[i].forgets == 0
                && s.trades[i].base == BaseKey(s.config.mode, e.symbol, e.reason, tick.date)
  {
    hide Run, TradesKept, LogKept, IssuedExactly, AttemptsGrow, IsBase, ComposeKey, BaseKey, IsDate, ComputeSizing,
         EntryDone, EntryTasks;
    ReachableKept(s);
    var base := BaseOf(s.config, e, tick.date);
    BaseKeyIsBase(s.config.mode, e.symbol, e.reason, tick.date);
    if NextKey(s, base) in s.seen {
      var i :| Holds(s, i, NextKey(s, base));
      assert Stamped(s, s.trades[i]);
      ComposedKeysInjective(s.trades[i].base, s.trades[i].attempt, base, AttemptsOf(s.attempts, base));
    } else {
      forall i | 0 <= i < |s.trades| && s.trades[i].base == base
        ensures s.trades[i].forgets != 0
      {
        assert Stamped(s, s.trades[i]);
      }
    }
  }

  lemma EnterAllSnoc(s: State, es: seq<Entry>, i: nat, tick: Tick, answers: nat -> (CashAnswer, bool))
    requires i < |es| && EnterAll(s, es[..i], tick, answers).1
    ensures EnterAll(s, es[..i + 1], tick, answers)
            == EnterOne(EnterAll(s, es[..i], tick, answers).0, es[i], tick, answers(i))
  {
    hide EnterOne;
    assert es[..i + 1][..i] == es[..i];
  }

  lemma {:induction false} EnterAllStops(s: State, es: seq<Entry>, i: nat, tick: Tick,
                                         answers: nat -> (CashAnswer, bool))
    requires i <= |es| && !EnterAll(s, es[..i], tick, answers).1
    ensures EnterAll(s, es, tick, answers) == (EnterAll(s, es[..i], tick, answers).0, false)
    decreases |es| - i
  {
    hide EnterOne;
    if i == |es| {
      assert es[..i] == es;
    } else {
      assert es[..i + 1][..i] == es[..i];
      EnterAllStops(s, es, i + 1, tick, answers);
    }
  }

  /** One match is passed over if its key is taken, and else makes its entry. */
  lemma EnterOneOutcome(s: State, e: Entry, tick: Tick, answer: (CashAnswer, bool))
    requires Reachable(s) && IsDate(tick.date)
    ensures var m := EnterOne(s, e, tick, answer).0;
            && Reachable(m) && m.config == s.config
            && (m == s || EntryMade(s, m, e, tick.price, tick.date, answer.0, answer.1))
  {
    hide Reachable, BaseKey, ComposeKey, IsDate, ComputeSizing, EntryDone, EntryTasks, EntryMade;
    if NextKey(s, BaseOf(s.config, e, tick.date)) !in s.seen {
      EntryRuns(s, e, tick.price, tick.date, answer.0, answer.1);
      EntryOutcome(s, e, tick.price, tick.date, answer.0, answer.1);
    }
  }

  /** Every row of a liquidated trade was there before. */
  predicate NoneLiquidated(before: Table, after: Table) {
    forall id :: id in after && after[id].exitReason == Some(MarketClose) ==> id in before && before[id] == after[id]
  }

  lemma {:induction false} EntriesLiquidateNone(s: State, es: seq<Entry>, tick: Tick,
                                                answers: nat -> (CashAnswer, bool))
    requires Reachable(s) && IsDate(tick.date)
    ensures Reachable(EnterAll(s, es, tick, answers).0)
    ensures NoneLiquidated(TableOf(s), TableOf(EnterAll(s, es, tick, answers).0))
    decreases |es|
  {
    hide Reachable, TableOf, EnterOne, IsDate, ComputeSizing, ComposeKey, BaseKey, EntryTrade, EntryRow;
    if es != [] {
      var n := |es| - 1;
      EntriesLiquidateNone(s, es[..n], tick, answers);
      EnterOneOutcome(EnterAll(s, es[..n], tick, answers).0, es[n], tick, answers(n));
    }
  }

  /** A tick on paper liquidates nothing, whether its matches were all entered or not. */
  lemma TickLiquidatesNone(s: State, m: State, es: seq<Entry>, tick: Tick, answers: nat -> (CashAnswer, bool),
                           accepted: set<nat>, now: int)
    requires Reachable(s) && s.config.mode.Paper? && IsDate(tick.date)
    requires var entered := EnterAll(s, es, tick, answers).0;
             m == entered || TargetsTaken(entered, m, tick.symbol, tick.price, accepted, now)
    ensures NoneLiquidated(TableOf(s), TableOf(m))
  {
    hide Reachable, TableOf, EnterAll, IsDate, TargetsTaken, NoneLiquidated;
    var entered := EnterAll(s, es, tick, answers).0;
    EntriesLiquidateNone(s, es, tick, answers);
    EnterAllConfig(s, es, tick, answers);
    if m != entered {
      TargetsLiquidateNone(entered, m, tick.symbol, tick.price, accepted, now);
      StillNoneLiquidated(TableOf(s), TableOf(entered), TableOf(m));
    }
  }

  lemma {:induction false} EnterAllConfig(s: State, es: seq<Entry>, tick: Tick, answers: nat -> (CashAnswer, bool))
    ensures EnterAll(s, es, tick, answers).0.config == s.config
    decreases |es|
  {
    hide ComputeSizing, ComposeKey, BaseKey, EntryDone, EntryTasks;
    if es != [] {
      EnterAllConfig(s, es[..|es| - 1], tick, answers);
    }
  }

  lemma StillNoneLiquidated(a: Table, b: Table, c: Table)
    ensures NoneLiquidated(a, a)
    ensures NoneLiquidated(a, b) && NoneLiquidated(b, c) ==> NoneLiquidated(a, c)
  {
  }

  lemma TargetsLiquidateNone(s: State, m: State, symbol: string, price: real, accepted: set<nat>, now: int)
    requires Reachable(s) && s.config.mode.Paper? && TargetsTaken(s, m, symbol, price, accepted, now)
    ensures NoneLiquidated(TableOf(s), TableOf(m))
  {
    hide Reachable, TableOf, ExitTrade;
    forall id | id in TableOf(m) && TableOf(m)[id].exitReason == Some(MarketClose)
      ensures TableOf(s)[id] == TableOf(m)[id]
    {
      R.RowHasTrade(s, id);
    }
  }

  lemma {:induction false} EnterAllArmed(s: State, es: seq<Entry>, tick: Tick, answers: nat -> (CashAnswer, bool),
                                         tolerance: real)
    requires AllArmed(s.trades, tolerance)
    requires forall k :: 0 <= k < |es| ==>
             EntryMatches(es[k], tick.price, tolerance) && TargetBeyondBand(es[k], tolerance)
    ensures AllArmed(EnterAll(s, es, tick, answers).0.trades, tolerance)
    decreases |es|
  {
    hide ComputeSizing, BaseKey, ComposeKey, EntryTasks, EntryMatches, TargetBeyondBand, Qty, Notional, NewPos;
    if es != [] {
      EnterAllArmed(s, es[..|es| - 1], tick, answers, tolerance);
    }
  }

  /** No exit changes what a trade was armed by. */
  lemma ExitsKeepArmed(c: Config, ts: seq<Trade>, ids: set<nat>, prices: map<string, real>, why: ExitReason,
                       accepted: set<nat>, tolerance: real)
    requires AllCanClaim(ts, ids, prices, why) && AllQuiet(ts) && AllArmed(ts, tolerance)
    ensures AllArmed(Exiting(c, ts, ids, ids, prices, why, accepted), tolerance)
  {
    hide CanClaim, AtRest, EntryMatches, TargetBeyondBand;
  }

  /** What a tick arms was armed by its price. */
  lemma MatchesArmed(es: seq<Entry>, tick: Tick, tolerance: real)
    requires forall e :: e in es ==> TargetBeyondBand(e, tolerance)
    ensures var found := Matches(es, tick.symbol, tick.price, tolerance);
            forall k :: 0 <= k < |found| ==>
                EntryMatches(found[k], tick.price, tolerance) && TargetBeyondBand(found[k], tolerance)
  {
    hide TargetBeyondBand, Matches;
    var found := Matches(es, tick.symbol, tick.price, tolerance);
    forall k | 0 <= k < |found|
      ensures EntryMatches(found[k], tick.price, tolerance) && TargetBeyondBand(found[k], tolerance)
    {
      MatchesAreArmed(es, tick.symbol, tick.price, tolerance, found[k]);
    }
  }

  /** The entries of one tick. */
  method EnterMatches(service: ExecutionService, es: seq<Entry>, tick: Tick, answers: nat -> (CashAnswer, bool))
      returns (ok: bool)
    requires service.Valid() && AllQuiet(service.m.trades) && IsDate(tick.date)
    modifies service, service.writer, service.book, service.broker, service.cash
    ensures service.Valid() && AllQuiet(service.m.trades) && service.lastPrice == old(service.lastPrice)
    ensures (service.m, ok) == EnterAll(old(service.m), es, tick, answers)
    ensures forall i :: i in service.book.flat ==>
              fresh(service.book.flat[i])
                  || (i in old(service.book.flat) && service.book.flat[i] == old(service.book.flat)[i])
    ensures Grew(old(service.writer.Mark()), service.writer.Mark())
  {
    hide ExecutionService.Valid, AllQuiet, EnterAll, IsDate, ComputeSizing, Entered, BaseKey, ComposeKey;
    ok := true;
    EnterNone(service.m, es, tick, answers);
    for i := 0 to |es|
      invariant service.Valid() && AllQuiet(service.m.trades) && service.lastPrice == old(service.lastPrice)
      invariant Grew(old(service.writer.Mark()), service.writer.Mark())
      invariant ok && (service.m, true) == EnterAll(old(service.m), es[..i], tick, answers)
      invariant forall i :: i in service.book.flat ==>
                  fresh(service.book.flat[i])
                      || (i in old(service.book.flat) && service.book.flat[i] == old(service.book.flat)[i])
    {
      service.Parts();
      EnterOneQuiet(service.m, es[i], tick, answers(i));
      EnterAllSnoc(old(service.m), es, i, tick, answers);
      var r := service.Execute(es[i], tick.price, tick.date, answers(i).0, answers(i).1);
      if r.Err? {
        EnterAllStops(old(service.m), es, i + 1, tick, answers);
        return false;
      }
    }
    assert es[..|es|] == es;
  }

  lemma EnterNone(s: State, es: seq<Entry>, tick: Tick, answers: nat -> (CashAnswer, bool))
    ensures EnterAll(s, es[..0], tick, answers) == (s, true)
  {
  }

  /** `process_message`: outside trading days nothing; an unreadable message raises; else the price is
      recorded, every match entered, and then every exit the price triggers is sent. */
  method ProcessMessage(service: ExecutionService, store: WatchlistStore, tradingDay: bool, message: Option<Tick>,
                        answers: nat -> (CashAnswer, bool), accepted: set<nat>, now: int)
                            returns (ok: bool, ghost order: seq<nat>)
    requires service.Valid() && AllQuiet(service.m.trades) && store.Valid()
    requires message.Some? ==> IsDate(message.value.date)
    modifies service, service.writer, service.book, service.broker, service.cash, service.book.flat.Values
    ensures service.Valid() && AllQuiet(service.m.trades)
    ensures !tradingDay ==> ok && service.m == old(service.m) && service.lastPrice == old(service.lastPrice)
    ensures tradingDay && message.None? ==>
            !ok && service.m == old(service.m) && service.lastPrice == old(service.lastPrice)
    ensures tradingDay && message.Some? ==>
              var tick := message.value;
              var matches := Matches(store.entries, tick.symbol, tick.price, store.tolerance);
              var (entered, sized) := EnterAll(old(service.m), matches, tick, answers);
              var prices, ids := map[tick.symbol := tick.price],
                  B.TriggeredIds(R.BookOf(entered.trades), tick.symbol, tick.price);
              && service.lastPrice == old(service.lastPrice)[tick.symbol := tick.price]
              && ok == sized && AllQuiet(entered.trades)
              && if !ok then service.m == entered
                 else
                   && AllCanClaim(entered.trades, ids, prices, TargetPrice) && ListsIds(order, ids)
                   && service.m.trades == Exiting(service.config, entered.trades, ids, ids, prices, TargetPrice,
                                                  accepted)
                   && service.m.log == entered.log
                       + ExitTasks(service.config, entered.trades, order, prices, TargetPrice, accepted, now)
    ensures tradingDay && message.Some? && ok ==>
              var tick := message.value;
              TargetsTaken(EnterAll(old(service.m), Matches(store.entries, tick.symbol, tick.price, store.tolerance),
                                    tick, answers).0,
                           service.m, tick.symbol, tick.price, accepted, now)
    ensures AllArmed(old(service.m).trades, store.tolerance)
            && (forall e :: e in store.entries ==> TargetBeyondBand(e, store.tolerance)) ==>
              AllArmed(service.m.trades, store.tolerance)
    ensures forall i :: i in service.book.flat ==>
              fresh(service.book.flat[i])
                  || (i in old(service.book.flat) && service.book.flat[i] == old(service.book.flat)[i])
    ensures Grew(old(service.writer.Mark()), service.writer.Mark())
  {
    hide ExecutionService.Valid, AllQuiet, EnterAll, IsDate, Exiting, ExitTasks, AllCanClaim, ListsIds, R.BookOf,
         B.TriggeredIds, Matches, WatchlistStore.Valid, AllArmed, TargetBeyondBand, EntryMatches, TargetsTaken;
    order := [];
    ghost var safe := AllArmed(service.m.trades, store.tolerance) && forall e :: e in store.entries ==>
        TargetBeyondBand(e, store.tolerance);
    if !tradingDay {
      return true, order;
    }
    if message.None? {
      return false, order;
    }
    var tick := message.value;
    service.RecordPrice(tick.symbol, tick.price);
    var matches := store.Match(tick.symbol, tick.price);
    if safe {
      MatchesArmed(store.entries, tick, store.tolerance);
      EnterAllArmed(service.m, matches, tick, answers, store.tolerance);
    }
    ok := EnterMatches(service, matches, tick, answers);
    if ok {
      ghost var ts := service.m.trades;
      order := service.CheckExits(tick.symbol, tick.price, accepted, now);
      if safe {
        ExitsKeepArmed(service.config, ts, B.TriggeredIds(R.BookOf(ts), tick.symbol, tick.price),
                       map[tick.symbol := tick.price],
                       TargetPrice, accepted, store.tolerance);
      }
    }
  }

  /** `rehydrate_positions`: a position for each listed row, then its key seeded; when the query raises the
      service starts with an empty book. */
  method RehydratePositions(service: ExecutionService, mode: Mode, table: Table, listing: Option<seq<nat>>)
    requires service.book.Valid() && service.book.flat == map[]
    requires listing.Some? ==> R.Selected(table, mode, listing.value)
    modifies service`seen, service`attempts, service.book
    ensures service.book.Valid()
    ensures listing.None? ==>
            service.book.flat == map[] && service.seen == old(service.seen)
            && service.attempts == old(service.attempts)
    ensures listing.Some? ==>
              && service.book.Values() == R.Rebuilt(table, listing.value)
              && R.KeyTable(service.seen, service.attempts) ==
                 R.Seed(R.KeyTable(old(service.seen), old(service.attempts)), R.Keys(table, listing.value))
    ensures listing.Some? ==>
              forall id :: id in service.book.flat ==>
                && id in table && table[id].isPaper == mode.Paper?
                && table[id].status in {CASH_HELD, SUBMITTED, PARTIALLY_FILLED, FILLED, EXIT_SUBMITTED,
                                        EXIT_PARTIALLY_FILLED}
  {
    hide R.PositionFromTrade, R.OpenRow, B.Filed, B.PositionBook.Values, B.Position.Value, R.Rebuilt, R.Keys, R.Seed;
    if listing.None? {
      return;
    }
    var ids, keys := listing.value, [];
    OfItsMode(table, mode, ids);
    NothingRebuilt(table, ids);
    for k := 0 to |ids|
      invariant service.book.Valid() && keys == R.Keys(table, ids[..k])
      invariant service.book.Values() == R.Rebuilt(table, ids[..k])
      invariant service.seen == old(service.seen) && service.attempts == old(service.attempts)
    {
      RebuildOne(table, ids, k);
      var p := new B.Position(R.PositionFromTrade(ids[k], table[ids[k]]));
      service.book.Open(p);
      keys := keys + [table[ids[k]].key];
    }
    assert ids[..|ids|] == ids;
    assert service.book.Values().Keys == R.Rebuilt(table, ids).Keys;
    service.Seed(keys);
  }

  lemma OfItsMode(table: Table, mode: Mode, ids: seq<nat>)
    requires R.Selected(table, mode, ids)
    ensures forall id :: id in R.Rebuilt(table, ids) ==>
              && id in table && table[id].isPaper == mode.Paper?
              && table[id].status in {CASH_HELD, SUBMITTED, PARTIALLY_FILLED, FILLED, EXIT_SUBMITTED,
                                      EXIT_PARTIALLY_FILLED}
  {
  }

  lemma NothingRebuilt(table: Table, ids: seq<nat>)
    ensures R.Rebuilt(table, ids[..0]) == map[] && R.Keys(table, ids[..0]) == []
  {
  }

  lemma RebuildOne(table: Table, ids: seq<nat>, k: nat)
    requires k < |ids| && (forall j :: 0 <= j < |ids| ==> ids[j] in table) && R.Distinct(ids)
    ensures R.PositionFromTrade(ids[k], table[ids[k]]).tradeId == ids[k] && ids[k] !in R.Rebuilt(table, ids[..k])
    ensures R.Rebuilt(table, ids[..k + 1])
            == R.Rebuilt(table, ids[..k])[ids[k] := R.PositionFromTrade(ids[k], table[ids[k]])]
    ensures R.Keys(table, ids[..k + 1]) == R.Keys(table, ids[..k]) + [table[ids[k]].key]
  {
    assert ids[..k + 1] == ids[..k] + [ids[k]];
  }
}
