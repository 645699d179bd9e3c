/** A paper day from the first message to the drained queue, and the ledger it leaves. */
module PaperDays {
  import opened Domain
  import opened TradesTable
  import opened Lifecycle
  import opened LifecycleInvariants
  import opened LifecycleSafety
  import opened LifecycleTheorems
  import opened IdempotencyKeys
  import opened Scripts
  import opened Calls
  import opened Clients
  import opened Matching
  import opened PaperLedger
  import opened AsyncDbWriters
  import opened ExecutionServices
  import opened Executor
  import opened Outcomes
  import DailyPnl
  import DailyPnlTheorems
  import R = Rehydration
  import B = PositionBooks

  /** A message, what is answered while it is processed, and the turns the database writer takes after it;
      a turn is true if the database fails in it. */
  datatype Input = Input(tradingDay: bool, message: Option<Tick>, answers: nat -> (CashAnswer, bool), now: int,
                         turns: seq<bool>)

  predicate Dated(inputs: seq<Input>) {
    forall k :: 0 <= k < |inputs| && inputs[k].message.Some? ==> IsDate(inputs[k].message.value.date)
  }

  predicate NoneFails(turns: seq<bool>) {
    forall k :: 0 <= k < |turns| ==> !turns[k]
  }

  predicate NoInputFails(inputs: seq<Input>) {
    forall k :: 0 <= k < |inputs| ==> NoneFails(inputs[k].turns)
  }

  /** One turn of the writer loses nothing unless the database fails. */
  method Turn(service: ExecutionService, fails: bool)
    requires service.Valid()
    modifies service.writer, service.writer.db
    ensures service.Valid() && service.writer.peak == old(service.writer.peak)
    ensures !fails && old(service.NothingLost()) ==> service.NothingLost()
    ensures old(service.writer.queue) != [] ==> |service.writer.queue| < |old(service.writer.queue)|
  {
    hide Reachable, NoneRaced, Shows, B.PositionBook.Values, B.Filed, B.Position.Value, R.BookOf, Transact, Tasks,
         CommittedTasks, AsyncDbWriter.Valid, ExecutionService.NothingLost;
    service.NothingLostIff();
    if service.NothingLost() {
      service.NextBatchApplies(service.writer.BatchOf(|service.writer.queue|));
    }
    service.writer.DrainOnce(fails);
    service.NothingLostIff();
  }

  method Turns(service: ExecutionService, fails: seq<bool>)
    requires service.Valid()
    modifies service.writer, service.writer.db
    ensures service.Valid() && service.writer.peak == old(service.writer.peak)
    ensures NoneFails(fails) && old(service.NothingLost()) ==> service.NothingLost()
  {
    hide ExecutionService.Valid, ExecutionService.NothingLost;
    for k := 0 to |fails|
      invariant service.Valid() && service.writer.peak == old(service.writer.peak)
      invariant NoneFails(fails) && old(service.NothingLost()) ==> service.NothingLost()
    {
      Turn(service, fails[k]);
    }
  }

  /** The report lists, uncut, everything that closed in a window around all closing times. */
  ghost predicate ListsDay(table: Table, start: int, end: int, ids: seq<nat>) {
    && Lists(table, (r: Row) => ClosedBetween(Paper, start, end, r), REPORT_LIMIT, ids)
    && forall id :: id in table && table[id].closedAt.Some? ==> start < table[id].closedAt.value <= end
  }

  /** The ledger of s: one closed row per entered trade, sold as bought. */
  predicate Flat(s: State, table: Table) {
    && table.Keys == EnteredIds(s)
    && forall id :: id in table ==> table[id].status.CLOSED? && table[id].filledQty == table[id].exitQty
  }

  /** The report counts every entered trade, its realized P&L is their cash result, and if all were armed with
      targets beyond the band, every loser was liquidated. */
  predicate Reported(s: State, rows: seq<Row>, date: int, tolerance: real) {
    && DailyPnl.Report(rows, date, Paper).total == |EnteredIds(s)|
    && DailyPnl.Report(rows, date, Paper).realized == DailyPnl.Quantize(DailyPnl.Sum(rows, DailyPnlTheorems.CashResult))
    && (AllArmed(s.trades, tolerance) && SizesNotNegative(s.config.rule) ==>
          forall k :: 0 <= k < |rows| && DailyPnl.Lost(rows[k]) ==> rows[k].exitReason == Some(MarketClose))
  }

  /** All of that, whatever window and listing the report is made from. */
  ghost predicate IsLedger(s: State, table: Table, tolerance: real) {
    && Flat(s, table)
    && (|EnteredIds(s)| <= REPORT_LIMIT ==>
          forall start, end, ids, date :: ListsDay(table, start, end, ids) ==>
            Reported(s, RowsOf(table, ids), date, tolerance))
  }

  /** Once the book is empty and the queue drained with nothing lost, the table is the ledger. */
  lemma PaperDayLedger(service: ExecutionService, tolerance: real)
    requires service.Valid() && service.config.mode.Paper? && AllQuiet(service.m.trades) && service.book.flat == map[]
    requires service.NothingLost() && service.writer.queue == []
    ensures IsLedger(service.m, service.writer.db.table, tolerance)
  {
    hide ExecutionService.Valid, ExecutionService.NothingLost, TableOf, EnteredIds, Flat, Reported, Reachable, AllArmed,
         ClosedBetween;
    service.Parts();
    service.DrainedTableIsTheLog();
    assert R.BookOf(service.m.trades) == map[] by { assert service.book.Values().Keys == {}; }
    FlatTable(service.m);
    if |EnteredIds(service.m)| <= REPORT_LIMIT {
      forall start, end, ids, date | ListsDay(service.writer.db.table, start, end, ids)
        ensures Reported(service.m, RowsOf(service.writer.db.table, ids), date, tolerance)
      {
        DayReported(service.m, start, end, ids, date, tolerance);
      }
    }
  }

  lemma FlatTable(s: State)
    requires Reachable(s) && s.config.mode.Paper? && AllQuiet(s.trades) && R.BookOf(s.trades) == map[]
    ensures Flat(s, TableOf(s))
  {
    hide Reachable, AtRest, TableOf;
    forall id: nat | id in TableOf(s) || id in EnteredIds(s)
      ensures id in TableOf(s) && id in EnteredIds(s)
      ensures TableOf(s)[id].status.CLOSED? && TableOf(s)[id].filledQty == TableOf(s)[id].exitQty
    {
      if id in TableOf(s) { R.RowHasTrade(s, id); }
      assert s.trades[id].pos.None? by { assert id !in R.BookOf(s.trades); }
      FlatPaperRow(s, id);
    }
  }

  lemma DayReported(s: State, start: int, end: int, ids: seq<nat>, date: int, tolerance: real)
    requires Reachable(s) && s.config.mode.Paper? && AllQuiet(s.trades) && R.BookOf(s.trades) == map[]
    requires ListsDay(TableOf(s), start, end, ids) && |EnteredIds(s)| <= REPORT_LIMIT
    ensures Reported(s, RowsOf(TableOf(s), ids), date, tolerance)
  {
    hide TableOf, EnteredIds, DailyPnl.Report, DailyPnl.Quantize, DailyPnl.Sum, DailyPnl.Lost, Reachable, AllArmed,
         ClosedBetween, AtRest;
    PaperSessionBalances(s, start, end, ids, date);
    if AllArmed(s.trades, tolerance) && SizesNotNegative(s.config.rule) {
      LosersWereLiquidated(s, tolerance, start, end, ids);
    }
  }

  // ---------------------------------------------------------------- the price of a liquidation

  /** The k-th input is a message for the symbol that is processed. */
  predicate Seen(inputs: seq<Input>, k: nat, symbol: string) {
    k < |inputs| && inputs[k].tradingDay && inputs[k].message.Some? && inputs[k].message.value.symbol == symbol
  }

  predicate SeenLast(inputs: seq<Input>, k: nat, symbol: string) {
    Seen(inputs, k, symbol) && forall l: nat :: k < l < |inputs| ==> !Seen(inputs, l, symbol)
  }

  predicate NeverSeen(inputs: seq<Input>, symbol: string) {
    forall k: nat :: k < |inputs| ==> !Seen(inputs, k, symbol)
  }

  /** The price kept for the symbol: that of the last message for it, or what was kept before the first. */
  ghost predicate KeepsLast(inputs: seq<Input>, before: map<string, real>, prices: map<string, real>, symbol: string) {
    || (NeverSeen(inputs, symbol) && (symbol in prices <==> symbol in before)
        && (symbol in prices ==> prices[symbol] == before[symbol]))
    || exists k: nat :: SeenLast(inputs, k, symbol) && symbol in prices
                        && prices[symbol] == inputs[k].message.value.price
  }

  lemma KeepsLastSnoc(inputs: seq<Input>, k: nat, before: map<string, real>, prices: map<string, real>,
                      prices': map<string, real>, symbol: string)
    requires k < |inputs| && KeepsLast(inputs[..k], before, prices, symbol)
    requires prices' == if inputs[k].tradingDay && inputs[k].message.Some? then
                          prices[inputs[k].message.value.symbol := inputs[k].message.value.price]
                        else prices
    ensures KeepsLast(inputs[..k + 1], before, prices', symbol)
  {
    var was, now := inputs[..k], inputs[..k + 1];
    assert forall l: nat :: l < k ==> (Seen(now, l, symbol) <==> Seen(was, l, symbol));
    if Seen(now, k, symbol) {
      assert SeenLast(now, k, symbol);
    } else if !NeverSeen(was, symbol) {
      var l: nat :| SeenLast(was, l, symbol) && symbol in prices && prices[symbol] == was[l].message.value.price;
      assert SeenLast(now, l, symbol);
    } else {
      assert NeverSeen(now, symbol);
    }
  }

  lemma AllKeptSnoc(inputs: seq<Input>, k: nat, before: map<string, real>, prices: map<string, real>,
                    prices': map<string, real>, now: seq<Input>)
    requires k < |inputs| && forall symbol :: KeepsLast(inputs[..k], before, prices, symbol)
    requires now == inputs[..k + 1]
    requires prices' == if inputs[k].tradingDay && inputs[k].message.Some? then
                          prices[inputs[k].message.value.symbol := inputs[k].message.value.price]
                        else prices
    ensures forall symbol :: KeepsLast(now, before, prices', symbol)
  {
    hide KeepsLast;
    forall symbol
      ensures KeepsLast(now, before, prices', symbol)
    {
      KeepsLastSnoc(inputs, k, before, prices, prices', symbol);
    }
  }

  /** A row liquidated at the close carries the price of the last message for its symbol, or else the one kept before,
      or else its own entry price; the rows liquidated before the day are as they were. */
  ghost predicate PricedAtClose(inputs: seq<Input>, before: map<string, real>, was: Table, table: Table) {
    forall id :: id in table && table[id].exitReason == Some(MarketClose) ==>
      var r := table[id];
      || (id in was && was[id] == r)
      || (exists k: nat :: SeenLast(inputs, k, r.symbol)
                           && r.exitPrice == Some(inputs[k].message.value.price))
      || (NeverSeen(inputs, r.symbol)
          && r.exitPrice == if r.symbol in before then Some(before[r.symbol]) else r.filledPrice)
  }

  lemma PricesAtClose(inputs: seq<Input>, before: map<string, real>, s0: State, s: State, m: State,
                      prices: map<string, real>, accepted: set<nat>, now: int)
    requires Reachable(s) && s.config.mode.Paper? && AllLiquidated(s, m, prices, accepted, now)
    requires NoneLiquidated(TableOf(s0), TableOf(s)) && forall symbol :: KeepsLast(inputs, before, prices, symbol)
    ensures PricedAtClose(inputs, before, TableOf(s0), TableOf(m))
  {
    hide Reachable, TableOf, ExitTrade, KeepsLast, NeverSeen;
    forall id | id in TableOf(m) && TableOf(m)[id].exitReason == Some(MarketClose)
                && !(id in TableOf(s0) && TableOf(s0)[id] == TableOf(m)[id])
      ensures var r := TableOf(m)[id];
              || (exists k: nat :: SeenLast(inputs, k, r.symbol) && r.exitPrice == Some(inputs[k].message.value.price))
              || (NeverSeen(inputs, r.symbol)
                  && r.exitPrice == if r.symbol in before then Some(before[r.symbol]) else r.filledPrice)
    {
      R.RowHasTrade(s, id);
      assert InState(s.trades[id], OPEN);
      var p := s.trades[id].pos.value;
      OpenPaperRow(s, id);
      LastKept(inputs, before, prices, p.symbol);
    }
  }

  lemma LastKept(inputs: seq<Input>, before: map<string, real>, prices: map<string, real>, symbol: string)
    requires KeepsLast(inputs, before, prices, symbol)
    ensures || (exists k: nat :: SeenLast(inputs, k, symbol) && symbol in prices
                                 && prices[symbol] == inputs[k].message.value.price)
            || (NeverSeen(inputs, symbol) && (symbol in prices <==> symbol in before)
                && (symbol in prices ==> prices[symbol] == before[symbol]))
  {
  }

  lemma OpenPaperRow(s: State, id: nat)
    requires Reachable(s) && s.config.mode.Paper? && id < |s.trades| && InState(s.trades[id], OPEN)
    ensures id in TableOf(s) && TableOf(s)[id].symbol == s.trades[id].pos.value.symbol
    ensures TableOf(s)[id].filledPrice == Some(s.trades[id].pos.value.entryPrice)
  {
    hide Reachable, TableOf, HoldsKept, TrailKept, TurnKept, RaceKept, ReasonsKept, StatusKept, LiveKept, StatusLog,
         ComposeKey, Qty, Notional;
    var h := SheetReached(s, id);
  }

  /** One message on paper: nothing is lost unless the queue overflows, nothing is liquidated, and what is armed stays
      armed. */
  method Process(service: ExecutionService, store: WatchlistStore, input: Input, accepted: set<nat>)
    requires service.Valid() && service.config.mode.Paper? && AllQuiet(service.m.trades) && store.Valid()
    requires Dated([input])
    modifies service, service.writer, service.book, service.broker, service.cash, service.book.flat.Values
    ensures service.Valid() && AllQuiet(service.m.trades)
    ensures old(service.NothingLost()) && service.writer.HadRoom() ==> service.NothingLost()
    ensures service.writer.HadRoom() ==> old(service.writer.HadRoom())
    ensures NoneLiquidated(TableOf(old(service.m)), TableOf(service.m))
    ensures service.lastPrice == if input.tradingDay && input.message.Some? then
                                   old(service.lastPrice)[input.message.value.symbol := input.message.value.price]
                                 else old(service.lastPrice)
    ensures AllArmed(old(service.m).trades, store.tolerance)
            && (forall e :: e in store.entries ==> TargetBeyondBand(e, store.tolerance)) ==>
              AllArmed(service.m.trades, store.tolerance)
    ensures forall i :: i in service.book.flat ==>
              fresh(service.book.flat[i])
                  || (i in old(service.book.flat) && service.book.flat[i] == old(service.book.flat)[i])
  {
    hide ExecutionService.Valid, ExecutionService.NothingLost, AllQuiet, AllArmed, TargetBeyondBand, IsDate, EnterAll,
         Exiting, AllCanClaim, ListsIds, R.BookOf, B.TriggeredIds, Matches, WatchlistStore.Valid, TargetsTaken, TableOf,
         NoneLiquidated, ExitTasks;
    assert [input][0] == input;
    ghost var s := service.m;
    service.Parts();
    service.NothingLostIff();
    var ok, order := ProcessMessage(service, store, input.tradingDay, input.message, input.answers, accepted,
                                    input.now);
    service.NothingLostIff();
    if input.tradingDay && input.message.Some? {
      ghost var tick := input.message.value;
      TickLiquidatesNone(s, service.m, Matches(store.entries, tick.symbol, tick.price, store.tolerance), tick,
                         input.answers, accepted, input.now);
    } else {
      StillNoneLiquidated(TableOf(s), TableOf(s), TableOf(s));
    }
  }

  /** A day on paper: every message is processed, whatever comes of it, the close liquidates, and the writer
      goes on until its queue is empty. Unless the database failed or the backlog outgrew the queue, the table
      then is the ledger of all trades of the service, its report the day's, and every liquidation priced by the last
      message for its symbol. */
  method PaperDay(service: ExecutionService, store: WatchlistStore, inputs: seq<Input>, accepted: set<nat>, now: int,
                  fails: bool)
    requires service.Valid() && service.config.mode.Paper? && AllQuiet(service.m.trades) && store.Valid()
    requires Dated(inputs) && service.NothingLost()
    modifies service, service.writer, service.writer.db, service.book, service.broker, service.cash,
             service.book.flat.Values
    ensures service.Valid() && AllQuiet(service.m.trades) && service.book.flat == map[] && service.writer.queue == []
    ensures service.NothingLost() ==>
              && IsLedger(service.m, service.writer.db.table, store.tolerance)
              && PricedAtClose(inputs, old(service.lastPrice), TableOf(old(service.m)), service.writer.db.table)
    ensures NoInputFails(inputs) && !fails && service.writer.HadRoom() ==> service.NothingLost()
    ensures AllArmed(old(service.m).trades, store.tolerance)
            && (forall e :: e in store.entries ==> TargetBeyondBand(e, store.tolerance)) ==>
              AllArmed(service.m.trades, store.tolerance)
  {
    hide ExecutionService.Valid, ExecutionService.NothingLost, AllQuiet, AllArmed, TargetBeyondBand, IsDate, NoneFails,
         IsLedger, Exiting, AllCanClaim, ListsIds, R.BookOf, B.Opens, WatchlistStore.Valid, TableOf, NoneLiquidated,
         KeepsLast, PricedAtClose, AllLiquidated, ExitTasks;
    ghost var s0, before := service.m, service.lastPrice;
    StillNoneLiquidated(TableOf(s0), TableOf(s0), TableOf(s0));
    NothingSeenYet(inputs, before);
    for k := 0 to |inputs|
      invariant service.Valid() && AllQuiet(service.m.trades)
      invariant NoInputFails(inputs) && service.writer.HadRoom() ==> service.NothingLost()
      invariant AllArmed(old(service.m).trades, store.tolerance)
                && (forall e :: e in store.entries ==> TargetBeyondBand(e, store.tolerance)) ==>
                  AllArmed(service.m.trades, store.tolerance)
      invariant NoneLiquidated(TableOf(s0), TableOf(service.m))
      invariant forall symbol :: KeepsLast(inputs[..k], before, service.lastPrice, symbol)
      invariant forall i :: i in service.book.flat ==>
                  fresh(service.book.flat[i])
                      || (i in old(service.book.flat) && service.book.flat[i] == old(service.book.flat)[i])
    {
      ghost var s, prices := service.m, service.lastPrice;
      Process(service, store, inputs[k], accepted);
      StillNoneLiquidated(TableOf(s0), TableOf(s), TableOf(service.m));
      AllKeptSnoc(inputs, k, before, prices, service.lastPrice, inputs[..k + 1]);
      Turns(service, inputs[k].turns);
    }
    assert inputs[..|inputs|] == inputs;
    Close(service, store, accepted, now, s0, inputs, before);
    while service.writer.queue != []
      invariant service.Valid() && AllQuiet(service.m.trades) && service.book.flat == map[]
      invariant NoInputFails(inputs) && !fails && service.writer.HadRoom() ==> service.NothingLost()
      invariant PricedAtClose(inputs, before, TableOf(s0), TableOf(service.m))
      invariant AllArmed(old(service.m).trades, store.tolerance)
                && (forall e :: e in store.entries ==> TargetBeyondBand(e, store.tolerance)) ==>
                  AllArmed(service.m.trades, store.tolerance)
      decreases |service.writer.queue|
    {
      Turn(service, fails);
    }
    if service.NothingLost() {
      PaperDayLedger(service, store.tolerance);
      service.DrainedTableIsTheLog();
    }
  }

  lemma NothingSeenYet(inputs: seq<Input>, before: map<string, real>)
    ensures forall symbol :: KeepsLast(inputs[..0], before, before, symbol)
  {
  }

  /** The close of the day. */
  method Close(service: ExecutionService, store: WatchlistStore, accepted: set<nat>, now: int, ghost s0: State,
               ghost inputs: seq<Input>, ghost before: map<string, real>)
    requires service.Valid() && service.config.mode.Paper? && AllQuiet(service.m.trades)
    requires NoneLiquidated(TableOf(s0), TableOf(service.m))
    requires forall symbol :: KeepsLast(inputs, before, service.lastPrice, symbol)
    modifies service, service.writer, service.book, service.broker, service.book.flat.Values
    ensures service.Valid() && AllQuiet(service.m.trades) && service.book.flat == map[]
    ensures old(service.NothingLost()) && service.writer.HadRoom() ==> service.NothingLost()
    ensures service.writer.HadRoom() ==> old(service.writer.HadRoom())
    ensures PricedAtClose(inputs, before, TableOf(s0), TableOf(service.m))
    ensures AllArmed(old(service.m).trades, store.tolerance) ==> AllArmed(service.m.trades, store.tolerance)
  {
    hide ExecutionService.Valid, ExecutionService.NothingLost, AllQuiet, AllArmed, Exiting, AllCanClaim, ListsIds,
         R.BookOf, B.Opens, TableOf, NoneLiquidated, KeepsLast, PricedAtClose, AllLiquidated, ExitTasks;
    service.Parts();
    service.NothingLostIff();
    ghost var s, prices := service.m, service.lastPrice;
    var n, order := service.LiquidateAll(accepted, now);
    service.NothingLostIff();
    PricesAtClose(inputs, before, s0, s, service.m, prices, accepted, now);
    if AllArmed(s.trades, store.tolerance) {
      ExitsKeepArmed(service.config, s.trades, B.Opens(R.BookOf(s.trades)), prices, MarketClose, accepted,
                     store.tolerance);
    }
  }
}
