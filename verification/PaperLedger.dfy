/** What a paper session leaves in the table, and what the report makes of it. */
module PaperLedger {
  import opened Domain
  import opened Sizing
  import opened TradesTable
  import opened Lifecycle
  import opened LifecycleInvariants
  import opened LifecycleSafety
  import opened LifecycleTheorems
  import opened DailyPnl
  import opened DailyPnlTheorems
  import opened Matching
  import Rehydration

  const REPORT_LIMIT: nat := 100000

  /** `list_closed_between`: closed in the window `(start, end]`. */
  predicate ClosedBetween(mode: Mode, start: int, end: int, r: Row) {
    r.isPaper == mode.Paper? && r.status.CLOSED? && r.closedAt.Some? && start < r.closedAt.value <= end
  }

  function RowsOf(table: Table, ids: seq<nat>): seq<Row>
    requires forall k :: 0 <= k < |ids| ==> ids[k] in table
  {
    seq(|ids|, k requires 0 <= k < |ids| => table[ids[k]])
  }

  /** The trades that got past sizing. */
  function EnteredIds(s: State): set<nat> {
    set id: nat | 0 <= id < |s.trades| && !s.trades[id].entryPc.Unsized?
  }

  /** With no call in progress and nothing left in the book, every paper row is closed and sold what
      it bought. */
  lemma FlatPaperRow(s: State, id: nat)
    requires Reachable(s) && s.config.mode.Paper? && id < |s.trades| && AtRest(s.trades[id]) && s.trades[id].pos.None?
    ensures id in TableOf(s) <==> id in EnteredIds(s)
    ensures id in TableOf(s) ==>
              var r := TableOf(s)[id];
              && r.status.CLOSED? && r.isPaper && r.closedAt.Some?
              && r.filledQty == r.exitQty == Some(Qty(s.config, s.trades[id]))
              && r.filledPrice.Some? && r.exitPrice.Some? && r.exitReason.Some?
  {
    hide Run, Reachable, OrdersKept, HoldsKept, TrailKept, StatusKept, LiveKept, TableOf, StatusLog, Qty, Notional;
    var h := SheetReached(s, id);
    UnracedIsInTurn(s, id);
    if id in TableOf(s) { OnlyALateExitDisagrees(s, id); }
  }

  lemma {:induction false} AllCounted(rows: seq<Row>)
    requires forall k :: 0 <= k < |rows| ==> Counted(rows[k]) && SameSize(rows[k])
    ensures Count(rows, Counted) == |rows| && Sum(rows, Pnl) == Sum(rows, CashResult)
    decreases |rows|
  {
    hide Counted, SameSize, Pnl, CashResult;
    if rows != [] {
      var init, n := rows[..|rows| - 1], |rows| - 1;
      assert forall k :: 0 <= k < n ==> init[k] == rows[k];
      AllCounted(init);
      PnlIsCashResult(rows[n]);
    }
  }

  lemma SameFillsCount(r: Row)
    requires r.filledQty.Some? && r.filledQty == r.exitQty && r.filledPrice.Some? && r.exitPrice.Some?
    ensures Counted(r) && SameSize(r)
  {
  }

  /** A paper session that ends with an empty book: every trade that entered is one closed row that
      sold as much as it bought; the report counts exactly those, and its realized P&L is what the
      longs took out over what they put in plus what the shorts put in over what they took out. */
  lemma PaperSessionBalances(s: State, start: int, end: int, ids: seq<nat>, date: int)
    requires Reachable(s) && s.config.mode.Paper? && AllQuiet(s.trades) && Rehydration.BookOf(s.trades) == map[]
    requires Lists(TableOf(s), (r: Row) => ClosedBetween(Paper, start, end, r), REPORT_LIMIT, ids)
    requires |EnteredIds(s)| <= REPORT_LIMIT
    requires forall id :: id in TableOf(s) && TableOf(s)[id].closedAt.Some? ==>
             start < TableOf(s)[id].closedAt.value <= end
    ensures TableOf(s).Keys == EnteredIds(s)
    ensures forall id :: id in TableOf(s) ==>
              id in ids && TableOf(s)[id].status.CLOSED? && TableOf(s)[id].filledQty == TableOf(s)[id].exitQty
    ensures var report := Report(RowsOf(TableOf(s), ids), date, Paper);
            && report.total == |EnteredIds(s)|
            && report.realized == Quantize(Sum(RowsOf(TableOf(s), ids), CashResult))
  {
    hide Run, Reachable, AtRest, TableOf, Counted, SameSize, Quantize, Qty, CashResult;
    forall id: nat | id < |s.trades|
      ensures s.trades[id].pos.None?
    {
      assert id !in Rehydration.BookOf(s.trades);
    }
    forall id | id in TableOf(s) || id in EnteredIds(s)
      ensures id < |s.trades| && id in TableOf(s) && id in EnteredIds(s)
      ensures ClosedBetween(Paper, start, end, TableOf(s)[id])
      ensures Counted(TableOf(s)[id]) && SameSize(TableOf(s)[id]) && TableOf(s)[id].filledQty == TableOf(s)[id].exitQty
    {
      if id in TableOf(s) { Rehydration.RowHasTrade(s, id); }
      FlatPaperRow(s, id);
      SameFillsCount(TableOf(s)[id]);
    }
    Rehydration.FullListing(EnteredIds(s), ids, REPORT_LIMIT);
    assert Rehydration.Elements(ids) == EnteredIds(s);
    Rehydration.DistinctCount(ids);
    AllCounted(RowsOf(TableOf(s), ids));
  }

  // ---------------------------------------------------------------- target exits

  /** The target lies beyond the worst price at which the entry can be armed. */
  predicate TargetBeyondBand(e: Entry, tolerance: real) {
    if e.kind.Long? then e.sellPrice >= e.buyPrice + tolerance else e.sellPrice <= e.buyPrice - tolerance
  }

  /** Every trade was armed by its price, and its target lies beyond the band. */
  predicate AllArmed(ts: seq<Trade>, tolerance: real) {
    forall i :: 0 <= i < |ts| ==>
        EntryMatches(ts[i].entry, ts[i].price, tolerance) && TargetBeyondBand(ts[i].entry, tolerance)
  }

  predicate SizesNotNegative(rule: SizingRule) {
    rule.notionalUsd.GetOr(0.0) >= 0.0 && rule.quantity.GetOr(0.0) >= 0.0
  }

  lemma SizeNotNegative(c: Config, t: Trade)
    requires SizesNotNegative(c.rule)
    ensures Qty(c, t) >= 0.0
  {
    if ComputeSizing(t.price, c.rule).Ok? && c.rule.notionalUsd.Some? {
      var raw := c.rule.notionalUsd.value / t.price;
      assert raw * t.price == c.rule.notionalUsd.value;
      TimesPositive(0.0, raw, t.price);
    }
  }

  lemma ProductNotNegative(a: real, b: real)
    requires a >= 0.0 && b >= 0.0
    ensures a * b >= 0.0
  {
  }

  /** When the entry was armed by its price and its target lies beyond the band, a paper trade closed
      at its target does not lose: every losing trade was closed by the market-close liquidation. */
  lemma TargetExitsNeverLose(s: State, id: nat, tolerance: real)
    requires Reachable(s) && s.config.mode.Paper? && id < |s.trades| && id in TableOf(s)
    requires TableOf(s)[id].status.CLOSED?
    requires SizesNotNegative(s.config.rule)
    requires EntryMatches(s.trades[id].entry, s.trades[id].price, tolerance)
    requires TargetBeyondBand(s.trades[id].entry, tolerance)
    ensures Lost(TableOf(s)[id]) ==> TableOf(s)[id].exitReason == Some(MarketClose)
  {
    hide Run, Reachable, OrdersKept, HoldsKept, TrailKept, StatusKept, LiveKept, TableOf, StatusLog, Qty, Notional;
    var h := SheetReached(s, id);
    var t, r := s.trades[id], TableOf(s)[id];
    SizeNotNegative(s.config, t);
    assert PaperRow(s.config, t, r) && PaperClosed(t) && r.kind == t.entry.kind;
    if r.exitReason.value.TargetPrice? {
      assert Or(r.exitQty, r.filledQty) == Some(Qty(s.config, t));
      if r.kind.Long? {
        ProductNotNegative(r.exitPrice.value - r.filledPrice.value, Qty(s.config, t));
      } else {
        ProductNotNegative(r.filledPrice.value - r.exitPrice.value, Qty(s.config, t));
      }
    }
  }

  /** The same of a whole report: every losing trade it lists was closed by the market-close liquidation. */
  lemma LosersWereLiquidated(s: State, tolerance: real, start: int, end: int, ids: seq<nat>)
    requires Reachable(s) && s.config.mode.Paper? && AllArmed(s.trades, tolerance)
    requires SizesNotNegative(s.config.rule)
    requires Lists(TableOf(s), (r: Row) => ClosedBetween(Paper, start, end, r), REPORT_LIMIT, ids)
    ensures forall k :: 0 <= k < |ids| && Lost(RowsOf(TableOf(s), ids)[k]) ==>
              RowsOf(TableOf(s), ids)[k].exitReason == Some(MarketClose)
  {
    hide Run, Reachable, TableOf, Lost, EntryMatches, TargetBeyondBand;
    forall k | 0 <= k < |ids| && Lost(TableOf(s)[ids[k]])
      ensures TableOf(s)[ids[k]].exitReason == Some(MarketClose)
    {
      Rehydration.RowHasTrade(s, ids[k]);
      TargetExitsNeverLose(s, ids[k], tolerance);
    }
  }
}
