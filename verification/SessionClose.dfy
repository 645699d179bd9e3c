/** The market close: what liquidation leaves in the book, and when nothing is carried past the session. */
module SessionClose {
  import opened Domain
  import opened Lifecycle
  import opened LifecycleInvariants
  import opened LifecycleTheorems
  import opened LifecycleSafety
  import opened Calls
  import opened ExecutionServices
  import opened PositionReconcilers
  import R = Rehydration
  import B = PositionBooks

  /** m is where liquidation at these prices leads from s, the broker taking the exits of `accepted`. */
  ghost predicate Liquidated(s: State, m: State, prices: map<string, real>, accepted: set<nat>) {
    var ids := B.Opens(R.BookOf(s.trades));
    && AllQuiet(s.trades) && AllCanClaim(s.trades, ids, prices, MarketClose) && m.config == s.config
    && m.trades == Exiting(s.config, s.trades, ids, ids, prices, MarketClose, accepted)
  }

  /** On paper nothing remains. Live, an open position is exiting on a new order for all of it, or open as before
      if the broker refused; a pending entry or an exit already out is left as it was. */
  predicate LiquidatedTo(c: Config, t: Trade, t': Trade, accepted: bool) {
    if c.mode.Paper? then t'.pos.None?
    else if !InState(t, OPEN) then t' == t
    else if accepted then
      && InState(t', EXITING) && t'.pos.value.exitOrderId == Some(ExitOrder(t.id, |t.exitOrders|))
      && t'.exitOrders == t.exitOrders + [Order(t.entry.kind.ExitSide(), t.pos.value.quantity)]
    else t'.pos == t.pos && t'.exitOrders == t.exitOrders
  }

  lemma LiquidationLeaves(s: State, m: State, prices: map<string, real>, accepted: set<nat>, id: nat)
    requires Reachable(s) && Liquidated(s, m, prices, accepted) && id < |s.trades|
    ensures |m.trades| == |s.trades| && LiquidatedTo(s.config, s.trades[id], m.trades[id], id in accepted)
  {
    hide Run, Reachable, AtRest, TradeKept, KeysKept, LogKept;
    ReachableKept(s);
    if InState(s.trades[id], OPEN) {
      OpenHasNoExit(s.config, s.trades[id]);
    } else if s.config.mode.Paper? {
      PaperAllOpen(s);
      assert id !in R.BookOf(s.trades);
    }
  }

  lemma OpenHasNoExit(c: Config, t: Trade)
    requires TradeKept(c, t) && InState(t, OPEN)
    ensures t.pos.value.exitOrderId.None?
  {
    hide OrdersKept, HoldsKept, TrailKept, TurnKept, RaceKept, ReasonsKept;
  }

  /** The position of a trade at the close is gone after the liquidation and one pass of the reconciler: its
      entry is reported dead, or its exit, sent now or before, filled. */
  predicate GoesFlat(c: Config, t: Trade, accepted: bool, reports: map<OrderId, Order>) {
    c.mode.Live? && t.pos.Some? ==>
      match t.pos.value.state
      case PENDING_ENTRY => EntryOrder(t.id) in reports && reports[EntryOrder(t.id)].status.Dead?
      case OPEN =>
        accepted && ExitOrder(t.id, |t.exitOrders|) in reports
        && reports[ExitOrder(t.id, |t.exitOrders|)].status.Complete?
      case EXITING =>
        t.pos.value.exitOrderId.Some? && t.pos.value.exitOrderId.value in reports
        && reports[t.pos.value.exitOrderId.value].status.Complete?
  }

  /** The book is empty after both if and only if that is so of every position: a pending entry is not claimed by
      the liquidation and carried over unless it is dead, and so is whatever the broker refused or has not filled. */
  lemma SessionEndsFlatIff(s: State, m: State, prices: map<string, real>, accepted: set<nat>,
                           reports: map<OrderId, Order>)
    requires Reachable(s) && Liquidated(s, m, prices, accepted)
    requires Reachable(m) && AllQuiet(m.trades) && Truthful(m.trades, reports)
    ensures forall i :: 0 <= i < |m.trades| ==> CanVisit(m.config, m.trades[i], reports)
    ensures R.BookOf(Toured(m.config, m.trades, B.Busy(R.BookOf(m.trades)), reports)) == map[] <==>
            forall id :: 0 <= id < |s.trades| ==> GoesFlat(s.config, s.trades[id], id in accepted, reports)
  {
    hide Reachable, AllQuiet, Truthful, Liquidated, CanVisit, Visited, GoesFlat, LiquidatedTo;
    var busy := B.Busy(R.BookOf(m.trades));
    forall i: nat | i < |m.trades|
      ensures CanVisit(m.config, m.trades[i], reports)
    {
      QuietCanBeVisited(m, i, reports);
    }
    SameTrades(s, m, prices, accepted);
    var after := Toured(m.config, m.trades, busy, reports);
    forall id: nat | id < |s.trades|
      ensures after[id].pos.None? <==> GoesFlat(s.config, s.trades[id], id in accepted, reports)
    {
      LiquidationLeaves(s, m, prices, accepted, id);
      QuietCanBeVisited(m, id, reports);
      R.IdIsIndex(s, id);
      VisitGoesFlat(s.config, s.trades[id], m.trades[id], id in accepted, reports);
      assert id !in busy ==> Visited(m.config, m.trades[id], reports) == m.trades[id];
    }
    assert R.BookOf(after) == map[] <==> forall id :: 0 <= id < |after| ==> after[id].pos.None? by {
      EmptyBookIff(after);
    }
  }

  lemma SameTrades(s: State, m: State, prices: map<string, real>, accepted: set<nat>)
    requires Liquidated(s, m, prices, accepted)
    ensures |m.trades| == |s.trades| && m.config == s.config
  {
  }

  lemma EmptyBookIff(ts: seq<Trade>)
    ensures R.BookOf(ts) == map[] <==> forall id :: 0 <= id < |ts| ==> ts[id].pos.None?
  {
    forall id: nat | id < |ts| && ts[id].pos.Some?
      ensures R.BookOf(ts) != map[]
    {
      assert id in R.BookOf(ts);
    }
  }

  /** What the pass makes of a liquidated trade. */
  lemma VisitGoesFlat(c: Config, t: Trade, t': Trade, accepted: bool, reports: map<OrderId, Order>)
    requires LiquidatedTo(c, t, t', accepted) && CanVisit(c, t', reports) && t'.id == t.id
    requires InState(t', EXITING) ==> t'.pos.value.exitOrderId.Some?
    ensures Visited(c, t', reports).pos.None? <==> GoesFlat(c, t, accepted, reports)
    ensures t'.pos.None? || InState(t', OPEN) ==> Visited(c, t', reports) == t'
  {
    hide Advances;
  }
}
