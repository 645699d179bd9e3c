/** What the invariants say about every run, read off at any moment of it. */
module LifecycleTheorems {
  import opened Domain
  import opened IdempotencyKeys
  import opened Sizing
  import opened TradesTable
  import opened Lifecycle
  import opened LifecycleInvariants
  import opened LifecycleSafety
  import opened AsyncDbWriters

  /** s is where some run from an empty start has got to. */
  ghost predicate Reachable(s: State) {
    exists evs :: Run(Init(s.config), evs) == Some(s)
  }

  lemma ReachableKept(s: State)
    requires Reachable(s)
    ensures SystemKept(s)
  {
    var evs :| Run(Init(s.config), evs) == Some(s);
    RunKept(s.config, evs);
  }

  /** No thread is in the middle of anything about this trade. */
  predicate AtRest(t: Trade) {
    (t.entryPc.Returned? || t.entryPc.Unsized?) && t.exitPc.NoExit? && t.recPc.Idle? && t.unlogged == map[]
  }

  predicate AllQuiet(ts: seq<Trade>) {
    forall id :: 0 <= id < |ts| ==> AtRest(ts[id])
  }

  predicate NoneRaced(ts: seq<Trade>) {
    forall id :: 0 <= id < |ts| ==> !ts[id].raced
  }

  // ---------------------------------------------------------------- keys and client order ids

  /** The keys issued for a base are attempts 0, 1, 2, ... without gap or repeat; the dedup set holds
      at most the one at the current attempt, and counts it. */
  lemma KeysIssuedInOrder(s: State, base: string, attempt: nat)
    requires Reachable(s) && IsBase(base)
    ensures Issued(s.trades, base) ==
            FirstKeys(base, AttemptsOf(s.attempts, base) + if NextKey(s, base) in s.seen then 1 else 0)
    ensures ComposeKey(base, attempt) in s.seen ==> attempt == AttemptsOf(s.attempts, base)
  {
    hide Run, TradesKept, LogKept;
    ReachableKept(s);
    if ComposeKey(base, attempt) in s.seen {
      var i :| Holds(s, i, ComposeKey(base, attempt));
      assert Stamped(s, s.trades[i]);
      ComposedKeysInjective(s.trades[i].base, s.trades[i].attempt, base, attempt);
    }
  }

  /** Each entry order id is submitted for one trade only, each exit id belongs to one trade, and no
      exit id is an entry id. */
  lemma ClientOrderIdsApart(s: State, i: nat, j: nat)
    requires Reachable(s) && i < |s.trades| && j < |s.trades|
    ensures i != j ==> s.trades[i].Key() != s.trades[j].Key()
    ensures i != j ==> ExitKey(s.trades[i].Key()) != ExitKey(s.trades[j].Key())
    ensures ExitKey(s.trades[i].Key()) != s.trades[j].Key()
  {
    hide Run, TradesKept, LogKept;
    ReachableKept(s);
    var t, u := s.trades[i], s.trades[j];
    assert Stamped(s, t) && Stamped(s, u);
    ExitKeysApart(t.base, t.attempt, u.base, u.attempt);
    if i != j {
      KeysDistinct(s, i, j);
      ComposedKeysInjective(t.base, t.attempt, u.base, u.attempt);
    }
  }

  // ---------------------------------------------------------------- the exit protocol

  /** Between two claims of a position it was given back. */
  ghost predicate ClaimsSeparated(trail: seq<BookOp>) {
    forall i, j :: 0 <= i < j < |trail| && trail[i].Claimed? && trail[j].Claimed? ==>
      exists k :: i < k < j && trail[k].Reopened?
  }

  predicate RemovedLast(trail: seq<BookOp>) {
    forall i :: 0 <= i < |trail| && trail[i].Removed? ==> i == |trail| - 1
  }

  lemma {:induction false} InTurnMeansSeparated(c: Config, trail: seq<BookOp>)
    requires Replay(c, trail) != Broken
    ensures ClaimsSeparated(trail) && RemovedLast(trail)
    ensures Replay(c, trail) == Gone <==> trail != [] && trail[|trail| - 1].Removed?
    ensures forall i :: 0 <= i < |trail| && trail[i].Claimed? ==>
              Replay(c, trail) in {Listed(EXITING), Gone} || exists k :: i < k < |trail| && trail[k].Reopened?
    decreases |trail|
  {
    if trail != [] {
      var n := |trail| - 1;
      var init := trail[..n];
      InTurnMeansSeparated(c, init);
      assert forall k :: 0 <= k < n ==> trail[k] == init[k];
      forall i | 0 <= i < n && trail[i].Claimed? && Replay(c, init) !in {Listed(EXITING), Gone}
        ensures exists k :: i < k < n && trail[k].Reopened?
      {
        var k :| i < k < n && init[k].Reopened?;
        assert trail[k].Reopened?;
      }
      forall i, j | 0 <= i < j < |trail| && trail[i].Claimed? && trail[j].Claimed?
        ensures exists k :: i < k < j && trail[k].Reopened?
      {
        if j < n {
          var k :| i < k < j && init[k].Reopened?;
          assert trail[k].Reopened?;
        }
      }
    }
  }

  /** At most one exit order of the trade is not dead; a position that is not exiting has no exit order; two
      claims are separated by a release; the position leaves the book at most once, last of all, and its key is
      forgotten at most once, after that. */
  ghost predicate ExitSafe(t: Trade) {
    && (forall n :: 0 <= n < |t.exitOrders| - 1 ==> t.exitOrders[n].status.Dead?)
    && (InState(t, PENDING_ENTRY) || InState(t, OPEN) ==> t.pos.value.exitOrderId.None? && AllDead(t.exitOrders))
    && (InState(t, EXITING) && t.pos.value.exitOrderId.Some? ==>
          t.exitOrders != [] && t.pos.value.exitOrderId == Some(ExitOrder(t.id, |t.exitOrders| - 1)))
    && ClaimsSeparated(t.trail) && RemovedLast(t.trail)
    && t.forgets <= 1
    && (t.forgets == 1 ==> t.trail != [] && t.trail[|t.trail| - 1].Removed?)
  }

  lemma ExitSafeWhenKept(c: Config, t: Trade)
    requires TradeKept(c, t)
    ensures ExitSafe(t)
  {
    hide TradeKept, Replay, ClaimsSeparated, RemovedLast;
    TrailInTurn(c, t);
    InTurnMeansSeparated(c, t.trail);
    ExitOrdersInTurn(c, t);
  }

  /** That is so at any moment of any run. */
  lemma ExitProtocolSafe(s: State, id: nat)
    requires Reachable(s) && id < |s.trades|
    ensures ExitSafe(s.trades[id]) && s.trades[id].id == id
  {
    hide Run, TradeKept, KeysKept, LogKept, ExitSafe;
    ReachableKept(s);
    ExitSafeWhenKept(s.config, s.trades[id]);
  }

  lemma TrailInTurn(c: Config, t: Trade)
    requires TradeKept(c, t)
    ensures Replay(c, t.trail) != Broken && t.forgets <= 1
    ensures t.forgets == 1 ==> Replay(c, t.trail) == Gone
  {
  }

  lemma ExitOrdersInTurn(c: Config, t: Trade)
    requires TradeKept(c, t)
    ensures forall n :: 0 <= n < |t.exitOrders| - 1 ==> t.exitOrders[n].status.Dead?
    ensures InState(t, PENDING_ENTRY) || InState(t, OPEN) ==> t.pos.value.exitOrderId.None? && AllDead(t.exitOrders)
    ensures InState(t, EXITING) && t.pos.value.exitOrderId.Some? ==>
              t.exitOrders != [] && t.pos.value.exitOrderId == Some(ExitOrder(t.id, |t.exitOrders| - 1))
  {
    assert t.exitOrders != [] ==>
             forall n :: 0 <= n < |t.exitOrders| - 1 ==> t.exitOrders[n] == t.exitOrders[..|t.exitOrders| - 1][n];
  }

  // ---------------------------------------------------------------- cash holds

  function AmountPlaced(t: Trade): real {
    if t.holds != [] && t.holds[0].Placed? then t.holds[0].amount else 0.0
  }

  function Taken(t: Trade): real {
    if |t.holds| > 1 && t.holds[1].Captured? then AmountPlaced(t) else 0.0
  }

  function GivenBack(t: Trade): real {
    if |t.holds| > 1 && t.holds[1].Released? then AmountPlaced(t) else 0.0
  }

  function Owed(t: Trade): real {
    if Answerable(t) then AmountPlaced(t) else 0.0
  }

  function Total(ts: seq<Trade>, f: Trade -> real): real {
    if ts == [] then 0.0 else Total(ts[..|ts| - 1], f) + f(ts[|ts| - 1])
  }

  /** A hold is placed at most once per trade, for exactly the shares asked for at the price that triggered
      them, and never beyond the balance just read; it is then owned by someone still answerable for it, or was
      captured once (the entry filled), or released once (it did not) and never both. Every entry order has one. */
  predicate HoldSettled(c: Config, t: Trade) {
    && (t.holds == [] || (|t.holds| == 1 && t.holds[0].Placed?)
        || (|t.holds| == 2 && t.holds[0].Placed? && !t.holds[1].Placed?))
    && (|t.holds| == 1 <==> Answerable(t))
    && (t.holds != [] ==> t.holds[0].amount == Qty(c, t) * t.price <= t.holds[0].balance)
    && (t.entryOrder.Some? ==>
          && t.holds != [] && t.entryOrder.value.requested == Qty(c, t)
          && t.holds[0].amount == t.entryOrder.value.requested * t.price)
    && (|t.holds| == 2 && t.holds[1].Captured? ==> t.entryOrder.Some? && t.entryOrder.value.status.Complete?)
    && (|t.holds| == 2 && t.holds[1].Released? ==>
          t.pos.None? && t.exitOrders == [] && (t.entryOrder.Some? ==> t.entryOrder.value.status.Dead?))
    && (AtRest(t) ==> (Answerable(t) <==> InState(t, PENDING_ENTRY)))
    && (AtRest(t) && c.mode.Live? && (InState(t, OPEN) || InState(t, EXITING)) ==>
          |t.holds| == 2 && t.holds[1].Captured?)
  }

  lemma HoldSettledWhenKept(c: Config, t: Trade)
    requires TradeKept(c, t)
    ensures HoldSettled(c, t)
  {
    hide Control, TrailKept, TurnKept, RaceKept, ReasonsKept, Qty, Notional;
    assert AllHeld(c, t) by { HeldWhenOpen(c, t); }
    HoldParts(c, t);
    NotionalIs(c, t);
  }

  lemma HoldSettledOnce(s: State, id: nat)
    requires Reachable(s) && id < |s.trades|
    ensures HoldSettled(s.config, s.trades[id])
  {
    hide Run, KeysKept, LogKept, TradeKept, HoldSettled;
    ReachableKept(s);
    HoldSettledWhenKept(s.config, s.trades[id]);
  }

  lemma NotionalIs(c: Config, t: Trade)
    ensures Notional(c, t) == Qty(c, t) * t.price
  {
    hide ComputeSizing;
    NotionalIsSharesTimesPrice(t.price, c.rule);
    if ComputeSizing(t.price, c.rule).Ok? {
      var sized := ComputeSizing(t.price, c.rule).value;
      assert Qty(c, t) == sized.0 as real && Notional(c, t) == sized.1;
    } else {
      assert Qty(c, t) == 0.0 && Notional(c, t) == 0.0 && 0.0 * t.price == 0.0;
    }
  }

  /** A row asks for what the order asks for, and its notional is the value of that at the price that triggered it. */
  lemma RowIsSized(s: State, id: nat)
    requires Reachable(s) && id < |s.trades| && id in TableOf(s)
    ensures var t, r := s.trades[id], TableOf(s)[id];
            && r.triggerPrice == t.price && r.notional == r.quantity * r.triggerPrice
            && (t.entryOrder.Some? ==> t.entryOrder.value.requested == r.quantity)
            && (t.holds != [] ==> t.holds[0].Placed? && t.holds[0].amount == r.notional)
  {
    hide Run, Reachable, Control, TrailKept, TurnKept, RaceKept, ReasonsKept, ExitOrdersKept, StatusKept, LiveKept,
         PaperKept, StatusLog, LoggedTable, Qty, Notional, ComposeKey;
    var h := SheetReached(s, id);
    NotionalIs(s.config, s.trades[id]);
  }

  predicate AllHeld(c: Config, t: Trade) {
    c.mode.Live? && t.pos.Some? ==> t.entryOrder.Some?
  }

  lemma HeldWhenOpen(c: Config, t: Trade)
    requires Control(c, t)
    ensures AllHeld(c, t)
  {
  }

  lemma HoldParts(c: Config, t: Trade)
    requires OrdersKept(c, t) && HoldsKept(c, t)
    ensures t.holds != [] ==> t.holds[0].Placed? && t.holds[0].amount == Notional(c, t) <= t.holds[0].balance
    ensures |t.holds| == 2 && t.holds[1].Released? ==> t.entryOrder.Some? ==> t.exitOrders == [] && t.pos.None?
    ensures t.entryOrder.Some? ==> t.holds != []
  {
    hide Qty, Notional;
  }

  /** The books balance: money put on hold was captured, released, or is still owed an answer. */
  lemma {:induction false} HoldsBalance(s: State, ts: seq<Trade>)
    requires forall i :: 0 <= i < |ts| ==> HoldsKept(s.config, ts[i])
    ensures Total(ts, AmountPlaced) == Total(ts, Taken) + Total(ts, GivenBack) + Total(ts, Owed)
    decreases |ts|
  {
    hide Notional;
    if ts != [] {
      HoldsBalance(s, ts[..|ts| - 1]);
      var t := ts[|ts| - 1];
      assert HoldsKept(s.config, t);
    }
  }

  predicate CashBalances(ts: seq<Trade>) {
    Total(ts, AmountPlaced) == Total(ts, Taken) + Total(ts, GivenBack) + Total(ts, Owed)
  }

  lemma CashBalancesWhenKept(s: State)
    requires TradesKept(s)
    ensures CashBalances(s.trades)
  {
    hide Control, OrdersKept, HoldsKept, TrailKept, TurnKept, RaceKept, ReasonsKept, Total;
    forall i | 0 <= i < |s.trades|
      ensures HoldsKept(s.config, s.trades[i])
    {
      assert TradeKept(s.config, s.trades[i]);
    }
    HoldsBalance(s, s.trades);
  }

  lemma CashConserved(s: State)
    requires Reachable(s)
    ensures CashBalances(s.trades)
  {
    hide Run, KeysKept, LogKept, TradesKept, CashBalances;
    ReachableKept(s);
    CashBalancesWhenKept(s);
  }

  // ---------------------------------------------------------------- the row follows the book

  /** The table the write log amounts to. */
  function TableOf(s: State): Table {
    match LoggedTable(s.log)
    case Ok(table) => table
    case Err => map[]
  }

  /** Book and row agree about a trade nobody is working on: pending while the entry is unfilled, open
      once filled or after a failed exit, exiting while an exit is out, absent otherwise. */
  predicate Agree(t: Trade, status: Status) {
    && (InState(t, PENDING_ENTRY) <==> status in {SUBMITTED, PARTIALLY_FILLED})
    && (InState(t, OPEN) <==> status in {FILLED, EXIT_FAILED})
    && (InState(t, EXITING) <==> status in {EXIT_SUBMITTED, EXIT_PARTIALLY_FILLED})
    && (t.pos.None? <==> status in {REJECTED, FAILED, INSUFFICIENT_FUNDS, CLOSED})
  }

  lemma SheetReached(s: State, id: nat) returns (h: Sheet)
    requires Reachable(s) && id < |s.trades|
    ensures TradeKept(s.config, s.trades[id]) && SheetKept(s.config, s.trades[id], h)
    ensures h == SheetIn(TableOf(s), s.log, id) && (id in TableOf(s) <==> !NoRowYet(s.trades[id]))
    ensures LoggedTable(s.log).Ok?
  {
    hide Run, KeysKept, TradeKept, SheetKept;
    ReachableKept(s);
    h := SheetIn(TableOf(s), s.log, id);
    SheetHasKey(s.config, s.trades[id], h);
  }

  /** The statuses logged for a trade walk the lifecycle graph exactly as long as no thread strayed: no fill of
      an exit was written while its own id was still to be logged, unless an ended one had been logged late; and
      no exit id was logged after the sale, after a late one, or after that of the exit then out. That takes a
      race, and cannot happen on paper. */
  lemma StatusesWalkTheLifecycle(s: State, id: nat)
    requires Reachable(s) && id < |s.trades|
    ensures IsPath(s.config, StatusLog(s.log, id)) <==> !s.trades[id].strayed
    ensures s.trades[id].strayed ==> s.trades[id].raced && s.config.mode.Live?
  {
    hide Run, Reachable, OrdersKept, HoldsKept, TrailKept, Fits, RowKept, LiveKept, PaperKept, IsPath, Resumed,
         LoggedTable, StatusLog;
    var h := SheetReached(s, id);
  }

  /** A terminal status is the last one logged unless an exit id was logged after the sale; with no call in
      progress that is so exactly when CLOSED was written while an exit id was still to be logged. */
  lemma TerminalIsLast(s: State, id: nat)
    requires Reachable(s) && id < |s.trades|
    ensures var ss := StatusLog(s.log, id);
            (forall k :: 0 <= k < |ss| && Terminal(ss[k]) ==> k == |ss| - 1) <==>
                !LoggedAfterSale(s.config, s.trades[id])
    ensures AtRest(s.trades[id]) ==> (LoggedAfterSale(s.config, s.trades[id]) <==> s.trades[id].lateClose)
  {
    hide Run, Reachable, OrdersKept, HoldsKept, TrailKept, Fits, RowKept, LiveKept, PaperKept, IsPath, LoggedTable,
         StatusLog, Terminal;
    var h := SheetReached(s, id);
    assert h.statuses == StatusLog(s.log, id);
    if Resumed(h.statuses) {
      var k :| 0 <= k < |h.statuses| - 1 && Terminal(h.statuses[k]);
    }
  }

  /** Without a race no exit id is logged after the sale. */
  lemma UnracedSaleIsLast(s: State, id: nat)
    requires Reachable(s) && id < |s.trades| && !s.trades[id].raced
    ensures !LoggedAfterSale(s.config, s.trades[id])
  {
    hide Run, KeysKept, LogKept, Control, OrdersKept, HoldsKept, TrailKept;
    ReachableKept(s);
    assert TradeKept(s.config, s.trades[id]);
  }

  /** Without a race nothing is logged late or out of turn; on paper there is no race. */
  lemma UnracedIsInTurn(s: State, id: nat)
    requires Reachable(s) && id < |s.trades|
    ensures var t := s.trades[id];
            && (t.late || t.strayed || t.lateClose ==> t.raced)
            && (t.raced ==> s.config.mode.Live?)
  {
    hide Run, KeysKept, LogKept, OrdersKept, HoldsKept, TrailKept, TurnKept;
    ReachableKept(s);
    assert TradeKept(s.config, s.trades[id]);
  }

  /** Book and row agree, and a row whose exit is out or filled names that exit order, and why it was sent. */
  predicate RowAgrees(c: Config, t: Trade, r: Row) {
    && Agree(t, r.status)
    && (InState(t, EXITING) ==> r.exitOrderId == t.pos.value.exitOrderId)
    && (c.mode.Live? && (InState(t, EXITING) || t.forgets == 1) ==>
          && |t.exitOrders| == |t.reasons| > 0
          && r.exitOrderId == Some(ExitOrder(t.id, |t.exitOrders| - 1))
          && r.exitReason == Some(t.reasons[|t.reasons| - 1]))
  }

  /** With no call in progress a row disagrees with the book if and only if the exit id logged last was logged
      after its own end, dead or filled, had been written, and no failed exit was logged since. */
  lemma OnlyALateExitDisagrees(s: State, id: nat)
    requires Reachable(s) && id < |s.trades| && AtRest(s.trades[id]) && id in TableOf(s)
    ensures RowAgrees(s.config, s.trades[id], TableOf(s)[id]) <==> !s.trades[id].late
  {
    hide Run, Reachable, OrdersKept, HoldsKept, Replay, RowKept, IsPath, Resumed, RaceKept, LoggedTable, StatusLog,
         FillWritten, OrderWritten, HoldWritten;
    var h := SheetReached(s, id);
    assert Fits(s.config, s.trades[id], TableOf(s)[id].status);
  }

  /** The row of a closed live trade ends as CLOSED exactly when every exit id stored for it had been
      logged by the time the reconciler wrote CLOSED; otherwise it ends as EXIT_SUBMITTED. Either way it
      carries the figures of the fill that closed it. */
  lemma ClosedRowShowsClosed(s: State, id: nat)
    requires Reachable(s) && id < |s.trades| && s.config.mode.Live? && s.trades[id].forgets == 1 && AtRest(s.trades[id])
    ensures id in TableOf(s) && s.trades[id].exitOrders != []
    ensures TableOf(s)[id].status == if s.trades[id].lateClose then EXIT_SUBMITTED else CLOSED
    ensures var r, o := TableOf(s)[id], s.trades[id].exitOrders[|s.trades[id].exitOrders| - 1];
            r.exitQty == o.filledQty && r.exitPrice == o.filledPrice && r.closedAt.Some?
  {
    hide Run, Reachable, OrdersKept, HoldsKept, RowKept, RaceKept, IsPath, Resumed, PaperKept, LoggedTable, StatusLog;
    var h := SheetReached(s, id);
  }

  // ---------------------------------------------------------------- shares

  /** A broker that fills what it says: a filled order for all of its quantity, a dead one for some. */
  predicate Honest(o: Order) {
    && (o.status.Complete? ==> o.filledQty == Some(o.requested))
    && (o.status.Dead? ==> o.filledQty.GetOr(0.0) >= 0.0)
  }

  /** An order's filled shares as they change the holding: plus when bought, minus when sold. */
  function Signed(o: Order): real {
    if o.side.Buy? then o.filledQty.GetOr(0.0) else -o.filledQty.GetOr(0.0)
  }

  /** What the filled orders of a trade add up to. */
  function Holding(t: Trade): real {
    (if t.entryOrder.Some? then Signed(t.entryOrder.value) else 0.0) + SignedSum(t.exitOrders)
  }

  function SignedSum(os: seq<Order>): real {
    if os == [] then 0.0 else SignedSum(os[..|os| - 1]) + Signed(os[|os| - 1])
  }

  /** A LONG is entered by buying and left by selling, a SHORT the other way round, at the broker as in the row. */
  lemma SidesFollowTheSignal(s: State, id: nat)
    requires Reachable(s) && id < |s.trades|
    ensures var t := s.trades[id];
            && (t.entryOrder.Some? ==> t.entryOrder.value.side == if t.entry.kind.Long? then Buy else Sell)
            && (forall n :: 0 <= n < |t.exitOrders| ==>
                  t.exitOrders[n].side == if t.entry.kind.Long? then Sell else Buy)
            && (id in TableOf(s) ==>
                  TableOf(s)[id].kind == t.entry.kind
                  && TableOf(s)[id].side == if t.entry.kind.Long? then Buy else Sell)
  {
    hide Run, Reachable, Control, HoldsKept, TrailKept, TurnKept, RaceKept, ReasonsKept, StatusKept, LiveKept,
         PaperKept, StatusLog, LoggedTable, Qty, Notional, ComposeKey;
    var h := SheetReached(s, id);
  }

  lemma {:induction false} SignedShares(os: seq<Order>, side: Side)
    requires forall k :: 0 <= k < |os| ==> os[k].side == side
    ensures SignedSum(os) == if side.Buy? then Shares(os) else -Shares(os)
    decreases |os|
  {
    if os != [] {
      var init := os[..|os| - 1];
      assert forall k :: 0 <= k < |init| ==> init[k] == os[k];
      SignedShares(init, side);
    }
  }

  /** What a trade holds at the broker, a SHORT as a negative number: an open position its quantity if and only if
      no cancelled exit had been partly filled; a closed trade nothing, under the same condition on all exits but
      the one that closed it. Otherwise the holding has gone past its mark in the direction of the exit. */
  lemma HoldingIsThePosition(s: State, id: nat)
    requires Reachable(s) && id < |s.trades| && s.config.mode.Live?
    requires s.trades[id].entryOrder.Some? && Honest(s.trades[id].entryOrder.value)
    requires forall k :: 0 <= k < |s.trades[id].exitOrders| ==> Honest(s.trades[id].exitOrders[k])
    ensures var t, long := s.trades[id], s.trades[id].entry.kind.Long?;
            && (InState(t, OPEN) ==>
                  var mark := if long then t.pos.value.quantity else -t.pos.value.quantity;
                  && (Holding(t) == mark <==> NoneFilled(t.exitOrders))
                  && (if long then Holding(t) <= mark else Holding(t) >= mark))
            && (t.forgets == 1 ==>
                  && t.exitOrders != []
                  && (Holding(t) == 0.0 <==> NoneFilled(t.exitOrders[..|t.exitOrders| - 1]))
                  && (if long then Holding(t) <= 0.0 else Holding(t) >= 0.0))
  {
    hide Reachable, SignedSum, Shares, NoneFilled, TableOf, Signed;
    var t := s.trades[id];
    SidesFollowTheSignal(s, id);
    SignedShares(t.exitOrders, if t.entry.kind.Long? then Sell else Buy);
    SignedIs(t.entryOrder.value);
    if InState(t, OPEN) {
      OpenIsBought(s, id);
      DeadShares(t.exitOrders);
    }
    if t.forgets == 1 {
      ClosedTradeSellsWhatItBought(s, id);
    }
  }

  lemma SignedIs(o: Order)
    ensures Signed(o) == if o.side.Buy? then o.filledQty.GetOr(0.0) else -o.filledQty.GetOr(0.0)
  {
  }

  lemma OpenIsBought(s: State, id: nat)
    requires Reachable(s) && id < |s.trades| && s.config.mode.Live? && InState(s.trades[id], OPEN)
    requires s.trades[id].entryOrder.Some? && Honest(s.trades[id].entryOrder.value)
    ensures s.trades[id].entryOrder.value.filledQty == Some(s.trades[id].pos.value.quantity)
    ensures AllDead(s.trades[id].exitOrders)
  {
    hide Run, Reachable, KeysKept, LogKept, Control, HoldsKept, TrailKept, TurnKept, RaceKept, ReasonsKept, Qty;
    ReachableKept(s);
    assert OrdersKept(s.config, s.trades[id]) by { assert TradeKept(s.config, s.trades[id]); }
  }

  function Shares(os: seq<Order>): real {
    if os == [] then 0.0 else Shares(os[..|os| - 1]) + os[|os| - 1].filledQty.GetOr(0.0)
  }

  predicate NoneFilled(os: seq<Order>) {
    forall k :: 0 <= k < |os| ==> os[k].filledQty.GetOr(0.0) == 0.0
  }

  lemma {:induction false} DeadShares(os: seq<Order>)
    requires AllDead(os) && forall k :: 0 <= k < |os| ==> Honest(os[k])
    ensures Shares(os) >= 0.0
    ensures Shares(os) == 0.0 <==> NoneFilled(os)
    decreases |os|
  {
    if os != [] {
      var init := os[..|os| - 1];
      DeadShares(init);
      assert forall k :: 0 <= k < |init| ==> os[k] == init[k];
      assert NoneFilled(os) <==> NoneFilled(init) && os[|os| - 1].filledQty.GetOr(0.0) == 0.0;
    }
  }

  /** A closed trade sold exactly the shares it bought if and only if none of its cancelled exit
      orders had been partly filled; otherwise it sold more. */
  lemma ClosedTradeSellsWhatItBought(s: State, id: nat)
    requires Reachable(s) && id < |s.trades| && s.config.mode.Live? && s.trades[id].forgets == 1
    requires Honest(s.trades[id].entryOrder.GetOr(Order(Buy, 0.0)))
    requires forall k :: 0 <= k < |s.trades[id].exitOrders| ==> Honest(s.trades[id].exitOrders[k])
    ensures var t := s.trades[id];
            && t.entryOrder.Some? && t.exitOrders != []
            && Shares(t.exitOrders) >= t.entryOrder.value.filledQty.GetOr(0.0)
            && (Shares(t.exitOrders) == t.entryOrder.value.filledQty.GetOr(0.0) <==>
                NoneFilled(t.exitOrders[..|t.exitOrders| - 1]))
  {
    hide Run, KeysKept, LogKept, Control, HoldsKept, TrailKept, TurnKept, RaceKept, Qty, NoneFilled;
    ReachableKept(s);
    var t := s.trades[id];
    assert OrdersKept(s.config, t) by { assert TradeKept(s.config, t); }
    var n := |t.exitOrders| - 1;
    assert t.exitOrders[n].requested == Bought(s.config, t);
    DeadShares(t.exitOrders[..n]);
  }

  // ---------------------------------------------------------------- the log meets the database

  lemma {:induction false} PrefixTransacts(log: seq<Task>, k: nat)
    requires k <= |log| && Transact(map[], log).Ok?
    ensures Transact(map[], log[..k]).Ok?
  {
    assert log == log[..k] + log[k..];
    TransactSplit(map[], log[..k], log[k..]);
  }

  /** Written to an empty table in the order it was enqueued, every insert meets a fresh idempotency
      key and every update an existing row. */
  lemma WritesNeverCollide(s: State, k: nat)
    requires Reachable(s) && k < |s.log|
    ensures Transact(map[], s.log[..k]).Ok?
    ensures var table := Transact(map[], s.log[..k]).value;
            if s.log[k].Insert? then s.log[k].id !in table && KeyFree(table, s.log[k].row.key) else s.log[k].id in table
  {
    hide Run, TradesKept, KeysKept, SheetsKept;
    ReachableKept(s);
    PrefixTransacts(s.log, k);
    PrefixTransacts(s.log, k + 1);
    assert s.log[..k + 1] == s.log[..k] + [s.log[k]];
    TransactSnoc(map[], s.log[..k], s.log[k]);
  }

  /** However the log is cut into batches, none of them ever fails on the unique index: after any
      number of batches the next one still applies. */
  lemma NoBatchFails(s: State, done: seq<Batch>, next: seq<Task>)
    requires Reachable(s) && Tasks(done) + next <= s.log && forall k :: 0 <= k < |done| ==> done[k].committed
    ensures Transact(map[], CommittedTasks(done)).Ok?
    ensures Transact(Transact(map[], CommittedTasks(done)).value, next).Ok?
  {
    hide Run, TradesKept, KeysKept, SheetsKept, Transact;
    ReachableKept(s);
    BatchingIsTransparent(done);
    PrefixTransacts(s.log, |Tasks(done) + next|);
    assert s.log[..|Tasks(done) + next|] == Tasks(done) + next;
    TransactSplit(map[], Tasks(done), next);
  }
}
