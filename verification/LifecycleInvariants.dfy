/** What every step keeps about one trade, whoever takes it. */
module LifecycleInvariants {
  import opened Domain
  import opened IdempotencyKeys
  import opened Lifecycle
  import opened Sizing

  // ---------------------------------------------------------------- control: who stands where

  predicate LiveEntry(pc: EntryPc) {
    pc.HoldPlaced? || pc.Funded? || pc.Refused? || pc.Accepted? || pc.Announced?
  }

  predicate Control(c: Config, t: Trade) {
    && (t.pos.Some? || t.exitPc != NoExit || t.recPc != Idle || t.exitOrders != [] || t.forgets > 0 ==>
        t.entryPc.Returned?)
    && (LiveEntry(t.entryPc) || t.recPc != Idle || t.entryOrder.Some? || t.exitOrders != [] ==> c.mode.Live?)
    && (t.exitPc.ExitAccepted? || t.exitPc.ExitTurnedDown? ==> c.mode.Live?)
    && (t.entryPc.PaperFilled? || t.exitPc.PaperClosing? || t.exitPc.PaperRemoved? ==> c.mode.Paper?)
    && (t.entryPc.Accepted? || t.entryPc.Announced? || (t.pos.Some? && c.mode.Live?) || t.recPc != Idle ==>
        t.entryOrder.Some?)
    && (forall n :: n in t.unlogged ==> n < |t.exitOrders|)
    && (t.raced || t.lateClose ==> c.mode.Live?)
    && t.forgets <= 1
    && (t.forgets == 1 ==> t.pos.None? && t.exitPc.NoExit? && t.recPc.Idle?)
    && match t.pos
       case None =>
         && (t.exitPc.NoExit? || t.exitPc.PaperRemoved?)
         && (t.recPc.Idle? || t.recPc.Releasing? || t.recPc.Forgetting?)
       case Some(p) =>
         && p.tradeId == t.id && p.key == t.Key() && p.isPaper == c.mode.Paper?
         && p.symbol == t.entry.symbol && p.kind == t.entry.kind && p.sellPrice == Some(t.entry.sellPrice)
         && p.brokerOrderId == (if c.mode.Live? then Some(EntryOrder(t.id)) else None)
         && p.holdId == (if c.mode.Live? then Some(t.id) else None)
         && match p.state
            case PENDING_ENTRY =>
              && c.mode.Live? && t.exitPc.NoExit? && t.exitOrders == [] && p.exitOrderId.None?
              && (t.recPc.Idle? || t.recPc.SawEntry? || t.recPc.EntryWritten? || t.recPc.Rejecting?)
            case OPEN =>
              && t.exitPc.NoExit? && p.exitOrderId.None? && (t.recPc.Idle? || t.recPc.Capturing?)
            case EXITING =>
              if p.exitOrderId.None? then
                && (t.exitPc.ExitClaimed? || t.exitPc.ExitAccepted? || t.exitPc.ExitTurnedDown?
                    || t.exitPc.PaperClosing?)
                && (t.recPc.Idle? || t.recPc.Capturing?)
                && (t.exitPc.ExitAccepted? ==> t.exitOrders != [])
              else
                && t.exitPc.NoExit? && t.exitOrders != []
                && p.exitOrderId == Some(ExitOrder(t.id, |t.exitOrders| - 1))
                && (t.recPc.Idle? || t.recPc.Capturing? || t.recPc.SawExit? || t.recPc.Closing? || t.recPc.Reopening?)
  }

  lemma ControlByEntry(c: Config, t: Trade, a: EntryStep)
    requires Control(c, t) && EntryGuard(c, t, a)
    ensures Control(c, EntryMove(c, t, a))
  {
  }

  lemma ControlByExit(c: Config, t: Trade, a: ExitStep)
    requires Control(c, t) && ExitGuard(c, t, a)
    ensures Control(c, ExitMove(c, t, a))
  {
  }

  lemma ControlByFill(c: Config, t: Trade, a: FillStep)
    requires Control(c, t) && FillGuard(c, t, a)
    ensures Control(c, FillMove(c, t, a))
  {
  }

  lemma ControlByClose(c: Config, t: Trade, a: CloseStep)
    requires Control(c, t) && CloseGuard(c, t, a)
    ensures Control(c, CloseMove(c, t, a))
  {
  }

  lemma ControlByBroker(c: Config, t: Trade, a: BrokerStep)
    requires Control(c, t) && BrokerGuard(t, a)
    ensures Control(c, BrokerMove(t, a))
  {
  }

  // ---------------------------------------------------------------- broker orders

  predicate Settled(o: Order) {
    o.status.Complete? || o.status.Dead?
  }

  /** Shares the entry bought, as the position counts them. */
  function Bought(c: Config, t: Trade): real
    requires t.entryOrder.Some?
  {
    t.entryOrder.value.filledQty.GetOr(Qty(c, t))
  }

  predicate AllDead(os: seq<Order>) {
    forall n :: 0 <= n < |os| ==> os[n].status.Dead?
  }

  predicate AllForTheWhole(c: Config, t: Trade) {
    forall n :: 0 <= n < |t.exitOrders| ==>
      && t.entryOrder.Some? && t.exitOrders[n].side == t.entry.kind.ExitSide()
      && t.exitOrders[n].requested == Bought(c, t)
  }

  /** Exit orders: a new one is only sent once its predecessors are dead, always for the whole
      position; the trade closes on a filled one. */
  predicate ExitOrdersKept(c: Config, t: Trade) {
    && (t.exitOrders != [] ==> AllDead(t.exitOrders[..|t.exitOrders| - 1]))
    && AllForTheWhole(c, t)
    && (t.exitPc.ExitClaimed? || t.exitPc.ExitTurnedDown? || InState(t, OPEN) || t.recPc.Reopening? ==>
        AllDead(t.exitOrders))
    && (t.recPc.SawExit? && Settled(t.recPc.order) ==>
        t.exitOrders != [] && t.exitOrders[|t.exitOrders| - 1] == t.recPc.order)
    && (t.recPc.Closing? || t.recPc.Forgetting? || (c.mode.Live? && t.forgets == 1) ==>
          t.exitOrders != [] && t.exitOrders[|t.exitOrders| - 1].status.Complete?)
  }

  /** The entry order is for the sized quantity; once it is filled the position carries the fill. */
  predicate EntryOrderKept(c: Config, t: Trade) {
    && (t.entryOrder.Some? ==>
        t.entryOrder.value.side == t.entry.kind.EntrySide() && t.entryOrder.value.requested == Qty(c, t))
    && (t.exitOrders != [] || InState(t, OPEN) || InState(t, EXITING) ==>
          c.mode.Paper? || (t.entryOrder.Some? && t.entryOrder.value.status.Complete?))
    && (c.mode.Live? && (InState(t, OPEN) || InState(t, EXITING)) ==>
          && t.pos.value.quantity == Bought(c, t)
          && t.pos.value.entryPrice == t.entryOrder.value.filledPrice.GetOr(t.price))
    && (c.mode.Paper? || InState(t, PENDING_ENTRY) ==>
          t.pos.Some? ==> t.pos.value.quantity == Qty(c, t) && t.pos.value.entryPrice == t.price)
    && (t.recPc.SawEntry? && Settled(t.recPc.order) ==> t.entryOrder == Some(t.recPc.order))
    && (t.recPc.EntryWritten? ==> t.entryOrder == Some(t.recPc.order) && t.recPc.order.status.Complete?)
    && (t.recPc.Rejecting? || t.recPc.Releasing? ==>
        t.entryOrder.Some? && t.entryOrder.value.status.Dead? && t.exitOrders == [])
  }

  predicate OrdersKept(c: Config, t: Trade) {
    ExitOrdersKept(c, t) && EntryOrderKept(c, t)
  }

  lemma OrdersByEntry(c: Config, t: Trade, a: EntryStep)
    requires Control(c, t) && OrdersKept(c, t) && EntryGuard(c, t, a)
    ensures OrdersKept(c, EntryMove(c, t, a))
  {
  }

  /** A move that sends nothing keeps the exit orders as they should be, unless it opens or claims a position whose
      exits are not all dead. */
  lemma NothingSent(c: Config, t: Trade, m: Trade)
    requires ExitOrdersKept(c, t) && m.exitOrders == t.exitOrders && m.entryOrder == t.entryOrder
    requires m.recPc == t.recPc && m.entry == t.entry && m.price == t.price
    requires m.exitPc.ExitClaimed? || m.exitPc.ExitTurnedDown? || InState(m, OPEN) ==> AllDead(t.exitOrders)
    requires c.mode.Live? && m.forgets == 1 ==> t.forgets == 1
    ensures ExitOrdersKept(c, m)
  {
    hide AllDead, AllForTheWhole;
    WholeKept(c, t, m);
  }

  lemma WholeKept(c: Config, t: Trade, m: Trade)
    requires AllForTheWhole(c, t) && m.exitOrders == t.exitOrders && m.entryOrder == t.entryOrder
    requires m.entry == t.entry && m.price == t.price
    ensures AllForTheWhole(c, m)
  {
    hide ComputeSizing;
    if t.exitOrders != [] {
      assert t.exitOrders[0].requested == Bought(c, t) == Bought(c, m);
    }
    forall n | 0 <= n < |m.exitOrders|
      ensures m.entryOrder.Some? && m.exitOrders[n].side == m.entry.kind.ExitSide()
      ensures m.exitOrders[n].requested == Bought(c, m)
    {
      assert t.exitOrders[n].requested == Bought(c, t);
    }
  }

  lemma OneSent(c: Config, t: Trade, m: Trade)
    requires ExitOrdersKept(c, t) && t.entryOrder.Some? && m.entryOrder == t.entryOrder && AllDead(t.exitOrders)
    requires m.exitOrders == t.exitOrders + [Order(t.entry.kind.ExitSide(), Bought(c, t))]
    requires m.recPc == t.recPc && m.entry == t.entry && m.price == t.price && m.forgets == t.forgets == 0
    requires !InState(m, OPEN) && !m.exitPc.ExitClaimed? && !m.exitPc.ExitTurnedDown?
    requires !m.recPc.SawExit? && !m.recPc.Reopening? && !m.recPc.Closing? && !m.recPc.Forgetting?
    ensures ExitOrdersKept(c, m)
  {
    hide ComputeSizing;
    assert m.exitOrders[..|m.exitOrders| - 1] == t.exitOrders;
    assert Bought(c, m) == Bought(c, t);
  }

  lemma ExitOrdersByExit(c: Config, t: Trade, a: ExitStep)
    requires Control(c, t) && OrdersKept(c, t) && ExitGuard(c, t, a)
    ensures ExitOrdersKept(c, ExitMove(c, t, a))
  {
    hide ComposeKey, ComputeSizing, Bought;
    assert t.exitPc.ExitClaimed? || t.exitPc.ExitTurnedDown? || InState(t, OPEN) ==> AllDead(t.exitOrders);
    hide ExitOrdersKept, AllDead;
    if a.SubmitExit? {
      OneSent(c, t, ExitMove(c, t, a));
    } else {
      NothingSent(c, t, ExitMove(c, t, a));
    }
  }

  lemma EntryOrderByExit(c: Config, t: Trade, a: ExitStep)
    requires Control(c, t) && OrdersKept(c, t) && ExitGuard(c, t, a)
    ensures EntryOrderKept(c, ExitMove(c, t, a))
  {
    hide ComposeKey, ComputeSizing;
  }

  lemma OrdersByExit(c: Config, t: Trade, a: ExitStep)
    requires Control(c, t) && OrdersKept(c, t) && ExitGuard(c, t, a)
    ensures OrdersKept(c, ExitMove(c, t, a))
  {
    hide ExitOrdersKept, EntryOrderKept;
    ExitOrdersByExit(c, t, a);
    EntryOrderByExit(c, t, a);
  }

  lemma ExitOrdersByFill(c: Config, t: Trade, a: FillStep)
    requires Control(c, t) && OrdersKept(c, t) && FillGuard(c, t, a)
    ensures ExitOrdersKept(c, FillMove(c, t, a))
  {
    hide ComposeKey, ComputeSizing;
  }

  lemma EntryOrderByFill(c: Config, t: Trade, a: FillStep)
    requires Control(c, t) && OrdersKept(c, t) && FillGuard(c, t, a)
    ensures EntryOrderKept(c, FillMove(c, t, a))
  {
    hide ComposeKey, ComputeSizing;
  }

  lemma OrdersByFill(c: Config, t: Trade, a: FillStep)
    requires Control(c, t) && OrdersKept(c, t) && FillGuard(c, t, a)
    ensures OrdersKept(c, FillMove(c, t, a))
  {
    hide ExitOrdersKept, EntryOrderKept;
    ExitOrdersByFill(c, t, a);
    EntryOrderByFill(c, t, a);
  }

  lemma ExitOrdersByClose(c: Config, t: Trade, a: CloseStep)
    requires Control(c, t) && OrdersKept(c, t) && CloseGuard(c, t, a)
    ensures ExitOrdersKept(c, CloseMove(c, t, a))
  {
    hide ComposeKey, ComputeSizing;
  }

  lemma EntryOrderByClose(c: Config, t: Trade, a: CloseStep)
    requires Control(c, t) && OrdersKept(c, t) && CloseGuard(c, t, a)
    ensures EntryOrderKept(c, CloseMove(c, t, a))
  {
    hide ComposeKey, ComputeSizing;
  }

  lemma OrdersByClose(c: Config, t: Trade, a: CloseStep)
    requires Control(c, t) && OrdersKept(c, t) && CloseGuard(c, t, a)
    ensures OrdersKept(c, CloseMove(c, t, a))
  {
    hide ExitOrdersKept, EntryOrderKept;
    ExitOrdersByClose(c, t, a);
    EntryOrderByClose(c, t, a);
  }

  lemma OrdersByBroker(c: Config, t: Trade, a: BrokerStep)
    requires Control(c, t) && OrdersKept(c, t) && BrokerGuard(t, a)
    ensures OrdersKept(c, BrokerMove(t, a))
  {
  }

  // ---------------------------------------------------------------- cash holds

  /** The trade is still answerable for a hold: in flight, awaiting its fill, or about to settle it. */
  predicate Answerable(t: Trade) {
    LiveEntry(t.entryPc) || InState(t, PENDING_ENTRY) || t.recPc.Capturing? || t.recPc.Releasing?
  }

  predicate HoldsKept(c: Config, t: Trade) {
    && (Answerable(t) ==> |t.holds| == 1)
    && (|t.holds| == 1 ==> Answerable(t))
    && |t.holds| <= 2
    && (t.holds != [] ==>
          && c.mode.Live? && t.holds[0].Placed?
          && t.holds[0].amount == Notional(c, t) <= t.holds[0].balance)
    && (|t.holds| == 2 ==> !t.holds[1].Placed?)
    && (|t.holds| == 2 && t.holds[1].Captured? ==> t.entryOrder.Some? && t.entryOrder.value.status.Complete?)
    && (|t.holds| == 2 && t.holds[1].Released? ==>
          t.entryOrder.None? || (t.entryOrder.value.status.Dead? && t.exitOrders == [] && t.pos.None?))
    && (t.entryOrder.Some? ==> t.holds != [])
    && (t.recPc.Capturing? ==> t.entryOrder.Some? && t.entryOrder.value.status.Complete?)
    && (t.entryPc.KeyClaimed? || t.entryPc.RowWritten? ==> t.holds == [] && t.entryOrder.None?)
    && (t.entryPc.HoldPlaced? || t.entryPc.Funded? || t.entryPc.Refused? ==> t.entryOrder.None?)
    && (t.entryPc.Unsized? ==> t.holds == [])
  }

  lemma HoldsByEntry(c: Config, t: Trade, a: EntryStep)
    requires Control(c, t) && OrdersKept(c, t) && HoldsKept(c, t) && EntryGuard(c, t, a)
    ensures HoldsKept(c, EntryMove(c, t, a))
  {
    hide ComposeKey, ComputeSizing, ExitOrdersKept;
  }

  lemma HoldsByExit(c: Config, t: Trade, a: ExitStep)
    requires Control(c, t) && OrdersKept(c, t) && HoldsKept(c, t) && ExitGuard(c, t, a)
    ensures HoldsKept(c, ExitMove(c, t, a))
  {
  }

  lemma HoldsByFill(c: Config, t: Trade, a: FillStep)
    requires Control(c, t) && OrdersKept(c, t) && HoldsKept(c, t) && FillGuard(c, t, a)
    ensures HoldsKept(c, FillMove(c, t, a))
  {
  }

  lemma HoldsByClose(c: Config, t: Trade, a: CloseStep)
    requires Control(c, t) && OrdersKept(c, t) && HoldsKept(c, t) && CloseGuard(c, t, a)
    ensures HoldsKept(c, CloseMove(c, t, a))
  {
  }

  lemma HoldsByBroker(c: Config, t: Trade, a: BrokerStep)
    requires Control(c, t) && OrdersKept(c, t) && HoldsKept(c, t) && BrokerGuard(t, a)
    ensures HoldsKept(c, BrokerMove(t, a))
  {
  }

  // ---------------------------------------------------------------- book operations

  /** What the book operations on one trade leave in the book; Broken if one came out of turn. */
  datatype Slot = Absent | Listed(state: PositionState) | Gone | Broken

  function Replay(c: Config, trail: seq<BookOp>): Slot {
    if trail == [] then Absent
    else
      match (Replay(c, trail[..|trail| - 1]), trail[|trail| - 1])
      case (Absent, Opened) => Listed(if c.mode.Live? then PENDING_ENTRY else OPEN)
      case (Listed(PENDING_ENTRY), MarkedOpen) => Listed(OPEN)
      case (Listed(OPEN), Claimed) => Listed(EXITING)
      case (Listed(EXITING), Reopened) => Listed(OPEN)
      case (Listed(PENDING_ENTRY), Removed) => Gone
      case (Listed(EXITING), Removed) => Gone
      case _ => Broken
  }

  /** A trade on its way out has been in the book. */
  predicate OnceOpened(t: Trade) {
    t.exitPc.PaperRemoved? || t.recPc.Releasing? || t.recPc.Forgetting? || t.forgets == 1 ==> t.trail != []
  }

  predicate TrailKept(c: Config, t: Trade) {
    && OnceOpened(t)
    && Replay(c, t.trail) == match t.pos
                             case Some(p) => Listed(p.state)
                             case None => if t.entryPc.Returned? && t.trail != [] then Gone else Absent
  }

  lemma ReplaySnoc(c: Config, trail: seq<BookOp>, op: BookOp)
    ensures (trail + [op])[..|trail|] == trail
  {
  }

  lemma TrailByEntry(c: Config, t: Trade, a: EntryStep)
    requires Control(c, t) && TrailKept(c, t) && EntryGuard(c, t, a)
    ensures TrailKept(c, EntryMove(c, t, a))
  {
    forall op { ReplaySnoc(c, t.trail, op); }
  }

  lemma TrailByExit(c: Config, t: Trade, a: ExitStep)
    requires Control(c, t) && TrailKept(c, t) && ExitGuard(c, t, a)
    ensures TrailKept(c, ExitMove(c, t, a))
  {
    forall op { ReplaySnoc(c, t.trail, op); }
  }

  lemma TrailByFill(c: Config, t: Trade, a: FillStep)
    requires Control(c, t) && TrailKept(c, t) && FillGuard(c, t, a)
    ensures TrailKept(c, FillMove(c, t, a))
  {
    forall op { ReplaySnoc(c, t.trail, op); }
  }

  lemma TrailByClose(c: Config, t: Trade, a: CloseStep)
    requires Control(c, t) && TrailKept(c, t) && CloseGuard(c, t, a)
    ensures TrailKept(c, CloseMove(c, t, a))
  {
    forall op { ReplaySnoc(c, t.trail, op); }
  }

  lemma TrailByBroker(c: Config, t: Trade, a: BrokerStep)
    requires Control(c, t) && TrailKept(c, t) && BrokerGuard(t, a)
    ensures TrailKept(c, BrokerMove(t, a))
  {
    forall op { ReplaySnoc(c, t.trail, op); }
  }


  // ---------------------------------------------------------------- the row

  /** What the write log has made of one trade: its row, and the statuses it went through. */
  datatype Sheet = Sheet(row: Option<Row>, statuses: seq<Status>) {
    function Last(): Option<Status> {
      if row.Some? then Some(row.value.status) else None
    }
  }

  function Stated(task: Task): Status {
    match task
    case Insert(_, r) => r.status
    case Update(_, f) => f.status.Over(NEW)
  }

  /** One more write; an update of a missing row changes nothing. */
  function Written(h: Sheet, w: Option<Task>): Sheet {
    match w
    case None => h
    case Some(Insert(_, r)) => Sheet(Some(r), h.statuses + [r.status])
    case Some(Update(_, f)) =>
      Sheet(if h.row.Some? then Some(f.Apply(h.row.value)) else None, h.statuses + [Stated(w.value)])
  }

  predicate SameSignal(c: Config, t: Trade, r: Row) {
    var n := NewRow(c, t);
    && r.isPaper == n.isPaper && r.symbol == n.symbol && r.side == n.side && r.kind == n.kind
    && r.targetBuy == n.targetBuy && r.targetSell == n.targetSell && r.triggerPrice == n.triggerPrice
    && r.quantity == n.quantity && r.notional == n.notional && r.key == n.key
  }

  predicate NoRowYet(t: Trade) {
    t.entryPc.KeyClaimed? || t.entryPc.Unsized?
  }

  predicate RowKept(c: Config, t: Trade, h: Sheet) {
    && (h.row.None? <==> NoRowYet(t))
    && (h.row.None? <==> h.statuses == [])
    && (h.row.Some? ==> SameSignal(c, t, h.row.value) && h.statuses[|h.statuses| - 1] == h.row.value.status)
  }

  /** No step rewrites the signal a trade came from. */
  predicate SameOrigin(t: Trade, m: Trade) {
    m.id == t.id && m.base == t.base && m.attempt == t.attempt && m.entry == t.entry && m.price == t.price
  }

  /** The first write inserts the row, with the signal's columns; every later one updates it. */
  predicate WriteInTurn(c: Config, t: Trade, m: Trade, w: Option<Task>) {
    match w
    case None => NoRowYet(t) == NoRowYet(m)
    case Some(Insert(id, r)) => id == t.id && NoRowYet(t) && !NoRowYet(m) && r == NewRow(c, t)
    case Some(Update(id, f)) => id == t.id && !NoRowYet(t) && !NoRowYet(m) && f.status.Set?
  }

  lemma RowWrittenKept(c: Config, t: Trade, h: Sheet, m: Trade, w: Option<Task>)
    requires RowKept(c, t, h) && SameOrigin(t, m) && WriteInTurn(c, t, m, w)
    ensures RowKept(c, m, Written(h, w))
    ensures Written(h, w).Last() == if w.Some? then Some(Stated(w.value)) else h.Last()
    ensures Written(h, w).statuses == h.statuses + if w.Some? then [Stated(w.value)] else []
  {
    hide ComposeKey, ComputeSizing;
  }

  lemma InTurnByEntry(c: Config, t: Trade, a: EntryStep)
    requires EntryGuard(c, t, a)
    ensures SameOrigin(t, EntryMove(c, t, a)) && WriteInTurn(c, t, EntryMove(c, t, a), EntryWrite(c, t, a))
    ensures EntryMove(c, t, a).forgets == t.forgets
  {
  }

  lemma InTurnByExit(c: Config, t: Trade, a: ExitStep)
    requires Control(c, t) && ExitGuard(c, t, a)
    ensures SameOrigin(t, ExitMove(c, t, a)) && WriteInTurn(c, t, ExitMove(c, t, a), ExitWrite(c, t, a))
    ensures ExitMove(c, t, a).forgets == t.forgets + if a.PaperForget? then 1 else 0
  {
  }

  lemma InTurnByFill(c: Config, t: Trade, a: FillStep)
    requires Control(c, t) && FillGuard(c, t, a)
    ensures SameOrigin(t, FillMove(c, t, a)) && WriteInTurn(c, t, FillMove(c, t, a), FillWrite(c, t, a))
    ensures FillMove(c, t, a).forgets == t.forgets
  {
  }

  lemma InTurnByClose(c: Config, t: Trade, a: CloseStep)
    requires Control(c, t) && CloseGuard(c, t, a)
    ensures SameOrigin(t, CloseMove(c, t, a)) && WriteInTurn(c, t, CloseMove(c, t, a), CloseWrite(c, t, a))
    ensures CloseMove(c, t, a).forgets == t.forgets + if a.ForgetClosed? then 1 else 0
  {
  }

  /** The lifecycle graph: which status may follow which. */
  predicate Edge(c: Config, a: Status, b: Status) {
    match a
    case NEW => if c.mode.Live? then b in {CASH_HELD, INSUFFICIENT_FUNDS, FAILED} else b.FILLED?
    case CASH_HELD => b in {SUBMITTED, FAILED}
    case SUBMITTED => b in {PARTIALLY_FILLED, FILLED, REJECTED}
    case PARTIALLY_FILLED => b in {PARTIALLY_FILLED, FILLED, REJECTED}
    case FILLED => if c.mode.Live? then b in {EXIT_SUBMITTED, EXIT_FAILED} else b.CLOSED?
    case EXIT_SUBMITTED => b in {EXIT_PARTIALLY_FILLED, CLOSED, EXIT_FAILED}
    case EXIT_PARTIALLY_FILLED => b in {EXIT_PARTIALLY_FILLED, CLOSED, EXIT_FAILED}
    case EXIT_FAILED => b in {EXIT_SUBMITTED, EXIT_FAILED}
    case _ => false
  }

  predicate IsPath(c: Config, ss: seq<Status>) {
    && (ss != [] ==> ss[0] == NEW)
    && forall i :: 0 < i < |ss| ==> Edge(c, ss[i - 1], ss[i])
  }

  /** The statuses of a position that is bought and not on its way out. */
  predicate Held(c: Config, s: Status) {
    s.FILLED? || (c.mode.Live? && s.EXIT_FAILED?)
  }

  /** The trade's exit was filled and that has been written. */
  predicate Sold(c: Config, t: Trade) {
    c.mode.Live? && (t.recPc.Closing? || t.recPc.Forgetting? || t.forgets == 1)
  }

  /** The statuses a row can show for a position that was bought: what was last told about exits. */
  predicate FitsTold(c: Config, t: Trade, s: Status) {
    match t.told
    case Nothing => Held(c, s)
    case Submission => s.EXIT_SUBMITTED?
    case Fill => if Sold(c, t) then s.CLOSED? else s.EXIT_PARTIALLY_FILLED?
  }

  /** The statuses a row can show given where the threads stand with its trade. */
  predicate Fits(c: Config, t: Trade, s: Status) {
    match t.pos
    case None =>
      (match t.entryPc
       case KeyClaimed => false
       case Unsized => false
       case RowWritten => s.NEW?
       case HoldPlaced => s.NEW?
       case Funded => s.CASH_HELD?
       case Refused => s.FAILED?
       case Accepted => s.CASH_HELD?
       case Announced => s.SUBMITTED?
       case PaperFilled => s.FILLED?
       case Returned =>
         if t.trail == [] then s in {INSUFFICIENT_FUNDS, FAILED}
         else if Sold(c, t) then FitsTold(c, t, s)
         else if t.exitPc.PaperRemoved? || t.forgets == 1 then s.CLOSED?
         else s.REJECTED?)
    case Some(p) =>
      (match p.state
       case PENDING_ENTRY =>
         if t.recPc.EntryWritten? then s.FILLED?
         else if t.recPc.Rejecting? then s.REJECTED?
         else s in {SUBMITTED, PARTIALLY_FILLED}
       case _ => if t.exitPc.PaperClosing? then s.CLOSED? else FitsTold(c, t, s))
  }

  // ---------------------------------------------------------------- the order in which exits are logged

  /** How the exit ids logged so far relate to the exit orders sent: the current one is logged last unless
      an ended one was logged late; without a current one, an exit id logged since the last failure is late. */
  predicate TurnKept(c: Config, t: Trade) {
    var last := |t.exitOrders| - 1;
    && (t.exitOrders == [] ==> t.newest.None? && t.told.Nothing? && !t.strayed)
    && (t.newest.None? ==> !t.late)
    && (t.pos.None? && !Sold(c, t) ==> t.exitOrders == [])
    && (t.exitPc.ExitAccepted? ==> last !in t.unlogged && t.newest != Some(last))
    && (t.newest.Some? ==> t.newest.value < |t.exitOrders| && t.newest.value !in t.unlogged)
    && (ExitOut(t) && last !in t.unlogged ==>
          t.newest.Some? && !t.told.Nothing? && (t.late <==> t.newest != Some(last)))
    && (ExitOut(t) && last in t.unlogged ==>
          t.newest != Some(last) && (!t.strayed ==> (t.late <==> !t.told.Nothing?)))
    && (t.pos.Some? && !ExitOut(t) && !t.recPc.Closing? ==> (t.late <==> !t.told.Nothing?))
    && (Sold(c, t) ==>
          && t.exitOrders != [] && !t.told.Nothing?
          && (t.told.Submission? ==> t.late)
          && (t.told.Fill? && last !in t.unlogged ==> t.newest.Some? && (t.late <==> t.newest != Some(last)))
          && (t.told.Fill? && last in t.unlogged ==> t.newest != Some(last))
          && (t.lateClose <==> t.told.Submission? || t.unlogged != map[]))
    && (!Sold(c, t) ==> !t.lateClose)
  }

  /** As long as the reconciler never wrote about an exit while some exit id was still to be logged, none
      is ever logged late or out of turn. */
  predicate RaceKept(c: Config, t: Trade) {
    !t.raced ==>
      && !t.late && !t.strayed && !t.lateClose
      && (forall n :: n in t.unlogged ==> ExitOut(t) && n == |t.exitOrders| - 1 && t.told.Nothing?)
  }

  /** Each exit id still to be logged goes with the reason its order was sent for. */
  predicate ReasonsKept(t: Trade) {
    && |t.reasons| == |t.exitOrders|
    && (t.exitPc.ExitAccepted? ==> t.exitOrders != [] && t.reasons[|t.reasons| - 1] == t.exitPc.reason)
    && (forall n :: n in t.unlogged ==> n < |t.reasons| && t.unlogged[n] == t.reasons[n])
  }

  lemma ReasonsByExit(c: Config, t: Trade, a: ExitStep)
    requires Control(c, t) && ReasonsKept(t) && ExitGuard(c, t, a)
    ensures ReasonsKept(ExitMove(c, t, a))
  {
  }

  lemma ReasonsByEntry(c: Config, t: Trade, a: EntryStep)
    requires ReasonsKept(t) && EntryGuard(c, t, a)
    ensures ReasonsKept(EntryMove(c, t, a))
  {
    hide ComputeSizing, ComposeKey;
  }

  lemma ReasonsByFill(c: Config, t: Trade, a: FillStep)
    requires ReasonsKept(t) && FillGuard(c, t, a)
    ensures ReasonsKept(FillMove(c, t, a))
  {
    hide ComputeSizing, ComposeKey;
  }

  lemma ReasonsByClose(c: Config, t: Trade, a: CloseStep)
    requires ReasonsKept(t) && CloseGuard(c, t, a)
    ensures ReasonsKept(CloseMove(c, t, a))
  {
    hide ComputeSizing, ComposeKey;
  }

  lemma ReasonsByBroker(c: Config, t: Trade, a: BrokerStep)
    requires ReasonsKept(t) && BrokerGuard(t, a)
    ensures ReasonsKept(BrokerMove(t, a))
  {
    hide ComputeSizing, ComposeKey;
  }

  lemma TurnByEntry(c: Config, t: Trade, a: EntryStep)
    requires Control(c, t) && TurnKept(c, t) && RaceKept(c, t) && EntryGuard(c, t, a)
    ensures TurnKept(c, EntryMove(c, t, a)) && RaceKept(c, EntryMove(c, t, a))
  {
  }

  lemma TurnByExit(c: Config, t: Trade, a: ExitStep)
    requires Control(c, t) && TurnKept(c, t) && RaceKept(c, t) && ExitGuard(c, t, a)
    ensures TurnKept(c, ExitMove(c, t, a)) && RaceKept(c, ExitMove(c, t, a))
  {
  }

  lemma TurnByFill(c: Config, t: Trade, a: FillStep)
    requires Control(c, t) && TurnKept(c, t) && RaceKept(c, t) && FillGuard(c, t, a)
    ensures TurnKept(c, FillMove(c, t, a)) && RaceKept(c, FillMove(c, t, a))
  {
  }

  lemma TurnByClose(c: Config, t: Trade, a: CloseStep)
    requires Control(c, t) && TurnKept(c, t) && RaceKept(c, t) && CloseGuard(c, t, a)
    ensures TurnKept(c, CloseMove(c, t, a)) && RaceKept(c, CloseMove(c, t, a))
  {
  }

  lemma TurnByBroker(c: Config, t: Trade, a: BrokerStep)
    requires Control(c, t) && TurnKept(c, t) && RaceKept(c, t) && BrokerGuard(t, a)
    ensures TurnKept(c, BrokerMove(t, a)) && RaceKept(c, BrokerMove(t, a))
  {
  }

  // ---------------------------------------------------------------- the statuses of a row

  predicate Terminal(s: Status) {
    s in {REJECTED, FAILED, INSUFFICIENT_FUNDS, CLOSED}
  }

  /** A terminal status is followed by another one. */
  predicate Resumed(ss: seq<Status>) {
    exists k :: 0 <= k < |ss| - 1 && Terminal(ss[k])
  }

  /** An exit id was logged after CLOSED was written. */
  predicate LoggedAfterSale(c: Config, t: Trade) {
    Sold(c, t) && t.told.Submission?
  }

  predicate StatusKept(c: Config, t: Trade, h: Sheet) {
    && (h.Last().Some? ==> Fits(c, t, h.Last().value))
    && (IsPath(c, h.statuses) <==> !t.strayed)
    && (Resumed(h.statuses) <==> LoggedAfterSale(c, t))
  }

  /** From a fitting status, a move and its write lead to a fitting one; it is along an edge unless the
      move strays, and from a terminal status only if it logs an exit id after the sale. */
  predicate Follows(c: Config, t: Trade, m: Trade, s: Option<Status>, w: Option<Task>) {
    if w.None? then
      (s.Some? ==> Fits(c, m, s.value)) && m.strayed == t.strayed && LoggedAfterSale(c, m) == LoggedAfterSale(c, t)
    else
      && Fits(c, m, Stated(w.value)) && (t.strayed ==> m.strayed)
      && (s.None? ==> Stated(w.value).NEW? && m.strayed == t.strayed && LoggedAfterSale(c, m) == LoggedAfterSale(c, t))
      && (s.Some? ==>
            && (!t.strayed ==> (Edge(c, s.value, Stated(w.value)) <==> !m.strayed))
            && (LoggedAfterSale(c, m) <==> LoggedAfterSale(c, t) || Terminal(s.value)))
  }

  lemma StatusByEntry(c: Config, t: Trade, a: EntryStep, s: Option<Status>)
    requires Control(c, t) && TrailKept(c, t) && TurnKept(c, t) && EntryGuard(c, t, a)
    requires (s.None? <==> NoRowYet(t)) && (s.Some? ==> Fits(c, t, s.value))
    ensures Follows(c, t, EntryMove(c, t, a), s, EntryWrite(c, t, a))
  {
  }

  lemma StatusByExit(c: Config, t: Trade, a: ExitStep, s: Option<Status>)
    requires Control(c, t) && OnceOpened(t) && TurnKept(c, t) && ExitGuard(c, t, a)
    requires (s.None? <==> NoRowYet(t)) && (s.Some? ==> Fits(c, t, s.value))
    ensures Follows(c, t, ExitMove(c, t, a), s, ExitWrite(c, t, a))
  {
  }

  lemma StatusByFill(c: Config, t: Trade, a: FillStep, s: Option<Status>)
    requires Control(c, t) && OnceOpened(t) && TurnKept(c, t) && FillGuard(c, t, a)
    requires (s.None? <==> NoRowYet(t)) && (s.Some? ==> Fits(c, t, s.value))
    ensures Follows(c, t, FillMove(c, t, a), s, FillWrite(c, t, a))
  {
  }

  lemma StatusByClose(c: Config, t: Trade, a: CloseStep, s: Option<Status>)
    requires Control(c, t) && OnceOpened(t) && TurnKept(c, t) && CloseGuard(c, t, a)
    requires (s.None? <==> NoRowYet(t)) && (s.Some? ==> Fits(c, t, s.value))
    ensures Follows(c, t, CloseMove(c, t, a), s, CloseWrite(c, t, a))
  {
  }

  // ---------------------------------------------------------------- the other columns of a live row

  predicate OrderWritten(t: Trade) {
    t.entryPc.Announced? || (t.entryPc.Returned? && t.entryOrder.Some?)
  }

  predicate HoldWritten(t: Trade) {
    || t.entryPc.Funded? || t.entryPc.Refused? || t.entryPc.Accepted? || t.entryPc.Announced?
    || (t.entryPc.Returned? && t.holds != [])
  }

  predicate FillWritten(c: Config, t: Trade) {
    t.recPc.EntryWritten? || InState(t, OPEN) || InState(t, EXITING) || Sold(c, t)
  }

  /** A live row carries the entry order, the hold, the exit id logged last and the reason its order was sent
      for, the figures of the filled entry, and once sold those of the filled exit. */
  predicate LiveRow(c: Config, t: Trade, r: Row) {
    && r.brokerOrderId == (if OrderWritten(t) then Some(EntryOrder(t.id)) else None)
    && r.holdId == (if HoldWritten(t) then Some(t.id) else None)
    && r.exitOrderId == (if t.newest.Some? then Some(ExitOrder(t.id, t.newest.value)) else None)
    && r.exitReason == (if t.newest.Some? && t.newest.value < |t.reasons| then Some(t.reasons[t.newest.value])
                        else None)
    && (!t.entryPc.Returned? || r.status.SUBMITTED? ==> r.filledQty.None? && r.filledPrice.None?)
    && (r.status.FILLED? ==> t.newest.None?)
    && (FillWritten(c, t) ==>
          && t.entryOrder.Some? && t.entryOrder.value.status.Complete?
          && r.filledQty == t.entryOrder.value.filledQty && r.filledPrice == t.entryOrder.value.filledPrice)
    && (Sold(c, t) ==>
          && t.exitOrders != [] && r.closedAt.Some?
          && r.exitQty == t.exitOrders[|t.exitOrders| - 1].filledQty
          && r.exitPrice == t.exitOrders[|t.exitOrders| - 1].filledPrice)
  }

  predicate LiveKept(c: Config, t: Trade, h: Sheet) {
    c.mode.Live? && h.row.Some? ==> LiveRow(c, t, h.row.value)
  }

  lemma LiveByEntry(c: Config, t: Trade, h: Sheet, a: EntryStep)
    requires Control(c, t) && HoldsKept(c, t) && TurnKept(c, t) && RowKept(c, t, h) && LiveKept(c, t, h)
    requires EntryGuard(c, t, a)
    ensures LiveKept(c, EntryMove(c, t, a), Written(h, EntryWrite(c, t, a)))
  {
    hide ComposeKey, ComputeSizing, IsPath;
  }

  lemma LiveByExit(c: Config, t: Trade, h: Sheet, a: ExitStep)
    requires Control(c, t) && OrdersKept(c, t) && TurnKept(c, t) && ReasonsKept(t)
    requires RowKept(c, t, h) && LiveKept(c, t, h) && ExitGuard(c, t, a)
    ensures LiveKept(c, ExitMove(c, t, a), Written(h, ExitWrite(c, t, a)))
  {
    hide ComposeKey, ComputeSizing, SameSignal;
  }

  lemma LiveByFill(c: Config, t: Trade, h: Sheet, a: FillStep)
    requires Control(c, t) && OrdersKept(c, t) && HoldsKept(c, t) && TurnKept(c, t)
    requires RowKept(c, t, h) && LiveKept(c, t, h) && FillGuard(c, t, a)
    ensures LiveKept(c, FillMove(c, t, a), Written(h, FillWrite(c, t, a)))
  {
    hide ComposeKey, ComputeSizing, SameSignal;
  }

  lemma LiveByClose(c: Config, t: Trade, h: Sheet, a: CloseStep)
    requires Control(c, t) && OrdersKept(c, t) && RowKept(c, t, h) && LiveKept(c, t, h) && CloseGuard(c, t, a)
    ensures LiveKept(c, CloseMove(c, t, a), Written(h, CloseWrite(c, t, a)))
  {
    hide ComposeKey, ComputeSizing, SameSignal;
  }

  lemma LiveByBroker(c: Config, t: Trade, h: Sheet, a: BrokerStep)
    requires Control(c, t) && OrdersKept(c, t) && LiveKept(c, t, h) && BrokerGuard(t, a)
    ensures LiveKept(c, BrokerMove(t, a), h)
  {
    hide ComposeKey, ComputeSizing;
  }

  // ---------------------------------------------------------------- paper rows

  predicate PaperClosed(t: Trade) {
    t.exitPc.PaperClosing? || t.exitPc.PaperRemoved? || t.forgets == 1
  }

  /** In paper mode the row carries the fill and, once closed, an exit of the same size at a price
      that honours its reason. */
  predicate PaperRow(c: Config, t: Trade, r: Row) {
    && r.status == (if PaperClosed(t) then CLOSED else if t.entryPc.RowWritten? then NEW else FILLED)
    && (!t.entryPc.RowWritten? ==> r.filledQty == Some(Qty(c, t)) && r.filledPrice == Some(t.price))
    && r.brokerOrderId.None? && r.exitOrderId.None? && r.holdId.None?
    && (PaperClosed(t) ==>
          && r.exitQty == Some(Qty(c, t)) && r.exitPrice.Some? && r.exitReason.Some? && r.closedAt.Some?
          && (r.exitReason.value.TargetPrice? ==> Reached(t.entry.kind, t.entry.sellPrice, r.exitPrice.value)))
  }

  predicate PaperKept(c: Config, t: Trade, h: Sheet) {
    c.mode.Paper? ==>
      && (h.row.Some? ==> PaperRow(c, t, h.row.value))
      && (t.exitPc.ExitClaimed? && t.exitPc.why.TargetPrice? ==>
            Reached(t.entry.kind, t.entry.sellPrice, t.exitPc.price))
  }

  lemma PaperByEntry(c: Config, t: Trade, h: Sheet, a: EntryStep)
    requires Control(c, t) && RowKept(c, t, h) && PaperKept(c, t, h) && EntryGuard(c, t, a)
    ensures PaperKept(c, EntryMove(c, t, a), Written(h, EntryWrite(c, t, a)))
  {
    hide ComposeKey, ComputeSizing;
  }

  lemma PaperByExit(c: Config, t: Trade, h: Sheet, a: ExitStep)
    requires Control(c, t) && OrdersKept(c, t) && RowKept(c, t, h) && PaperKept(c, t, h) && ExitGuard(c, t, a)
    ensures PaperKept(c, ExitMove(c, t, a), Written(h, ExitWrite(c, t, a)))
  {
    hide ComposeKey, ComputeSizing;
  }

  // ---------------------------------------------------------------- all together

  predicate TradeKept(c: Config, t: Trade) {
    && Control(c, t) && OrdersKept(c, t) && HoldsKept(c, t) && TrailKept(c, t) && TurnKept(c, t) && RaceKept(c, t)
    && ReasonsKept(t)
  }

  predicate SheetKept(c: Config, t: Trade, h: Sheet) {
    RowKept(c, t, h) && StatusKept(c, t, h) && LiveKept(c, t, h) && PaperKept(c, t, h)
  }

  lemma TradeStepKept(c: Config, t: Trade, a: Action)
    requires TradeKept(c, t) && Guard(c, t, a)
    ensures TradeKept(c, Next(c, t, a))
  {
    hide Control, OrdersKept, HoldsKept, TrailKept, TurnKept, RaceKept, ReasonsKept, EntryMove, ExitMove, FillMove,
         CloseMove, BrokerMove, EntryGuard, ExitGuard, FillGuard, CloseGuard, BrokerGuard;
    match a {
      case ByExecute(e) =>
        ControlByEntry(c, t, e);
        OrdersByEntry(c, t, e);
        HoldsByEntry(c, t, e);
        TrailByEntry(c, t, e);
        TurnByEntry(c, t, e);
        ReasonsByEntry(c, t, e);
      case ByExit(x) =>
        ControlByExit(c, t, x);
        OrdersByExit(c, t, x);
        HoldsByExit(c, t, x);
        TrailByExit(c, t, x);
        TurnByExit(c, t, x);
        ReasonsByExit(c, t, x);
      case ByFill(f) =>
        ControlByFill(c, t, f);
        OrdersByFill(c, t, f);
        HoldsByFill(c, t, f);
        TrailByFill(c, t, f);
        TurnByFill(c, t, f);
        ReasonsByFill(c, t, f);
      case ByClose(x) =>
        ControlByClose(c, t, x);
        OrdersByClose(c, t, x);
        HoldsByClose(c, t, x);
        TrailByClose(c, t, x);
        TurnByClose(c, t, x);
        ReasonsByClose(c, t, x);
      case ByBroker(b) =>
        ControlByBroker(c, t, b);
        OrdersByBroker(c, t, b);
        HoldsByBroker(c, t, b);
        TrailByBroker(c, t, b);
        TurnByBroker(c, t, b);
        ReasonsByBroker(c, t, b);
    }
  }

  lemma PathSnoc(c: Config, ss: seq<Status>, s: Status)
    ensures IsPath(c, ss + [s]) <==> IsPath(c, ss) && if ss == [] then s.NEW? else Edge(c, ss[|ss| - 1], s)
  {
    hide Edge;
    assert forall i :: 0 <= i < |ss| ==> (ss + [s])[i] == ss[i];
    assert (ss + [s])[|ss|] == s;
  }

  lemma ResumedSnoc(ss: seq<Status>, s: Status)
    ensures Resumed(ss + [s]) <==> Resumed(ss) || (ss != [] && Terminal(ss[|ss| - 1]))
  {
    hide Terminal;
    assert forall i :: 0 <= i < |ss| ==> (ss + [s])[i] == ss[i];
    if ss != [] && Terminal(ss[|ss| - 1]) {
      assert Terminal((ss + [s])[|ss| - 1]);
    }
    if Resumed(ss) {
      var k :| 0 <= k < |ss| - 1 && Terminal(ss[k]);
      assert Terminal((ss + [s])[k]);
    }
  }

  /** What a move says about the statuses carries over to the sheet with its write. */
  lemma StatusWrittenKept(c: Config, t: Trade, h: Sheet, m: Trade, w: Option<Task>)
    requires RowKept(c, t, h) && StatusKept(c, t, h) && SameOrigin(t, m) && WriteInTurn(c, t, m, w)
    requires Follows(c, t, m, h.Last(), w)
    ensures StatusKept(c, m, Written(h, w))
  {
    hide Fits, SameSignal, Edge, IsPath, Resumed, Terminal, Sold;
    RowWrittenKept(c, t, h, m, w);
    if w.Some? {
      PathSnoc(c, h.statuses, Stated(w.value));
      ResumedSnoc(h.statuses, Stated(w.value));
    } else {
      assert h.statuses + [] == h.statuses;
    }
  }

  lemma SheetWrittenKept(c: Config, t: Trade, h: Sheet, m: Trade, w: Option<Task>)
    requires SheetKept(c, t, h) && SameOrigin(t, m) && WriteInTurn(c, t, m, w)
    requires Follows(c, t, m, h.Last(), w)
    requires LiveKept(c, m, Written(h, w)) && PaperKept(c, m, Written(h, w))
    ensures SheetKept(c, m, Written(h, w))
  {
    hide Follows, LiveKept, PaperKept, SameOrigin, WriteInTurn, RowKept, StatusKept;
    RowWrittenKept(c, t, h, m, w);
    StatusWrittenKept(c, t, h, m, w);
  }

  lemma OpenedByTrail(c: Config, t: Trade)
    requires TradeKept(c, t)
    ensures OnceOpened(t)
  {
    hide Control, OrdersKept, HoldsKept, TurnKept, RaceKept, Replay;
  }

  lemma LastFits(c: Config, t: Trade, h: Sheet)
    requires SheetKept(c, t, h)
    ensures h.Last().Some? ==> Fits(c, t, h.Last().value)
    ensures h.Last().None? <==> NoRowYet(t)
  {
    hide Fits, SameSignal, IsPath, PaperRow, LiveRow, Resumed;
  }

  lemma SheetKeptByEntry(c: Config, t: Trade, h: Sheet, a: EntryStep)
    requires TradeKept(c, t) && SheetKept(c, t, h) && EntryGuard(c, t, a)
    ensures SheetKept(c, EntryMove(c, t, a), Written(h, EntryWrite(c, t, a)))
  {
    hide Control, OrdersKept, HoldsKept, TrailKept, TurnKept, RaceKept, RowKept, StatusKept, LiveKept, PaperKept,
         Follows, Fits, Written, EntryGuard, EntryMove, EntryWrite, SameOrigin, WriteInTurn;
    InTurnByEntry(c, t, a);
    LastFits(c, t, h);
    StatusByEntry(c, t, a, h.Last());
    LiveByEntry(c, t, h, a);
    PaperByEntry(c, t, h, a);
    SheetWrittenKept(c, t, h, EntryMove(c, t, a), EntryWrite(c, t, a));
  }

  lemma SheetKeptByExit(c: Config, t: Trade, h: Sheet, a: ExitStep)
    requires TradeKept(c, t) && SheetKept(c, t, h) && ExitGuard(c, t, a)
    ensures SheetKept(c, ExitMove(c, t, a), Written(h, ExitWrite(c, t, a)))
  {
    hide Control, OrdersKept, HoldsKept, TrailKept, TurnKept, RaceKept, RowKept, StatusKept, LiveKept, PaperKept,
         Follows, Fits, Written, ExitGuard, ExitMove, ExitWrite, SameOrigin, WriteInTurn;
    InTurnByExit(c, t, a);
    LastFits(c, t, h);
    assert OnceOpened(t) by { OpenedByTrail(c, t); }
    StatusByExit(c, t, a, h.Last());
    LiveByExit(c, t, h, a);
    PaperByExit(c, t, h, a);
    SheetWrittenKept(c, t, h, ExitMove(c, t, a), ExitWrite(c, t, a));
  }

  lemma SheetKeptByFill(c: Config, t: Trade, h: Sheet, a: FillStep)
    requires TradeKept(c, t) && SheetKept(c, t, h) && FillGuard(c, t, a)
    ensures SheetKept(c, FillMove(c, t, a), Written(h, FillWrite(c, t, a)))
  {
    hide Control, OrdersKept, HoldsKept, TrailKept, TurnKept, RaceKept, RowKept, StatusKept, LiveKept, PaperKept,
         Follows, Fits, Written, FillGuard, FillMove, FillWrite, SameOrigin, WriteInTurn;
    InTurnByFill(c, t, a);
    LastFits(c, t, h);
    assert OnceOpened(t) by { OpenedByTrail(c, t); }
    StatusByFill(c, t, a, h.Last());
    LiveByFill(c, t, h, a);
    LiveOnlyFill(c, t, a, h);
    SheetWrittenKept(c, t, h, FillMove(c, t, a), FillWrite(c, t, a));
  }

  lemma SheetKeptByClose(c: Config, t: Trade, h: Sheet, a: CloseStep)
    requires TradeKept(c, t) && SheetKept(c, t, h) && CloseGuard(c, t, a)
    ensures SheetKept(c, CloseMove(c, t, a), Written(h, CloseWrite(c, t, a)))
  {
    hide Control, OrdersKept, HoldsKept, TrailKept, TurnKept, RaceKept, RowKept, StatusKept, LiveKept, PaperKept,
         Follows, Fits, Written, CloseGuard, CloseMove, CloseWrite, SameOrigin, WriteInTurn;
    InTurnByClose(c, t, a);
    LastFits(c, t, h);
    assert OnceOpened(t) by { OpenedByTrail(c, t); }
    StatusByClose(c, t, a, h.Last());
    LiveByClose(c, t, h, a);
    LiveOnlyClose(c, t, a, h);
    SheetWrittenKept(c, t, h, CloseMove(c, t, a), CloseWrite(c, t, a));
  }

  lemma LiveOnlyFill(c: Config, t: Trade, a: FillStep, h: Sheet)
    requires Control(c, t) && FillGuard(c, t, a)
    ensures PaperKept(c, FillMove(c, t, a), Written(h, FillWrite(c, t, a)))
  {
    hide PaperRow, Written;
  }

  lemma LiveOnlyClose(c: Config, t: Trade, a: CloseStep, h: Sheet)
    requires Control(c, t) && CloseGuard(c, t, a)
    ensures PaperKept(c, CloseMove(c, t, a), Written(h, CloseWrite(c, t, a)))
  {
    hide PaperRow, Written;
  }

  lemma SheetKeptByBroker(c: Config, t: Trade, h: Sheet, a: BrokerStep)
    requires TradeKept(c, t) && SheetKept(c, t, h) && BrokerGuard(t, a)
    ensures SheetKept(c, BrokerMove(t, a), h)
  {
    hide HoldsKept, TrailKept, TurnKept, RaceKept, LiveKept, Replay, Edge, IsPath, Resumed;
    LiveByBroker(c, t, h, a);
  }

  /** Every step of every thread keeps all of it. */
  lemma SheetStepKept(c: Config, t: Trade, h: Sheet, a: Action)
    requires TradeKept(c, t) && SheetKept(c, t, h) && Guard(c, t, a)
    ensures SheetKept(c, Next(c, t, a), Written(h, Write(c, t, a)))
  {
    hide TradeKept, SheetKept, EntryMove, ExitMove, FillMove, CloseMove, BrokerMove, EntryGuard, ExitGuard, FillGuard,
         CloseGuard, BrokerGuard, EntryWrite, ExitWrite, FillWrite, CloseWrite;
    match a
    case ByExecute(e) => SheetKeptByEntry(c, t, h, e);
    case ByExit(x) => SheetKeptByExit(c, t, h, x);
    case ByFill(f) => SheetKeptByFill(c, t, h, f);
    case ByClose(x) => SheetKeptByClose(c, t, h, x);
    case ByBroker(b) => SheetKeptByBroker(c, t, h, b);
  }

  /** All the system needs to know about one step of one trade. */
  predicate LocalStep(c: Config, t: Trade, w: Option<Task>, m: Trade, forgets: bool) {
    && SameOrigin(t, m) && WriteInTurn(c, t, m, w)
    && m.forgets == t.forgets + (if forgets then 1 else 0)
  }

  lemma StepIsLocal(c: Config, t: Trade, a: Action)
    requires Control(c, t) && Guard(c, t, a)
    ensures LocalStep(c, t, Write(c, t, a), Next(c, t, a), Forgets(a))
  {
    hide Control, EntryMove, ExitMove, FillMove, CloseMove, EntryGuard, ExitGuard, FillGuard, CloseGuard, EntryWrite,
         ExitWrite, FillWrite, CloseWrite, NewRow;
    match a
    case ByExecute(e) => InTurnByEntry(c, t, e);
    case ByExit(x) => InTurnByExit(c, t, x);
    case ByFill(f) => InTurnByFill(c, t, f);
    case ByClose(x) => InTurnByClose(c, t, x);
    case ByBroker(b) =>
  }

  lemma NewTradeKept(c: Config, id: nat, base: string, attempt: nat, entry: Entry, price: real)
    ensures TradeKept(c, Trade(id, base, attempt, entry, price))
    ensures SheetKept(c, Trade(id, base, attempt, entry, price), Sheet(None, []))
  {
  }
}
