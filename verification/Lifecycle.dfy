/** The lifecycle protocol as a state machine. The tick thread (`execute`, `check_exits`), the
    market-close liquidator (`liquidate_all`) and the reconciler share a position book, a key table
    and a write queue; the broker and the cash service answer as they please. A step is one shared
    action: one lock region, one enqueue, one broker or cash call, one field store. Everything that
    happens to one trade is kept in its `Trade` record, including where each thread stands in it; what it
    says to the database goes to a common write log. */
module Lifecycle {
  import opened Domain
  import opened IdempotencyKeys
  import opened Sizing

  // ---------------------------------------------------------------- what one trade has been through

  datatype OrderStatus = Working | PartlyFilled | Complete | Dead

  datatype Order = Order(side: Side, requested: real, status: OrderStatus := Working,
                         filledQty: Option<real> := None, filledPrice: Option<real> := None)

  /** The broker may change an order until it is filled or dead; then it stays so. */
  predicate Advances(o: Order, o': Order) {
    && o'.side == o.side && o'.requested == o.requested
    && (o.status.Complete? || o.status.Dead? ==> o' == o)
  }

  /** Calls made to the cash service about the trade's hold. */
  datatype HoldCall = Placed(amount: real, balance: real) | Captured | Released

  /** Operations on the position book about the trade. */
  datatype BookOp = Opened | MarkedOpen | Claimed | Reopened | Removed

  /** What the write log says about exits since the entry was filled or an exit last failed. */
  datatype Told = Nothing | Submission | Fill

  /** Where `execute` stands. */
  datatype EntryPc =
    | KeyClaimed | Unsized | RowWritten | HoldPlaced | Funded | Refused | Accepted | Announced | PaperFilled
    | Returned

  /** Where the thread that claimed the exit stands. */
  datatype ExitPc =
    | NoExit | ExitClaimed(price: real, why: ExitReason) | ExitAccepted(reason: ExitReason)
    | ExitTurnedDown | PaperClosing | PaperRemoved

  /** Where the reconciler stands with this trade; `Saw...` holds the order as fetched. */
  datatype RecPc =
    | Idle | SawEntry(order: Order) | EntryWritten(order: Order) | Capturing | Rejecting | Releasing
    | SawExit(order: Order) | Closing | Forgetting | Reopening

  datatype Trade = Trade(
    id: nat, base: string, attempt: nat, entry: Entry, price: real,
    entryPc: EntryPc := KeyClaimed, exitPc: ExitPc := NoExit, recPc: RecPc := Idle,
    pos: Option<Pos> := None,
    entryOrder: Option<Order> := None, exitOrders: seq<Order> := [],
    reasons: seq<ExitReason> := [],            // why each exit order was sent
    unlogged: map<nat, ExitReason> := map[],   // exit ids stored, EXIT_SUBMITTED not yet enqueued
    holds: seq<HoldCall> := [], trail: seq<BookOp> := [], forgets: nat := 0,
    newest: Option<nat> := None, // the exit id logged last
    late: bool := false,         // it was logged after its own end was, and no failed exit has been logged since
    told: Told := Nothing,
    strayed: bool := false,      // a write about an exit came out of turn, see `FillStrays` and `LogStrays`
    raced: bool := false,        // the reconciler wrote about an exit while some exit id was still to be logged
    lateClose: bool := false)    // ... and what it wrote was CLOSED
  {
    function Key(): string {
      ComposeKey(base, attempt)
    }
  }

  datatype Config = Config(mode: Mode, rule: SizingRule)

  /** The steps of `execute` about one trade. */
  datatype EntryStep =
    | SizingFails | WriteRow | FundsLow(balance: real) | CashFails | PlaceHold(balance: real) | WriteHeld
    | EntryRefused | DropHold | SubmitEntry | WriteSubmitted | OpenPending | PaperFill | OpenPaper

  /** The steps of `check_exits` and `liquidate_all`. */
  datatype ExitStep =
    | Claim(price: real, reason: ExitReason) | PaperClose(now: int) | PaperRemove | PaperForget
    | ExitRefused | ReopenRefused | SubmitExit | StoreExit | WriteExit(n: nat)

  /** The steps of `reconcile_once` about a pending entry. */
  datatype FillStep =
    | FetchEntry | EntryWorking | WriteFilled | MarkOpen | Capture | WritePartial | WriteRejected | RemoveRejected
    | ReleaseHold

  /** The steps of `reconcile_once` about an exit. */
  datatype CloseStep =
    | FetchExit | ExitWorking | WriteClosed(now: int) | RemoveClosed | ForgetClosed | WriteExitPartial
    | WriteExitFailed | ReopenFailed

  /** The broker changes its mind about an order. */
  datatype BrokerStep = EntryMoves(order: Order) | ExitMoves(nth: nat, order: Order)

  datatype Action =
    | ByExecute(entry: EntryStep) | ByExit(exit: ExitStep) | ByFill(fill: FillStep) | ByClose(close: CloseStep)
    | ByBroker(broker: BrokerStep)

  function Qty(c: Config, t: Trade): real {
    match ComputeSizing(t.price, c.rule)
    case Ok(sized) => sized.0 as real
    case Err => 0.0
  }

  function Notional(c: Config, t: Trade): real {
    match ComputeSizing(t.price, c.rule)
    case Ok(sized) => sized.1
    case Err => 0.0
  }

  predicate InState(t: Trade, state: PositionState) {
    t.pos.Some? && t.pos.value.state == state
  }

  /** The end of the n-th exit, dead or filled, has been written. */
  predicate Ended(t: Trade, n: nat) {
    !InState(t, EXITING) || t.pos.value.exitOrderId != Some(ExitOrder(t.id, n)) || t.recPc.Closing?
        || t.recPc.Reopening?
  }

  /** An exit order whose end has not been written is held by the position. */
  predicate ExitOut(t: Trade) {
    InState(t, EXITING) && t.pos.value.exitOrderId.Some? && !t.recPc.Closing? && !t.recPc.Reopening?
  }

  /** The id of the exit order sent last is stored and still to be logged. */
  predicate Unannounced(t: Trade) {
    |t.exitOrders| - 1 in t.unlogged
  }

  /** A fill written now is out of turn: the id of its own exit order is still to be logged, and no ended one
      was logged late in its place. */
  predicate FillStrays(t: Trade) {
    Unannounced(t) && !t.late
  }

  /** An exit id logged now is out of turn: the sale has been written, an ended one was logged late, or that of
      the exit that is out has been logged. */
  predicate LogStrays(t: Trade) {
    t.pos.None? || t.recPc.Closing? || t.late || (ExitOut(t) && !Unannounced(t))
  }

  predicate EntryGuard(c: Config, t: Trade, a: EntryStep) {
    var live := c.mode.Live?;
    match a
    case SizingFails => t.entryPc.KeyClaimed? && ComputeSizing(t.price, c.rule).Err?
    case WriteRow => t.entryPc.KeyClaimed? && ComputeSizing(t.price, c.rule).Ok?
    case FundsLow(balance) => live && t.entryPc.RowWritten? && balance < Notional(c, t)
    case CashFails => live && t.entryPc.RowWritten?
    case PlaceHold(balance) => live && t.entryPc.RowWritten? && balance >= Notional(c, t)
    case WriteHeld => t.entryPc.HoldPlaced?
    case EntryRefused => t.entryPc.Funded?
    case DropHold => t.entryPc.Refused?
    case SubmitEntry => t.entryPc.Funded?
    case WriteSubmitted => t.entryPc.Accepted?
    case OpenPending => t.entryPc.Announced?
    case PaperFill => !live && t.entryPc.RowWritten?
    case OpenPaper => t.entryPc.PaperFilled?
  }

  predicate ExitGuard(c: Config, t: Trade, a: ExitStep) {
    var live := c.mode.Live?;
    match a
    case Claim(price, reason) => InState(t, OPEN) && (reason.TargetPrice? ==> t.pos.value.Triggered(price))
    case PaperClose(_) => !live && t.exitPc.ExitClaimed? && t.pos.Some?
    case PaperRemove => t.exitPc.PaperClosing?
    case PaperForget => t.exitPc.PaperRemoved?
    case ExitRefused => live && t.exitPc.ExitClaimed?
    case ReopenRefused => t.exitPc.ExitTurnedDown? && t.pos.Some?
    case SubmitExit => live && t.exitPc.ExitClaimed? && t.pos.Some?
    case StoreExit => t.exitPc.ExitAccepted? && t.pos.Some? && t.exitOrders != []
    case WriteExit(n) => n in t.unlogged
  }

  predicate FillGuard(c: Config, t: Trade, a: FillStep) {
    var live := c.mode.Live?;
    match a
    case FetchEntry => live && t.recPc.Idle? && InState(t, PENDING_ENTRY) && t.entryOrder.Some?
    case EntryWorking => t.recPc.SawEntry? && t.recPc.order.status.Working?
    case WriteFilled => t.recPc.SawEntry? && t.recPc.order.status.Complete?
    case MarkOpen => t.recPc.EntryWritten? && t.pos.Some?
    case Capture => t.recPc.Capturing?
    case WritePartial => t.recPc.SawEntry? && t.recPc.order.status.PartlyFilled?
    case WriteRejected => t.recPc.SawEntry? && t.recPc.order.status.Dead?
    case RemoveRejected => t.recPc.Rejecting?
    case ReleaseHold => t.recPc.Releasing?
  }

  predicate CloseGuard(c: Config, t: Trade, a: CloseStep) {
    var live := c.mode.Live?;
    match a
    case FetchExit =>
      && live && t.recPc.Idle? && InState(t, EXITING) && t.pos.value.exitOrderId.Some?
      && t.pos.value.exitOrderId.value.ExitOrder? && t.pos.value.exitOrderId.value.nth < |t.exitOrders|
    case WriteClosed(_) => t.recPc.SawExit? && t.recPc.order.status.Complete?
    case RemoveClosed => t.recPc.Closing?
    case ForgetClosed => t.recPc.Forgetting?
    case WriteExitPartial => t.recPc.SawExit? && t.recPc.order.status.PartlyFilled?
    case WriteExitFailed => t.recPc.SawExit? && t.recPc.order.status.Dead?
    case ReopenFailed => t.recPc.Reopening? && t.pos.Some?
    case ExitWorking => t.recPc.SawExit? && t.recPc.order.status.Working?
  }

  predicate BrokerGuard(t: Trade, a: BrokerStep) {
    match a
    case EntryMoves(o) => t.entryOrder.Some? && Advances(t.entryOrder.value, o)
    case ExitMoves(n, o) => n < |t.exitOrders| && Advances(t.exitOrders[n], o)
  }

  /** May the action happen now? */
  predicate Guard(c: Config, t: Trade, a: Action) {
    match a
    case ByExecute(e) => EntryGuard(c, t, e)
    case ByExit(x) => ExitGuard(c, t, x)
    case ByFill(f) => FillGuard(c, t, f)
    case ByClose(x) => CloseGuard(c, t, x)
    case ByBroker(b) => BrokerGuard(t, b)
  }

  /** The row `execute` inserts. */
  function NewRow(c: Config, t: Trade): Row {
    Row(c.mode.Paper?, t.entry.symbol, t.entry.kind.EntrySide(), t.entry.kind, t.entry.buyPrice,
        Some(t.entry.sellPrice), t.price, Qty(c, t), Notional(c, t), t.Key(), NEW)
  }

  /** The position `execute` puts in the book. */
  function NewPos(c: Config, t: Trade): Pos {
    var live := c.mode.Live?;
    Pos(t.id, t.entry.symbol, t.entry.kind, Qty(c, t), t.price, Some(t.entry.sellPrice), !live, t.Key(),
        if live then Some(EntryOrder(t.id)) else None, None, if live then Some(t.id) else None,
        if live then PENDING_ENTRY else OPEN)
  }

  function EntryWrite(c: Config, t: Trade, a: EntryStep): Option<Task> {
    match a
    case WriteRow => Some(Insert(t.id, NewRow(c, t)))
    case FundsLow(_) => Some(Update(t.id, Fields(status := Set(INSUFFICIENT_FUNDS))))
    case CashFails => Some(Update(t.id, Fields(status := Set(FAILED), errorCode := Set(Some("CASH_ERROR")))))
    case WriteHeld => Some(Update(t.id, Fields(status := Set(CASH_HELD), holdId := Set(Some(t.id)))))
    case EntryRefused => Some(Update(t.id, Fields(status := Set(FAILED), errorCode := Set(Some("BROKER_ERROR")))))
    case WriteSubmitted =>
      Some(Update(t.id, Fields(status := Set(SUBMITTED), brokerOrderId := Set(Some(EntryOrder(t.id))))))
    case PaperFill =>
      Some(Update(t.id, Fields(status := Set(FILLED), filledQty := Set(Some(Qty(c, t))),
                               filledPrice := Set(Some(t.price)))))
    case _ => None
  }

  function ExitWrite(c: Config, t: Trade, a: ExitStep): Option<Task>
    requires ExitGuard(c, t, a)
  {
    match a
    case PaperClose(now) =>
      Some(Update(t.id, Fields(status := Set(CLOSED), exitReason := Set(Some(t.exitPc.why)),
                               exitQty := Set(Some(t.pos.value.quantity)),
                               exitPrice := Set(Some(t.exitPc.price)), closedAt := Set(Some(now)))))
    case ExitRefused =>
      Some(Update(t.id, Fields(status := Set(EXIT_FAILED), errorCode := Set(Some("EXIT_BROKER_ERROR")))))
    case WriteExit(n) =>
      Some(Update(t.id, Fields(status := Set(EXIT_SUBMITTED), exitOrderId := Set(Some(ExitOrder(t.id, n))),
                               exitReason := Set(Some(t.unlogged[n])))))
    case _ => None
  }

  function FillWrite(c: Config, t: Trade, a: FillStep): Option<Task>
    requires FillGuard(c, t, a)
  {
    match a
    case WriteFilled =>
      Some(Update(t.id, Fields(status := Set(FILLED), filledQty := Set(t.recPc.order.filledQty),
                               filledPrice := Set(t.recPc.order.filledPrice))))
    case WritePartial =>
      Some(Update(t.id, Fields(status := Set(PARTIALLY_FILLED), filledQty := Set(t.recPc.order.filledQty),
                               filledPrice := Set(t.recPc.order.filledPrice))))
    case WriteRejected => Some(Update(t.id, Fields(status := Set(REJECTED))))
    case _ => None
  }

  function CloseWrite(c: Config, t: Trade, a: CloseStep): Option<Task>
    requires CloseGuard(c, t, a)
  {
    match a
    case WriteClosed(now) =>
      Some(Update(t.id, Fields(status := Set(CLOSED), exitQty := Set(t.recPc.order.filledQty),
                               exitPrice := Set(t.recPc.order.filledPrice), closedAt := Set(Some(now)))))
    case WriteExitPartial =>
      Some(Update(t.id, Fields(status := Set(EXIT_PARTIALLY_FILLED), exitQty := Set(t.recPc.order.filledQty),
                               exitPrice := Set(t.recPc.order.filledPrice))))
    case WriteExitFailed => Some(Update(t.id, Fields(status := Set(EXIT_FAILED))))
    case _ => None
  }

  /** What the action hands to the database writer. */
  function Write(c: Config, t: Trade, a: Action): Option<Task>
    requires Guard(c, t, a)
  {
    match a
    case ByExecute(e) => EntryWrite(c, t, e)
    case ByExit(x) => ExitWrite(c, t, x)
    case ByFill(f) => FillWrite(c, t, f)
    case ByClose(x) => CloseWrite(c, t, x)
    case ByBroker(_) => None
  }

  /** `mark_open` after the reported fill replaced quantity and entry price. */
  function FilledPos(p: Pos, o: Order): Pos {
    p.(quantity := o.filledQty.GetOr(p.quantity), entryPrice := o.filledPrice.GetOr(p.entryPrice), state := OPEN)
  }

  /** `release_exit`. */
  function ReopenedPos(p: Pos): Pos {
    p.(state := OPEN, exitOrderId := None)
  }

  function EntryMove(c: Config, t: Trade, a: EntryStep): Trade
    requires EntryGuard(c, t, a)
  {
    match a
    case SizingFails => t.(entryPc := Unsized)
    case WriteRow => t.(entryPc := RowWritten)
    case FundsLow(_) => t.(entryPc := Returned)
    case CashFails => t.(entryPc := Returned)
    case PlaceHold(balance) => t.(entryPc := HoldPlaced, holds := t.holds + [Placed(Notional(c, t), balance)])
    case WriteHeld => t.(entryPc := Funded)
    case EntryRefused => t.(entryPc := Refused)
    case DropHold => t.(entryPc := Returned, holds := t.holds + [Released])
    case SubmitEntry => t.(entryPc := Accepted, entryOrder := Some(Order(t.entry.kind.EntrySide(), Qty(c, t))))
    case WriteSubmitted => t.(entryPc := Announced)
    case OpenPending => t.(entryPc := Returned, pos := Some(NewPos(c, t)), trail := t.trail + [Opened])
    case PaperFill => t.(entryPc := PaperFilled)
    case OpenPaper => t.(entryPc := Returned, pos := Some(NewPos(c, t)), trail := t.trail + [Opened])
  }

  function ExitMove(c: Config, t: Trade, a: ExitStep): Trade
    requires ExitGuard(c, t, a)
  {
    match a
    case Claim(price, reason) =>
      t.(pos := Some(t.pos.value.(state := EXITING)), exitPc := ExitClaimed(price, reason),
         trail := t.trail + [Claimed])
    case PaperClose(_) => t.(exitPc := PaperClosing)
    case PaperRemove => t.(pos := None, exitPc := PaperRemoved, trail := t.trail + [Removed])
    case PaperForget => t.(exitPc := NoExit, forgets := t.forgets + 1)
    case ExitRefused => t.(exitPc := ExitTurnedDown, late := false, told := Nothing)
    case ReopenRefused => t.(pos := Some(ReopenedPos(t.pos.value)), exitPc := NoExit, trail := t.trail + [Reopened])
    case SubmitExit =>
      t.(exitPc := ExitAccepted(t.exitPc.why),
         exitOrders := t.exitOrders + [Order(t.entry.kind.ExitSide(), t.pos.value.quantity)],
         reasons := t.reasons + [t.exitPc.why])
    case StoreExit =>
      var n := |t.exitOrders| - 1;
      t.(pos := Some(t.pos.value.(exitOrderId := Some(ExitOrder(t.id, n)))), exitPc := NoExit,
         unlogged := t.unlogged[n := t.exitPc.reason])
    case WriteExit(n) =>
      t.(unlogged := t.unlogged - {n}, newest := Some(n), late := Ended(t, n), told := Submission,
         strayed := t.strayed || LogStrays(t))
  }

  function FillMove(c: Config, t: Trade, a: FillStep): Trade
    requires FillGuard(c, t, a)
  {
    match a
    case FetchEntry => t.(recPc := SawEntry(t.entryOrder.value))
    case EntryWorking => t.(recPc := Idle)
    case WriteFilled => t.(recPc := EntryWritten(t.recPc.order))
    case MarkOpen =>
      t.(pos := Some(FilledPos(t.pos.value, t.recPc.order)), recPc := Capturing, trail := t.trail + [MarkedOpen])
    case Capture => t.(recPc := Idle, holds := t.holds + [Captured])
    case WritePartial => t.(recPc := Idle)
    case WriteRejected => t.(recPc := Rejecting)
    case RemoveRejected => t.(pos := None, recPc := Releasing, trail := t.trail + [Removed])
    case ReleaseHold => t.(recPc := Idle, holds := t.holds + [Released])
  }

  function CloseMove(c: Config, t: Trade, a: CloseStep): Trade
    requires CloseGuard(c, t, a)
  {
    match a
    case FetchExit => t.(recPc := SawExit(t.exitOrders[t.pos.value.exitOrderId.value.nth]))
    case WriteClosed(_) =>
      t.(recPc := Closing, raced := t.raced || t.unlogged != map[], lateClose := t.unlogged != map[],
         told := Fill, strayed := t.strayed || FillStrays(t))
    case RemoveClosed => t.(pos := None, recPc := Forgetting, trail := t.trail + [Removed])
    case ForgetClosed => t.(recPc := Idle, forgets := t.forgets + 1)
    case WriteExitPartial =>
      t.(recPc := Idle, raced := t.raced || t.unlogged != map[], told := Fill, strayed := t.strayed || FillStrays(t))
    case WriteExitFailed =>
      t.(recPc := Reopening, raced := t.raced || t.unlogged != map[], late := false, told := Nothing)
    case ReopenFailed => t.(pos := Some(ReopenedPos(t.pos.value)), recPc := Idle, trail := t.trail + [Reopened])
    case ExitWorking => t.(recPc := Idle)
  }

  function BrokerMove(t: Trade, a: BrokerStep): Trade
    requires BrokerGuard(t, a)
  {
    match a
    case EntryMoves(o) => t.(entryOrder := Some(o))
    case ExitMoves(n, o) => t.(exitOrders := t.exitOrders[n := o])
  }

  /** The trade after the action. */
  function Next(c: Config, t: Trade, a: Action): Trade
    requires Guard(c, t, a)
  {
    match a
    case ByExecute(e) => EntryMove(c, t, e)
    case ByExit(x) => ExitMove(c, t, x)
    case ByFill(f) => FillMove(c, t, f)
    case ByClose(x) => CloseMove(c, t, x)
    case ByBroker(b) => BrokerMove(t, b)
  }

  // ---------------------------------------------------------------- the whole system

  datatype State = State(config: Config, seen: set<string>, attempts: map<string, nat>, trades: seq<Trade>,
                         log: seq<Task>)

  /** `Begin` is the key region of `execute`; a trade's id is its place in the order of claims. */
  datatype Event = Begin(entry: Entry, price: real, date: string) | On(id: nat, action: Action)

  function Init(c: Config): State {
    State(c, {}, map[], [], [])
  }

  function AttemptsOf(attempts: map<string, nat>, base: string): nat {
    if base in attempts then attempts[base] else 0
  }

  /** The key `execute` would claim for the base. */
  function NextKey(s: State, base: string): string {
    ComposeKey(base, AttemptsOf(s.attempts, base))
  }

  function BaseOf(c: Config, entry: Entry, date: string): string {
    BaseKey(c.mode, entry.symbol, entry.reason, date)
  }

  /** The key's base at its next attempt. */
  function Bumped(attempts: map<string, nat>, key: string): map<string, nat> {
    var (base, attempt) := SplitAttempt(key);
    attempts[base := attempt + 1]
  }

  /** `forget`: drop the key and move its base to the next attempt. */
  function Forget(s: State, key: string): State {
    s.(seen := s.seen - {key}, attempts := Bumped(s.attempts, key))
  }

  /** The two steps that call `forget`. */
  predicate Forgets(a: Action) {
    a == ByExit(PaperForget) || a == ByClose(ForgetClosed)
  }

  predicate Enabled(s: State, ev: Event) {
    match ev
    case Begin(entry, price, date) => IsDate(date) && NextKey(s, BaseOf(s.config, entry, date)) !in s.seen
    case On(id, a) => id < |s.trades| && Guard(s.config, s.trades[id], a)
  }

  function Begun(s: State, entry: Entry, price: real, date: string): State {
    var base := BaseOf(s.config, entry, date);
    s.(seen := s.seen + {NextKey(s, base)},
       trades := s.trades + [Trade(|s.trades|, base, AttemptsOf(s.attempts, base), entry, price)])
  }

  function Acted(s: State, id: nat, a: Action): State
    requires Enabled(s, On(id, a))
  {
    var t := s.trades[id];
    var s1 := s.(trades := s.trades[id := Next(s.config, t, a)],
                 log := match Write(s.config, t, a) case None => s.log case Some(task) => s.log + [task]);
    if Forgets(a) then Forget(s1, t.Key()) else s1
  }

  function Step(s: State, ev: Event): State
    requires Enabled(s, ev)
  {
    match ev
    case Begin(entry, price, date) => Begun(s, entry, price, date)
    case On(id, a) => Acted(s, id, a)
  }

  /** The state after these events, one after the other; None if one of them could not happen. */
  function Run(s: State, evs: seq<Event>): Option<State>
    decreases |evs|
  {
    if evs == [] then Some(s)
    else
      match Run(s, evs[..|evs| - 1])
      case Some(m) => if Enabled(m, evs[|evs| - 1]) then Some(Step(m, evs[|evs| - 1])) else None
      case None => None
  }

  lemma RunSnoc(s: State, evs: seq<Event>, ev: Event)
    ensures Run(s, evs + [ev]) ==
            match Run(s, evs) case Some(m) => (if Enabled(m, ev) then Some(Step(m, ev)) else None) case None => None
  {
    assert (evs + [ev])[..|evs|] == evs;
  }
}
