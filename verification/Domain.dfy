/** The values the trading engine passes around: enumerations, watchlist entries, positions, rows
    of the `trades` table and the column changes a writer task carries.
    Decimals are exact reals; timestamps are integers. */
module Domain {

  datatype Option<+T> = None | Some(value: T) {
    function GetOr(default: T): T {
      match this
      case Some(v) => v
      case None => default
    }
  }

  datatype Result<+T> = Ok(value: T) | Err

  datatype Mode = Paper | Live

  datatype Side = Buy | Sell

  datatype PositionType = Long | Short {
    function EntrySide(): Side {
      if Long? then Buy else Sell
    }
    function ExitSide(): Side {
      if Long? then Sell else Buy
    }
  }

  datatype ExitReason = TargetPrice | MarketClose

  datatype Status =
    | NEW | CASH_HELD | SUBMITTED | PARTIALLY_FILLED | FILLED
    | REJECTED | INSUFFICIENT_FUNDS | FAILED
    | EXIT_SUBMITTED | EXIT_PARTIALLY_FILLED | CLOSED | EXIT_FAILED

  /** An armed watchlist entry. */
  datatype Entry = Entry(symbol: string, buyPrice: real, sellPrice: real, kind: PositionType, reason: Option<string>)

  /** A broker order is named after the trade it belongs to; the n-th accepted exit order of a
      trade is `ExitOrder(trade, n)`. */
  datatype OrderId = EntryOrder(trade: nat) | ExitOrder(trade: nat, nth: nat)

  datatype PositionState = PENDING_ENTRY | OPEN | EXITING

  /** The fields of one position, as a value. */
  datatype Pos = Pos(
    tradeId: nat, symbol: string, kind: PositionType, quantity: real, entryPrice: real,
    sellPrice: Option<real>, isPaper: bool, key: string, brokerOrderId: Option<OrderId>,
    exitOrderId: Option<OrderId>, holdId: Option<nat>, state: PositionState)
  {
    predicate Triggered(price: real) {
      sellPrice.Some? && Reached(kind, sellPrice.value, price)
    }
  }

  /** Take-profit direction: a LONG closes at or above its target, a SHORT at or below. */
  predicate Reached(kind: PositionType, target: real, price: real) {
    if kind.Long? then price >= target else price <= target
  }

  /** One row of the `trades` table. */
  datatype Row = Row(
    isPaper: bool, symbol: string, side: Side, kind: PositionType, targetBuy: real,
    targetSell: Option<real>, triggerPrice: real, quantity: real, notional: real, key: string,
    status: Status, brokerOrderId: Option<OrderId> := None, holdId: Option<nat> := None,
    filledQty: Option<real> := None, filledPrice: Option<real> := None,
    exitOrderId: Option<OrderId> := None, exitReason: Option<ExitReason> := None,
    exitQty: Option<real> := None, exitPrice: Option<real> := None,
    errorCode: Option<string> := None, closedAt: Option<int> := None)

  datatype Change<+T> = Keep | Set(to: T) {
    function Over(was: T): T {
      match this
      case Keep => was
      case Set(v) => v
    }
  }

  /** The keyword arguments of one `update` call: the columns it names, with their new values. */
  datatype Fields = Fields(
    status: Change<Status> := Keep, brokerOrderId: Change<Option<OrderId>> := Keep,
    holdId: Change<Option<nat>> := Keep, filledQty: Change<Option<real>> := Keep,
    filledPrice: Change<Option<real>> := Keep, exitOrderId: Change<Option<OrderId>> := Keep,
    exitReason: Change<Option<ExitReason>> := Keep, exitQty: Change<Option<real>> := Keep,
    exitPrice: Change<Option<real>> := Keep, errorCode: Change<Option<string>> := Keep,
    closedAt: Change<Option<int>> := Keep)
  {
    /** `UPDATE ... SET`: named columns are overwritten, the others keep their value. */
    function Apply(r: Row): Row {
      r.(status := status.Over(r.status), brokerOrderId := brokerOrderId.Over(r.brokerOrderId),
         holdId := holdId.Over(r.holdId), filledQty := filledQty.Over(r.filledQty),
         filledPrice := filledPrice.Over(r.filledPrice), exitOrderId := exitOrderId.Over(r.exitOrderId),
         exitReason := exitReason.Over(r.exitReason), exitQty := exitQty.Over(r.exitQty),
         exitPrice := exitPrice.Over(r.exitPrice), errorCode := errorCode.Over(r.errorCode),
         closedAt := closedAt.Over(r.closedAt))
    }
  }

  /** A write handed to the database writer. */
  datatype Task = Insert(id: nat, row: Row) | Update(id: nat, fields: Fields)
}
