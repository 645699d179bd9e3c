/** The execution service: entries, exits and liquidation over a mutable book, key table and write
    queue. Its ghost field `m` is the state of the protocol its calls have led to. */
module ExecutionServices {
  import opened Domain
  import opened IdempotencyKeys
  import opened Sizing
  import opened Lifecycle
  import opened LifecycleInvariants
  import opened LifecycleSafety
  import opened LifecycleTheorems
  import opened Scripts
  import opened Calls
  import opened Clients
  import opened AsyncDbWriters
  import opened TradesTable
  import opened Outcomes
  import R = Rehydration
  import B = PositionBooks

  /** The services' memory with one more trade's orders and hold calls. */
  function Including(o: Asked, t: Trade): Asked {
    var byKey := if t.entryOrder.Some? then o.clientIds[EntryOrder(t.id) := t.Key()] else o.clientIds;
    Asked(if t.entryOrder.Some? then o.entries[t.id := t.entryOrder.value] else o.entries, o.exits, byKey,
          if t.holds != [] then o.holds[t.id := t.holds] else o.holds)
  }

  function Adding(book: map<nat, Pos>, t: Trade): map<nat, Pos> {
    if t.pos.Some? then book[t.id := t.pos.value] else book
  }

  class ExecutionService {
    const config: Config
    const broker: AlpacaBroker
    const cash: CashClient
    const writer: AsyncDbWriter
    const book: B.PositionBook
    var seen: set<string>
    var attempts: map<string, nat>
    var lastPrice: map<string, real>
    var nextId: nat
    ghost var m: State

    ghost function Requests(): Asked
      reads broker, cash
    {
      Asked(broker.entries, broker.exits, broker.clientIds, cash.holds)
    }

    /** The fields are those of a reachable state of the protocol: its key table, its write log, its
        book, and what it asked of broker and cash service. Calls that are not disturbed never race. */
    ghost predicate Valid()
      reads this, broker, cash, writer, writer.db, book, book.flat.Values
    {
      && m.config == config && Reachable(m) && NoneRaced(m.trades) && seen == m.seen && attempts == m.attempts
          && nextId == |m.trades|
      && writer.Valid() && writer.submitted == m.log
      && book.Valid() && book.Values() == R.BookOf(m.trades)
      && Shows(Requests(), m.trades)
    }

    constructor (config: Config, broker: AlpacaBroker, cash: CashClient, writer: AsyncDbWriter, book: B.PositionBook)
      requires writer.Valid() && writer.submitted == [] && book.Valid() && book.flat == map[]
      requires broker.entries == map[] && broker.exits == map[] && broker.clientIds == map[] && cash.holds == map[]
      ensures Valid() && m == Init(config) && lastPrice == map[]
      ensures this.broker == broker && this.cash == cash && this.writer == writer && this.book == book
    {
      this.config, this.broker, this.cash, this.writer, this.book := config, broker, cash, writer, book;
      seen, attempts, lastPrice, nextId, m := {}, map[], map[], 0, Init(config);
      assert Run(Init(config), []) == Some(Init(config));
    }

    /** `__init__`: a live service needs a cash client; a paper service never calls it. */
    static method Create(config: Config, broker: AlpacaBroker, cash: CashClient?, writer: AsyncDbWriter,
                         book: B.PositionBook)
      returns (r: Result<ExecutionService>)
      requires writer.Valid() && writer.submitted == [] && book.Valid() && book.flat == map[]
      requires broker.entries == map[] && broker.exits == map[] && broker.clientIds == map[]
      requires cash != null ==> cash.holds == map[]
      ensures r.Err? <==> config.mode.Live? && cash == null
      ensures r.Ok? ==>
                && fresh(r.value) && r.value.Valid() && r.value.m == Init(config)
                && r.value.broker == broker && r.value.writer == writer && r.value.book == book
                && (cash != null ==> r.value.cash == cash)
    {
      if config.mode.Live? && cash == null {
        return Err;
      }
      var client := cash;
      if client == null {
        client := new CashClient();
      }
      var service := new ExecutionService(config, broker, client, writer, book);
      return Ok(service);
    }

    /** `seed`. */
    method Seed(keys: seq<string>)
      modifies this`seen, this`attempts
      ensures R.KeyTable(seen, attempts) == R.Seed(R.KeyTable(old(seen), old(attempts)), keys)
    {
      for i := 0 to |keys|
        invariant R.KeyTable(seen, attempts) == R.Seed(R.KeyTable(old(seen), old(attempts)), keys[..i])
      {
        assert keys[..i + 1][..i] == keys[..i];
        seen := seen + {keys[i]};
        var (base, attempt) := SplitAttempt(keys[i]);
        attempts := attempts[base := attempt];
      }
      assert keys[..|keys|] == keys;
    }

    /** `forget`: the key is free again, at its base's next attempt. */
    method Forget(key: string)
      modifies this`seen, this`attempts
      ensures seen == old(seen) - {key}
      ensures attempts == Bumped(old(attempts), key)
    {
      seen := seen - {key};
      var (base, attempt) := SplitAttempt(key);
      attempts := attempts[base := attempt + 1];
    }

    /** `record_price`. */
    method RecordPrice(symbol: string, price: real)
      requires Valid()
      modifies this`lastPrice
      ensures Valid() && lastPrice == old(lastPrice)[symbol := price]
    {
      hide Reachable, NoneRaced, Shows, R.BookOf, B.Filed, B.Position.Value, B.PositionBook.Values, AsyncDbWriter.Valid;
      lastPrice := lastPrice[symbol := price];
    }

    /** `_reserve_cash`: check the balance and place a hold; every way out is logged. */
    method ReserveCash(id: nat, notional: real, answer: CashAnswer) returns (ok: bool)
      requires writer.Valid()
      modifies writer, cash
      ensures writer.Valid() && ok == Reserved(answer, notional)
      ensures writer.submitted == old(writer.submitted) +
                [Update(id, if ok then Fields(status := Set(CASH_HELD), holdId := Set(Some(id)))
                            else if answer.Balance? && answer.amount < notional then
                                Fields(status := Set(INSUFFICIENT_FUNDS))
                            else Fields(status := Set(FAILED), errorCode := Set(Some("CASH_ERROR"))))]
      ensures cash.holds == if ok then
              old(cash.holds)[id := CallsOf(old(cash.holds), id) + [Placed(notional, answer.amount)]]
                            else old(cash.holds)
      ensures Grew(old(writer.Mark()), writer.Mark())
    {
      if answer.Balance? && answer.amount < notional {
        writer.Enqueue(Update(id, Fields(status := Set(INSUFFICIENT_FUNDS))));
        return false;
      }
      if answer.Unavailable? || !answer.holdPlaced {
        writer.Enqueue(Update(id, Fields(status := Set(FAILED), errorCode := Set(Some("CASH_ERROR")))));
        return false;
      }
      cash.Call(id, Placed(notional, answer.amount));
      writer.Enqueue(Update(id, Fields(status := Set(CASH_HELD), holdId := Set(Some(id)))));
      return true;
    }

    /** The paper branch of `execute`: filled at once. */
    method FillOnPaper(id: nat, entry: Entry, price: real, key: string, qty: real, ghost t: Trade)
      requires writer.Valid() && book.Valid() && id !in book.flat && config.mode.Paper?
      requires t.id == id && t.entry == entry && t.price == price && key == t.Key() && qty == Qty(config, t)
      modifies writer, book
      ensures writer.Valid() && book.Valid()
      ensures forall i :: i in book.flat ==>
              fresh(book.flat[i]) || (i in old(book.flat) && book.flat[i] == old(book.flat)[i])
      ensures writer.submitted == old(writer.submitted) +
                [Update(id, Fields(status := Set(FILLED), filledQty := Set(Some(qty)),
                                   filledPrice := Set(Some(price))))]
      ensures book.Values() == old(book.Values())[id := NewPos(config, t)]
      ensures Grew(old(writer.Mark()), writer.Mark())
    {
      hide B.Filed, B.Position.Value, B.PositionBook.Values, AsyncDbWriter.Valid, ComposeKey, Qty, Notional;
      var p := new B.Position(Pos(id, entry.symbol, entry.kind, qty, price, Some(entry.sellPrice), true, key, None,
                                  None, None, OPEN));
      writer.Enqueue(Update(id,
                            Fields(status := Set(FILLED), filledQty := Set(Some(qty)),
                                   filledPrice := Set(Some(price)))));
      book.Open(p);
    }

    /** The live branch of `execute`: the entry order, or the failure and the hold given back. */
    method SubmitEntry(id: nat, entry: Entry, price: real, key: string, qty: real, accepted: bool, ghost t: Trade)
      requires writer.Valid() && book.Valid() && id !in book.flat && config.mode.Live?
      requires t.id == id && t.entry == entry && t.price == price && key == t.Key() && qty == Qty(config, t)
      modifies writer, book, broker, cash
      ensures writer.Valid() && book.Valid()
      ensures forall i :: i in book.flat ==>
              fresh(book.flat[i]) || (i in old(book.flat) && book.flat[i] == old(book.flat)[i])
      ensures writer.submitted == old(writer.submitted) +
                [Update(id, if accepted then
                        Fields(status := Set(SUBMITTED), brokerOrderId := Set(Some(EntryOrder(id))))
                            else Fields(status := Set(FAILED), errorCode := Set(Some("BROKER_ERROR"))))]
      ensures book.Values() == if accepted then old(book.Values())[id := NewPos(config, t)] else old(book.Values())
      ensures Requests() == var was := old(Requests());
                if accepted then
                  was.(entries := was.entries[id := Order(entry.kind.EntrySide(), qty)],
                       clientIds := was.clientIds[EntryOrder(id) := key])
                else was.(holds := was.holds[id := CallsOf(was.holds, id) + [Released]])
      ensures Grew(old(writer.Mark()), writer.Mark())
    {
      hide B.Filed, B.Position.Value, B.PositionBook.Values, AsyncDbWriter.Valid, ComposeKey, Qty, Notional;
      var order := broker.SubmitEntry(id, qty, entry.kind.EntrySide(), key, accepted);
      if order.None? {
        writer.Enqueue(Update(id, Fields(status := Set(FAILED), errorCode := Set(Some("BROKER_ERROR")))));
        cash.Call(id, Released);
        return;
      }
      writer.Enqueue(Update(id, Fields(status := Set(SUBMITTED), brokerOrderId := Set(order))));
      var p := new B.Position(Pos(id, entry.symbol, entry.kind, qty, price, Some(entry.sellPrice), false, key, order,
                                  None,
                                  Some(id), PENDING_ENTRY));
      book.Open(p);
    }

    /** The live part of `execute`: cash first, then the order. */
    method EnterLive(id: nat, entry: Entry, price: real, key: string, qty: real, notional: real, answer: CashAnswer,
                     accepted: bool, ghost t: Trade)
      requires writer.Valid() && book.Valid() && id !in book.flat && id !in cash.holds && config.mode.Live?
      requires t == Trade(id, t.base, t.attempt, entry, price) && key == t.Key()
      requires ComputeSizing(price, config.rule).Ok? && qty == Qty(config, t) && notional == Notional(config, t)
      modifies writer, book, broker, cash
      ensures writer.Valid() && writer.submitted == old(writer.submitted) + EntryTasks(config, t, answer, accepted)[1..]
      ensures book.Valid() && book.Values() == Adding(old(book.Values()), EntryDone(config, t, answer, accepted))
      ensures forall i :: i in book.flat ==>
              fresh(book.flat[i]) || (i in old(book.flat) && book.flat[i] == old(book.flat)[i])
      ensures Requests() == Including(old(Requests()), EntryDone(config, t, answer, accepted))
      ensures Grew(old(writer.Mark()), writer.Mark())
    {
      hide B.Filed, B.Position.Value, B.PositionBook.Values, AsyncDbWriter.Valid, ComputeSizing, ComposeKey, Qty,
           Notional, EntryDone, EntryTasks, NewRow;
      EntryShape(config, t, answer, accepted);
      var ok := ReserveCash(id, notional, answer);
      assert book.Values() == old(book.Values());
      if !ok {
        return;
      }
      HoldSteps(old(cash.holds), id, Placed(notional, answer.amount), Released);
      SubmitEntry(id, entry, price, key, qty, accepted, t);
    }

    /** The rest of `execute` once the key is claimed and the order sized. */
    method Enter(id: nat, entry: Entry, price: real, key: string, qty: real, notional: real, answer: CashAnswer,
                 accepted: bool, ghost t: Trade)
      requires writer.Valid() && book.Valid() && id !in book.flat && id !in cash.holds
      requires t == Trade(id, t.base, t.attempt, entry, price) && key == t.Key()
      requires ComputeSizing(price, config.rule).Ok? && qty == Qty(config, t) && notional == Notional(config, t)
      modifies writer, book, broker, cash
      ensures writer.Valid() && writer.submitted == old(writer.submitted) + EntryTasks(config, t, answer, accepted)
      ensures book.Valid() && book.Values() == Adding(old(book.Values()), EntryDone(config, t, answer, accepted))
      ensures forall i :: i in book.flat ==>
              fresh(book.flat[i]) || (i in old(book.flat) && book.flat[i] == old(book.flat)[i])
      ensures Requests() == Including(old(Requests()), EntryDone(config, t, answer, accepted))
      ensures Grew(old(writer.Mark()), writer.Mark())
    {
      hide B.Filed, B.Position.Value, B.PositionBook.Values, AsyncDbWriter.Valid, ComputeSizing, ComposeKey, Qty,
           Notional, EntryDone, EntryTasks;
      EntryShape(config, t, answer, accepted);
      writer.Enqueue(Insert(id,
                            Row(config.mode.Paper?, entry.symbol, entry.kind.EntrySide(), entry.kind, entry.buyPrice,
                                    Some(entry.sellPrice), price, qty, notional, key, NEW)));
      if config.mode.Live? {
        EnterLive(id, entry, price, key, qty, notional, answer, accepted, t);
      } else {
        FillOnPaper(id, entry, price, key, qty, t);
      }
    }

    /** `execute`: nothing if the signal's key is taken; otherwise the key is claimed and the whole entry
        happens, up to a sizing error that leaves the key claimed. */
    method Execute(entry: Entry, price: real, date: string, answer: CashAnswer, accepted: bool)
        returns (r: Result<Option<nat>>)
      requires Valid() && IsDate(date)
      modifies this, writer, book, broker, cash
      ensures Valid() && lastPrice == old(lastPrice)
      ensures var base := BaseKey(config.mode, entry.symbol, entry.reason, date);
              if ComposeKey(base, AttemptsOf(old(attempts), base)) in old(seen) then m == old(m) && r == Ok(None)
              else
                && m == Entered(old(m), entry, price, date, answer, accepted)
                && EntryMade(old(m), m, entry, price, date, answer, accepted)
                && r == if ComputeSizing(price, config.rule).Err? then Err else Ok(Some(|old(m).trades|))
      ensures forall i :: i in book.flat ==>
              fresh(book.flat[i]) || (i in old(book.flat) && book.flat[i] == old(book.flat)[i])
      ensures Grew(old(writer.Mark()), writer.Mark())
    {
      hide B.Filed, B.Position.Value, B.PositionBook.Values, AsyncDbWriter.Valid, Reachable, NoneRaced, Shows,
           BaseKey, ComposeKey, ComputeSizing, Qty, Notional, EntryDone, EntryTasks, EntryMade;
      var base := BaseOf(config, entry, date);
      var key := ComposeKey(base, AttemptsOf(attempts, base));
      if key in seen {
        return Ok(None);
      }
      seen := seen + {key};
      var id := nextId;
      nextId := nextId + 1;
      ghost var t := Trade(id, base, AttemptsOf(attempts, base), entry, price);
      EntryRuns(m, entry, price, date, answer, accepted);
      EntryOutcome(m, entry, price, date, answer, accepted);
      EntryShown(Requests(), m.trades, config, t, answer, accepted);
      EntryListed(book.Values(), m.trades, config, t, answer, accepted);
      m := Entered(m, entry, price, date, answer, accepted);
      var sized := ComputeSizing(price, config.rule);
      if sized.Err? {
        UnsizedEntry(config, t, answer, accepted);
        return Err;
      }
      SizedEntry(config, t);
      Enter(id, entry, price, key, sized.value.0 as real, sized.value.1, answer, accepted, t);
      return Ok(Some(id));
    }

    /** The paper branch of `_submit_exit`: closed at once. */
    method CloseOnPaper(p: B.Position, price: real, reason: ExitReason, now: int)
      requires writer.Valid() && book.Has(p)
      modifies this`seen, this`attempts, writer, book
      ensures writer.Valid() && writer.submitted == old(writer.submitted) +
                [Update(p.tradeId, Fields(status := Set(CLOSED), exitReason := Set(Some(reason)),
                                          exitQty := Set(Some(p.quantity)),
                                          exitPrice := Set(Some(price)), closedAt := Set(Some(now))))]
      ensures book.Valid() && book.flat == old(book.flat) - {p.tradeId}
      ensures book.Values() == old(book.Values()) - {p.tradeId}
      ensures seen == old(seen) - {p.key}
      ensures attempts == Bumped(old(attempts), p.key)
      ensures Grew(old(writer.Mark()), writer.Mark())
    {
      hide B.Filed, B.Position.Value, B.PositionBook.Values, AsyncDbWriter.Valid, SplitAttempt;
      writer.Enqueue(Update(p.tradeId,
                            Fields(status := Set(CLOSED), exitReason := Set(Some(reason)),
                                   exitQty := Set(Some(p.quantity)),
                                              exitPrice := Set(Some(price)), closedAt := Set(Some(now)))));
      book.Remove(p);
      Forget(p.key);
    }

    /** The live branch of `_submit_exit`: the exit order, or the failure and the position given back. */
    method SendExit(p: B.Position, reason: ExitReason, accepted: bool)
      requires writer.Valid() && book.Has(p)
      modifies writer, broker, p
      ensures var n := |CallsOf(old(broker.exits), p.tradeId)|;
              && writer.Valid() && book.Has(p)
              && writer.submitted == old(writer.submitted) +
                   [Update(p.tradeId, if accepted then
                                        Fields(status := Set(EXIT_SUBMITTED),
                                               exitOrderId := Set(Some(ExitOrder(p.tradeId, n))),
                                               exitReason := Set(Some(reason)))
                                      else Fields(status := Set(EXIT_FAILED),
                                                  errorCode := Set(Some("EXIT_BROKER_ERROR"))))]
              && book.Values() == old(book.Values())[p.tradeId :=
                   if accepted then old(p.Value()).(exitOrderId := Some(ExitOrder(p.tradeId, n)))
                       else ReopenedPos(old(p.Value()))]
              && Requests() == if accepted then
                  WithExit(old(Requests()), p.tradeId, Order(p.kind.ExitSide(), old(p.quantity)), p.key)
                               else old(Requests())
      ensures Grew(old(writer.Mark()), writer.Mark())
    {
      hide B.Filed, B.Position.Value, B.PositionBook.Values, AsyncDbWriter.Valid, ExitKey;
      var order := broker.SubmitExit(p.tradeId, p.quantity, p.kind.ExitSide(), ExitKey(p.key), accepted);
      if order.None? {
        writer.Enqueue(Update(p.tradeId,
                              Fields(status := Set(EXIT_FAILED), errorCode := Set(Some("EXIT_BROKER_ERROR")))));
        book.ReleaseExit(p);
        return;
      }
      book.StoreExit(p, order.value);
      writer.Enqueue(Update(p.tradeId,
                            Fields(status := Set(EXIT_SUBMITTED), exitOrderId := Set(order),
                                   exitReason := Set(Some(reason)))));
    }

    /** `_submit_exit`, for a position just claimed. */
    method SubmitExit(p: B.Position, price: real, reason: ExitReason, accepted: bool, now: int)
      requires Valid() && p.tradeId in book.flat && book.flat[p.tradeId] == p && p.tradeId < |m.trades|
      requires ReadyToExit(m.trades[p.tradeId])
      requires m.trades[p.tradeId].exitPc == ExitClaimed(price, reason)
      modifies this, writer, book, broker, p
      ensures Valid() && lastPrice == old(lastPrice)
      ensures var t := old(m).trades[p.tradeId];
              m == After(old(m), p.tradeId, ExitDone(config, t, accepted), [ExitTask(config, t, accepted, now)],
                         config.mode.Paper?)
      ensures book.flat == if config.mode.Paper? then old(book.flat) - {p.tradeId} else old(book.flat)
      ensures Grew(old(writer.Mark()), writer.Mark())
    {
      hide B.Filed, B.PositionBook.Values, AsyncDbWriter.Valid, Reachable, NoneRaced, Shows, Bumped, ComposeKey,
           ExitKey, R.BookOf, WithExit, Grew, ExitDone, ExitTask, ReopenedPos;
      var id := p.tradeId;
      ghost var t := m.trades[id];
      ExitShape(config, t, accepted, now, price, reason);
      PositionIs(m, id, book.Values());
      book.ValueOf(p);
      ExitRuns(m, id, accepted, now);
      ghost var done := ExitDone(config, t, accepted);
      ExitShown(Requests(), m.trades, id, config, accepted);
      BookUpdated(m.trades, id, done);
      m := After(m, id, done, [ExitTask(config, t, accepted, now)], config.mode.Paper?);
      if p.isPaper {
        CloseOnPaper(p, price, reason, now);
      } else {
        SendExit(p, reason, accepted);
      }
    }

    lemma Parts()
      requires Valid()
      ensures m.config == config && Reachable(m) && seen == m.seen && attempts == m.attempts
      ensures book.Valid() && book.Values() == R.BookOf(m.trades)
    {
    }

    /** Each position of the book is that of its trade. */
    lemma PositionOf(p: B.Position)
      requires Valid() && p.tradeId in book.flat && book.flat[p.tradeId] == p
      ensures p.tradeId < |m.trades| && m.trades[p.tradeId].pos == Some(p.Value()) && m.config == config
      ensures var v := p.Value();
              && v.symbol == p.symbol && v.entryPrice == p.entryPrice && v.state == p.state
              && v.brokerOrderId == p.brokerOrderId && v.exitOrderId == p.exitOrderId && v.key == p.key
                  && v.holdId == p.holdId
    {
      hide B.PositionBook.Values, B.Filed, Reachable, NoneRaced, Shows, AsyncDbWriter.Valid;
      book.ValueOf(p);
    }

    /** The loops of `check_exits` and `liquidate_all`: an exit for each claimed position, in turn. */
    method SubmitExits(claimed: seq<B.Position>, ghost ids: set<nat>, prices: map<string, real>, why: ExitReason,
                       accepted: set<nat>, now: int, ghost s: State)
      requires Valid() && Reachable(s) && s.config == config && AllQuiet(s.trades)
      requires AllCanClaim(s.trades, ids, prices, why)
      requires m == s.(trades := ClaimAll(s.trades, ids, prices, why)) && B.Enumerates(claimed, book.flat, ids)
      modifies this, writer, book, broker, book.flat.Values
      ensures Valid() && lastPrice == old(lastPrice)
      ensures m.trades == Exiting(config, s.trades, ids, ids, prices, why, accepted)
      ensures m.log == s.log + ExitTasks(config, s.trades, IdsOf(claimed), prices, why, accepted, now)
      ensures forall i :: i in book.flat ==> i in old(book.flat) && book.flat[i] == old(book.flat)[i]
      ensures Grew(old(writer.Mark()), writer.Mark())
    {
      hide B.Filed, B.PositionBook.Values, B.Position.Value, AsyncDbWriter.Valid, Reachable, NoneRaced, Shows,
           R.BookOf, Exiting, ExitTasks, ClaimAll, ReadyToExit, ExitDone, ExitTask, AllCanClaim, AllQuiet, Underway,
           After, Valid;
      ghost var done: set<nat> := {};
      ghost var order: seq<nat> := [];
      NoneExiting(config, s, ids, prices, why, accepted, now);
      for k := 0 to |claimed|
        invariant Valid() && lastPrice == old(lastPrice) && Grew(old(writer.Mark()), writer.Mark())
        invariant done <= ids && order == IdsOf(claimed[..k])
        invariant forall i :: i in book.flat ==> i in old(book.flat) && book.flat[i] == old(book.flat)[i]
        invariant forall j :: 0 <= j < k ==> claimed[j].tradeId in done
        invariant forall j :: k <= j < |claimed| ==>
                    var i := claimed[j].tradeId; i !in done && i in book.flat && book.flat[i] == claimed[j]
        invariant Underway(m, s, ids, done, order, prices, why, accepted, now)
      {
        var p := claimed[k];
        var id := p.tradeId;
        OneMoreExit(m, s, ids, done, order, id, prices, why, accepted, now);
        PositionOf(p);
        SubmitExit(p, if p.symbol in prices then prices[p.symbol] else p.entryPrice, why, id in accepted, now);
        done, order := done + {id}, order + [id];
      }
      assert claimed[..|claimed|] == claimed;
      AllEnumerated(claimed, ids, done);
      AllUnderway(m, s, ids, order, prices, why, accepted, now);
    }

    /** `check_exits`: every open position of the symbol whose target the tick reaches is claimed and its
        exit sent; no other trade is touched. */
    method CheckExits(symbol: string, price: real, accepted: set<nat>, now: int) returns (ghost order: seq<nat>)
      requires Valid() && AllQuiet(m.trades)
      modifies this, writer, book, broker, book.flat.Values
      ensures Valid() && AllQuiet(m.trades) && lastPrice == old(lastPrice)
      ensures var ts, prices := old(m).trades, map[symbol := price];
              var ids := B.TriggeredIds(R.BookOf(ts), symbol, price);
              && AllCanClaim(ts, ids, prices, TargetPrice)
              && m.trades == Exiting(config, ts, ids, ids, prices, TargetPrice, accepted)
              && ListsIds(order, ids)
              && m.log == old(m).log + ExitTasks(config, ts, order, prices, TargetPrice, accepted, now)
      ensures TargetsTaken(old(m), m, symbol, price, accepted, now)
      ensures forall i :: i in book.flat ==> i in old(book.flat) && book.flat[i] == old(book.flat)[i]
      ensures Grew(old(writer.Mark()), writer.Mark())
    {
      hide B.Filed, B.PositionBook.Values, B.Position.Value, AsyncDbWriter.Valid, Reachable, NoneRaced, Shows,
           R.BookOf, Exiting, ExitTasks, ClaimAll, AllCanClaim, B.TriggeredIds, B.Flipped, B.Enumerates, ListsIds,
           TargetsTaken, B.AtTargetClaimed;
      ghost var s := m;
      ghost var ids := B.TriggeredIds(book.Values(), symbol, price);
      var claimed := book.ClaimExits(symbol, price);
      TriggeredCanBeClaimed(s, symbol, price);
      ClaimsRun(s, ids, map[symbol := price], TargetPrice);
      ClaimsListed(s.trades, book, ids, map[symbol := price], TargetPrice);
      ClaimsShown(Requests(), s.trades, ids, map[symbol := price], TargetPrice);
      m := m.(trades := ClaimAll(m.trades, ids, map[symbol := price], TargetPrice));
      order := IdsOf(claimed);
      IdsEnumerated(claimed, book.flat, ids);
      SubmitExits(claimed, ids, map[symbol := price], TargetPrice, accepted, now, s);
      ExitsLeaveQuiet(config, s.trades, ids, map[symbol := price], TargetPrice, accepted);
      TargetOutcome(s, m, order, symbol, price, accepted, now);
    }

    /** `liquidate_all`: every open position is claimed and its exit sent, at the last price seen for its
        symbol or else at its entry price. On paper that leaves nothing in the book. */
    method LiquidateAll(accepted: set<nat>, now: int) returns (n: nat, ghost order: seq<nat>)
      requires Valid() && AllQuiet(m.trades)
      modifies this, writer, book, broker, book.flat.Values
      ensures Valid() && AllQuiet(m.trades) && lastPrice == old(lastPrice)
      ensures var ts, ids := old(m).trades, B.Opens(R.BookOf(old(m).trades));
              && n == |ids| && AllCanClaim(ts, ids, lastPrice, MarketClose)
              && m.trades == Exiting(config, ts, ids, ids, lastPrice, MarketClose, accepted)
              && ListsIds(order, ids)
              && m.log == old(m).log + ExitTasks(config, ts, order, lastPrice, MarketClose, accepted, now)
      ensures AllLiquidated(old(m), m, lastPrice, accepted, now)
      ensures config.mode.Paper? ==> R.BookOf(m.trades) == map[] && book.flat == map[]
      ensures Grew(old(writer.Mark()), writer.Mark())
    {
      hide B.Filed, B.PositionBook.Values, B.Position.Value, AsyncDbWriter.Valid, Reachable, NoneRaced, Shows,
           R.BookOf, Exiting, ExitTasks, ClaimAll, AllCanClaim, B.Opens, B.Flipped, B.Enumerates, ListsIds,
           AllLiquidated;
      ghost var s := m;
      ghost var ids := B.Opens(book.Values());
      var claimed := book.ClaimAllOpen();
      OpensCanBeClaimed(s, lastPrice, MarketClose);
      ClaimsRun(s, ids, lastPrice, MarketClose);
      ClaimsListed(s.trades, book, ids, lastPrice, MarketClose);
      ClaimsShown(Requests(), s.trades, ids, lastPrice, MarketClose);
      m := m.(trades := ClaimAll(m.trades, ids, lastPrice, MarketClose));
      order := IdsOf(claimed);
      IdsEnumerated(claimed, book.flat, ids);
      n := |claimed|;
      SubmitExits(claimed, ids, lastPrice, MarketClose, accepted, now, s);
      ExitsLeaveQuiet(config, s.trades, ids, lastPrice, MarketClose, accepted);
      LiquidationOutcome(s, m, order, lastPrice, accepted, now);
      if config.mode.Paper? {
        PaperAllOpen(s);
      }
    }

    /** After any calls, each trade's statuses are a path of the lifecycle graph with the terminal status last,
        and with no call in progress its row agrees with the book, exit order id included. */
    lemma RowsFollowTheBook(id: nat)
      requires Valid() && id < |m.trades|
      ensures IsPath(config, StatusLog(m.log, id))
      ensures var ss := StatusLog(m.log, id); forall k :: 0 <= k < |ss| && Terminal(ss[k]) ==> k == |ss| - 1
      ensures AtRest(m.trades[id]) && id in TableOf(m) ==> RowAgrees(config, m.trades[id], TableOf(m)[id])
    {
      hide Reachable, Shows, B.PositionBook.Values, R.BookOf, IsPath, Terminal, RowAgrees, StatusLog, TableOf;
      UnracedIsInTurn(m, id);
      StatusesWalkTheLifecycle(m, id);
      TerminalIsLast(m, id);
      UnracedSaleIsLast(m, id);
      if AtRest(m.trades[id]) && id in TableOf(m) {
        OnlyALateExitDisagrees(m, id);
      }
    }

    /** Every exit order of a trade, a retried one too, was sent under the same client order id, and no two trades
        share one; so a broker that refuses a used client id refuses every retry. */
    lemma ExitIdsReusedIff(i: nat, k: nat, j: nat, n: nat)
      requires Valid() && i < |m.trades| && j < |m.trades|
      requires k < |m.trades[i].exitOrders| && n < |m.trades[j].exitOrders|
      ensures ExitOrder(i, k) in broker.clientIds && ExitOrder(j, n) in broker.clientIds
      ensures broker.clientIds[ExitOrder(i, k)] == broker.clientIds[ExitOrder(j, n)] <==> i == j
    {
      hide Reachable, NoneRaced, B.PositionBook.Values, R.BookOf, ComposeKey, ExitKey;
      ClientOrderIdsApart(m, i, j);
    }

    /** The table was empty at first and no batch failed since. */
    ghost predicate NoneFailed()
      reads this, writer
    {
      writer.initial == map[] && forall k :: 0 <= k < |writer.flushed| ==> writer.flushed[k].committed
    }

    /** Nothing was dropped either. */
    ghost predicate NothingLost()
      reads this, writer
    {
      NoneFailed() && writer.accepted == writer.submitted
    }

    /** That is so exactly as long as the backlog never outgrew the queue; it never exceeds the writes made. */
    lemma NothingLostIff()
      requires Valid()
      ensures NothingLost() <==> NoneFailed() && writer.HadRoom()
      ensures writer.submitted == m.log && writer.peak <= |m.log|
    {
      hide Reachable, NoneRaced, Shows, B.PositionBook.Values, R.BookOf, Transact;
    }

    /** Then the next batch applies, whatever its size: none ever violates the unique index. */
    lemma NextBatchApplies(n: nat)
      requires Valid() && NothingLost() && n <= |writer.queue|
      ensures Transact(writer.db.table, writer.queue[..n]).Ok?
    {
      hide Reachable, NoneRaced, Shows, B.PositionBook.Values, R.BookOf, Transact;
      assert Tasks(writer.flushed) + writer.queue[..n] <= m.log by {
        assert writer.queue == writer.queue[..n] + writer.queue[n..];
        assert m.log == (Tasks(writer.flushed) + writer.queue[..n]) + writer.queue[n..];
      }
      NoBatchFails(m, writer.flushed, writer.queue[..n]);
    }

    /** And once the queue is empty, the table is what the protocol's log amounts to. */
    lemma DrainedTableIsTheLog()
      requires Valid() && NothingLost() && writer.queue == []
      ensures writer.db.table == TableOf(m)
    {
      hide Reachable, NoneRaced, Shows, B.PositionBook.Values, R.BookOf, Transact;
      BatchingIsTransparent(writer.flushed);
      assert m.log == Tasks(writer.flushed);
    }
  }

  lemma ExitShape(c: Config, t: Trade, accepted: bool, now: int, price: real, reason: ExitReason)
    requires ReadyToExit(t) && t.exitPc == ExitClaimed(price, reason)
    ensures ExitDone(c, t, accepted).pos ==
            if c.mode.Paper? then None
            else Some(if accepted then t.pos.value.(exitOrderId := Some(ExitOrder(t.id, |t.exitOrders|)))
                      else ReopenedPos(t.pos.value))
    ensures ExitTask(c, t, accepted, now) ==
            Update(t.id,
              if c.mode.Paper? then
                Fields(status := Set(CLOSED), exitReason := Set(Some(reason)),
                       exitQty := Set(Some(t.pos.value.quantity)),
                       exitPrice := Set(Some(price)), closedAt := Set(Some(now)))
              else if accepted then
                Fields(status := Set(EXIT_SUBMITTED), exitOrderId := Set(Some(ExitOrder(t.id, |t.exitOrders|))),
                       exitReason := Set(Some(reason)))
              else Fields(status := Set(EXIT_FAILED), errorCode := Set(Some("EXIT_BROKER_ERROR"))))
  {
  }

  /** One more exit order asked for. */
  function WithExit(o: Asked, id: nat, order: Order, key: string): Asked {
    o.(exits := o.exits[id := CallsOf(o.exits, id) + [order]],
       clientIds := o.clientIds[ExitOrder(id, |CallsOf(o.exits, id)|) := ExitKey(key)])
  }

  /** A position of the book is that of its trade. */
  lemma PositionIs(s: State, id: nat, book: map<nat, Pos>)
    requires Reachable(s) && id < |s.trades| && s.trades[id].pos.Some? && book == R.BookOf(s.trades)
    ensures var p, t := s.trades[id].pos.value, s.trades[id];
            && id in book && book[id] == p && t.id == id && p.tradeId == id && p.key == t.Key()
                && p.isPaper == s.config.mode.Paper?
            && p.kind == t.entry.kind && p.symbol == t.entry.symbol
            && p.brokerOrderId == (if s.config.mode.Live? then Some(EntryOrder(id)) else None)
            && p.holdId == (if s.config.mode.Live? then Some(id) else None)
  {
    hide Run, Reachable, NoneRaced, OrdersKept, HoldsKept, TrailKept, TurnKept, RaceKept, ComposeKey, LogKept, KeysKept;
    ReachableKept(s);
    assert TradeKept(s.config, s.trades[id]);
  }

  lemma BookUpdated(ts: seq<Trade>, id: nat, t: Trade)
    requires id < |ts|
    ensures R.BookOf(ts[id := t]) == if t.pos.Some? then R.BookOf(ts)[id := t.pos.value] else R.BookOf(ts) - {id}
  {
  }

  lemma ExitShown(o: Asked, ts: seq<Trade>, id: nat, c: Config, accepted: bool)
    requires Shows(o, ts) && id < |ts| && ReadyToExit(ts[id])
    ensures |CallsOf(o.exits, id)| == |ts[id].exitOrders|
    ensures Shows(if c.mode.Paper? || !accepted then o
                  else WithExit(o, id, Order(ts[id].entry.kind.ExitSide(), ts[id].pos.value.quantity), ts[id].Key()),
                  ts[id := ExitDone(c, ts[id], accepted)])
  {
    hide ComposeKey, ExitKey, Shows, SameElsewhere, ShowsTrade, WithExit, ExitDone;
    ShownAt(o, ts, id);
    ExitShownAt(o, ts[id], c, accepted);
    ShowsUpdate(o, if c.mode.Paper? || !accepted then o
                   else WithExit(o, id, Order(ts[id].entry.kind.ExitSide(), ts[id].pos.value.quantity), ts[id].Key()),
                ts, id, ExitDone(c, ts[id], accepted));
  }

  lemma ExitShownAt(o: Asked, t: Trade, c: Config, accepted: bool)
    requires ShowsTrade(o, t) && ReadyToExit(t)
    ensures t.exitOrders == CallsOf(o.exits, t.id) && ExitDone(c, t, accepted).id == t.id
    ensures var o' := if c.mode.Paper? || !accepted then o
                      else WithExit(o, t.id, Order(t.entry.kind.ExitSide(), t.pos.value.quantity), t.Key());
            SameElsewhere(o, o', t.id) && ShowsTrade(o', ExitDone(c, t, accepted))
  {
    hide ComposeKey, ExitKey, SameElsewhere, WithExit, ShowsTrade, ExitDone, Trade.Key;
    var order := Order(t.entry.kind.ExitSide(), t.pos.value.quantity);
    ExitElsewhere(o, t.id, order, t.Key());
    ExitAsks(c, t, accepted);
    ExitsShown(o, t);
    if c.mode.Live? && accepted {
      OneMoreShown(o, t, ExitDone(c, t, accepted), order);
    } else {
      SameShown(o, t, ExitDone(c, t, accepted));
    }
  }

  lemma ExitAsks(c: Config, t: Trade, accepted: bool)
    requires ReadyToExit(t)
    ensures var done := ExitDone(c, t, accepted);
            && done.id == t.id && done.Key() == t.Key() && done.entryOrder == t.entryOrder && done.holds == t.holds
            && done.exitOrders == t.exitOrders + if c.mode.Live? && accepted then
                 [Order(t.entry.kind.ExitSide(), t.pos.value.quantity)] else []
  {
    hide ComposeKey;
  }

  lemma ExitsShown(o: Asked, t: Trade)
    requires ShowsTrade(o, t)
    ensures t.exitOrders == CallsOf(o.exits, t.id)
  {
  }

  lemma SameShown(o: Asked, t: Trade, t': Trade)
    requires ShowsTrade(o, t) && t'.id == t.id && t'.Key() == t.Key()
    requires t'.entryOrder == t.entryOrder && t'.exitOrders == t.exitOrders && t'.holds == t.holds
    ensures ShowsTrade(o, t')
  {
  }

  lemma OneMoreShown(o: Asked, t: Trade, t': Trade, order: Order)
    requires ShowsTrade(o, t) && t'.id == t.id && t'.entryOrder == t.entryOrder && t'.holds == t.holds
    requires t'.Key() == t.Key()
    requires t'.exitOrders == t.exitOrders + [order]
    ensures ShowsTrade(WithExit(o, t.id, order, t.Key()), t')
  {
    hide ComposeKey, ExitKey;
  }

  lemma ExitElsewhere(o: Asked, id: nat, order: Order, key: string)
    ensures SameElsewhere(o, o, id) && SameElsewhere(o, WithExit(o, id, order, key), id)
  {
    hide ExitKey;
  }

  lemma TriggeredCanBeClaimed(s: State, symbol: string, price: real)
    requires Reachable(s)
    ensures AllCanClaim(s.trades, B.TriggeredIds(R.BookOf(s.trades), symbol, price), map[symbol := price], TargetPrice)
  {
    hide Run, Reachable;
  }

  lemma OpensCanBeClaimed(s: State, prices: map<string, real>, why: ExitReason)
    requires why.MarketClose?
    ensures AllCanClaim(s.trades, B.Opens(R.BookOf(s.trades)), prices, why)
  {
  }

  /** The book after the claims is that of the claimed trades. */
  lemma ClaimsListed(ts: seq<Trade>, book: B.PositionBook, ids: set<nat>, prices: map<string, real>, why: ExitReason)
    requires AllCanClaim(ts, ids, prices, why) && B.Flipped(R.BookOf(ts), book.flat, ids)
    ensures book.Values() == R.BookOf(ClaimAll(ts, ids, prices, why))
  {
  }

  lemma ClaimsShown(o: Asked, ts: seq<Trade>, ids: set<nat>, prices: map<string, real>, why: ExitReason)
    requires AllCanClaim(ts, ids, prices, why) && Shows(o, ts)
    ensures Shows(o, ClaimAll(ts, ids, prices, why))
  {
    hide CanClaim, ComposeKey, ExitKey;
  }

  lemma IdsEnumerated(ps: seq<B.Position>, flat: map<nat, B.Position>, ids: set<nat>)
    requires B.Enumerates(ps, flat, ids)
    ensures ListsIds(IdsOf(ps), ids) && |ps| == |ids|
  {
    var order := IdsOf(ps);
    forall id | id in ids
      ensures id in order
    {
      var k :| 0 <= k < |ps| && ps[k].tradeId == id;
      assert order[k] == id;
    }
    assert R.Elements(order) == ids;
    R.DistinctCount(order);
  }

  lemma ExitsLeaveQuiet(c: Config, ts: seq<Trade>, ids: set<nat>, prices: map<string, real>, why: ExitReason,
                        accepted: set<nat>)
    requires AllQuiet(ts) && AllCanClaim(ts, ids, prices, why)
    ensures AllQuiet(Exiting(c, ts, ids, ids, prices, why, accepted))
    ensures c.mode.Paper? ==> R.BookOf(Exiting(c, ts, ids, ids, prices, why, accepted)) == R.BookOf(ts) - ids
  {
    hide CanClaim, AtRest, ExitOf, ClaimTrade;
    forall id | id in ids
      ensures AtRest(ExitOf(c, ts[id], prices, why, id in accepted))
      ensures c.mode.Paper? ==> ExitOf(c, ts[id], prices, why, id in accepted).pos.None?
    {
      ExitLeavesAtRest(c, ts[id], prices, why, id in accepted);
    }
  }

  /** On paper every position that nobody is working on is open. */
  lemma PaperAllOpen(s: State)
    requires Reachable(s) && s.config.mode.Paper? && AllQuiet(s.trades)
    ensures B.Opens(R.BookOf(s.trades)) == R.BookOf(s.trades).Keys
  {
    hide Run, Reachable, NoneRaced, OrdersKept, HoldsKept, TrailKept, TurnKept, RaceKept, ComposeKey, LogKept, KeysKept;
    ReachableKept(s);
    forall id: nat | id < |s.trades| && s.trades[id].pos.Some?
      ensures s.trades[id].pos.value.state.OPEN?
    {
      assert TradeKept(s.config, s.trades[id]) && AtRest(s.trades[id]);
    }
  }

  lemma AllEnumerated(ps: seq<B.Position>, ids: set<nat>, done: set<nat>)
    requires forall id :: id in ids ==> exists k :: 0 <= k < |ps| && ps[k].tradeId == id
    requires done <= ids && forall k :: 0 <= k < |ps| ==> ps[k].tradeId in done
    ensures ids == done
  {
  }

  /** Some of the claimed positions have been sent on their way out. */
  ghost predicate Underway(m: State, s: State, ids: set<nat>, done: set<nat>, order: seq<nat>,
                           prices: map<string, real>, why: ExitReason, accepted: set<nat>, now: int) {
    && AllQuiet(s.trades) && AllCanClaim(s.trades, ids, prices, why)
        && (forall k :: 0 <= k < |order| ==> order[k] in ids)
    && m.config == s.config && m.trades == Exiting(s.config, s.trades, ids, done, prices, why, accepted)
    && m.log == s.log + ExitTasks(s.config, s.trades, order, prices, why, accepted, now)
  }

  lemma NoneExiting(c: Config, s: State, ids: set<nat>, prices: map<string, real>, why: ExitReason,
                    accepted: set<nat>, now: int)
    requires AllQuiet(s.trades) && AllCanClaim(s.trades, ids, prices, why)
    ensures Underway(s.(trades := ClaimAll(s.trades, ids, prices, why)), s, ids, {}, [], prices, why, accepted, now)
  {
    hide CanClaim, ClaimTrade, AtRest;
    assert s.log + [] == s.log;
  }

  /** Among claimed trades, what the next exit does. */
  lemma OneMoreExit(m: State, s: State, ids: set<nat>, done: set<nat>, order: seq<nat>, id: nat,
                    prices: map<string, real>, why: ExitReason, accepted: set<nat>, now: int)
    requires Underway(m, s, ids, done, order, prices, why, accepted, now) && id in ids && id !in done
    ensures id < |m.trades| && ReadyToExit(m.trades[id]) && m.trades[id].pos.Some?
    ensures m.trades[id].exitPc == ExitClaimed(PriceFor(prices, m.trades[id].pos.value), why)
    ensures Underway(After(m, id, ExitDone(s.config, m.trades[id], id in accepted),
                           [ExitTask(s.config, m.trades[id], id in accepted, now)], s.config.mode.Paper?),
                     s, ids, done + {id}, order + [id], prices, why, accepted, now)
  {
    ClaimedIsReady(s.trades[id], prices, why);
    hide CanClaim, AtRest, ReadyToExit, ExitDone, ExitTask, Forget;
    assert (order + [id])[..|order|] == order;
  }

  lemma AllUnderway(m: State, s: State, ids: set<nat>, order: seq<nat>, prices: map<string, real>, why: ExitReason,
                    accepted: set<nat>, now: int)
    requires Underway(m, s, ids, ids, order, prices, why, accepted, now)
    ensures AllQuiet(s.trades) && AllCanClaim(s.trades, ids, prices, why) && forall k :: 0 <= k < |order| ==>
            order[k] in ids
    ensures m.trades == Exiting(s.config, s.trades, ids, ids, prices, why, accepted)
    ensures m.log == s.log + ExitTasks(s.config, s.trades, order, prices, why, accepted, now)
  {
  }

  function IdsOf(ps: seq<B.Position>): seq<nat> {
    seq(|ps|, k requires 0 <= k < |ps| => ps[k].tradeId)
  }

  lemma IdsOfOneMore(ps: seq<B.Position>, k: nat)
    requires k < |ps|
    ensures IdsOf(ps[..k + 1]) == IdsOf(ps[..k]) + [ps[k].tradeId]
  {
  }

  lemma SizedEntry(c: Config, t: Trade)
    requires ComputeSizing(t.price, c.rule).Ok?
    ensures var sized := ComputeSizing(t.price, c.rule).value; Qty(c, t) == sized.0 as real && Notional(c, t) == sized.1
  {
    hide ComputeSizing;
  }

  lemma UnsizedEntry(c: Config, t: Trade, answer: CashAnswer, accepted: bool)
    requires ComputeSizing(t.price, c.rule).Err? && t == Trade(t.id, t.base, t.attempt, t.entry, t.price)
    ensures EntryTasks(c, t, answer, accepted) == []
    ensures forall o: Asked :: Including(o, EntryDone(c, t, answer, accepted)) == o
    ensures forall book :: Adding(book, EntryDone(c, t, answer, accepted)) == book
  {
    hide ComputeSizing, ComposeKey;
  }

  lemma EntryShown(o: Asked, ts: seq<Trade>, c: Config, t: Trade, answer: CashAnswer, accepted: bool)
    requires Shows(o, ts) && t == Trade(|ts|, t.base, t.attempt, t.entry, t.price)
    ensures Shows(Including(o, EntryDone(c, t, answer, accepted)), ts + [EntryDone(c, t, answer, accepted)])
    ensures |ts| !in o.holds
  {
    hide ComputeSizing, Qty, Notional, NewPos, ComposeKey, ShowsTrade;
    var done := EntryDone(c, t, answer, accepted);
    assert ShowsTrade(Including(o, done), done) by { NewTradeShown(o, done, |ts|); }
    ShowsAppend(o, Including(o, done), ts, done);
  }

  lemma NewTradeShown(o: Asked, t: Trade, n: nat)
    requires t.id == n && n !in o.entries && n !in o.exits && n !in o.holds && t.exitOrders == []
    ensures ShowsTrade(Including(o, t), t)
  {
    hide ComposeKey;
  }

  lemma EntryListed(book: map<nat, Pos>, ts: seq<Trade>, c: Config, t: Trade, answer: CashAnswer, accepted: bool)
    requires book == R.BookOf(ts) && t.id == |ts|
    ensures Adding(book, EntryDone(c, t, answer, accepted)) == R.BookOf(ts + [EntryDone(c, t, answer, accepted)])
    ensures t.id !in book
  {
    hide ComputeSizing, Qty, Notional, NewPos, ComposeKey;
  }

  lemma HoldSteps(holds: map<nat, seq<HoldCall>>, id: nat, first: HoldCall, second: HoldCall)
    requires id !in holds
    ensures var once := holds[id := CallsOf(holds, id) + [first]];
            && once == holds[id := [first]]
            && once[id := CallsOf(once, id) + [second]] == holds[id := [first, second]]
  {
    assert [] + [first] == [first] && [first] + [second] == [first, second];
  }
}
