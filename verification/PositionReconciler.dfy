/** The reconciler: one pass over the positions that wait for a fill or a close, asking the broker
    about each. */
module PositionReconcilers {
  import opened Domain
  import opened IdempotencyKeys
  import opened Lifecycle
  import opened LifecycleInvariants
  import opened LifecycleSafety
  import opened LifecycleTheorems
  import opened Calls
  import opened Clients
  import opened AsyncDbWriters
  import opened ExecutionServices
  import opened Outcomes
  import opened TradesTable
  import R = Rehydration
  import B = PositionBooks

  /** A hold is captured when its entry is filled and released when it is dead. */
  function Settle(holds: map<nat, seq<HoldCall>>, hold: Option<nat>, status: OrderStatus): map<nat, seq<HoldCall>> {
    if hold.None? || !(status.Complete? || status.Dead?) then holds
    else holds[hold.value := CallsOf(holds, hold.value) + [if status.Complete? then Captured else Released]]
  }

  /** What a report about trade id's entry order changes on the other side. */
  function WithFill(o: Asked, id: nat, hold: Option<nat>, report: Order): Asked {
    o.(entries := o.entries[id := report], holds := Settle(o.holds, hold, report.status))
  }

  function WithClose(o: Asked, id: nat, nth: nat, report: Order): Asked
    requires nth < |CallsOf(o.exits, id)|
  {
    o.(exits := o.exits[id := CallsOf(o.exits, id)[nth := report]])
  }

  function AfterFill(p: Pos, o: Order): Option<Pos> {
    match o.status
    case Complete => Some(FilledPos(p, o))
    case Dead => None
    case _ => Some(p)
  }

  function AfterClose(p: Pos, o: Order): Option<Pos> {
    match o.status
    case Complete => None
    case Dead => Some(ReopenedPos(p))
    case _ => Some(p)
  }

  function Put(book: map<nat, Pos>, id: nat, p: Option<Pos>): map<nat, Pos> {
    if p.Some? then book[id := p.value] else book - {id}
  }

  /** The order a visit asks the broker about; a position without one is passed over. */
  function AsksAbout(p: Pos): Option<OrderId> {
    match p.state
    case PENDING_ENTRY => p.brokerOrderId
    case EXITING => p.exitOrderId
    case OPEN => None
  }

  class PositionReconciler {
    const service: ExecutionService

    constructor (service: ExecutionService)
      ensures this.service == service
    {
      this.service := service;
    }

    /** `_capture_hold` and `_release_hold`. */
    method SettleHold(p: B.Position, call: HoldCall)
      modifies service.cash
      ensures var was := old(service.cash.holds);
              service.cash.holds ==
                if p.holdId.None? then was else was[p.holdId.value := CallsOf(was, p.holdId.value) + [call]]
    {
      if p.holdId.Some? {
        service.cash.Call(p.holdId.value, call);
      }
    }

    /** `_apply_entry`, on the order just fetched. */
    method ApplyEntry(p: B.Position, o: Order, ghost t: Trade)
      requires service.writer.Valid() && service.book.Has(p) && t.id == p.tradeId
      modifies service.writer, service.book, service.cash, p
      ensures service.writer.Valid() && service.writer.submitted == old(service.writer.submitted) + FillTasks(t, o)
      ensures service.book.Valid()
      ensures service.book.Values() == Put(old(service.book.Values()), p.tradeId, AfterFill(old(p.Value()), o))
      ensures service.book.flat == if o.status.Dead? then old(service.book.flat) - {p.tradeId}
              else old(service.book.flat)
      ensures service.cash.holds == Settle(old(service.cash.holds), p.holdId, o.status)
      ensures Grew(old(service.writer.Mark()), service.writer.Mark())
    {
      hide B.Filed, B.PositionBook.Values, B.Position.Value, AsyncDbWriter.Valid, CallsOf;
      var id := p.tradeId;
      service.book.ValueOf(p);
      match o.status {
        case Complete =>
          service.writer.Enqueue(Update(id, Fields(status := Set(FILLED), filledQty := Set(o.filledQty),
                                                   filledPrice := Set(o.filledPrice))));
          service.book.StoreFill(p, o.filledQty, o.filledPrice);
          service.book.MarkOpen(p);
          assert service.book.Values() == old(service.book.Values())[id := FilledPos(old(p.Value()), o)];
          SettleHold(p, Captured);
        case PartlyFilled =>
          service.writer.Enqueue(Update(id, Fields(status := Set(PARTIALLY_FILLED), filledQty := Set(o.filledQty),
                                                   filledPrice := Set(o.filledPrice))));
        case Dead =>
          service.writer.Enqueue(Update(id, Fields(status := Set(REJECTED))));
          service.book.Remove(p);
          SettleHold(p, Released);
        case Working =>
      }
    }

    /** `_apply_exit`, on the order just fetched. */
    method ApplyExit(p: B.Position, o: Order, now: int, ghost t: Trade)
      requires service.writer.Valid() && service.book.Has(p) && t.id == p.tradeId
      modifies service.writer, service.book, service`seen, service`attempts, p
      ensures service.writer.Valid()
      ensures service.writer.submitted == old(service.writer.submitted) + CloseTasks(t, o, now)
      ensures service.book.Valid()
      ensures service.book.Values() == Put(old(service.book.Values()), p.tradeId, AfterClose(old(p.Value()), o))
      ensures service.book.flat == if o.status.Complete? then old(service.book.flat) - {p.tradeId}
              else old(service.book.flat)
      ensures service.seen == if o.status.Complete? then old(service.seen) - {p.key} else old(service.seen)
      ensures service.attempts == if o.status.Complete? then Bumped(old(service.attempts), p.key)
              else old(service.attempts)
      ensures Grew(old(service.writer.Mark()), service.writer.Mark())
    {
      hide B.Filed, B.PositionBook.Values, B.Position.Value, AsyncDbWriter.Valid, Bumped;
      var id := p.tradeId;
      service.book.ValueOf(p);
      match o.status {
        case Complete =>
          service.writer.Enqueue(Update(id,
                                        Fields(status := Set(CLOSED), exitQty := Set(o.filledQty),
                                               exitPrice := Set(o.filledPrice),
                                                   closedAt := Set(Some(now)))));
          service.book.Remove(p);
          service.Forget(p.key);
        case PartlyFilled =>
          service.writer.Enqueue(Update(id, Fields(status := Set(EXIT_PARTIALLY_FILLED), exitQty := Set(o.filledQty),
                                                   exitPrice := Set(o.filledPrice))));
        case Dead =>
          service.writer.Enqueue(Update(id, Fields(status := Set(EXIT_FAILED))));
          service.book.ReleaseExit(p);
        case Working =>
      }
    }

    /** The visit to a pending entry: its order is fetched and applied. */
    method VisitEntry(p: B.Position, report: Order)
      requires service.Valid() && p.tradeId in service.book.flat && service.book.flat[p.tradeId] == p
      requires p.tradeId < |service.m.trades| && AwaitsFill(service.config, service.m.trades[p.tradeId], report)
      modifies service, service.writer, service.book, service.broker, service.cash, p
      ensures service.Valid() && service.lastPrice == old(service.lastPrice)
      ensures var t := old(service.m).trades[p.tradeId];
              service.m == After(old(service.m), p.tradeId, FillDone(t, report), FillTasks(t, report), false)
      ensures service.book.flat == if report.status.Dead? then old(service.book.flat) - {p.tradeId}
              else old(service.book.flat)
      ensures Grew(old(service.writer.Mark()), service.writer.Mark())
    {
      hide B.Filed, B.PositionBook.Values, B.Position.Value, AsyncDbWriter.Valid, Reachable, NoneRaced, Shows,
           R.BookOf, FillTasks, FillDone, AfterFill, Settle, Advances, Grew;
      var id := p.tradeId;
      ghost var t, m := service.m.trades[id], service.m;
      PositionIs(m, id, service.book.Values());
      service.PositionOf(p);
      FillRuns(m, id, report);
      FillShown(service.Requests(), m.trades, id, service.config, report);
      BookUpdated(m.trades, id, FillDone(t, report));
      FillShape(t, report);
      service.m := After(m, id, FillDone(t, report), FillTasks(t, report), false);
      service.broker.GetOrder(p.brokerOrderId.value, report);
      ApplyEntry(p, report, t);
    }

    /** The visit to an exit. */
    method VisitExit(p: B.Position, report: Order, now: int)
      requires service.Valid() && p.tradeId in service.book.flat && service.book.flat[p.tradeId] == p
      requires p.exitOrderId.Some? && p.exitOrderId.value.ExitOrder?
      requires p.tradeId < |service.m.trades|
      requires AwaitsClose(service.config, service.m.trades[p.tradeId], p.exitOrderId.value.nth, report)
      modifies service, service.writer, service.book, service.broker, p
      ensures service.Valid() && service.lastPrice == old(service.lastPrice)
      ensures var t, nth := old(service.m).trades[p.tradeId], old(p.exitOrderId).value.nth;
              service.m == After(old(service.m), p.tradeId, CloseDone(t, nth, report), CloseTasks(t, report, now),
                                 report.status.Complete?)
      ensures service.book.flat == if report.status.Complete? then old(service.book.flat) - {p.tradeId}
              else old(service.book.flat)
      ensures Grew(old(service.writer.Mark()), service.writer.Mark())
    {
      hide B.Filed, B.PositionBook.Values, B.Position.Value, AsyncDbWriter.Valid, Reachable, NoneRaced, Shows,
           R.BookOf, CloseTasks, CloseDone, AfterClose, Bumped, ComposeKey, Advances, Grew;
      var id := p.tradeId;
      ghost var t, m, nth := service.m.trades[id], service.m, p.exitOrderId.value.nth;
      PositionIs(m, id, service.book.Values());
      service.PositionOf(p);
      CloseRuns(m, id, nth, report, now);
      CloseShown(service.Requests(), m.trades, id, nth, service.config, report);
      BookUpdated(m.trades, id, CloseDone(t, nth, report));
      CloseShape(t, nth, report);
      service.m := After(m, id, CloseDone(t, nth, report), CloseTasks(t, report, now), report.status.Complete?);
      service.broker.GetOrder(p.exitOrderId.value, report);
      ApplyExit(p, report, now, t);
    }

    /** One turn of the loop of `reconcile_once`. */
    method Visit(p: B.Position, reports: map<OrderId, Order>, now: int) returns (answered: bool)
      requires service.Valid() && p.tradeId in service.book.flat && service.book.flat[p.tradeId] == p
      requires p.tradeId < |service.m.trades|
      requires Visitable(service.config, service.m.trades[p.tradeId], p.tradeId, reports)
      modifies service, service.writer, service.book, service.broker, service.cash, p
      ensures service.Valid() && service.lastPrice == old(service.lastPrice)
      ensures service.m.config == old(service.m).config
      ensures var t := old(service.m).trades[p.tradeId];
              && answered == ReportOn(t, reports).Some?
              && service.m.trades == old(service.m).trades[p.tradeId := Visited(service.config, t, reports)]
              && service.m.log == old(service.m).log + VisitTasks(t, reports, now)
      ensures service.book.flat == old(service.book.flat) || service.book.flat == old(service.book.flat) - {p.tradeId}
      ensures answered <==> AsksAbout(old(p.Value())).Some? && AsksAbout(old(p.Value())).value in reports
      ensures Grew(old(service.writer.Mark()), service.writer.Mark())
    {
      hide ExecutionService.Valid, B.Position.Value, AwaitsFill, FillDone, CloseDone, FillTasks, CloseTasks, Forget,
           Advances;
      service.PositionOf(p);
      answered := false;
      if p.state == PENDING_ENTRY {
        if p.brokerOrderId.Some? && p.brokerOrderId.value in reports {
          VisitEntry(p, reports[p.brokerOrderId.value]);
          answered := true;
        }
      } else if p.state == EXITING {
        if p.exitOrderId.Some? && p.exitOrderId.value in reports {
          VisitExit(p, reports[p.exitOrderId.value], now);
          answered := true;
        }
      }
      assert !answered ==> service.m.log + [] == service.m.log;
    }

    /** `reconcile_once`: every position that is pending or exiting is visited once, if the broker answers
        about its order; the visits leave every other trade alone. */
    method ReconcileOnce(reports: map<OrderId, Order>, now: int) returns (checked: nat, ghost order: seq<nat>)
      requires service.Valid() && AllQuiet(service.m.trades) && Truthful(service.m.trades, reports)
      modifies service, service.writer, service.book, service.broker, service.cash, service.book.flat.Values
      ensures service.Valid() && AllQuiet(service.m.trades) && service.lastPrice == old(service.lastPrice)
      ensures var ts := old(service.m).trades;
              && (forall i :: 0 <= i < |ts| ==> CanVisit(service.config, ts[i], reports))
              && service.m.trades == Toured(service.config, ts, B.Busy(R.BookOf(ts)), reports)
              && checked == |Answered(ts, B.Busy(R.BookOf(ts)), reports)|
              && ListsIds(order, B.Busy(R.BookOf(ts))) && (forall k :: 0 <= k < |order| ==> order[k] < |ts|)
              && service.m.log == old(service.m).log + VisitLog(ts, order, reports, now)
      ensures Passed(old(service.m), service.m, reports, now)
      ensures Grew(old(service.writer.Mark()), service.writer.Mark())
    {
      hide B.Filed, B.PositionBook.Values, B.Position.Value, AsyncDbWriter.Valid, Reachable, NoneRaced, Shows,
           R.BookOf, After, ExecutionService.Valid, B.Busy, B.Enumerates, ListsIds, AllQuiet, Truthful, OnTour,
           AwaitsFill, AwaitsClose, FillDone, CloseDone, FillTasks, CloseTasks, CanVisit, Visited, Visitable,
           VisitTasks, ReportOn, Toured, Answered, VisitLog, IdsOf, InState, Current, Grew, Passed;
      ghost var s, mark := service.m, service.writer.Mark();
      GrewTwice(mark, mark, mark);
      service.Parts();
      ghost var ids := B.Busy(service.book.Values());
      var found := service.book.PendingAndExiting();
      ghost var done: set<nat> := {};
      checked, order := 0, [];
      BeginTour(s, reports, now);
      IdsEnumerated(found, service.book.flat, ids);
      BusyOnes(found, ids, service.book.flat);
      assert IdsOf(found[..0]) == [] by { NoIds(found); }
      for k := 0 to |found|
        invariant service.Valid() && service.lastPrice == old(service.lastPrice)
        invariant Grew(mark, service.writer.Mark())
        invariant done <= ids && order == IdsOf(found[..k])
        invariant forall j :: 0 <= j < k ==> found[j].tradeId in done
        invariant forall j :: k <= j < |found| ==>
                    var i := found[j].tradeId; i !in done && i in service.book.flat && service.book.flat[i] == found[j]
        invariant OnTour(service.m, s, done, order, checked, reports, now)
      {
        var p := found[k];
        var id := p.tradeId;
        IdsOfOneMore(found, k);
        service.PositionOf(p);
        NextVisit(service.m, s, done, order, checked, id, reports, now);
        ghost var m, before := service.m, service.writer.Mark();
        var answered := Visit(p, reports, now);
        GrewTwice(mark, before, service.writer.Mark());
        Advance(m, s, done, order, checked, id, service.m, reports, now);
        checked := if answered then checked + 1 else checked;
        done, order := done + {id}, order + [id];
      }
      assert found[..|found|] == found;
      AllEnumerated(found, ids, done);
      TourDone(service.m, s, ids, order, checked, reports, now);
      PassOutcome(s, service.m, ids, order, reports, now);
    }
  }

  // ---------------------------------------------------------------- what one pass amounts to

  /** The broker's answers continue what it answered before. */
  predicate Truthful(ts: seq<Trade>, reports: map<OrderId, Order>) {
    && (forall i :: 0 <= i < |ts| && ts[i].entryOrder.Some? && EntryOrder(i) in reports ==>
          Advances(ts[i].entryOrder.value, reports[EntryOrder(i)]))
    && (forall i, n: nat :: 0 <= i < |ts| && n < |ts[i].exitOrders| && ExitOrder(i, n) in reports ==>
          Advances(ts[i].exitOrders[n], reports[ExitOrder(i, n)]))
  }

  /** The answer the reconciler gets about a trade, if it asks and is answered. */
  function ReportOn(t: Trade, reports: map<OrderId, Order>): Option<Order> {
    if InState(t, PENDING_ENTRY) && EntryOrder(t.id) in reports then Some(reports[EntryOrder(t.id)])
    else if InState(t, EXITING) && t.pos.value.exitOrderId.Some? && t.pos.value.exitOrderId.value in reports then
      Some(reports[t.pos.value.exitOrderId.value])
    else None
  }

  function Current(t: Trade): nat {
    if |t.exitOrders| > 0 then |t.exitOrders| - 1 else 0
  }

  predicate CanVisit(c: Config, t: Trade, reports: map<OrderId, Order>) {
    match ReportOn(t, reports)
    case None => true
    case Some(o) => if InState(t, PENDING_ENTRY) then AwaitsFill(c, t, o) else AwaitsClose(c, t, Current(t), o)
  }

  function Visited(c: Config, t: Trade, reports: map<OrderId, Order>): Trade
    requires CanVisit(c, t, reports)
  {
    match ReportOn(t, reports)
    case None => t
    case Some(o) => if InState(t, PENDING_ENTRY) then FillDone(t, o) else CloseDone(t, Current(t), o)
  }

  function VisitTasks(t: Trade, reports: map<OrderId, Order>, now: int): seq<Task> {
    match ReportOn(t, reports)
    case None => []
    case Some(o) => if InState(t, PENDING_ENTRY) then FillTasks(t, o) else CloseTasks(t, o, now)
  }

  function VisitLog(ts: seq<Trade>, order: seq<nat>, reports: map<OrderId, Order>, now: int): seq<Task>
    requires forall k :: 0 <= k < |order| ==> order[k] < |ts|
  {
    if order == [] then []
    else VisitLog(ts, order[..|order| - 1], reports, now) + VisitTasks(ts[order[|order| - 1]], reports, now)
  }

  /** The trades of these ids visited. */
  function Toured(c: Config, ts: seq<Trade>, done: set<nat>, reports: map<OrderId, Order>): (r: seq<Trade>)
    requires forall i :: 0 <= i < |ts| ==> CanVisit(c, ts[i], reports)
    ensures |r| == |ts|
  {
    seq(|ts|, i requires 0 <= i < |ts| => if i in done then Visited(c, ts[i], reports) else ts[i])
  }

  function Answered(ts: seq<Trade>, done: set<nat>, reports: map<OrderId, Order>): set<nat> {
    set i | i in done && i < |ts| && ReportOn(ts[i], reports).Some?
  }

  ghost predicate OnTour(m: State, s: State, done: set<nat>, order: seq<nat>, checked: nat,
                         reports: map<OrderId, Order>, now: int) {
    && (forall i :: 0 <= i < |s.trades| ==> CanVisit(s.config, s.trades[i], reports))
    && (forall k :: 0 <= k < |order| ==> order[k] < |s.trades|)
    && m.config == s.config && m.trades == Toured(s.config, s.trades, done, reports)
    && m.log == s.log + VisitLog(s.trades, order, reports, now)
    && checked == |Answered(s.trades, done, reports)|
  }

  lemma BeginTour(s: State, reports: map<OrderId, Order>, now: int)
    requires Reachable(s) && AllQuiet(s.trades) && Truthful(s.trades, reports)
    ensures OnTour(s, s, {}, [], 0, reports, now)
  {
    hide Reachable, NoneRaced, AwaitsFill, AwaitsClose, AtRest;
    forall i | 0 <= i < |s.trades|
      ensures CanVisit(s.config, s.trades[i], reports)
    {
      QuietCanBeVisited(s, i, reports);
    }
    assert s.log + [] == s.log;
  }

  lemma QuietCanBeVisited(s: State, id: nat, reports: map<OrderId, Order>)
    requires Reachable(s) && AllQuiet(s.trades) && Truthful(s.trades, reports) && id < |s.trades|
    ensures CanVisit(s.config, s.trades[id], reports)
    ensures InState(s.trades[id], PENDING_ENTRY) ==> s.trades[id].pos.value.brokerOrderId == Some(EntryOrder(id))
    ensures InState(s.trades[id], EXITING) ==>
              s.trades[id].exitOrders != [] && s.trades[id].pos.value.exitOrderId
                  == Some(ExitOrder(id, Current(s.trades[id])))
    ensures s.trades[id].id == id
  {
    hide Run, Reachable, NoneRaced, OrdersKept, HoldsKept, TrailKept, TurnKept, RaceKept, ComposeKey, LogKept,
         KeysKept, Advances;
    ReachableKept(s);
    assert TradeKept(s.config, s.trades[id]) && AtRest(s.trades[id]);
  }

  lemma BusyOnes(found: seq<B.Position>, ids: set<nat>, flat: map<nat, B.Position>)
    requires B.Enumerates(found, flat, ids)
    ensures forall k :: 0 <= k < |found| ==>
              var i := found[k].tradeId; i in ids && i in flat && flat[i] == found[k]
    ensures forall k, l :: 0 <= k < l < |found| ==> found[k].tradeId != found[l].tradeId
    ensures forall id :: id in ids ==> exists k :: 0 <= k < |found| && found[k].tradeId == id
  {
  }

  predicate Visitable(c: Config, t: Trade, id: nat, reports: map<OrderId, Order>) {
    && CanVisit(c, t, reports) && t.id == id
    && (InState(t, PENDING_ENTRY) ==> t.pos.value.brokerOrderId == Some(EntryOrder(id)))
    && (InState(t, EXITING) ==>
        t.pos.value.exitOrderId == Some(ExitOrder(id, Current(t))) && Current(t) < |t.exitOrders|)
  }

  /** The next trade on the tour is as it was at the start. */
  lemma NextVisit(m: State, s: State, done: set<nat>, order: seq<nat>, checked: nat, id: nat,
                  reports: map<OrderId, Order>, now: int)
    requires OnTour(m, s, done, order, checked, reports, now) && Reachable(s) && AllQuiet(s.trades)
    requires Truthful(s.trades, reports)
    requires id < |m.trades| && id !in done
    ensures id < |s.trades| && m.trades[id] == s.trades[id] && m.config == s.config
    ensures CanVisit(s.config, s.trades[id], reports) && Visitable(s.config, s.trades[id], id, reports)
  {
    hide Reachable, NoneRaced, CanVisit, AllQuiet, Truthful;
    QuietCanBeVisited(s, id, reports);
  }

  lemma NoIds(ps: seq<B.Position>)
    ensures IdsOf(ps[..0]) == []
  {
  }

  /** The tour goes on from the state after the visit. */
  lemma Advance(m: State, s: State, done: set<nat>, order: seq<nat>, checked: nat, id: nat, m': State,
                reports: map<OrderId, Order>, now: int)
    requires OnTour(m, s, done, order, checked, reports, now) && id < |s.trades| && id !in done && m'.config == m.config
    requires CanVisit(s.config, s.trades[id], reports)
    requires m'.trades == m.trades[id := Visited(s.config, s.trades[id], reports)]
    requires m'.log == m.log + VisitTasks(s.trades[id], reports, now)
    ensures OnTour(m', s, done + {id}, order + [id], checked + if ReportOn(s.trades[id], reports).Some? then 1
                   else 0, reports, now)
  {
    hide CanVisit, Visited, ReportOn, VisitTasks, Toured, Answered;
    assert (order + [id])[..|order|] == order;
    OneMoreAnswer(s.trades, done, id, reports);
    OneMoreVisited(s.config, s.trades, done, id, reports);
  }

  lemma OneMoreAnswer(ts: seq<Trade>, done: set<nat>, id: nat, reports: map<OrderId, Order>)
    requires id < |ts| && id !in done
    ensures |Answered(ts, done + {id}, reports)| == |Answered(ts, done, reports)|
            + if ReportOn(ts[id], reports).Some? then 1 else 0
  {
    hide ReportOn;
    assert Answered(ts, done + {id}, reports) == Answered(ts, done, reports) + if ReportOn(ts[id], reports).Some? then
        {id} else {};
  }

  lemma OneMoreVisited(c: Config, ts: seq<Trade>, done: set<nat>, id: nat, reports: map<OrderId, Order>)
    requires id < |ts| && id !in done && forall i :: 0 <= i < |ts| ==> CanVisit(c, ts[i], reports)
    ensures Toured(c, ts, done + {id}, reports) == Toured(c, ts, done, reports)[id := Visited(c, ts[id], reports)]
  {
    hide CanVisit, Visited;
  }

  lemma TourDone(m: State, s: State, ids: set<nat>, order: seq<nat>, checked: nat, reports: map<OrderId, Order>,
                 now: int)
    requires OnTour(m, s, ids, order, checked, reports, now) && AllQuiet(s.trades)
    ensures forall i :: 0 <= i < |s.trades| ==> CanVisit(s.config, s.trades[i], reports)
    ensures m.trades == Toured(s.config, s.trades, ids, reports) && AllQuiet(m.trades)
    ensures checked == |Answered(s.trades, ids, reports)|
    ensures (forall k :: 0 <= k < |order| ==> order[k] < |s.trades|)
    ensures m.log == s.log + VisitLog(s.trades, order, reports, now)
  {
    hide CanVisit, Visited, VisitLog, AtRest;
    forall i: nat | i < |s.trades|
      ensures AtRest(Visited(s.config, s.trades[i], reports))
    {
      VisitLeavesAtRest(s.config, s.trades[i], reports);
    }
  }

  lemma VisitLeavesAtRest(c: Config, t: Trade, reports: map<OrderId, Order>)
    requires CanVisit(c, t, reports) && AtRest(t)
    ensures AtRest(Visited(c, t, reports))
  {
    hide Advances, InState, ReportOn, Current, AwaitsFill, AwaitsClose, FillDone, CloseDone, AtRest;
    var report := ReportOn(t, reports);
    if report.Some? {
      if InState(t, PENDING_ENTRY) {
        FillLeavesAtRest(c, t, report.value);
      } else {
        CloseLeavesAtRest(c, t, Current(t), report.value);
      }
    }
  }

  lemma FillLeavesAtRest(c: Config, t: Trade, o: Order)
    requires AwaitsFill(c, t, o) && AtRest(t)
    ensures AtRest(FillDone(t, o))
  {
  }

  lemma CloseLeavesAtRest(c: Config, t: Trade, nth: nat, o: Order)
    requires AwaitsClose(c, t, nth, o) && AtRest(t)
    ensures AtRest(CloseDone(t, nth, o))
  {
  }

  lemma FillShape(t: Trade, o: Order)
    requires t.pos.Some?
    ensures FillDone(t, o).pos == AfterFill(t.pos.value, o)
  {
  }

  lemma CloseShape(t: Trade, nth: nat, o: Order)
    requires t.pos.Some? && nth < |t.exitOrders|
    ensures CloseDone(t, nth, o).pos == AfterClose(t.pos.value, o)
  {
  }

  lemma FillShown(o: Asked, ts: seq<Trade>, id: nat, c: Config, report: Order)
    requires Shows(o, ts) && id < |ts| && AwaitsFill(c, ts[id], report)
    ensures id in o.entries && o.entries[id] == ts[id].entryOrder.value
    ensures Shows(WithFill(o, id, Some(id), report), ts[id := FillDone(ts[id], report)])
  {
    hide ComposeKey, ExitKey, Shows, SameElsewhere, ShowsTrade, WithFill, FillDone, AwaitsFill;
    ShownAt(o, ts, id);
    FillShownAt(o, ts[id], c, report);
    ShowsUpdate(o, WithFill(o, id, Some(id), report), ts, id, FillDone(ts[id], report));
  }

  lemma FillShownAt(o: Asked, t: Trade, c: Config, report: Order)
    requires ShowsTrade(o, t) && AwaitsFill(c, t, report)
    ensures t.pos.Some? && t.id in o.entries && Some(o.entries[t.id]) == t.entryOrder
    ensures SameElsewhere(o, WithFill(o, t.id, Some(t.id), report), t.id)
    ensures FillDone(t, report).id == t.id && ShowsTrade(WithFill(o, t.id, Some(t.id), report), FillDone(t, report))
  {
    hide ComposeKey, ExitKey, SameElsewhere, WithFill, ShowsTrade, FillDone, Trade.Key;
    FillElsewhere(o, t.id, report);
    FillSettles(c, t, report);
    EntryShown(o, t);
    FilledShown(o, t, FillDone(t, report), report);
  }

  lemma FillSettles(c: Config, t: Trade, report: Order)
    requires AwaitsFill(c, t, report)
    ensures t.pos.Some? && t.entryOrder.Some?
    ensures var done := FillDone(t, report);
            && done.id == t.id && done.Key() == t.Key() && done.exitOrders == t.exitOrders
            && done.entryOrder == Some(report) && done.holds == t.holds + SettleCalls(report.status)
  {
    hide ComposeKey, Advances;
  }

  lemma EntryShown(o: Asked, t: Trade)
    requires ShowsTrade(o, t) && t.entryOrder.Some?
    ensures t.id in o.entries && Some(o.entries[t.id]) == t.entryOrder
  {
  }

  /** The calls about the hold of a trade whose entry is reported as it is. */
  function SettleCalls(status: OrderStatus): seq<HoldCall> {
    match status
    case Complete => [Captured]
    case Dead => [Released]
    case _ => []
  }

  lemma FilledShown(o: Asked, t: Trade, t': Trade, report: Order)
    requires ShowsTrade(o, t) && t'.id == t.id && t'.Key() == t.Key() && t'.exitOrders == t.exitOrders
    requires t.entryOrder.Some?
    requires t'.entryOrder == Some(report) && t'.holds == t.holds + SettleCalls(report.status)
    ensures ShowsTrade(WithFill(o, t.id, Some(t.id), report), t')
  {
    hide ComposeKey, ExitKey;
  }

  lemma FillElsewhere(o: Asked, id: nat, report: Order)
    ensures SameElsewhere(o, WithFill(o, id, Some(id), report), id)
  {
  }

  lemma CloseShown(o: Asked, ts: seq<Trade>, id: nat, nth: nat, c: Config, report: Order)
    requires Shows(o, ts) && id < |ts| && AwaitsClose(c, ts[id], nth, report)
    ensures nth < |CallsOf(o.exits, id)| && CallsOf(o.exits, id) == ts[id].exitOrders && ts[id].id == id
    ensures Shows(WithClose(o, id, nth, report), ts[id := CloseDone(ts[id], nth, report)])
  {
    hide ComposeKey, ExitKey, Shows, SameElsewhere, ShowsTrade, WithClose, CloseDone, AwaitsClose;
    ShownAt(o, ts, id);
    CloseShownAt(o, ts[id], nth, c, report);
    ShowsUpdate(o, WithClose(o, id, nth, report), ts, id, CloseDone(ts[id], nth, report));
  }

  lemma CloseShownAt(o: Asked, t: Trade, nth: nat, c: Config, report: Order)
    requires ShowsTrade(o, t) && AwaitsClose(c, t, nth, report)
    ensures t.pos.Some? && nth < |t.exitOrders| && t.exitOrders == CallsOf(o.exits, t.id)
    ensures SameElsewhere(o, WithClose(o, t.id, nth, report), t.id)
    ensures CloseDone(t, nth, report).id == t.id
    ensures ShowsTrade(WithClose(o, t.id, nth, report), CloseDone(t, nth, report))
  {
    hide ComposeKey, ExitKey, SameElsewhere, WithClose, ShowsTrade, CloseDone, Trade.Key;
    CloseSettles(c, t, nth, report);
    ExitsShown(o, t);
    CloseElsewhere(o, t.id, nth, report);
    ClosedShown(o, t, CloseDone(t, nth, report), nth, report);
  }

  lemma CloseSettles(c: Config, t: Trade, nth: nat, report: Order)
    requires AwaitsClose(c, t, nth, report)
    ensures t.pos.Some? && nth < |t.exitOrders|
    ensures var done := CloseDone(t, nth, report);
            && done.id == t.id && done.Key() == t.Key() && done.entryOrder == t.entryOrder && done.holds == t.holds
            && done.exitOrders == t.exitOrders[nth := report]
  {
    hide ComposeKey, Advances;
  }

  lemma ClosedShown(o: Asked, t: Trade, t': Trade, nth: nat, report: Order)
    requires ShowsTrade(o, t) && t'.id == t.id && t'.Key() == t.Key() && t'.entryOrder == t.entryOrder
    requires t'.holds == t.holds
    requires nth < |t.exitOrders| && t'.exitOrders == t.exitOrders[nth := report]
    ensures ShowsTrade(WithClose(o, t.id, nth, report), t')
  {
    hide ComposeKey, ExitKey;
  }

  lemma CloseElsewhere(o: Asked, id: nat, nth: nat, report: Order)
    requires nth < |CallsOf(o.exits, id)|
    ensures SameElsewhere(o, WithClose(o, id, nth, report), id)
  {
  }

  // ---------------------------------------------------------------- one pass in plain figures

  /** The order the pass asks about for this trade was answered with o. */
  predicate EntryAnswer(t: Trade, reports: map<OrderId, Order>) {
    InState(t, PENDING_ENTRY) && EntryOrder(t.id) in reports
  }

  predicate ExitAnswer(t: Trade, reports: map<OrderId, Order>) {
    InState(t, EXITING) && t.pos.value.exitOrderId.Some? && t.pos.value.exitOrderId.value in reports
  }

  /** A filled entry opens the position with the reported figures, where there are any, and captures the hold; a dead
      one removes it and releases the hold. A filled exit removes the position and forgets its key; a dead one opens
      it again. Nothing else moves a position. */
  predicate PassTrade(t: Trade, reports: map<OrderId, Order>, t': Trade) {
    if EntryAnswer(t, reports) then
      var o, p := reports[EntryOrder(t.id)], t.pos.value;
      && t'.entryOrder == Some(o) && t'.exitOrders == t.exitOrders && t'.forgets == t.forgets
      && (match o.status
          case Complete =>
            && t'.pos == Some(p.(state := OPEN, quantity := o.filledQty.GetOr(p.quantity),
                                 entryPrice := o.filledPrice.GetOr(p.entryPrice)))
            && t'.holds == t.holds + [Captured]
          case Dead => t'.pos.None? && t'.holds == t.holds + [Released]
          case _ => t'.pos == t.pos && t'.holds == t.holds)
    else if ExitAnswer(t, reports) then
      var o, p := reports[t.pos.value.exitOrderId.value], t.pos.value;
      && t'.entryOrder == t.entryOrder && t'.holds == t.holds
      && t.exitOrders != [] && t'.exitOrders == t.exitOrders[|t.exitOrders| - 1 := o]
      && (match o.status
          case Complete => t'.pos.None? && t'.forgets == t.forgets + 1
          case Dead => t'.pos == Some(p.(state := OPEN, exitOrderId := None)) && t'.forgets == t.forgets
          case _ => t'.pos == t.pos && t'.forgets == t.forgets)
    else t' == t
  }

  /** The row shows the reported status and figures. */
  predicate PassRow(t: Trade, reports: map<OrderId, Order>, now: int, was: Row, r: Row) {
    if EntryAnswer(t, reports) then
      var o := reports[EntryOrder(t.id)];
      match o.status
      case Complete => r == was.(status := FILLED, filledQty := o.filledQty, filledPrice := o.filledPrice)
      case PartlyFilled => r == was.(status := PARTIALLY_FILLED, filledQty := o.filledQty, filledPrice := o.filledPrice)
      case Dead => r == was.(status := REJECTED)
      case Working => r == was
    else if ExitAnswer(t, reports) then
      var o := reports[t.pos.value.exitOrderId.value];
      match o.status
      case Complete =>
        r == was.(status := CLOSED, exitQty := o.filledQty, exitPrice := o.filledPrice, closedAt := Some(now))
      case PartlyFilled =>
        r == was.(status := EXIT_PARTIALLY_FILLED, exitQty := o.filledQty, exitPrice := o.filledPrice)
      case Dead => r == was.(status := EXIT_FAILED)
      case Working => r == was
    else r == was
  }

  /** `reconcile_once`, trade by trade and row by row. */
  ghost predicate Passed(s: State, m: State, reports: map<OrderId, Order>, now: int) {
    && |m.trades| == |s.trades| && TableOf(m).Keys == TableOf(s).Keys
    && forall id: nat :: id < |s.trades| ==>
         && PassTrade(s.trades[id], reports, m.trades[id])
         && (id in TableOf(s) ==> PassRow(s.trades[id], reports, now, TableOf(s)[id], TableOf(m)[id]))
  }

  lemma VisitIs(c: Config, t: Trade, reports: map<OrderId, Order>)
    requires CanVisit(c, t, reports)
    requires InState(t, EXITING) ==> t.exitOrders != []
    ensures PassTrade(t, reports, Visited(c, t, reports))
    ensures !InState(t, PENDING_ENTRY) && !InState(t, EXITING) ==> Visited(c, t, reports) == t
  {
    hide Advances, FillDone, CloseDone;
    if EntryAnswer(t, reports) {
      FillFigures(t, reports[EntryOrder(t.id)]);
    } else if ExitAnswer(t, reports) {
      CloseFigures(t, Current(t), reports[t.pos.value.exitOrderId.value]);
    }
  }

  lemma FillFigures(t: Trade, o: Order)
    requires t.pos.Some?
    ensures var done, p := FillDone(t, o), t.pos.value;
            && done.entryOrder == Some(o) && done.exitOrders == t.exitOrders && done.forgets == t.forgets
            && (match o.status
                case Complete =>
                  && done.pos == Some(p.(state := OPEN, quantity := o.filledQty.GetOr(p.quantity),
                                         entryPrice := o.filledPrice.GetOr(p.entryPrice)))
                  && done.holds == t.holds + [Captured]
                case Dead => done.pos.None? && done.holds == t.holds + [Released]
                case _ => done.pos == t.pos && done.holds == t.holds)
  {
  }

  lemma CloseFigures(t: Trade, nth: nat, o: Order)
    requires t.pos.Some? && nth < |t.exitOrders|
    ensures var done, p := CloseDone(t, nth, o), t.pos.value;
            && done.entryOrder == t.entryOrder && done.holds == t.holds && done.exitOrders == t.exitOrders[nth := o]
            && (match o.status
                case Complete => done.pos.None? && done.forgets == t.forgets + 1
                case Dead => done.pos == Some(p.(state := OPEN, exitOrderId := None)) && done.forgets == t.forgets
                case _ => done.pos == t.pos && done.forgets == t.forgets)
  {
  }

  lemma VisitRowIs(t: Trade, reports: map<OrderId, Order>, now: int)
    ensures var tasks := VisitTasks(t, reports, now);
            if tasks == [] then forall was: Row :: PassRow(t, reports, now, was, was)
            else
              && |tasks| == 1 && tasks[0].Update? && tasks[0].id == t.id
              && forall was: Row :: PassRow(t, reports, now, was, tasks[0].fields.Apply(was))
    ensures VisitTasks(t, reports, now) != [] ==> InState(t, PENDING_ENTRY) || InState(t, EXITING)
  {
  }

  /** The log holds the write of each visit that makes one, and no other. */
  ghost predicate LogsVisits(ts: seq<Trade>, order: seq<nat>, reports: map<OrderId, Order>, now: int, log: seq<Task>) {
    && UpdatesApart(log)
    && (forall j :: 0 <= j < |log| ==>
          log[j].id in order && log[j].id < |ts| && VisitTasks(ts[log[j].id], reports, now) == [log[j]])
    && forall id :: id in order && id < |ts| && VisitTasks(ts[id], reports, now) != [] ==>
         exists j :: 0 <= j < |log| && log[j].id == id
  }

  lemma OneMoreLogged(ts: seq<Trade>, order: seq<nat>, last: nat, reports: map<OrderId, Order>, now: int,
                      log: seq<Task>)
    requires LogsVisits(ts, order, reports, now, log) && last !in order && last < |ts| && ts[last].id == last
    ensures LogsVisits(ts, order + [last], reports, now, log + VisitTasks(ts[last], reports, now))
  {
    hide VisitTasks, PassRow;
    VisitRowIs(ts[last], reports, now);
    var tasks := VisitTasks(ts[last], reports, now);
    if tasks == [] {
      assert log + tasks == log;
    } else {
      assert tasks == [tasks[0]];
      forall id | id in order + [last] && id < |ts| && VisitTasks(ts[id], reports, now) != []
        ensures exists j :: 0 <= j < |log + tasks| && (log + tasks)[j].id == id
      {
        if id == last {
          assert (log + tasks)[|log|].id == id;
        } else {
          var j :| 0 <= j < |log| && log[j].id == id;
          assert (log + tasks)[j].id == id;
        }
      }
    }
  }

  lemma {:induction false} VisitLogIs(ts: seq<Trade>, order: seq<nat>, reports: map<OrderId, Order>, now: int)
    requires forall k :: 0 <= k < |order| ==> order[k] < |ts| && ts[order[k]].id == order[k]
    requires forall k, l :: 0 <= k < l < |order| ==> order[k] != order[l]
    ensures LogsVisits(ts, order, reports, now, VisitLog(ts, order, reports, now))
    decreases |order|
  {
    hide VisitTasks, PassRow;
    if order != [] {
      var init, last := order[..|order| - 1], order[|order| - 1];
      VisitLogIs(ts, init, reports, now);
      OneMoreLogged(ts, init, last, reports, now, VisitLog(ts, init, reports, now));
      assert order == init + [last];
    }
  }

  /** Rows before and after such a log. */
  lemma RowPassed(s: State, m: State, ids: set<nat>, order: seq<nat>, reports: map<OrderId, Order>, now: int,
                  log: seq<Task>, id: nat)
    requires Reachable(s) && m.log == s.log + log && LogsVisits(s.trades, order, reports, now, log)
    requires ListsIds(order, ids) && id < |s.trades| && s.trades[id].id == id && id in TableOf(s)
    requires InState(s.trades[id], PENDING_ENTRY) || InState(s.trades[id], EXITING) ==> id in ids
    ensures TableOf(m).Keys == TableOf(s).Keys && PassRow(s.trades[id], reports, now, TableOf(s)[id], TableOf(m)[id])
  {
    hide Reachable, VisitTasks, PassRow, TableOf, UpdatesApart, InState;
    TableUpdated(s, m, log);
    VisitRowIs(s.trades[id], reports, now);
    if VisitTasks(s.trades[id], reports, now) != [] {
      var j :| 0 <= j < |log| && log[j].id == id;
    } else {
      assert forall j :: 0 <= j < |log| ==> log[j].id != id;
    }
  }

  lemma PassOutcome(s: State, m: State, ids: set<nat>, order: seq<nat>, reports: map<OrderId, Order>, now: int)
    requires Reachable(s) && AllQuiet(s.trades) && Truthful(s.trades, reports) && ids == B.Busy(R.BookOf(s.trades))
    requires forall i :: 0 <= i < |s.trades| ==> CanVisit(s.config, s.trades[i], reports)
    requires ListsIds(order, ids) && m.trades == Toured(s.config, s.trades, ids, reports)
    requires (forall k :: 0 <= k < |order| ==> order[k] < |s.trades|)
             && m.log == s.log + VisitLog(s.trades, order, reports, now)
    ensures Passed(s, m, reports, now)
  {
    hide Reachable, AllQuiet, Truthful, CanVisit, Visited, VisitLog, PassTrade, PassRow, TableOf, LogsVisits, ListsIds;
    var log := VisitLog(s.trades, order, reports, now);
    AllAtTheirIndex(s);
    assert forall k, l :: 0 <= k < l < |order| ==> order[k] != order[l] by { EachOnce(order, ids); }
    VisitLogIs(s.trades, order, reports, now);
    LogKeepsKeys(s, m, order, reports, now, log);
    forall id: nat | id < |s.trades|
      ensures PassTrade(s.trades[id], reports, m.trades[id])
      ensures id in TableOf(s) ==> PassRow(s.trades[id], reports, now, TableOf(s)[id], TableOf(m)[id])
    {
      QuietCanBeVisited(s, id, reports);
      VisitIs(s.config, s.trades[id], reports);
      if id in TableOf(s) { RowPassed(s, m, ids, order, reports, now, log, id); }
    }
  }

  lemma AllAtTheirIndex(s: State)
    requires Reachable(s)
    ensures forall i :: 0 <= i < |s.trades| ==> s.trades[i].id == i
  {
    hide Reachable;
    forall i: nat | i < |s.trades|
      ensures s.trades[i].id == i
    {
      R.IdIsIndex(s, i);
    }
  }

  lemma EachOnce(order: seq<nat>, ids: set<nat>)
    requires ListsIds(order, ids)
    ensures forall k, l :: 0 <= k < l < |order| ==> order[k] != order[l]
  {
  }

  lemma LogKeepsKeys(s: State, m: State, order: seq<nat>, reports: map<OrderId, Order>, now: int, log: seq<Task>)
    requires Reachable(s) && m.log == s.log + log && LogsVisits(s.trades, order, reports, now, log)
    ensures TableOf(m).Keys == TableOf(s).Keys
  {
    hide Reachable, VisitTasks, TableOf, UpdatesApart;
    TableUpdated(s, m, log);
  }
}
