/** The services on the other side: a broker and a cash account that remember what they were asked.
    Whether a call succeeds, and what the broker reports, is decided outside. */
module Clients {
  import opened Domain
  import opened IdempotencyKeys
  import opened Lifecycle

  function CallsOf<T>(log: map<nat, seq<T>>, id: nat): seq<T> {
    if id in log then log[id] else []
  }

  class CashClient {
    var holds: map<nat, seq<HoldCall>>   // by hold; a hold is named after its trade

    constructor ()
      ensures holds == map[]
    {
      holds := map[];
    }

    method Call(hold: nat, call: HoldCall)
      modifies this
      ensures holds == old(holds)[hold := CallsOf(old(holds), hold) + [call]]
    {
      holds := holds[hold := CallsOf(holds, hold) + [call]];
    }
  }

  class AlpacaBroker {
    var entries: map<nat, Order>
    var exits: map<nat, seq<Order>>
    var clientIds: map<OrderId, string>

    constructor ()
      ensures entries == map[] && exits == map[] && clientIds == map[]
    {
      entries, exits, clientIds := map[], map[], map[];
    }

    /** `submit_order` for an entry; None is a BrokerError. */
    method SubmitEntry(trade: nat, quantity: real, side: Side, clientId: string, accepted: bool)
        returns (id: Option<OrderId>)
      modifies this
      ensures exits == old(exits) && id == if accepted then Some(EntryOrder(trade)) else None
      ensures entries == if accepted then old(entries)[trade := Order(side, quantity)] else old(entries)
      ensures clientIds == if accepted then old(clientIds)[EntryOrder(trade) := clientId] else old(clientIds)
    {
      if !accepted {
        return None;
      }
      entries, clientIds := entries[trade := Order(side, quantity)], clientIds[EntryOrder(trade) := clientId];
      return Some(EntryOrder(trade));
    }

    /** `submit_order` for an exit. */
    method SubmitExit(trade: nat, quantity: real, side: Side, clientId: string, accepted: bool)
        returns (id: Option<OrderId>)
      modifies this
      ensures var n := |CallsOf(old(exits), trade)|;
              && entries == old(entries) && id == (if accepted then Some(ExitOrder(trade, n)) else None)
              && exits == (if accepted then old(exits)[trade := CallsOf(old(exits), trade) + [Order(side, quantity)]]
                           else old(exits))
              && clientIds == (if accepted then old(clientIds)[ExitOrder(trade, n) := clientId] else old(clientIds))
    {
      if !accepted {
        return None;
      }
      var id' := ExitOrder(trade, |CallsOf(exits, trade)|);
      exits, clientIds := exits[trade := CallsOf(exits, trade) + [Order(side, quantity)]], clientIds[id' := clientId];
      return Some(id');
    }

    predicate Known(id: OrderId)
      reads this
    {
      match id
      case EntryOrder(trade) => trade in entries
      case ExitOrder(trade, n) => n < |CallsOf(exits, trade)|
    }

    function OrderOf(id: OrderId): Order
      requires Known(id)
      reads this
    {
      match id
      case EntryOrder(trade) => entries[trade]
      case ExitOrder(trade, n) => exits[trade][n]
    }

    /** `get_order`: the order may have moved on since it was last seen. */
    method GetOrder(id: OrderId, report: Order)
      requires Known(id) && Advances(OrderOf(id), report)
      modifies this
      ensures clientIds == old(clientIds)
      ensures entries == if id.EntryOrder? then old(entries)[id.trade := report] else old(entries)
      ensures exits == if id.ExitOrder? then old(exits)[id.trade := CallsOf(old(exits), id.trade)[id.nth := report]]
              else old(exits)
    {
      match id
      case EntryOrder(trade) => entries := entries[trade := report];
      case ExitOrder(trade, n) => exits := exits[trade := exits[trade][n := report]];
    }
  }

  /** All that the two services have been asked. */
  datatype Asked = Asked(entries: map<nat, Order>, exits: map<nat, seq<Order>>, clientIds: map<OrderId, string>,
                         holds: map<nat, seq<HoldCall>>)

  /** A trade's orders and hold calls are exactly those the services know, under its client order ids. */
  predicate ShowsTrade(o: Asked, t: Trade) {
    && t.entryOrder == (if t.id in o.entries then Some(o.entries[t.id]) else None)
    && t.exitOrders == CallsOf(o.exits, t.id) && t.holds == CallsOf(o.holds, t.id)
    && (t.entryOrder.Some? ==> EntryOrder(t.id) in o.clientIds && o.clientIds[EntryOrder(t.id)] == t.Key())
    && (forall n: nat :: n < |t.exitOrders| ==>
          ExitOrder(t.id, n) in o.clientIds && o.clientIds[ExitOrder(t.id, n)] == ExitKey(t.Key()))
  }

  predicate Shows(o: Asked, ts: seq<Trade>) {
    && (forall i :: 0 <= i < |ts| ==> ts[i].id == i && ShowsTrade(o, ts[i]))
    && (forall id :: id in o.entries ==> id < |ts|)
    && (forall id :: id in o.exits ==> id < |ts|)
    && (forall id :: id in o.holds ==> id < |ts|)
  }

  /** Nothing was asked about any other trade. */
  ghost predicate SameElsewhere(o: Asked, o': Asked, id: nat) {
    && (forall j :: j != id ==>
        (j in o.entries <==> j in o'.entries) && (j in o.entries ==> o'.entries[j] == o.entries[j]))
    && (forall j :: j != id ==> (j in o.exits <==> j in o'.exits) && (j in o.exits ==> o'.exits[j] == o.exits[j]))
    && (forall j :: j != id ==> (j in o.holds <==> j in o'.holds) && (j in o.holds ==> o'.holds[j] == o.holds[j]))
    && (forall k :: k in o.clientIds && k.trade != id ==> k in o'.clientIds && o'.clientIds[k] == o.clientIds[k])
  }

  lemma ShownAt(o: Asked, ts: seq<Trade>, id: nat)
    requires Shows(o, ts) && id < |ts|
    ensures ts[id].id == id && ShowsTrade(o, ts[id])
  {
  }

  lemma OtherShown(o: Asked, o': Asked, id: nat, t: Trade)
    requires SameElsewhere(o, o', id) && ShowsTrade(o, t) && t.id != id
    ensures ShowsTrade(o', t)
  {
    hide ExitKey, ComposeKey;
  }

  lemma ShowsUpdate(o: Asked, o': Asked, ts: seq<Trade>, id: nat, t: Trade)
    requires Shows(o, ts) && SameElsewhere(o, o', id) && id < |ts| && t.id == id && ShowsTrade(o', t)
    ensures Shows(o', ts[id := t])
  {
    hide ShowsTrade;
    forall i | 0 <= i < |ts| && i != id
      ensures ShowsTrade(o', ts[i])
    {
      OtherShown(o, o', id, ts[i]);
    }
    Bounded(o, o', |ts|, id);
  }

  lemma Bounded(o: Asked, o': Asked, n: nat, id: nat)
    requires SameElsewhere(o, o', id) && id < n
    requires forall j :: j in o.entries || j in o.exits || j in o.holds ==> j < n
    ensures forall j :: j in o'.entries || j in o'.exits || j in o'.holds ==> j < n
  {
  }

  lemma ShowsAppend(o: Asked, o': Asked, ts: seq<Trade>, t: Trade)
    requires Shows(o, ts) && SameElsewhere(o, o', |ts|) && t.id == |ts| && ShowsTrade(o', t)
    ensures Shows(o', ts + [t])
  {
    hide ShowsTrade;
    forall i | 0 <= i < |ts|
      ensures ShowsTrade(o', ts[i])
    {
      OtherShown(o, o', |ts|, ts[i]);
    }
    Bounded(o, o', |ts| + 1, |ts|);
  }
}
