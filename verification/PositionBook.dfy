/** The position book: mutable position records in one dictionary per symbol. */
module PositionBooks {
  import opened Domain

  class Position {
    const tradeId: nat
    const symbol: string
    const kind: PositionType
    const sellPrice: Option<real>
    const isPaper: bool
    const key: string
    const brokerOrderId: Option<OrderId>
    const holdId: Option<nat>
    var quantity: real
    var entryPrice: real
    var exitOrderId: Option<OrderId>
    var state: PositionState

    constructor (p: Pos)
      ensures Value() == p && tradeId == p.tradeId && symbol == p.symbol
    {
      tradeId, symbol, kind, sellPrice, isPaper := p.tradeId, p.symbol, p.kind, p.sellPrice, p.isPaper;
      key, brokerOrderId, holdId := p.key, p.brokerOrderId, p.holdId;
      quantity, entryPrice, exitOrderId, state := p.quantity, p.entryPrice, p.exitOrderId, p.state;
    }

    function Value(): Pos
      reads this
    {
      Pos(tradeId, symbol, kind, quantity, entryPrice, sellPrice, isPaper, key, brokerOrderId, exitOrderId, holdId,
          state)
    }

    /** `exit_triggered`. */
    predicate ExitTriggered(price: real) {
      if sellPrice.None? then false
      else if kind.Long? then price >= sellPrice.value
      else price <= sellPrice.value
    }
  }

  /** What `claim_exits` looks for. */
  predicate Claimable(p: Pos, symbol: string, price: real) {
    p.symbol == symbol && p.state.OPEN? && p.Triggered(price)
  }

  function TriggeredIds(vs: map<nat, Pos>, symbol: string, price: real): set<nat> {
    set id | id in vs && Claimable(vs[id], symbol, price)
  }

  function Opens(vs: map<nat, Pos>): set<nat> {
    set id | id in vs && vs[id].state.OPEN?
  }

  /** Pending or exiting. */
  function Busy(vs: map<nat, Pos>): set<nat> {
    set id | id in vs && !vs[id].state.OPEN?
  }

  function Claim(p: Pos): Pos {
    p.(state := EXITING)
  }

  type Buckets = map<string, map<nat, Position>>

  /** No bucket is empty, every bucket holds its own symbol under the right ids, and together they are
      the flat map: each trade id is filed once. */
  ghost predicate Filed(m: Buckets, flat: map<nat, Position>) {
    && (forall s :: s in m ==> m[s] != map[])
    && (forall s, id :: s in m && id in m[s] ==> id in flat && flat[id] == m[s][id] && flat[id].symbol == s)
    && (forall id :: id in flat ==> flat[id].tradeId == id && flat[id].symbol in m && id in m[flat[id].symbol])
  }

  function Bucket(m: Buckets, symbol: string): map<nat, Position> {
    if symbol in m then m[symbol] else map[]
  }

  lemma FiledOpen(m: Buckets, flat: map<nat, Position>, p: Position)
    requires Filed(m, flat) && (p.tradeId in flat ==> flat[p.tradeId].symbol == p.symbol)
    ensures Filed(m[p.symbol := Bucket(m, p.symbol)[p.tradeId := p]], flat[p.tradeId := p])
  {
    var b := Bucket(m, p.symbol)[p.tradeId := p];
    assert p.tradeId in b;
    assert b != map[];
  }

  lemma FiledRemove(m: Buckets, flat: map<nat, Position>, p: Position)
    requires Filed(m, flat)
    ensures var b, alike := Bucket(m, p.symbol) - {p.tradeId}, p.tradeId in flat ==> flat[p.tradeId].symbol == p.symbol;
            Filed(if b == map[] then m - {p.symbol} else m[p.symbol := b], if alike then flat - {p.tradeId} else flat)
  {
    var b := Bucket(m, p.symbol) - {p.tradeId};
    if p.tradeId in flat && flat[p.tradeId].symbol != p.symbol {
      assert p.tradeId !in Bucket(m, p.symbol);
      assert b == Bucket(m, p.symbol);
      assert (if b == map[] then m - {p.symbol} else m[p.symbol := b]) == m;
    } else if b == map[] {
      forall id | id in flat - {p.tradeId}
        ensures flat[id].symbol != p.symbol
      {
        assert flat[id].symbol == p.symbol ==> id in b;
      }
    }
  }

  /** An id filed under two symbols breaks the index. */
  lemma FiledTwice(m: Buckets, flat: map<nat, Position>, p: Position)
    requires Filed(m, flat) && p.tradeId in flat && flat[p.tradeId].symbol != p.symbol
    ensures !Filed(m[p.symbol := Bucket(m, p.symbol)[p.tradeId := p]], flat[p.tradeId := p])
  {
    var was, m' := flat[p.tradeId].symbol, m[p.symbol := Bucket(m, p.symbol)[p.tradeId := p]];
    assert was in m' && p.tradeId in m'[was];
    assert flat[p.tradeId := p][p.tradeId].symbol != was;
  }

  /** Some positions of the book under their ids. */
  predicate IsBucket(bucket: map<nat, Position>, flat: map<nat, Position>) {
    forall id :: id in bucket ==> id in flat && bucket[id] == flat[id] && flat[id].tradeId == id
  }

  /** The ids filed under these symbols. */
  ghost function InSymbols(flat: map<nat, Position>, symbols: set<string>): set<nat> {
    set id | id in flat && flat[id].symbol in symbols
  }

  lemma NoSymbols(flat: map<nat, Position>)
    ensures InSymbols(flat, {}) == {}
  {
  }

  lemma OneSymbolLess(m: Buckets, flat: map<nat, Position>, symbols: set<string>, s: string)
    requires Filed(m, flat) && s in symbols && symbols <= m.Keys
    ensures InSymbols(flat, symbols) == InSymbols(flat, symbols - {s}) + m[s].Keys
    ensures |InSymbols(flat, symbols)| == |InSymbols(flat, symbols - {s})| + |m[s]|
  {
    assert InSymbols(flat, symbols - {s}) !! m[s].Keys;
    assert |m[s].Keys| == |m[s]|;
  }

  lemma AllSymbols(m: Buckets, flat: map<nat, Position>)
    requires Filed(m, flat)
    ensures InSymbols(flat, m.Keys) == flat.Keys
  {
  }

  lemma TriggeredInBucket(m: Buckets, flat: map<nat, Position>, was: map<nat, Pos>, symbol: string, price: real)
    requires Filed(m, flat) && Flipped(was, flat, {})
    ensures TriggeredIds(was, symbol, price) <= Bucket(m, symbol).Keys
    ensures forall id :: id in Bucket(m, symbol) ==>
              id in flat && Bucket(m, symbol)[id] == flat[id] && flat[id].tradeId == id && flat[id].symbol == symbol
  {
  }

  class PositionBook {
    var bySymbol: Buckets
    ghost var flat: map<nat, Position>   // the same positions by trade id

    ghost predicate Valid()
      reads this
    {
      Filed(bySymbol, flat)
    }

    /** What the book holds: each trade id with the fields of its position. */
    ghost function Values(): (vs: map<nat, Pos>)
      reads this, flat.Values
      ensures vs.Keys == flat.Keys
    {
      map id | id in flat :: flat[id].Value()
    }

    /** The position is one of the book's. */
    ghost predicate Has(p: Position)
      reads this
    {
      Valid() && p.tradeId in flat && flat[p.tradeId] == p
    }

    constructor ()
      ensures Valid() && flat == map[] && Values() == map[]
    {
      bySymbol, flat := map[], map[];
    }

    /** `len`: the number of positions. */
    method Len() returns (n: nat)
      requires Valid()
      ensures n == |flat|
    {
      hide Filed, InSymbols;
      n := 0;
      var left := bySymbol.Keys;
      AllSymbols(bySymbol, flat);
      assert |flat.Keys| == |flat|;
      while left != {}
        invariant left <= bySymbol.Keys
        invariant n + |InSymbols(flat, left)| == |flat|
        decreases |left|
      {
        var s :| s in left;
        OneSymbolLess(bySymbol, flat, left, s);
        n := n + |bySymbol[s]|;
        left := left - {s};
      }
      NoSymbols(flat);
    }

    /** Is the position's id free, or filed under the position's own symbol? */
    ghost predicate FiledAlike(p: Position)
      reads this
    {
      p.tradeId in flat ==> flat[p.tradeId].symbol == p.symbol
    }

    /** `open`: add the position to its symbol's bucket, or replace the one of the same trade there. The book
        stays an index unless the id is already filed under another symbol. */
    method Open(p: Position)
      requires Valid()
      modifies this
      ensures bySymbol == old(bySymbol)[p.symbol := Bucket(old(bySymbol), p.symbol)[p.tradeId := p]]
      ensures flat == old(flat)[p.tradeId := p]
      ensures Valid() <==> old(FiledAlike(p))
      ensures old(FiledAlike(p)) ==> Values() == old(Values())[p.tradeId := p.Value()]
    {
      hide Filed, Position.Value;
      if FiledAlike(p) {
        FiledOpen(bySymbol, flat, p);
      } else {
        FiledTwice(bySymbol, flat, p);
      }
      var bucket := Bucket(bySymbol, p.symbol);
      bySymbol := bySymbol[p.symbol := bucket[p.tradeId := p]];
      flat := flat[p.tradeId := p];
    }

    /** `remove`: drop the position from its symbol's bucket, and the bucket with the last one; nothing if the
        id is not there, or filed under another symbol. */
    method Remove(p: Position)
      requires Valid()
      modifies this
      ensures Valid()
      ensures flat == (if old(FiledAlike(p)) then old(flat) - {p.tradeId} else old(flat))
      ensures Values() == (if old(FiledAlike(p)) then old(Values()) - {p.tradeId} else old(Values()))
    {
      hide Filed, Position.Value;
      FiledRemove(bySymbol, flat, p);
      if p.symbol in bySymbol {
        var bucket := bySymbol[p.symbol] - {p.tradeId};
        bySymbol := if bucket == map[] then bySymbol - {p.symbol} else bySymbol[p.symbol := bucket];
      } else {
        assert bySymbol - {p.symbol} == bySymbol;
      }
      flat := if FiledAlike(p) then flat - {p.tradeId} else flat;
    }

    /** `mark_open`. */
    method MarkOpen(p: Position)
      modifies p`state
      ensures p.Value() == old(p.Value()).(state := OPEN)
      ensures old(Has(p)) ==> Has(p) && Values() == old(Values())[p.tradeId := p.Value()]
    {
      hide Filed, Values;
      ghost var was := Values();
      if Has(p) { Apart(p); }
      p.state := OPEN;
      if old(Has(p)) { OneChanged(was, p); }
    }

    /** `release_exit`. */
    method ReleaseExit(p: Position)
      modifies p`state, p`exitOrderId
      ensures p.Value() == old(p.Value()).(state := OPEN, exitOrderId := None)
      ensures old(Has(p)) ==> Has(p) && Values() == old(Values())[p.tradeId := p.Value()]
    {
      hide Filed, Values;
      ghost var was := Values();
      if Has(p) { Apart(p); }
      p.state := OPEN;
      p.exitOrderId := None;
      if old(Has(p)) { OneChanged(was, p); }
    }

    /** No other id names the same position. */
    lemma Apart(p: Position)
      requires Has(p)
      ensures forall id :: id in flat && id != p.tradeId ==> flat[id] != p
      ensures forall id :: id in flat ==> Values()[id] == flat[id].Value()
    {
    }

    /** When only one position has changed, the others are as they were. */
    lemma OneChanged(was: map<nat, Pos>, p: Position)
      requires Has(p) && was.Keys == flat.Keys
      requires forall id :: id in flat && id != p.tradeId ==> was[id] == flat[id].Value()
      ensures Values() == was[p.tradeId := p.Value()]
    {
    }

    lemma NotOpen(p: Position)
      requires Valid() && p.tradeId in flat && flat[p.tradeId] == p
      ensures p.tradeId in Busy(Values()) <==> p.state != OPEN
    {
    }

    lemma NoneClaimed()
      requires Valid()
      ensures Flipped(Values(), flat, {}) && Enumerates([], flat, {})
      ensures Opens(Values()) <= flat.Keys && Busy(Values()) <= flat.Keys
    {
    }

    lemma ValueOf(p: Position)
      requires Has(p)
      ensures p.tradeId in Values() && Values()[p.tradeId := p.Value()] == Values()
      ensures Values()[p.tradeId] == p.Value()
      ensures p.Value().symbol == p.symbol && p.Value().entryPrice == p.entryPrice
    {
    }

    /** The assignment of `exit_broker_order_id`. */
    method StoreExit(p: Position, order: OrderId)
      requires Has(p)
      modifies p`exitOrderId
      ensures Has(p) && p.Value() == old(p.Value()).(exitOrderId := Some(order))
      ensures Values() == old(Values())[p.tradeId := p.Value()]
    {
      hide Filed, Values;
      ghost var was := Values();
      Apart(p);
      p.exitOrderId := Some(order);
      OneChanged(was, p);
    }

    /** The assignments of `quantity` and `entry_price`; a missing figure leaves the field alone. */
    method StoreFill(p: Position, quantity: Option<real>, price: Option<real>)
      requires Has(p)
      modifies p`quantity, p`entryPrice
      ensures Has(p)
      ensures var was := old(p.Value());
              p.Value() == was.(quantity := quantity.GetOr(was.quantity), entryPrice := price.GetOr(was.entryPrice))
      ensures Values() == old(Values())[p.tradeId := p.Value()]
    {
      hide Filed, Values;
      ghost var was := Values();
      Apart(p);
      if quantity.Some? {
        p.quantity := quantity.value;
      }
      if price.Some? {
        p.entryPrice := price.value;
      }
      OneChanged(was, p);
    }

    /** `claim_exits`: exactly the open positions of the symbol whose target is reached are flipped to
        EXITING and returned, each once; nothing else changes. */
    method ClaimExits(symbol: string, price: real) returns (claimed: seq<Position>)
      requires Valid()
      modifies flat.Values`state
      ensures Flipped(old(Values()), flat, TriggeredIds(old(Values()), symbol, price))
      ensures Enumerates(claimed, flat, TriggeredIds(old(Values()), symbol, price))
      ensures AtTargetClaimed(old(Values()), flat, claimed, symbol, price)
    {
      hide Filed, Bucket, TriggeredIds, Flipped, Enumerates, Values, Position.Value, Position.ExitTriggered, Sifted,
           AtTargetClaimed;
      claimed := [];
      ghost var ids: set<nat> := {};
      var bucket := Bucket(bySymbol, symbol);
      var left := bucket.Keys;
      ghost var was := Values();
      ghost var wanted := TriggeredIds(was, symbol, price);
      NoneClaimed();
      TriggeredInBucket(bySymbol, flat, was, symbol, price);
      assert {} + left == left;
      SiftNone(wanted, {}, left);
      while left != {}
        invariant left <= bucket.Keys && Sifted(wanted, ids, {}, left)
        invariant Flipped(was, flat, ids) && Enumerates(claimed, flat, ids)
        decreases |left|
      {
        var id :| id in left;
        var p := bucket[id];
        SiftOne(wanted, ids, {}, left, id);
        Unclaimed(was, flat, ids, p, symbol, price);
        if p.state == OPEN && p.ExitTriggered(price) {
          claimed, ids := ClaimOne(p, claimed, was, flat, ids);
        }
        left := left - {id};
      }
      SiftAll(wanted, ids);
      ClaimedAtTarget(was, flat, claimed, symbol, price);
    }

    /** `claim_all_open`: exactly the open positions are flipped to EXITING and returned, each once. */
    method ClaimAllOpen() returns (claimed: seq<Position>)
      requires Valid()
      modifies flat.Values`state
      ensures Flipped(old(Values()), flat, Opens(old(Values()))) && Enumerates(claimed, flat, Opens(old(Values())))
    {
      hide Filed, IsBucket, Opens, Busy, Flipped, Enumerates, Values, InSymbols, Sifted;
      claimed := [];
      ghost var ids: set<nat> := {};
      var left := bySymbol.Keys;
      ghost var was := Values();
      ghost var wanted := Opens(was);
      NoneClaimed();
      AllSymbols(bySymbol, flat);
      SiftNone(wanted, InSymbols(flat, left), {});
      while left != {}
        invariant left <= bySymbol.Keys && Sifted(wanted, ids, InSymbols(flat, left), {})
        invariant Flipped(was, flat, ids) && Enumerates(claimed, flat, ids)
        decreases |left|
      {
        var symbol :| symbol in left;
        SiftSymbol(bySymbol, flat, left, symbol, wanted, ids);
        left := left - {symbol};
        claimed, ids := ClaimOpenIn(bySymbol[symbol], claimed, was, flat, ids, InSymbols(flat, left));
      }
      NoSymbols(flat);
      SiftAll(wanted, ids);
    }

    /** The inner loop of `claim_all_open`: one bucket. */
    static method ClaimOpenIn(bucket: map<nat, Position>, before: seq<Position>, ghost was: map<nat, Pos>,
                              ghost flat: map<nat, Position>, ghost idsBefore: set<nat>, ghost others: set<nat>)
      returns (claimed: seq<Position>, ghost ids: set<nat>)
      requires IsBucket(bucket, flat) && others !! bucket.Keys && Sifted(Opens(was), idsBefore, others, bucket.Keys)
      requires Flipped(was, flat, idsBefore) && Enumerates(before, flat, idsBefore)
      modifies bucket.Values`state
      ensures Sifted(Opens(was), ids, others, {})
      ensures Flipped(was, flat, ids) && Enumerates(claimed, flat, ids)
    {
      hide Opens, Busy, Flipped, Enumerates, Sifted, Position.Value;
      claimed, ids := before, idsBefore;
      var left := bucket.Keys;
      while left != {}
        invariant left <= bucket.Keys && Sifted(Opens(was), ids, others, left)
        invariant Flipped(was, flat, ids) && Enumerates(claimed, flat, ids)
        decreases |left|
      {
        var id :| id in left;
        var p := bucket[id];
        SiftOne(Opens(was), ids, others, left, id);
        Unclaimed(was, flat, ids, p, p.symbol, 0.0);
        if p.state == OPEN {
          claimed, ids := ClaimOne(p, claimed, was, flat, ids);
        }
        left := left - {id};
      }
    }

    /** `pending_and_exiting`: exactly the positions that are not open, each once. */
    method PendingAndExiting() returns (found: seq<Position>)
      requires Valid()
      ensures Enumerates(found, flat, Busy(Values()))
    {
      hide Filed, IsBucket, Opens, Busy, Enumerates, Flipped, Values, Position.Value, InSymbols, Sifted;
      found := [];
      ghost var ids: set<nat> := {};
      var left := bySymbol.Keys;
      ghost var wanted := Busy(Values());
      NoneClaimed();
      AllSymbols(bySymbol, flat);
      SiftNone(wanted, InSymbols(flat, left), {});
      while left != {}
        invariant left <= bySymbol.Keys && Sifted(wanted, ids, InSymbols(flat, left), {})
        invariant Enumerates(found, flat, ids)
        decreases |left|
      {
        var symbol :| symbol in left;
        SiftSymbol(bySymbol, flat, left, symbol, wanted, ids);
        left := left - {symbol};
        found, ids := ListIn(bySymbol[symbol], found, ids, InSymbols(flat, left));
      }
      NoSymbols(flat);
      SiftAll(wanted, ids);
    }

    /** The inner loop of `pending_and_exiting`: one bucket. */
    method ListIn(bucket: map<nat, Position>, before: seq<Position>, ghost idsBefore: set<nat>, ghost others: set<nat>)
      returns (found: seq<Position>, ghost ids: set<nat>)
      requires Valid() && IsBucket(bucket, flat) && others !! bucket.Keys && Enumerates(before, flat, idsBefore)
      requires Sifted(Busy(Values()), idsBefore, others, bucket.Keys)
      ensures Sifted(Busy(Values()), ids, others, {}) && Enumerates(found, flat, ids)
    {
      hide Filed, Opens, Busy, Enumerates, Values, Sifted, Position.Value;
      found, ids := before, idsBefore;
      var left := bucket.Keys;
      ghost var wanted := Busy(Values());
      while left != {}
        invariant left <= bucket.Keys && Sifted(wanted, ids, others, left) && Enumerates(found, flat, ids)
        decreases |left|
      {
        var id :| id in left;
        var p := bucket[id];
        SiftOne(wanted, ids, others, left, id);
        NotOpen(p);
        if p.state != OPEN {
          EnumeratesMore(found, flat, ids, p);
          found, ids := found + [p], ids + {id};
        }
        left := left - {id};
      }
    }

    /** Flip a position to EXITING and append it to the claimed ones. */
    static method ClaimOne(p: Position, claimed: seq<Position>, ghost was: map<nat, Pos>,
                           ghost flat: map<nat, Position>, ghost ids: set<nat>)
      returns (more: seq<Position>, ghost moreIds: set<nat>)
      requires Flipped(was, flat, ids) && Enumerates(claimed, flat, ids)
      requires p.tradeId in flat && flat[p.tradeId] == p && p.tradeId !in ids
      modifies p`state
      ensures moreIds == ids + {p.tradeId} && Flipped(was, flat, moreIds) && Enumerates(more, flat, moreIds)
    {
      EnumeratesMore(claimed, flat, ids, p);
      p.state := EXITING;
      more, moreIds := claimed + [p], ids + {p.tradeId};
    }
  }

  /** Every position is as it was, except that those of these ids are EXITING. */
  ghost predicate Flipped(was: map<nat, Pos>, flat: map<nat, Position>, ids: set<nat>)
    reads flat.Values
  {
    && was.Keys == flat.Keys
    && forall id :: id in flat ==>
         flat[id].tradeId == id && flat[id].Value() == if id in ids then Claim(was[id]) else was[id]
  }

  lemma Unclaimed(was: map<nat, Pos>, flat: map<nat, Position>, ids: set<nat>, p: Position, symbol: string, price: real)
    requires Flipped(was, flat, ids) && p.tradeId in flat && flat[p.tradeId] == p && p.tradeId !in ids
    requires p.symbol == symbol
    ensures p.tradeId in TriggeredIds(was, symbol, price) <==> p.state == OPEN && p.ExitTriggered(price)
    ensures p.tradeId in Opens(was) <==> p.state == OPEN
  {
  }

  /** The list holds the positions of these ids, each once. */
  ghost predicate Enumerates(ps: seq<Position>, flat: map<nat, Position>, ids: set<nat>) {
    && (forall k :: 0 <= k < |ps| ==> ps[k].tradeId in ids && ps[k].tradeId in flat && flat[ps[k].tradeId] == ps[k])
    && (forall id :: id in ids ==> exists k :: 0 <= k < |ps| && ps[k].tradeId == id)
    && (forall k, l :: 0 <= k < l < |ps| ==> ps[k].tradeId != ps[l].tradeId)
  }

  /** What has been picked so far is what is wanted of everything but these two sets. */
  predicate Sifted(wanted: set<nat>, ids: set<nat>, others: set<nat>, left: set<nat>) {
    ids == wanted - others - left
  }

  lemma SiftNone(wanted: set<nat>, others: set<nat>, left: set<nat>)
    requires wanted <= others + left
    ensures Sifted(wanted, {}, others, left)
  {
  }

  lemma SiftOne(wanted: set<nat>, ids: set<nat>, others: set<nat>, left: set<nat>, id: nat)
    requires Sifted(wanted, ids, others, left) && id in left && id !in others
    ensures id !in ids && Sifted(wanted, if id in wanted then ids + {id} else ids, others, left - {id})
  {
  }

  lemma SiftAll(wanted: set<nat>, ids: set<nat>)
    requires Sifted(wanted, ids, {}, {})
    ensures ids == wanted
  {
  }

  /** Claimed are exactly the open positions of the symbol with a target that the price is at or beyond, above for a
      LONG and below for a SHORT; nothing else changes. */
  ghost predicate AtTargetClaimed(was: map<nat, Pos>, flat: map<nat, Position>, claimed: seq<Position>, symbol: string,
                                  price: real)
    reads flat.Values
  {
    && was.Keys == flat.Keys
    && forall id :: id in flat ==>
         var p := was[id];
         var taken := && p.symbol == symbol && p.state.OPEN? && p.sellPrice.Some?
                      && (if p.kind.Long? then price >= p.sellPrice.value else price <= p.sellPrice.value);
         && flat[id].Value() == (if taken then p.(state := EXITING) else p)
         && (flat[id] in claimed <==> taken)
  }

  lemma ClaimedAtTarget(was: map<nat, Pos>, flat: map<nat, Position>, claimed: seq<Position>, symbol: string,
                        price: real)
    requires Flipped(was, flat, TriggeredIds(was, symbol, price))
    requires Enumerates(claimed, flat, TriggeredIds(was, symbol, price))
    ensures AtTargetClaimed(was, flat, claimed, symbol, price)
  {
    hide Position.Value;
    forall id | id in flat
      ensures flat[id] in claimed <==> id in TriggeredIds(was, symbol, price)
    {
      if id in TriggeredIds(was, symbol, price) {
        var k :| 0 <= k < |claimed| && claimed[k].tradeId == id;
        assert claimed[k] == flat[id];
      }
    }
  }

  /** Turning to one more symbol. */
  lemma SiftSymbol(m: Buckets, flat: map<nat, Position>, symbols: set<string>, s: string, wanted: set<nat>,
                   ids: set<nat>)
    requires Filed(m, flat) && s in symbols && symbols <= m.Keys && Sifted(wanted, ids, InSymbols(flat, symbols), {})
    ensures Sifted(wanted, ids, InSymbols(flat, symbols - {s}), m[s].Keys)
    ensures InSymbols(flat, symbols - {s}) !! m[s].Keys && IsBucket(m[s], flat)
  {
    OneSymbolLess(m, flat, symbols, s);
  }

  lemma EnumeratesMore(ps: seq<Position>, flat: map<nat, Position>, ids: set<nat>, p: Position)
    requires Enumerates(ps, flat, ids) && p.tradeId in flat && flat[p.tradeId] == p && p.tradeId !in ids
    ensures Enumerates(ps + [p], flat, ids + {p.tradeId})
  {
    forall id | id in ids + {p.tradeId}
      ensures exists k :: 0 <= k < |ps + [p]| && (ps + [p])[k].tradeId == id
    {
      if id == p.tradeId {
        assert (ps + [p])[|ps|].tradeId == id;
      } else {
        var k :| 0 <= k < |ps| && ps[k].tradeId == id;
        assert (ps + [p])[k].tradeId == id;
      }
    }
  }
}
