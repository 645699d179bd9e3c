/** The in-memory watchlist: armed entries indexed by symbol. */
module Matching {
  import opened Domain

  /** A LONG arms at or below its buy price, a SHORT at or above; the tolerance widens the band. */
  predicate EntryMatches(e: Entry, price: real, tolerance: real) {
    if e.kind.Long? then price <= e.buyPrice + tolerance else price >= e.buyPrice - tolerance
  }

  /** The entries of a list that are for the symbol, in order. */
  function ForSymbol(es: seq<Entry>, symbol: string): seq<Entry> {
    if es == [] then []
    else
      var e := es[|es| - 1];
      ForSymbol(es[..|es| - 1], symbol) + if e.symbol == symbol then [e] else []
  }

  /** The entries of a list that a price triggers, in order. */
  function ArmedAt(es: seq<Entry>, price: real, tolerance: real): seq<Entry> {
    if es == [] then []
    else
      var e := es[|es| - 1];
      ArmedAt(es[..|es| - 1], price, tolerance) + if EntryMatches(e, price, tolerance) then [e] else []
  }

  /** The entries of a list that a tick triggers: right symbol and price, in order. */
  function Matches(es: seq<Entry>, symbol: string, price: real, tolerance: real): seq<Entry> {
    if es == [] then []
    else
      var e := es[|es| - 1];
      Matches(es[..|es| - 1], symbol, price, tolerance)
      + if e.symbol == symbol && EntryMatches(e, price, tolerance) then [e] else []
  }

  lemma {:induction false} TriggeredSnoc(es: seq<Entry>, e: Entry, price: real, tolerance: real)
    ensures ArmedAt(es + [e], price, tolerance) ==
            ArmedAt(es, price, tolerance) + if EntryMatches(e, price, tolerance) then [e] else []
  {
    assert (es + [e])[..|es|] == es;
  }

  /** Looking up by symbol first and by price second finds what one scan of the list would. */
  lemma {:induction false} IndexAgreesWithScan(es: seq<Entry>, symbol: string, price: real, tolerance: real)
    ensures ArmedAt(ForSymbol(es, symbol), price, tolerance) == Matches(es, symbol, price, tolerance)
    decreases |es|
  {
    hide EntryMatches;
    if es != [] {
      var init, e := es[..|es| - 1], es[|es| - 1];
      IndexAgreesWithScan(init, symbol, price, tolerance);
      if e.symbol == symbol {
        TriggeredSnoc(ForSymbol(init, symbol), e, price, tolerance);
      } else {
        assert ForSymbol(es, symbol) == ForSymbol(init, symbol) + [];
        assert ForSymbol(init, symbol) + [] == ForSymbol(init, symbol);
      }
    }
  }

  /** What is matched is on the list, for the symbol, and armed by the price: for a LONG at or below its buy price, for
      a SHORT at or above, give or take the tolerance; and nothing else is. */
  lemma {:induction false} MatchesAreArmed(es: seq<Entry>, symbol: string, price: real, tolerance: real, e: Entry)
    ensures e in Matches(es, symbol, price, tolerance) <==>
            && e in es && e.symbol == symbol
            && (if e.kind.Long? then price <= e.buyPrice + tolerance else price >= e.buyPrice - tolerance)
    decreases |es|
  {
    if es != [] {
      MatchesAreArmed(es[..|es| - 1], symbol, price, tolerance, e);
      assert es == es[..|es| - 1] + [es[|es| - 1]];
    }
  }

  lemma AllMatchesAreArmed(es: seq<Entry>, symbol: string, price: real, tolerance: real)
    ensures forall e :: e in Matches(es, symbol, price, tolerance) <==>
              && e in es && e.symbol == symbol
              && (if e.kind.Long? then price <= e.buyPrice + tolerance else price >= e.buyPrice - tolerance)
  {
    hide Matches;
    forall e { MatchesAreArmed(es, symbol, price, tolerance, e); }
  }

  /** A wider tolerance only adds matches. */
  lemma {:induction false} WiderToleranceAdds(es: seq<Entry>, symbol: string, price: real, t1: real, t2: real)
    requires t1 <= t2
    ensures multiset(Matches(es, symbol, price, t1)) <= multiset(Matches(es, symbol, price, t2))
    decreases |es|
  {
    if es != [] {
      WiderToleranceAdds(es[..|es| - 1], symbol, price, t1, t2);
    }
  }

  function Symbols(es: seq<Entry>): set<string> {
    set e | e in es :: e.symbol
  }

  class WatchlistStore {
    const tolerance: real
    var bySymbol: map<string, seq<Entry>>
    ghost var entries: seq<Entry>   // the list last loaded

    /** The index is the list, cut up by symbol; no bucket is empty. */
    ghost predicate Valid()
      reads this
    {
      && bySymbol.Keys == Symbols(entries)
      && forall s :: s in bySymbol ==> bySymbol[s] == ForSymbol(entries, s) != []
    }

    constructor (tolerance: real)
      ensures Valid() && entries == [] && this.tolerance == tolerance
    {
      this.tolerance := tolerance;
      bySymbol, entries := map[], [];
    }

    /** `replace`: a new snapshot is built and swapped in. */
    method Replace(es: seq<Entry>)
      modifies this
      ensures Valid() && entries == es
    {
      var snapshot: map<string, seq<Entry>> := map[];
      for i := 0 to |es|
        invariant snapshot.Keys == Symbols(es[..i])
        invariant forall s :: s in snapshot ==> snapshot[s] == ForSymbol(es[..i], s) != []
        invariant forall s :: s !in snapshot ==> ForSymbol(es[..i], s) == []
      {
        var e := es[i];
        Indexed(es, i);
        var bucket := if e.symbol in snapshot then snapshot[e.symbol] else [];
        snapshot := snapshot[e.symbol := bucket + [e]];
      }
      assert es[..|es|] == es;
      bySymbol, entries := snapshot, es;
    }

    /** One more entry adds to the bucket of its symbol and to no other. */
    static lemma Indexed(es: seq<Entry>, i: nat)
      requires i < |es|
      ensures Symbols(es[..i + 1]) == Symbols(es[..i]) + {es[i].symbol}
      ensures forall s :: ForSymbol(es[..i + 1], s)
                          == ForSymbol(es[..i], s) + if es[i].symbol == s then [es[i]] else []
    {
      assert es[..i + 1] == es[..i] + [es[i]];
      assert es[..i + 1][..i] == es[..i];
    }

    /** `match`: every armed entry the tick triggers, in the order of the list. */
    method Match(symbol: string, price: real) returns (found: seq<Entry>)
      requires Valid()
      ensures found == Matches(entries, symbol, price, tolerance)
      ensures forall e :: e in found <==>
                && e in entries && e.symbol == symbol
                && (if e.kind.Long? then price <= e.buyPrice + tolerance else price >= e.buyPrice - tolerance)
    {
      hide EntryMatches, Matches, ForSymbol;
      AllMatchesAreArmed(entries, symbol, price, tolerance);
      IndexAgreesWithScan(entries, symbol, price, tolerance);
      if symbol !in bySymbol {
        NotListed(entries, symbol);
        return [];
      }
      found := [];
      var candidates := bySymbol[symbol];
      for i := 0 to |candidates|
        invariant found == ArmedAt(candidates[..i], price, tolerance)
      {
        assert candidates[..i + 1] == candidates[..i] + [candidates[i]];
        TriggeredSnoc(candidates[..i], candidates[i], price, tolerance);
        if EntryMatches(candidates[i], price, tolerance) {
          found := found + [candidates[i]];
        }
      }
      assert candidates[..|candidates|] == candidates;
    }

    /** `len`: as many entries as the list has. */
    method Len() returns (n: nat)
      requires Valid()
      ensures n == |entries|
    {
      n := 0;
      var left := bySymbol.Keys;
      ghost var done: set<string> := {};
      CountNone(entries);
      while left != {}
        invariant left + done == bySymbol.Keys && left !! done
        invariant n == CountIn(entries, done)
        decreases |left|
      {
        var s :| s in left;
        CountOneMore(entries, done, s);
        n := n + |bySymbol[s]|;
        left, done := left - {s}, done + {s};
      }
      CountAll(entries, done);
    }
  }

  /** Entries whose symbol is among these. */
  ghost function CountIn(es: seq<Entry>, symbols: set<string>): nat {
    if es == [] then 0 else CountIn(es[..|es| - 1], symbols) + if es[|es| - 1].symbol in symbols then 1 else 0
  }

  lemma {:induction false} CountOneMore(es: seq<Entry>, symbols: set<string>, s: string)
    requires s !in symbols
    ensures CountIn(es, symbols + {s}) == CountIn(es, symbols) + |ForSymbol(es, s)|
    decreases |es|
  {
    if es != [] {
      CountOneMore(es[..|es| - 1], symbols, s);
    }
  }

  lemma {:induction false} CountNone(es: seq<Entry>)
    ensures CountIn(es, {}) == 0
  {
    if es != [] {
      CountNone(es[..|es| - 1]);
    }
  }

  lemma {:induction false} CountAll(es: seq<Entry>, symbols: set<string>)
    requires Symbols(es) <= symbols
    ensures CountIn(es, symbols) == |es|
    decreases |es|
  {
    if es != [] {
      assert es[|es| - 1] in es;
      assert Symbols(es[..|es| - 1]) <= Symbols(es);
      CountAll(es[..|es| - 1], symbols);
    }
  }

  lemma {:induction false} NotListed(es: seq<Entry>, symbol: string)
    requires symbol !in Symbols(es)
    ensures ForSymbol(es, symbol) == []
    decreases |es|
  {
    if es != [] {
      assert es[|es| - 1] in es;
      assert Symbols(es[..|es| - 1]) <= Symbols(es);
      NotListed(es[..|es| - 1], symbol);
    }
  }
}
