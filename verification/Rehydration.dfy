/** Starting again from the table: open rows are turned back into positions and their keys seeded. */
module Rehydration {
  import opened Domain
  import opened IdempotencyKeys
  import opened TradesTable
  import opened Lifecycle
  import opened LifecycleInvariants
  import opened LifecycleSafety
  import opened LifecycleTheorems
  import DailyPnl

  const REHYDRATE_LIMIT: nat := 10000

  /** `REHYDRATE_STATUSES`. */
  predicate Rehydrates(status: Status) {
    status in {CASH_HELD, SUBMITTED, PARTIALLY_FILLED, FILLED, EXIT_SUBMITTED, EXIT_PARTIALLY_FILLED}
  }

  function StateOf(status: Status): PositionState {
    match status
    case FILLED => OPEN
    case EXIT_SUBMITTED => EXITING
    case EXIT_PARTIALLY_FILLED => EXITING
    case _ => PENDING_ENTRY
  }

  /** `position_from_trade`. */
  function PositionFromTrade(id: nat, r: Row): Pos {
    Pos(id, r.symbol, r.kind, DailyPnl.Or(r.filledQty, Some(r.quantity)).GetOr(0.0),
        DailyPnl.Or(r.filledPrice, Some(r.triggerPrice)).GetOr(0.0), r.targetSell, r.isPaper, r.key,
        r.brokerOrderId, r.exitOrderId, r.holdId, StateOf(r.status))
  }

  /** The key table of a service: the dedup set and the re-entry counters. */
  datatype KeyTable = KeyTable(seen: set<string>, attempts: map<string, nat>)

  /** `seed`, one key after the other. */
  function Seed(k: KeyTable, keys: seq<string>): KeyTable {
    if keys == [] then k
    else
      var k1, key := Seed(k, keys[..|keys| - 1]), keys[|keys| - 1];
      var (base, attempt) := SplitAttempt(key);
      KeyTable(k1.seen + {key}, k1.attempts[base := attempt])
  }

  /** The key `execute` would claim next. */
  function NextKeyIn(k: KeyTable, base: string): string {
    ComposeKey(base, AttemptsOf(k.attempts, base))
  }

  predicate OpenRow(mode: Mode, r: Row) {
    Rehydrates(r.status) && r.isPaper == mode.Paper?
  }

  /** What startup selects for a mode. */
  ghost predicate Selected(table: Table, mode: Mode, ids: seq<nat>) {
    Lists(table, (r: Row) => OpenRow(mode, r), REHYDRATE_LIMIT, ids)
  }

  function OpenIds(table: Table, mode: Mode): set<nat> {
    set id | id in table && OpenRow(mode, table[id])
  }

  function BookOf(ts: seq<Trade>): map<nat, Pos> {
    map id: nat | 0 <= id < |ts| && ts[id].pos.Some? :: ts[id].pos.value
  }

  function Rebuilt(table: Table, ids: seq<nat>): map<nat, Pos>
    requires forall k :: 0 <= k < |ids| ==> ids[k] in table
  {
    map id | id in ids :: PositionFromTrade(id, table[id])
  }

  function Keys(table: Table, ids: seq<nat>): seq<string>
    requires forall k :: 0 <= k < |ids| ==> ids[k] in table
  {
    seq(|ids|, k requires 0 <= k < |ids| => table[ids[k]].key)
  }

  // ---------------------------------------------------------------- a listing within its limit is complete

  function Elements(ids: seq<nat>): set<nat> {
    set id | id in ids
  }

  lemma {:induction false} DistinctCount(ids: seq<nat>)
    requires forall k, l :: 0 <= k < l < |ids| ==> ids[k] != ids[l]
    ensures |Elements(ids)| == |ids|
  {
    if ids != [] {
      var init, last := ids[..|ids| - 1], ids[|ids| - 1];
      DistinctCount(init);
      assert ids == init + [last];
      assert Elements(ids) == Elements(init) + {last};
    }
  }

  lemma FullListing(all: set<nat>, ids: seq<nat>, limit: nat)
    requires forall k :: 0 <= k < |ids| ==> ids[k] in all
    requires forall k, l :: 0 <= k < l < |ids| ==> ids[k] != ids[l]
    requires |all| <= limit && (|ids| < limit ==> forall id :: id in all ==> id in ids)
    ensures forall id :: id in all <==> id in ids
  {
    var listed := Elements(ids);
    DistinctCount(ids);
    assert listed <= all;
    if |ids| >= limit {
      SubsetOfSameSize(listed, all);
    }
  }

  lemma SubsetOfSameSize(a: set<nat>, b: set<nat>)
    requires a <= b && |a| >= |b|
    ensures a == b
  {
    assert |b - a| == |b| - |a|;
  }

  lemma SelectedIsComplete(table: Table, mode: Mode, ids: seq<nat>)
    requires Selected(table, mode, ids) && |OpenIds(table, mode)| <= REHYDRATE_LIMIT
    ensures forall id :: id in ids <==> id in table && OpenRow(mode, table[id])
  {
    FullListing(OpenIds(table, mode), ids, REHYDRATE_LIMIT);
  }

  // ---------------------------------------------------------------- the paper round trip

  /** A paper position is in the book exactly when its row is open, and is its row. */
  lemma PaperRowIsPosition(s: State, id: nat)
    requires Reachable(s) && s.config.mode.Paper? && id < |s.trades| && AtRest(s.trades[id])
    ensures s.trades[id].pos.Some? <==> id in TableOf(s) && OpenRow(Paper, TableOf(s)[id])
    ensures s.trades[id].pos.Some? ==> PositionFromTrade(id, TableOf(s)[id]) == s.trades[id].pos.value
  {
    hide Run, Reachable, HoldsKept, StatusKept, LiveKept, Replay, TableOf, StatusLog, ComposeKey, Qty, Notional;
    var h := SheetReached(s, id);
    UnracedIsInTurn(s, id);
    if id in TableOf(s) { OnlyALateExitDisagrees(s, id); }
    IdIsIndex(s, id);
  }

  lemma IdIsIndex(s: State, id: nat)
    requires Reachable(s) && id < |s.trades|
    ensures s.trades[id].id == id
  {
    hide Run, Reachable, KeysKept, LogKept, TradeKept;
    ReachableKept(s);
  }

  /** Crash and restart in paper mode: with every write flushed and no call in progress, the selected
      rows rebuild exactly the book. */
  lemma RestartRebuildsTheBook(s: State, ids: seq<nat>)
    requires Reachable(s) && s.config.mode.Paper? && AllQuiet(s.trades)
    requires Selected(TableOf(s), Paper, ids) && |OpenIds(TableOf(s), Paper)| <= REHYDRATE_LIMIT
    ensures Rebuilt(TableOf(s), ids) == BookOf(s.trades)
  {
    hide Run, Reachable, AtRest, TableOf, OpenRow, PositionFromTrade;
    SelectedIsComplete(TableOf(s), Paper, ids);
    forall id: nat | id < |s.trades|
      ensures s.trades[id].pos.Some? <==> id in ids
      ensures s.trades[id].pos.Some? ==> PositionFromTrade(id, TableOf(s)[id]) == s.trades[id].pos.value
    {
      PaperRowIsPosition(s, id);
    }
    forall id | id in TableOf(s)
      ensures id < |s.trades|
    {
      RowHasTrade(s, id);
    }
  }

  lemma RowHasTrade(s: State, id: nat)
    requires Reachable(s) && id in TableOf(s)
    ensures id < |s.trades|
  {
    hide Run, Reachable, KeysKept, TradesKept, SheetsKept;
    ReachableKept(s);
  }

  // ---------------------------------------------------------------- the live round trip

  lemma PositionHasRow(s: State, id: nat)
    requires Reachable(s) && id < |s.trades| && s.trades[id].pos.Some?
    ensures id in TableOf(s) && TableOf(s)[id].isPaper == s.config.mode.Paper?
  {
    hide Run, Reachable, OrdersKept, HoldsKept, TrailKept, StatusKept, LiveKept, PaperKept, TableOf, StatusLog,
         ComposeKey, Qty, Notional;
    var h := SheetReached(s, id);
  }

  /** Rebuilding reads a figure of zero as missing and puts the ordered one in its place; and it takes a
      reported partial fill for the whole. */
  predicate FiguresSurvive(c: Config, t: Trade, r: Row) {
    if InState(t, PENDING_ENTRY) then
      && (r.filledQty.GetOr(0.0) == 0.0 || r.filledQty == Some(Qty(c, t)))
      && (r.filledPrice.GetOr(0.0) == 0.0 || r.filledPrice == Some(t.price))
    else
      (r.filledQty == Some(0.0) ==> Qty(c, t) == 0.0) && (r.filledPrice == Some(0.0) ==> t.price == 0.0)
  }

  /** Which live rows are selected, and when such a row is rebuilt as its position. */
  lemma LiveRowRestores(s: State, id: nat)
    requires Reachable(s) && s.config.mode.Live? && id in TableOf(s) && id < |s.trades| && AtRest(s.trades[id])
    ensures var t, r := s.trades[id], TableOf(s)[id];
            && (OpenRow(Live, r) <==> (t.pos.Some? && !r.status.EXIT_FAILED?) || t.lateClose)
            && (t.lateClose ==> t.pos.None?)
            && (t.pos.Some? && OpenRow(Live, r) ==>
                  (PositionFromTrade(id, r) == t.pos.value <==> !t.late && FiguresSurvive(s.config, t, r)))
  {
    hide Run, Reachable, StatusKept, PaperKept, RaceKept, Replay, TableOf, StatusLog, ComposeKey, Qty, Notional;
    var h := SheetReached(s, id);
    OnlyALateExitDisagrees(s, id);
    IdIsIndex(s, id);
    TerminalIsLast(s, id);
    assert Fits(s.config, s.trades[id], h.Last().value) by { LastFits(s.config, s.trades[id], h); }
  }

  /** The row brings the position back. */
  predicate Returns(t: Trade, r: Row) {
    t.pos.Some? ==> !r.status.EXIT_FAILED?
  }

  /** A live restart finds exactly the positions of the book if and only if none of their rows is at
      EXIT_FAILED and no sale was written while an exit id was still to be logged: rows at EXIT_FAILED are
      not selected, and such a sale leaves its row at EXIT_SUBMITTED, which is. */
  lemma LiveRestartFindsPositions(s: State, ids: seq<nat>)
    requires Reachable(s) && s.config.mode.Live? && AllQuiet(s.trades)
    requires Selected(TableOf(s), Live, ids) && |OpenIds(TableOf(s), Live)| <= REHYDRATE_LIMIT
    ensures Rebuilt(TableOf(s), ids).Keys == BookOf(s.trades).Keys <==>
            forall id :: 0 <= id < |s.trades| && id in TableOf(s) ==>
              !s.trades[id].lateClose && Returns(s.trades[id], TableOf(s)[id])
  {
    hide Run, Reachable, AtRest, TableOf, OpenRow, PositionFromTrade, FiguresSurvive;
    SelectedIsComplete(TableOf(s), Live, ids);
    forall id: nat | id in TableOf(s) || id in BookOf(s.trades)
      ensures id < |s.trades| && id in TableOf(s)
      ensures (id in ids <==> id in BookOf(s.trades)) <==>
              !s.trades[id].lateClose && Returns(s.trades[id], TableOf(s)[id])
    {
      if id in TableOf(s) { RowHasTrade(s, id); } else { PositionHasRow(s, id); }
      LiveRowRestores(s, id);
    }
    assert forall id :: id in Rebuilt(TableOf(s), ids).Keys <==> id in ids;
  }

  /** It rebuilds them as they were if and only if, besides, no exit id was logged late and the figures
      survive. */
  lemma LiveRestartRebuildsTheBook(s: State, ids: seq<nat>)
    requires Reachable(s) && s.config.mode.Live? && AllQuiet(s.trades)
    requires Selected(TableOf(s), Live, ids) && |OpenIds(TableOf(s), Live)| <= REHYDRATE_LIMIT
    ensures Rebuilt(TableOf(s), ids) == BookOf(s.trades) <==>
            forall id :: 0 <= id < |s.trades| && id in TableOf(s) ==>
              var t, r := s.trades[id], TableOf(s)[id];
              !t.lateClose && Returns(t, r) && (t.pos.Some? ==> !t.late && FiguresSurvive(s.config, t, r))
  {
    hide Run, Reachable, AtRest, TableOf, OpenRow, PositionFromTrade, FiguresSurvive;
    LiveRestartFindsPositions(s, ids);
    SelectedIsComplete(TableOf(s), Live, ids);
    var book, rebuilt := BookOf(s.trades), Rebuilt(TableOf(s), ids);
    if rebuilt.Keys == book.Keys {
      forall id: nat | id < |s.trades| && id in TableOf(s)
        ensures id in book <==> s.trades[id].pos.Some?
        ensures id in book ==>
                (rebuilt[id] == book[id] <==>
                 !s.trades[id].late && FiguresSurvive(s.config, s.trades[id], TableOf(s)[id]))
      {
        assert id in book <==> s.trades[id].pos.Some?;
        if id in book {
          assert id in rebuilt.Keys;
          LiveRowRestores(s, id);
        }
      }
      forall id | id in book
        ensures id < |s.trades| && id in TableOf(s)
      {
        PositionHasRow(s, id);
      }
    }
  }

  // ---------------------------------------------------------------- a crash in the middle of a call

  /** At any moment, a live row is at CASH_HELD exactly while its entry order is about to be sent or has been sent
      and is not yet logged. It is selected, and rebuilt as a pending entry without an order id, though the broker
      may have the order; its hold stands unsettled. */
  lemma HeldRowHasNoOrder(s: State, id: nat)
    requires Reachable(s) && s.config.mode.Live? && id in TableOf(s) && id < |s.trades|
    ensures var t, r := s.trades[id], TableOf(s)[id];
            && (r.status.CASH_HELD? <==> t.entryPc.Funded? || t.entryPc.Accepted?)
            && (r.status.CASH_HELD? ==>
                  var p := PositionFromTrade(id, r);
                  && OpenRow(Live, r) && p.state.PENDING_ENTRY? && p.brokerOrderId.None? && p.holdId == Some(id)
                  && p.key == t.Key() && |t.holds| == 1 && t.holds[0].Placed?
                  && (t.entryOrder.Some? <==> t.entryPc.Accepted?))
  {
    hide Run, Reachable, OrdersKept, TrailKept, TurnKept, RaceKept, ReasonsKept, IsPath, Resumed, PaperKept, TableOf,
         StatusLog, ComposeKey, Qty, Notional;
    var h := SheetReached(s, id);
    IdIsIndex(s, id);
    LastFits(s.config, s.trades[id], h);
    assert h.Last() == Some(TableOf(s)[id].status);
  }

  /** Before the first exit id of a trade is logged, its row and what is rebuilt from it know of no exit, whatever
      was sent. */
  lemma UnloggedExitIsUnknown(s: State, id: nat)
    requires Reachable(s) && s.config.mode.Live? && id in TableOf(s) && id < |s.trades| && s.trades[id].newest.None?
    ensures PositionFromTrade(id, TableOf(s)[id]).exitOrderId.None?
  {
    hide Run, Reachable, TradeKept, IsPath, Resumed, PaperKept, RowKept, StatusKept, TableOf, StatusLog, ComposeKey;
    var h := SheetReached(s, id);
  }

  // ---------------------------------------------------------------- keys after a restart

  const NOTHING_SEEN := KeyTable({}, map[])

  /** The keys of these trades, in this order. */
  function KeysOfTrades(ts: seq<Trade>, ids: seq<nat>): seq<string>
    requires forall k :: 0 <= k < |ids| ==> ids[k] < |ts|
  {
    seq(|ids|, k requires 0 <= k < |ids| => ts[ids[k]].Key())
  }

  ghost predicate Distinct(ids: seq<nat>) {
    forall k, l :: 0 <= k < l < |ids| ==> ids[k] != ids[l]
  }

  /** Seeding takes exactly the given keys. */
  lemma {:induction false} SeedTakesKeys(k: KeyTable, keys: seq<string>)
    ensures forall key :: key in Seed(k, keys).seen <==> key in k.seen || key in keys
    decreases |keys|
  {
    hide SplitAttempt;
    if keys != [] {
      SeedTakesKeys(k, keys[..|keys| - 1]);
      assert keys == keys[..|keys| - 1] + [keys[|keys| - 1]];
    }
  }

  predicate AllBases(ts: seq<Trade>) {
    forall i :: 0 <= i < |ts| ==> IsBase(ts[i].base)
  }

  /** Each counter stands at the attempt of one of the seeded trades of its base. */
  lemma {:induction false} SeedCounts(ts: seq<Trade>, ids: seq<nat>)
    requires AllBases(ts) && forall k :: 0 <= k < |ids| ==> ids[k] < |ts|
    ensures var k := Seed(NOTHING_SEEN, KeysOfTrades(ts, ids));
            && (forall id :: id in ids ==> ts[id].base in k.attempts)
            && (forall b :: b in k.attempts ==> exists id ::
                id in ids && ts[id].base == b && ts[id].attempt == k.attempts[b])
    decreases |ids|
  {
    hide SplitAttempt, ComposeKey, IsBase;
    if ids != [] {
      var init, last := ids[..|ids| - 1], ids[|ids| - 1];
      SeedCounts(ts, init);
      assert KeysOfTrades(ts, ids)[..|ids| - 1] == KeysOfTrades(ts, init);
      SplitAttemptOfSignal(ts[last].base, ts[last].attempt);
      assert ids == init + [last];
      var k := Seed(NOTHING_SEEN, KeysOfTrades(ts, ids));
      forall b | b in k.attempts
        ensures exists id :: id in ids && ts[id].base == b && ts[id].attempt == k.attempts[b]
      {
        if b == ts[last].base {
          assert last in ids;
        } else {
          var before := Seed(NOTHING_SEEN, KeysOfTrades(ts, init));
          assert b in before.attempts && k.attempts[b] == before.attempts[b];
          var id :| id in init && ts[id].base == b && ts[id].attempt == before.attempts[b];
          assert id in ids;
        }
      }
    }
  }

  /** Seeding the keys of trades that still hold them takes those keys, restores their attempts, and does
      nothing else. */
  lemma SeedRestores(s: State, ids: seq<nat>)
    requires KeysKept(s) && forall k :: 0 <= k < |ids| ==> ids[k] < |s.trades| && s.trades[ids[k]].forgets == 0
    ensures var k := Seed(NOTHING_SEEN, KeysOfTrades(s.trades, ids));
            && (forall key :: key in k.seen <==> exists id :: id in ids && s.trades[id].Key() == key)
            && (forall id :: id in ids ==>
                  s.trades[id].base in k.attempts && k.attempts[s.trades[id].base] == s.trades[id].attempt)
            && (forall b :: b in k.attempts ==> exists id :: id in ids && s.trades[id].base == b)
  {
    hide KeysKept, Seed, ComposeKey;
    BasesKept(s);
    SeedCounts(s.trades, ids);
    SeedTakesKeys(NOTHING_SEEN, KeysOfTrades(s.trades, ids));
    KeysOfTradesAre(s.trades, ids);
    forall id, other | id in ids && other in ids && s.trades[other].base == s.trades[id].base
      ensures s.trades[other].attempt == s.trades[id].attempt
    {
      if other != id { OtherTrades(s, id, other); }
    }
  }

  lemma BasesKept(s: State)
    requires KeysKept(s)
    ensures AllBases(s.trades)
  {
    hide IssuedExactly, SeenIsHeld, AttemptsGrow, IsBase;
    forall i | 0 <= i < |s.trades|
      ensures IsBase(s.trades[i].base)
    {
      assert Stamped(s, s.trades[i]);
    }
  }

  lemma KeysOfTradesAre(ts: seq<Trade>, ids: seq<nat>)
    requires forall k :: 0 <= k < |ids| ==> ids[k] < |ts|
    ensures forall key :: key in KeysOfTrades(ts, ids) <==> exists id :: id in ids && ts[id].Key() == key
  {
    hide ComposeKey;
    forall id | id in ids
      ensures ts[id].Key() in KeysOfTrades(ts, ids)
    {
      var k :| 0 <= k < |ids| && ids[k] == id;
      assert KeysOfTrades(ts, ids)[k] == ts[id].Key();
    }
    forall key | key in KeysOfTrades(ts, ids)
      ensures exists id :: id in ids && ts[id].Key() == key
    {
      var k :| 0 <= k < |ids| && KeysOfTrades(ts, ids)[k] == key;
      assert ids[k] in ids;
    }
  }

  /** No sale was written while an exit id was still to be logged. */
  predicate NoLateClose(ts: seq<Trade>) {
    forall id :: 0 <= id < |ts| ==> !ts[id].lateClose
  }

  lemma OpenRowHasPosition(s: State, id: nat)
    requires Reachable(s) && id in TableOf(s) && id < |s.trades| && AtRest(s.trades[id]) && !s.trades[id].lateClose
    ensures OpenRow(s.config.mode, TableOf(s)[id]) ==> s.trades[id].pos.Some?
  {
    hide Run, Reachable, AtRest, TableOf, OpenRow, PositionFromTrade, FiguresSurvive;
    if s.config.mode.Paper? {
      PaperRowIsPosition(s, id);
    } else {
      LiveRowRestores(s, id);
    }
  }

  /** The selected rows are those of positions, which still hold their keys. */
  lemma SelectedHoldKeys(s: State, ids: seq<nat>)
    requires Reachable(s) && AllQuiet(s.trades) && NoLateClose(s.trades) && Selected(TableOf(s), s.config.mode, ids)
    ensures KeysKept(s) && Distinct(ids)
    ensures forall k :: 0 <= k < |ids| ==> ids[k] < |s.trades| && s.trades[ids[k]].forgets == 0
    ensures Keys(TableOf(s), ids) == KeysOfTrades(s.trades, ids)
  {
    hide Run, Reachable, AtRest, TableOf, OpenRow, KeysKept, LogKept, TradesKept, PositionFromTrade, ComposeKey;
    ReachableKept(s);
    forall k | 0 <= k < |ids|
      ensures ids[k] < |s.trades| && s.trades[ids[k]].forgets == 0 && TableOf(s)[ids[k]].key == s.trades[ids[k]].Key()
    {
      var id := ids[k];
      RowHasTrade(s, id);
      OpenRowHasPosition(s, id);
      PositionHoldsKey(s, id);
    }
  }

  lemma PositionHoldsKey(s: State, id: nat)
    requires Reachable(s) && id < |s.trades| && s.trades[id].pos.Some? && id in TableOf(s)
    ensures s.trades[id].forgets == 0 && TableOf(s)[id].key == s.trades[id].Key()
  {
    hide Run, Reachable, OrdersKept, HoldsKept, TrailKept, SheetKept, TableOf, StatusLog, ComposeKey;
    var h := SheetReached(s, id);
    SheetHasKey(s.config, s.trades[id], h);
  }

  /** A restart never buys again for a base it rehydrated a position of: its key is seeded, at the attempt
      it was claimed for. */
  lemma RestartDedups(s: State, ids: seq<nat>, id: nat)
    requires Reachable(s) && AllQuiet(s.trades) && NoLateClose(s.trades) && Selected(TableOf(s), s.config.mode, ids)
    requires id in ids
    ensures id < |s.trades|
    ensures var k := Seed(NOTHING_SEEN, Keys(TableOf(s), ids));
            NextKeyIn(k, s.trades[id].base) == s.trades[id].Key() && NextKeyIn(k, s.trades[id].base) in k.seen
  {
    hide Run, Reachable, AtRest, TableOf, OpenRow, KeysKept, PositionFromTrade, ComposeKey, Seed;
    SelectedHoldKeys(s, ids);
    SeedRestores(s, ids);
  }

  /** In paper mode those are the bases of all open positions. */
  lemma RestartDedupsOpenPositions(s: State, ids: seq<nat>, id: nat)
    requires Reachable(s) && s.config.mode.Paper? && AllQuiet(s.trades)
    requires Selected(TableOf(s), Paper, ids) && |OpenIds(TableOf(s), Paper)| <= REHYDRATE_LIMIT
    requires id < |s.trades| && s.trades[id].pos.Some?
    ensures var k := Seed(NOTHING_SEEN, Keys(TableOf(s), ids));
            NextKeyIn(k, s.trades[id].base) == s.trades[id].Key() && NextKeyIn(k, s.trades[id].base) in k.seen
  {
    hide Run, Reachable, AtRest, TableOf, OpenRow, KeysKept, PositionFromTrade, ComposeKey, Seed;
    SelectedIsComplete(TableOf(s), Paper, ids);
    PaperRowIsPosition(s, id);
    PaperHasNoLateClose(s);
    RestartDedups(s, ids, id);
  }

  lemma PaperHasNoLateClose(s: State)
    requires Reachable(s) && s.config.mode.Paper?
    ensures NoLateClose(s.trades)
  {
    hide Run, Reachable;
    forall id: nat | id < |s.trades|
      ensures !s.trades[id].lateClose
    {
      UnracedIsInTurn(s, id);
    }
  }

  /** Does any row belong to this base? */
  ghost predicate BaseInTable(s: State, base: string) {
    exists id :: id in TableOf(s) && id < |s.trades| && s.trades[id].base == base
  }

  lemma {:induction false} IssuedByTrade(ts: seq<Trade>, base: string, k: nat) returns (i: nat)
    requires k < |Issued(ts, base)|
    ensures i < |ts| && ts[i].base == base && ts[i].Key() == Issued(ts, base)[k]
    decreases |ts|
  {
    hide ComposeKey;
    var n := |ts| - 1;
    if k < |Issued(ts[..n], base)| {
      i := IssuedByTrade(ts[..n], base, k);
    } else {
      i := n;
    }
  }

  lemma {:induction false} TradeIsIssued(ts: seq<Trade>, base: string, i: nat)
    requires i < |ts| && ts[i].base == base
    ensures Issued(ts, base) != []
    decreases |ts|
  {
    if i < |ts| - 1 {
      TradeIsIssued(ts[..|ts| - 1], base, i);
    }
  }

  /** The first trade of a base is the one at attempt 0; if any trade of the base has a row, it has. */
  lemma FirstTradeHasRow(s: State, base: string, id: nat) returns (first: nat)
    requires Reachable(s) && id in TableOf(s) && id < |s.trades| && s.trades[id].base == base
    ensures first in TableOf(s) && first < |s.trades| && s.trades[first].base == base && s.trades[first].Key() == base
  {
    hide Run, Reachable, TradesKept, LogKept, TableOf, SeenIsHeld;
    ReachableKept(s);
    assert Stamped(s, s.trades[id]);
    TradeIsIssued(s.trades, base, id);
    assert Issued(s.trades, base)[0] == FirstKeys(base, IssuedCount(s, base))[0] == ComposeKey(base, 0) == base;
    first := IssuedByTrade(s.trades, base, 0);
    if first != id {
      assert Stamped(s, s.trades[first]);
      ComposedKeysInjective(base, s.trades[first].attempt, base, 0);
      EarlierHasRow(s, first, id);
    }
  }

  lemma EarlierHasRow(s: State, first: nat, id: nat)
    requires Reachable(s) && first < |s.trades| && id < |s.trades| && first != id
    requires s.trades[first].base == s.trades[id].base && s.trades[first].attempt == 0
    ensures first in TableOf(s)
  {
    hide Run, Reachable, TableOf, TradesKept, LogKept, SheetKept, IssuedExactly, SeenIsHeld, ComposeKey, OrdersKept,
         HoldsKept, TrailKept;
    ReachableKept(s);
    assert Stamped(s, s.trades[first]) && Stamped(s, s.trades[id]);
    if s.trades[first].forgets == 0 {
      OtherTrades(s, first, id);
    }
    var h := SheetReached(s, first);
  }

  predicate RowsOfTrades(s: State, ids: seq<nat>) {
    forall k :: 0 <= k < |ids| ==> ids[k] in TableOf(s) && ids[k] < |s.trades|
  }

  /** Does one of these trades belong to the base? */
  ghost predicate AmongBases(ts: seq<Trade>, ids: seq<nat>, base: string) {
    exists id :: id in ids && id < |ts| && ts[id].base == base
  }

  lemma KeysOfRows(s: State, ids: seq<nat>)
    requires Reachable(s) && RowsOfTrades(s, ids)
    ensures Keys(TableOf(s), ids) == KeysOfTrades(s.trades, ids) && AllBases(s.trades)
  {
    hide Run, Reachable, TableOf, ComposeKey, IsBase, KeysKept, TradesKept, LogKept;
    forall k | 0 <= k < |ids|
      ensures TableOf(s)[ids[k]].key == s.trades[ids[k]].Key()
    {
      RowKeyIsTradeKey(s, ids[k]);
    }
    ReachableKept(s);
    BasesKept(s);
  }

  /** Whatever rows are seeded, the next signal of a base is taken for a repetition if and only if a row of
      that base was among them. */
  lemma RestartDedupsIff(s: State, ids: seq<nat>, base: string)
    requires Reachable(s) && RowsOfTrades(s, ids) && IsBase(base)
    ensures var k := Seed(NOTHING_SEEN, Keys(TableOf(s), ids));
            NextKeyIn(k, base) in k.seen <==> AmongBases(s.trades, ids, base)
  {
    hide Run, Reachable, TableOf, Seed, ComposeKey, IsBase;
    KeysOfRows(s, ids);
    var k := Seed(NOTHING_SEEN, KeysOfTrades(s.trades, ids));
    SeedCounts(s.trades, ids);
    SeedTakesKeys(NOTHING_SEEN, KeysOfTrades(s.trades, ids));
    KeysOfTradesAre(s.trades, ids);
    if AmongBases(s.trades, ids, base) {
      var id :| id in ids && s.trades[id].base == base && s.trades[id].attempt == k.attempts[base];
      assert s.trades[id].Key() in k.seen;
    } else {
      BareKey(base);
      forall id | id in ids
        ensures s.trades[id].Key() != base
      {
        HeldKeyIsBase(s, id);
        KeyOfOtherBase(s.trades[id].base, s.trades[id].attempt, base);
      }
    }
  }

  /** After a restart the re-entry counter of a base without a seeded row starts from zero: the next
      signal goes ahead under the bare base key, and its row is refused exactly when a row of the base was
      ever written. */
  lemma RestartKeyIsFreshIff(s: State, ids: seq<nat>, base: string, id: nat, row: Row)
    requires Reachable(s) && RowsOfTrades(s, ids) && IsBase(base) && !AmongBases(s.trades, ids, base)
    requires id !in TableOf(s) && row.key == base
    ensures var k := Seed(NOTHING_SEEN, Keys(TableOf(s), ids));
            NextKeyIn(k, base) == base && base !in k.seen
    ensures Execute(TableOf(s), Insert(id, row)).Err? <==> BaseInTable(s, base)
  {
    hide Run, Reachable, TableOf, Seed, ComposeKey, IsBase;
    RestartDedupsIff(s, ids, base);
    KeysOfRows(s, ids);
    SeedCounts(s.trades, ids);
    BareKey(base);
    KeyTakenIff(s, base);
  }

  lemma BareKey(base: string)
    ensures ComposeKey(base, 0) == base
  {
  }

  lemma KeyOfOtherBase(b: string, n: nat, base: string)
    requires IsBase(b) && IsBase(base) && b != base
    ensures ComposeKey(b, n) != base
  {
    ComposedKeysInjective(b, n, base, 0);
  }

  lemma HeldKeyIsBase(s: State, id: nat)
    requires Reachable(s) && id < |s.trades|
    ensures IsBase(s.trades[id].base)
  {
    hide Run, Reachable, LogKept, TradesKept, IssuedExactly, SeenIsHeld;
    ReachableKept(s);
    assert Stamped(s, s.trades[id]);
  }

  /** A base's own key is in the table exactly when the base ever got a row. */
  lemma KeyTakenIff(s: State, base: string)
    requires Reachable(s) && IsBase(base)
    ensures KeyFree(TableOf(s), base) <==> !BaseInTable(s, base)
  {
    hide Run, Reachable, TableOf, KeysKept;
    if BaseInTable(s, base) {
      var id :| id in TableOf(s) && id < |s.trades| && s.trades[id].base == base;
      var first := FirstTradeHasRow(s, base, id);
      RowKeyIsTradeKey(s, first);
    }
    forall id | id in TableOf(s) && TableOf(s)[id].key == base
      ensures BaseInTable(s, base)
    {
      RowHasTrade(s, id);
      RowKeyIsTradeKey(s, id);
      ComposedKeysInjective(s.trades[id].base, s.trades[id].attempt, base, 0);
    }
  }

  lemma RowKeyIsTradeKey(s: State, id: nat)
    requires Reachable(s) && id in TableOf(s) && id < |s.trades|
    ensures TableOf(s)[id].key == s.trades[id].Key() && IsBase(s.trades[id].base)
  {
    hide Run, Reachable, SheetKept, TradeKept, TableOf, StatusLog, ComposeKey, LogKept, TradesKept, IssuedExactly,
         SeenIsHeld;
    var h := SheetReached(s, id);
    SheetHasKey(s.config, s.trades[id], h);
    ReachableKept(s);
    assert Stamped(s, s.trades[id]);
  }
}
