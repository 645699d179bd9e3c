/** The `trades` table is shared by the paper and the live worker. What each asks of it comes down to its own rows. */
module SharedTable {
  import opened Domain
  import opened TradesTable
  import opened Lifecycle
  import opened LifecycleInvariants
  import opened LifecycleSafety
  import opened LifecycleTheorems
  import opened Rehydration
  import opened PaperLedger
  import DailyPnl

  /** The table holds the rows of a state, each under the id that `names` gives its trade, and no other row of its
      mode. */
  ghost predicate Holds(all: Table, names: map<nat, nat>, s: State) {
    && names.Keys == TableOf(s).Keys
    && (forall i, j :: i in names && j in names && i != j ==> names[i] != names[j])
    && (forall i :: i in names ==> names[i] in all && all[names[i]] == TableOf(s)[i])
    && (forall id :: id in all && all[id].isPaper == s.config.mode.Paper? ==> exists i :: i in names && names[i] == id)
  }

  /** It holds a paper and a live state, and nothing else. */
  ghost predicate Shared(all: Table, paper: State, paperNames: map<nat, nat>, live: State, liveNames: map<nat, nat>) {
    && Reachable(paper) && paper.config.mode.Paper? && AllQuiet(paper.trades)
    && Reachable(live) && live.config.mode.Live? && AllQuiet(live.trades)
    && Holds(all, paperNames, paper) && Holds(all, liveNames, live)
  }

  lemma OwnMode(s: State, id: nat)
    requires Reachable(s) && id in TableOf(s)
    ensures TableOf(s)[id].isPaper == s.config.mode.Paper?
  {
    hide Run, Reachable, TableOf, TradeKept, StatusKept, LiveKept, PaperKept, StatusLog, Qty, Notional;
    RowHasTrade(s, id);
    var h := SheetReached(s, id);
  }

  ghost function OwnId(names: map<nat, nat>, id: nat): nat
    requires exists i :: i in names && names[i] == id
  {
    var i :| i in names && names[i] == id;
    i
  }

  /** Names for the rows of a table, no two the same. */
  ghost predicate Names(names: map<nat, nat>, own: Table) {
    names.Keys == own.Keys && forall i, j :: i in names && j in names && i != j ==> names[i] != names[j]
  }

  /** The rows under their names. */
  ghost function Placed(own: Table, names: map<nat, nat>): Table
    requires Names(names, own)
  {
    map id | id in names.Values :: own[OwnId(names, id)]
  }

  lemma PlacedRows(own: Table, names: map<nat, nat>)
    requires Names(names, own)
    ensures forall i :: i in names ==> names[i] in Placed(own, names) && Placed(own, names)[names[i]] == own[i]
    ensures forall id :: id in Placed(own, names) ==>
              exists i :: i in names && names[i] == id && Placed(own, names)[id] == own[i]
  {
    forall id | id in Placed(own, names)
      ensures exists i :: i in names && names[i] == id && Placed(own, names)[id] == own[i]
    {
      assert OwnId(names, id) in names;
    }
  }

  /** Rows of the other mode are no obstacle. */
  lemma PlacedIsHeld(s: State, names: map<nat, nat>, all: Table)
    requires Reachable(s) && Names(names, TableOf(s))
    requires forall id :: id in Placed(TableOf(s), names) ==> id in all && all[id] == Placed(TableOf(s), names)[id]
    requires forall id :: id in all && id !in Placed(TableOf(s), names) ==> all[id].isPaper != s.config.mode.Paper?
    ensures Holds(all, names, s)
  {
    hide Reachable, TableOf, Placed;
    PlacedRows(TableOf(s), names);
  }

  /** Any paper and any live state at rest can share a table, under any names that are apart. */
  lemma AnyTwoCanShare(paper: State, paperNames: map<nat, nat>, live: State, liveNames: map<nat, nat>)
    requires Reachable(paper) && paper.config.mode.Paper? && AllQuiet(paper.trades)
    requires Reachable(live) && live.config.mode.Live? && AllQuiet(live.trades)
    requires Names(paperNames, TableOf(paper)) && Names(liveNames, TableOf(live))
    requires Placed(TableOf(paper), paperNames).Keys !! Placed(TableOf(live), liveNames).Keys
    ensures Shared(Placed(TableOf(paper), paperNames) + Placed(TableOf(live), liveNames),
                   paper, paperNames, live, liveNames)
  {
    hide Reachable, TableOf, AllQuiet, Placed, Holds;
    PlacedInMode(paper, paperNames);
    PlacedInMode(live, liveNames);
    var all := Placed(TableOf(paper), paperNames) + Placed(TableOf(live), liveNames);
    PlacedIsHeld(paper, paperNames, all);
    PlacedIsHeld(live, liveNames, all);
  }

  lemma PlacedInMode(s: State, names: map<nat, nat>)
    requires Reachable(s) && Names(names, TableOf(s))
    ensures forall id :: id in Placed(TableOf(s), names) ==>
              Placed(TableOf(s), names)[id].isPaper == s.config.mode.Paper?
  {
    hide Reachable, TableOf, Placed;
    PlacedRows(TableOf(s), names);
    forall i | i in names
      ensures TableOf(s)[i].isPaper == s.config.mode.Paper?
    {
      OwnMode(s, i);
    }
  }

  /** A listing of rows of one mode is a listing of the state's own rows. */
  lemma OwnListing(all: Table, names: map<nat, nat>, s: State, wanted: Row -> bool, limit: nat, ids: seq<nat>)
    returns (mine: seq<nat>)
    requires Holds(all, names, s) && Lists(all, wanted, limit, ids)
    requires forall k :: 0 <= k < |ids| ==> all[ids[k]].isPaper == s.config.mode.Paper?
    ensures |mine| == |ids| && forall k :: 0 <= k < |ids| ==> mine[k] in names && names[mine[k]] == ids[k]
    ensures Lists(TableOf(s), wanted, limit, mine)
  {
    hide TableOf;
    mine := seq(|ids|, k requires 0 <= k < |ids| => OwnId(names, ids[k]));
    if |ids| < limit {
      forall i | i in TableOf(s) && wanted(TableOf(s)[i])
        ensures i in mine
      {
        var k :| 0 <= k < |ids| && ids[k] == names[i];
        assert mine[k] == i;
      }
    }
  }

  /** The book under the names its trades have in the table. */
  ghost predicate IsBook(rebuilt: map<nat, Pos>, names: map<nat, nat>, book: map<nat, Pos>) {
    && (forall i :: i in book ==>
          i in names && names[i] in rebuilt && rebuilt[names[i]] == book[i].(tradeId := names[i]))
    && (forall id :: id in rebuilt ==> exists i :: i in book && i in names && names[i] == id)
  }

  lemma SameRebuilt(all: Table, names: map<nat, nat>, s: State, ids: seq<nat>, mine: seq<nat>)
    requires Reachable(s) && Holds(all, names, s) && forall k :: 0 <= k < |ids| ==> ids[k] in all
    requires |mine| == |ids| && forall k :: 0 <= k < |ids| ==> mine[k] in names && names[mine[k]] == ids[k]
    ensures IsBook(Rebuilt(all, ids), names, BookOf(s.trades)) <==> Rebuilt(TableOf(s), mine) == BookOf(s.trades)
  {
    hide Reachable, TableOf;
    var own, shared, book := Rebuilt(TableOf(s), mine), Rebuilt(all, ids), BookOf(s.trades);
    forall i | i in names
      ensures i in own <==> names[i] in shared
      ensures i in own ==> own[i].tradeId == i && shared[names[i]] == own[i].(tradeId := names[i])
    {
      if i in own {
        var k :| 0 <= k < |mine| && mine[k] == i;
        assert ids[k] == names[i];
      }
      if names[i] in shared {
        var k :| 0 <= k < |ids| && ids[k] == names[i];
        assert mine[k] == i;
      }
    }
    forall i | i in book
      ensures i in names && book[i].tradeId == i
    {
      PositionHasRow(s, i);
      PositionIsTrades(s, i);
    }
    forall id | id in shared
      ensures exists i :: i in own && i in names && names[i] == id
    {
      var k :| 0 <= k < |ids| && ids[k] == id;
      assert mine[k] in own;
    }
    if IsBook(shared, names, book) {
      forall i | i in own
        ensures i in book
      {
        assert names[i] in shared;
        var j :| j in book && j in names && names[j] == names[i];
      }
      forall i | i in book
        ensures own[i] == book[i]
      {
        assert own[i].(tradeId := names[i]).(tradeId := i) == own[i];
        assert book[i].(tradeId := names[i]).(tradeId := i) == book[i];
      }
    }
  }

  lemma PositionIsTrades(s: State, id: nat)
    requires Reachable(s) && id < |s.trades| && s.trades[id].pos.Some?
    ensures s.trades[id].pos.value.tradeId == id
  {
    hide Run, Reachable, KeysKept, LogKept, OrdersKept, HoldsKept, TrailKept, TurnKept, RaceKept, ReasonsKept;
    ReachableKept(s);
    assert TradeKept(s.config, s.trades[id]);
  }

  /** What a start of a mode selects is of that mode. */
  lemma SelectedOfMode(all: Table, mode: Mode, ids: seq<nat>)
    requires Selected(all, mode, ids)
    ensures forall k :: 0 <= k < |ids| ==> ids[k] in all && all[ids[k]].isPaper == mode.Paper?
  {
  }

  /** A paper start rebuilds exactly the paper book, whatever live rows there are; a live start exactly the live book,
      whatever paper rows there are, under the conditions of a live restart. */
  lemma EachModeRebuildsItsBook(all: Table, paper: State, paperNames: map<nat, nat>, live: State,
                                liveNames: map<nat, nat>, paperIds: seq<nat>, liveIds: seq<nat>)
    requires Shared(all, paper, paperNames, live, liveNames)
    requires Selected(all, Paper, paperIds) && |OpenIds(TableOf(paper), Paper)| <= REHYDRATE_LIMIT
    requires Selected(all, Live, liveIds) && |OpenIds(TableOf(live), Live)| <= REHYDRATE_LIMIT
    ensures IsBook(Rebuilt(all, paperIds), paperNames, BookOf(paper.trades))
    ensures IsBook(Rebuilt(all, liveIds), liveNames, BookOf(live.trades)) <==>
            forall id :: 0 <= id < |live.trades| && id in TableOf(live) ==>
              var t, r := live.trades[id], TableOf(live)[id];
              !t.lateClose && Returns(t, r) && (t.pos.Some? ==> !t.late && FiguresSurvive(live.config, t, r))
  {
    hide Reachable, AllQuiet, TableOf, Holds, Rebuilt, IsBook, OpenRow, FiguresSurvive, Returns;
    SelectedOfMode(all, Paper, paperIds);
    SelectedOfMode(all, Live, liveIds);
    var p := OwnListing(all, paperNames, paper, (r: Row) => OpenRow(Paper, r), REHYDRATE_LIMIT, paperIds);
    var l := OwnListing(all, liveNames, live, (r: Row) => OpenRow(Live, r), REHYDRATE_LIMIT, liveIds);
    SameRebuilt(all, paperNames, paper, paperIds, p);
    SameRebuilt(all, liveNames, live, liveIds, l);
    RestartRebuildsTheBook(paper, p);
    LiveRestartRebuildsTheBook(live, l);
  }

  /** The report of a mode over the shared table is the report over its own rows. */
  lemma EachModeReportsItsRows(all: Table, names: map<nat, nat>, s: State, start: int, end: int, ids: seq<nat>,
                               date: int) returns (mine: seq<nat>)
    requires Reachable(s) && Holds(all, names, s)
    requires Lists(all, (r: Row) => ClosedBetween(s.config.mode, start, end, r), REPORT_LIMIT, ids)
    ensures Lists(TableOf(s), (r: Row) => ClosedBetween(s.config.mode, start, end, r), REPORT_LIMIT, mine)
    ensures DailyPnl.Report(RowsOf(all, ids), date, s.config.mode) ==
            DailyPnl.Report(RowsOf(TableOf(s), mine), date, s.config.mode)
  {
    hide Reachable, TableOf, DailyPnl.Report;
    mine := OwnListing(all, names, s, (r: Row) => ClosedBetween(s.config.mode, start, end, r), REPORT_LIMIT, ids);
    assert RowsOf(all, ids) == RowsOf(TableOf(s), mine);
  }
}
