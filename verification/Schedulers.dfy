/** The daily schedulers: each looks at the clock now and then and does its work once per day, at or
    after its time. */
module Schedulers {
  import opened Domain
  import opened LifecycleTheorems
  import opened Calls
  import opened Matching
  import opened TradesTable
  import opened AsyncDbWriters
  import opened ExecutionServices
  import opened PaperLedger
  import DailyPnl
  import R = Rehydration
  import B = PositionBooks

  /** One look at the wall clock; times and instants count microseconds. */
  datatype Reading = Reading(date: int, time: int)

  const DAY: int := 86400000000

  predicate Due(trigger: Option<int>, lastRun: Option<int>, r: Reading) {
    trigger.Some? && r.time >= trigger.value && lastRun != Some(r.date)
  }

  // ---------------------------------------------------------------- over many readings

  /** The date of the last run after these readings. */
  function LastRun(trigger: Option<int>, start: Option<int>, rs: seq<Reading>): Option<int> {
    if rs == [] then start
    else
      var last, r := LastRun(trigger, start, rs[..|rs| - 1]), rs[|rs| - 1];
      if Due(trigger, last, r) then Some(r.date) else last
  }

  /** The readings at which the work is done. */
  function Runs(trigger: Option<int>, start: Option<int>, rs: seq<Reading>): seq<Reading> {
    if rs == [] then []
    else
      var init, r := rs[..|rs| - 1], rs[|rs| - 1];
      Runs(trigger, start, init) + if Due(trigger, LastRun(trigger, start, init), r) then [r] else []
  }

  predicate Ordered(rs: seq<Reading>) {
    forall i, j :: 0 <= i < j < |rs| ==> rs[i].date <= rs[j].date
  }

  /** A date with a reading at or after the trigger. */
  predicate DueOn(trigger: Option<int>, rs: seq<Reading>, date: int) {
    trigger.Some? && exists i :: 0 <= i < |rs| && rs[i].date == date && rs[i].time >= trigger.value
  }

  predicate DoneOn(runs: seq<Reading>, date: int) {
    exists k :: 0 <= k < |runs| && runs[k].date == date
  }

  predicate Increasing(runs: seq<Reading>) {
    forall k, l :: 0 <= k < l < |runs| ==> runs[k].date < runs[l].date
  }

  lemma DueOnSnoc(trigger: Option<int>, init: seq<Reading>, r: Reading, date: int)
    ensures DueOn(trigger, init + [r], date) <==>
            DueOn(trigger, init, date) || (trigger.Some? && r.date == date && r.time >= trigger.value)
  {
    var rs := init + [r];
    assert rs[|init|] == r && forall i :: 0 <= i < |init| ==> rs[i] == init[i];
  }

  lemma DoneSnoc(runs: seq<Reading>, r: Reading, date: int)
    ensures DoneOn(runs + [r], date) <==> DoneOn(runs, date) || r.date == date
  {
    var rs := runs + [r];
    assert rs[|runs|] == r && forall i :: 0 <= i < |runs| ==> rs[i] == runs[i];
  }

  predicate FromStart(start: Option<int>, rs: seq<Reading>) {
    Ordered(rs) && (start.Some? ==> forall i :: 0 <= i < |rs| ==> start.value <= rs[i].date)
  }

  /** The runs are on ever later dates, and the last run is remembered. */
  lemma {:induction false} RunsInOrder(trigger: Option<int>, start: Option<int>, rs: seq<Reading>)
    requires FromStart(start, rs)
    ensures Increasing(Runs(trigger, start, rs))
    ensures var runs := Runs(trigger, start, rs);
            LastRun(trigger, start, rs) == if runs == [] then start else Some(runs[|runs| - 1].date)
    ensures LastRun(trigger, start, rs).Some? && rs != [] ==> LastRun(trigger, start, rs).value <= rs[|rs| - 1].date
    decreases |rs|
  {
    if rs != [] {
      RunsInOrder(trigger, start, rs[..|rs| - 1]);
      assert |rs| > 1 ==> rs[|rs| - 2].date <= rs[|rs| - 1].date;
    }
  }

  /** With a clock that never goes back a day, the work is done exactly once on each date that has a
      reading at or after the trigger, except the date already done at the start, and on no other. */
  lemma {:induction false} OncePerDay(trigger: Option<int>, start: Option<int>, rs: seq<Reading>, date: int)
    requires FromStart(start, rs)
    ensures DoneOn(Runs(trigger, start, rs), date) <==> DueOn(trigger, rs, date) && start != Some(date)
    ensures Increasing(Runs(trigger, start, rs))
    decreases |rs|
  {
    hide DoneOn, DueOn, Increasing;
    RunsInOrder(trigger, start, rs);
    if rs == [] {
      NothingDone(trigger, date);
    } else {
      var init, r := rs[..|rs| - 1], rs[|rs| - 1];
      assert rs == init + [r];
      var runs := Runs(trigger, start, init);
      OncePerDay(trigger, start, init, date);
      DueOnSnoc(trigger, init, r, date);
      RunsInOrder(trigger, start, init);
      if Due(trigger, LastRun(trigger, start, init), r) {
        DoneSnoc(runs, r, date);
        StartIsBefore(trigger, start, init, r);
      } else {
        assert Runs(trigger, start, rs) == runs + [] == runs;
        if runs != [] { DoneAtEnd(runs); }
      }
    }
  }

  /** A run on the starting date is never due. */
  lemma StartIsBefore(trigger: Option<int>, start: Option<int>, init: seq<Reading>, r: Reading)
    requires FromStart(start, init + [r]) && Due(trigger, LastRun(trigger, start, init), r)
    requires var runs := Runs(trigger, start, init);
             LastRun(trigger, start, init) == if runs == [] then start else Some(runs[|runs| - 1].date)
    ensures start != Some(r.date)
  {
    var runs := Runs(trigger, start, init);
    RunsAreReadings(trigger, start, init);
    assert (init + [r])[|init|] == r && forall i :: 0 <= i < |init| ==> (init + [r])[i] == init[i];
    if runs != [] {
      var i :| 0 <= i < |init| && init[i] == runs[|runs| - 1];
    }
  }

  lemma {:induction false} RunsAreReadings(trigger: Option<int>, start: Option<int>, rs: seq<Reading>)
    ensures forall k :: 0 <= k < |Runs(trigger, start, rs)| ==> Runs(trigger, start, rs)[k] in rs
    decreases |rs|
  {
    if rs != [] {
      RunsAreReadings(trigger, start, rs[..|rs| - 1]);
      assert rs == rs[..|rs| - 1] + [rs[|rs| - 1]];
    }
  }

  lemma NothingDone(trigger: Option<int>, date: int)
    ensures !DoneOn([], date) && !DueOn(trigger, [], date)
  {
  }

  lemma DoneAtEnd(runs: seq<Reading>)
    requires runs != []
    ensures DoneOn(runs, runs[|runs| - 1].date)
  {
  }

  // ---------------------------------------------------------------- the windows of the daily report

  function WindowStart(close: int, r: Reading): int {
    (r.date - 1) * DAY + close
  }

  function WindowEnd(r: Reading): int {
    r.date * DAY + r.time
  }

  /** A report covers what closed after yesterday's close time, up to the moment it is made. */
  predicate Covers(close: int, r: Reading, instant: int) {
    WindowStart(close, r) < instant <= WindowEnd(r)
  }

  /** The window of a report is the day up to it and the day before from the close time on; it lists the closed rows
      of its mode in there, and no other. */
  lemma ReportListsSince(mode: Mode, close: int, r: Reading, row: Row, day: int, time: int)
    requires 0 <= close <= r.time < DAY && 0 <= time < DAY && row.closedAt == Some(day * DAY + time)
    ensures Covers(close, r, day * DAY + time) <==>
            (day == r.date && time <= r.time) || (day == r.date - 1 && time > close)
    ensures ClosedBetween(mode, WindowStart(close, r), WindowEnd(r), row) <==>
            && row.status.CLOSED? && (row.isPaper <==> mode.Paper?)
            && ((day == r.date && time <= r.time) || (day == r.date - 1 && time > close))
  {
  }

  predicate Missed(close: int, runs: seq<Reading>, instant: int) {
    forall k :: 0 <= k < |runs| ==> !Covers(close, runs[k], instant)
  }

  predicate Reports(close: int, runs: seq<Reading>) {
    0 <= close && Increasing(runs) && forall k :: 0 <= k < |runs| ==> close <= runs[k].time < DAY
  }

  predicate Consecutive(runs: seq<Reading>) {
    forall k :: 0 <= k < |runs| - 1 ==> runs[k + 1].date == runs[k].date + 1
  }

  predicate InSpan(close: int, runs: seq<Reading>, instant: int)
    requires runs != []
  {
    WindowStart(close, runs[0]) < instant <= WindowEnd(runs[|runs| - 1])
  }

  lemma {:induction false} ConsecutiveCover(close: int, runs: seq<Reading>, instant: int)
    requires Reports(close, runs) && runs != [] && Consecutive(runs) && InSpan(close, runs, instant)
    ensures !Missed(close, runs, instant)
    decreases |runs|
  {
    var n := |runs| - 1;
    if Covers(close, runs[n], instant) {
    } else {
      var init := runs[..n];
      assert init != [] && InSpan(close, init, instant) by { assert n > 0 ==> runs[n].date == runs[n - 1].date + 1; }
      assert forall k :: 0 <= k < |init| ==> init[k] == runs[k];
      ConsecutiveCover(close, init, instant);
    }
  }

  lemma SkippedDayMisses(close: int, runs: seq<Reading>, k: nat)
    requires Reports(close, runs) && k < |runs| - 1 && runs[k + 1].date != runs[k].date + 1
    ensures InSpan(close, runs, WindowEnd(runs[k]) + 1) && Missed(close, runs, WindowEnd(runs[k]) + 1)
  {
    var instant := WindowEnd(runs[k]) + 1;
    assert runs[k].date < runs[k + 1].date;
    assert k > 0 ==> runs[0].date < runs[k].date;
    assert k + 1 < |runs| - 1 ==> runs[k + 1].date < runs[|runs| - 1].date;
    forall j | 0 <= j < |runs|
      ensures !Covers(close, runs[j], instant)
    {
      assert j < k ==> runs[j].date < runs[k].date;
      assert j > k + 1 ==> runs[k + 1].date < runs[j].date;
    }
  }

  /** Between the first and the last report no closing time is missed exactly when there was a report
      every day. */
  lemma NoGapIff(close: int, runs: seq<Reading>)
    requires Reports(close, runs) && runs != []
    ensures (forall instant :: InSpan(close, runs, instant) ==> !Missed(close, runs, instant)) <==> Consecutive(runs)
  {
    if Consecutive(runs) {
      forall instant | InSpan(close, runs, instant)
        ensures !Missed(close, runs, instant)
      {
        ConsecutiveCover(close, runs, instant);
      }
    } else {
      var k :| 0 <= k < |runs| - 1 && runs[k + 1].date != runs[k].date + 1;
      SkippedDayMisses(close, runs, k);
    }
  }

  /** What closes between the close time and a later report is counted again the next day: the windows
      of two consecutive days share an instant exactly when the first report was late. */
  lemma CountedTwiceIff(close: int, r1: Reading, r2: Reading)
    requires Reports(close, [r1, r2]) && r2.date == r1.date + 1
    ensures (exists instant :: Covers(close, r1, instant) && Covers(close, r2, instant)) <==> r1.time > close
  {
    assert [r1, r2][0] == r1 && [r1, r2][1] == r2;
    if r1.time > close {
      assert Covers(close, r1, WindowEnd(r1)) && Covers(close, r2, WindowEnd(r1));
    }
  }

  predicate ClosedAt(table: Table, mode: Mode, id: nat, at: int) {
    id in table && table[id].status.CLOSED? && table[id].isPaper == mode.Paper? && table[id].closedAt == Some(at)
  }

  /** Report k queries tables[k]; the CLOSED row of the trade is in the tables from the landed-th report on,
      and not before: writes reach the table behind the queue. */
  predicate Lands(tables: seq<Table>, mode: Mode, id: nat, at: int, landed: nat) {
    forall k :: 0 <= k < |tables| ==>
      if k < landed then id in tables[k] ==> !tables[k][id].status.CLOSED? else ClosedAt(tables[k], mode, id, at)
  }

  /** Each report lists its window of its table, none of them cut short. */
  ghost predicate Listed(mode: Mode, close: int, runs: seq<Reading>, tables: seq<Table>, listings: seq<seq<nat>>) {
    && |tables| == |listings| == |runs|
    && forall k :: 0 <= k < |runs| ==>
        ListsWindow(mode, WindowStart(close, runs[k]), WindowEnd(runs[k]), tables[k], listings[k])
  }

  ghost predicate ListsWindow(mode: Mode, start: int, end: int, table: Table, listing: seq<nat>) {
    && Lists(table, (r: Row) => ClosedBetween(mode, start, end, r), REPORT_LIMIT, listing)
    && |listing| < REPORT_LIMIT
  }

  lemma InWindowIff(mode: Mode, start: int, end: int, table: Table, listing: seq<nat>, id: nat)
    requires ListsWindow(mode, start, end, table, listing)
    ensures id in listing <==> id in table && ClosedBetween(mode, start, end, table[id])
  {
  }

  lemma StartsIncrease(close: int, runs: seq<Reading>, k: nat, l: nat)
    requires Reports(close, runs) && k <= l < |runs|
    ensures WindowStart(close, runs[k]) <= WindowStart(close, runs[l])
  {
    assert k < l ==> runs[k].date < runs[l].date;
  }

  /** With a report every day, a trade that closed by the last report is in some report if and only if its
      CLOSED row reached the table before a report whose window still starts before the closing time; a row
      that lands later is never reported. */
  lemma ReportedIff(mode: Mode, close: int, runs: seq<Reading>, tables: seq<Table>, listings: seq<seq<nat>>, id: nat,
                    at: int, landed: nat)
    requires Reports(close, runs) && runs != [] && Consecutive(runs) && Listed(mode, close, runs, tables, listings)
    requires landed <= |runs| && Lands(tables, mode, id, at, landed) && at <= WindowEnd(runs[|runs| - 1])
    ensures (exists k :: 0 <= k < |listings| && id in listings[k]) <==>
            landed < |runs| && WindowStart(close, runs[landed]) < at
  {
    hide WindowStart, WindowEnd, ListsWindow;
    forall k | 0 <= k < |listings| && id in listings[k]
      ensures landed < |runs| && WindowStart(close, runs[landed]) < at
    {
      InWindowIff(mode, WindowStart(close, runs[k]), WindowEnd(runs[k]), tables[k], listings[k], id);
      StartsIncrease(close, runs, landed, k);
    }
    if landed < |runs| && WindowStart(close, runs[landed]) < at {
      var rest := runs[landed..];
      assert forall k :: 0 <= k < |rest| ==> rest[k] == runs[landed + k];
      ConsecutiveCover(close, rest, at);
      var j :| 0 <= j < |rest| && Covers(close, rest[j], at);
      var k := landed + j;
      InWindowIff(mode, WindowStart(close, runs[k]), WindowEnd(runs[k]), tables[k], listings[k], id);
    }
  }

  // ---------------------------------------------------------------- the schedulers themselves

  /** `MarketCloseLiquidator`. */
  class MarketCloseLiquidator {
    const service: ExecutionService
    const closeTime: Option<int>   // None: never
    var lastRun: Option<int>

    constructor (service: ExecutionService, closeTime: Option<int>)
      ensures this.service == service && this.closeTime == closeTime && lastRun == None
    {
      this.service, this.closeTime, lastRun := service, closeTime, None;
    }

    /** `maybe_liquidate`. */
    method MaybeLiquidate(r: Reading, accepted: set<nat>, now: int) returns (n: nat)
      requires service.Valid() && AllQuiet(service.m.trades)
      modifies this, service, service.writer, service.book, service.broker, service.book.flat.Values
      ensures service.Valid() && AllQuiet(service.m.trades)
      ensures lastRun == LastRun(closeTime, old(lastRun), [r])
      ensures var ts := old(service.m).trades;
              if Due(closeTime, old(lastRun), r) then
                var ids := B.Opens(R.BookOf(ts));
                && n == |ids| && AllCanClaim(ts, ids, service.lastPrice, MarketClose)
                && service.m.trades == Exiting(service.config, ts, ids, ids, service.lastPrice, MarketClose, accepted)
              else n == 0 && service.m == old(service.m)
      ensures Due(closeTime, old(lastRun), r) && service.config.mode.Paper? ==> service.book.flat == map[]
      ensures Grew(old(service.writer.Mark()), service.writer.Mark())
    {
      hide ExecutionService.Valid, AllQuiet, AllCanClaim, Exiting, R.BookOf, B.Opens;
      assert [r][..0] == [];
      if closeTime.None? {
        return 0;
      }
      if r.time >= closeTime.value && lastRun != Some(r.date) {
        lastRun := Some(r.date);
        ghost var order;
        n, order := service.LiquidateAll(accepted, now);
        return;
      }
      return 0;
    }
  }

  /** `WatchlistRefresher`; what the fetcher brings is given, None if it raised. */
  class WatchlistRefresher {
    const store: WatchlistStore
    const openTime: Option<int>
    var lastRun: Option<int>

    constructor (store: WatchlistStore, openTime: Option<int>)
      ensures this.store == store && this.openTime == openTime && lastRun == None
    {
      this.store, this.openTime, lastRun := store, openTime, None;
    }

    /** `refresh_once`; when the fetcher raises, the old snapshot stays. */
    method RefreshOnce(fetched: Option<seq<Entry>>)
      requires store.Valid()
      modifies store
      ensures store.Valid() && store.entries == fetched.GetOr(old(store.entries))
    {
      if fetched.Some? {
        store.Replace(fetched.value);
      }
    }

    /** `maybe_refresh`: the day counts as done even if the fetcher raised. */
    method MaybeRefresh(r: Reading, fetched: Option<seq<Entry>>)
      requires store.Valid()
      modifies this, store
      ensures store.Valid() && lastRun == LastRun(openTime, old(lastRun), [r])
      ensures store.entries == if Due(openTime, old(lastRun), r) then fetched.GetOr(old(store.entries))
              else old(store.entries)
    {
      assert [r][..0] == [];
      if openTime.Some? && r.time >= openTime.value && lastRun != Some(r.date) {
        lastRun := Some(r.date);
        RefreshOnce(fetched);
      }
    }

    /** The start of `run_forever`: one load; started at or after the open time, today is done. */
    method Startup(r: Reading, fetched: Option<seq<Entry>>)
      requires store.Valid() && lastRun == None
      modifies this, store
      ensures store.Valid() && store.entries == fetched.GetOr(old(store.entries))
      ensures lastRun == LastRun(openTime, None, [r])
    {
      assert [r][..0] == [];
      RefreshOnce(fetched);
      if openTime.Some? && r.time >= openTime.value {
        lastRun := Some(r.date);
      }
    }
  }

  // ---------------------------------------------------------------- the reporter

  /** Which day each mode was last reported on, and the daily rows. */
  datatype Record = Record(lastRun: map<Mode, int>, stored: map<(int, Mode), DailyPnl.Stats>) {
    function LastOf(mode: Mode): Option<int> {
      if mode in lastRun then Some(lastRun[mode]) else None
    }
  }

  /** The table a report is made from, and what the database lists for its window; None if the query raises. */
  datatype Query = Query(table: Table, listing: Option<seq<nat>>)

  ghost predicate Answers(q: Query, mode: Mode, closeTime: Option<int>, r: Reading) {
    closeTime.Some? && q.listing.Some? ==>
      Lists(q.table, (row: Row) => ClosedBetween(mode, WindowStart(closeTime.value, r), WindowEnd(r), row),
            REPORT_LIMIT, q.listing.value)
  }

  ghost predicate AllAnswer(schedule: seq<(Mode, Option<int>)>, r: Reading, queries: seq<Query>) {
    |queries| == |schedule| &&
    forall k :: 0 <= k < |schedule| ==> Answers(queries[k], schedule[k].0, schedule[k].1, r)
  }

  /** The report of one mode, if due: Err if its query raises, though the day then counts as done. */
  ghost function OneReport(b: Record, mode: Mode, closeTime: Option<int>, r: Reading, q: Query):
      (Record, Result<Option<DailyPnl.Stats>>)
    requires Answers(q, mode, closeTime, r)
  {
    if !Due(closeTime, b.LastOf(mode), r) then (b, Ok(None))
    else
      var marked := b.(lastRun := b.lastRun[mode := r.date]);
      if q.listing.None? then (marked, Err)
      else
        var stats := DailyPnl.Report(RowsOf(q.table, q.listing.value), r.date, mode);
        (marked.(stored := b.stored[(r.date, mode) := stats]), Ok(Some(stats)))
  }

  /** The modes of a schedule one after the other, up to the first whose query raises. */
  ghost function AllReports(b: Record, schedule: seq<(Mode, Option<int>)>, r: Reading, queries: seq<Query>):
      (Record, Result<seq<DailyPnl.Stats>>)
    requires AllAnswer(schedule, r, queries)
    decreases |schedule|
  {
    if schedule == [] then (b, Ok([]))
    else
      var n := |schedule| - 1;
      var (before, made) := AllReports(b, schedule[..n], r, queries[..n]);
      if made.Err? then (before, Err)
      else
        var (after, last) := OneReport(before, schedule[n].0, schedule[n].1, r, queries[n]);
        (after, match last case Err => Err case Ok(None) => made case Ok(Some(stats)) => Ok(made.value + [stats]))
  }

  ghost predicate DistinctModes(schedule: seq<(Mode, Option<int>)>) {
    forall k, l :: 0 <= k < l < |schedule| ==> schedule[k].0 != schedule[l].0
  }

  /** The query of this entry raises. */
  predicate Raises(b: Record, schedule: seq<(Mode, Option<int>)>, r: Reading, queries: seq<Query>, k: nat) {
    k < |schedule| && k < |queries| && Due(schedule[k].1, b.LastOf(schedule[k].0), r) && queries[k].listing.None?
  }

  predicate NoneRaisesBefore(b: Record, schedule: seq<(Mode, Option<int>)>, r: Reading, queries: seq<Query>, k: nat) {
    forall l: nat :: l < k ==> !Raises(b, schedule, r, queries, l)
  }

  lemma OneReportIs(b: Record, mode: Mode, closeTime: Option<int>, r: Reading, q: Query)
    requires Answers(q, mode, closeTime, r)
    ensures var (after, made) := OneReport(b, mode, closeTime, r, q);
            && (made.Err? <==> Due(closeTime, b.LastOf(mode), r) && q.listing.None?)
            && after.LastOf(mode) == (if Due(closeTime, b.LastOf(mode), r) then Some(r.date) else b.LastOf(mode))
            && after.stored == if Due(closeTime, b.LastOf(mode), r) && q.listing.Some? then
                 b.stored[(r.date, mode) := DailyPnl.Report(RowsOf(q.table, q.listing.value), r.date, mode)]
               else b.stored
  {
  }

  lemma ElsewhereKept(b: Record, mode: Mode, closeTime: Option<int>, r: Reading, q: Query, other: Mode)
    requires Answers(q, mode, closeTime, r) && other != mode
    ensures var after := OneReport(b, mode, closeTime, r, q).0;
            && after.LastOf(other) == b.LastOf(other)
            && forall date :: ((date, other) in after.stored <==> (date, other) in b.stored)
                   && ((date, other) in b.stored ==> after.stored[(date, other)] == b.stored[(date, other)])
  {
  }

  lemma {:induction false} Untouched(b: Record, schedule: seq<(Mode, Option<int>)>, r: Reading, queries: seq<Query>,
                                     mode: Mode)
    requires AllAnswer(schedule, r, queries) && forall k :: 0 <= k < |schedule| ==> schedule[k].0 != mode
    ensures var after := AllReports(b, schedule, r, queries).0;
            && after.LastOf(mode) == b.LastOf(mode)
            && forall date :: (date, mode) in after.stored <==> (date, mode) in b.stored
    decreases |schedule|
  {
    hide OneReport, Answers;
    if schedule != [] {
      var n := |schedule| - 1;
      Untouched(b, schedule[..n], r, queries[..n], mode);
      var before := AllReports(b, schedule[..n], r, queries[..n]).0;
      ElsewhereKept(before, schedule[n].0, schedule[n].1, r, queries[n], mode);
    }
  }

  lemma SameRaises(b: Record, schedule: seq<(Mode, Option<int>)>, r: Reading, queries: seq<Query>, n: nat)
    requires n <= |schedule| == |queries|
    ensures forall k: nat :: k <= n ==>
              (NoneRaisesBefore(b, schedule[..n], r, queries[..n], k) <==> NoneRaisesBefore(b, schedule, r, queries, k))
  {
    hide Due;
    assert forall l: nat :: l < n ==>
        (Raises(b, schedule[..n], r, queries[..n], l) <==> Raises(b, schedule, r, queries, l));
  }

  lemma OneMoreRaises(b: Record, schedule: seq<(Mode, Option<int>)>, r: Reading, queries: seq<Query>, k: nat)
    ensures NoneRaisesBefore(b, schedule, r, queries, k + 1) <==>
            NoneRaisesBefore(b, schedule, r, queries, k) && !Raises(b, schedule, r, queries, k)
  {
    hide Due;
  }

  lemma {:induction false} OkIff(b: Record, schedule: seq<(Mode, Option<int>)>, r: Reading, queries: seq<Query>)
    requires AllAnswer(schedule, r, queries) && DistinctModes(schedule)
    ensures AllReports(b, schedule, r, queries).1.Ok? <==> NoneRaisesBefore(b, schedule, r, queries, |schedule|)
    decreases |schedule|
  {
    hide OneReport, Answers, Due;
    if schedule != [] {
      var n := |schedule| - 1;
      var init, asked := schedule[..n], queries[..n];
      OkIff(b, init, r, asked);
      SameRaises(b, schedule, r, queries, n);
      Untouched(b, init, r, asked, schedule[n].0);
      OneReportIs(AllReports(b, init, r, asked).0, schedule[n].0, schedule[n].1, r, queries[n]);
      OneMoreRaises(b, schedule, r, queries, n);
      assert AllReports(b, init, r, asked).1.Ok? <==> NoneRaisesBefore(b, schedule, r, queries, n);
      var one := OneReport(AllReports(b, init, r, asked).0, schedule[n].0, schedule[n].1, r, queries[n]);
      assert one.1.Err? <==> Raises(b, schedule, r, queries, n);
    }
  }

  /** A raising query loses the report of its own mode for the day, while the modes after it are still due: mode k
      counts as done if and only if it was due and no query before it raised, and then its row is stored unless its
      own query raised. */
  lemma {:induction false} ReportsMadeIff(b: Record, schedule: seq<(Mode, Option<int>)>, r: Reading,
                                          queries: seq<Query>, k: nat)
    requires AllAnswer(schedule, r, queries) && DistinctModes(schedule) && k < |schedule|
    ensures var mode, close := schedule[k].0, schedule[k].1;
            var (after, made) := AllReports(b, schedule, r, queries);
            && (made.Ok? <==> NoneRaisesBefore(b, schedule, r, queries, |schedule|))
            && after.LastOf(mode) == (if Due(close, b.LastOf(mode), r) && NoneRaisesBefore(b, schedule, r, queries, k)
                                      then Some(r.date) else b.LastOf(mode))
            && (Due(close, b.LastOf(mode), r) && NoneRaisesBefore(b, schedule, r, queries, k + 1) ==>
                  && queries[k].listing.Some? && (r.date, mode) in after.stored
                  && after.stored[(r.date, mode)] ==
                     DailyPnl.Report(RowsOf(queries[k].table, queries[k].listing.value), r.date, mode))
            && (!Due(close, b.LastOf(mode), r) || !NoneRaisesBefore(b, schedule, r, queries, k + 1) ==>
                  ((r.date, mode) in after.stored <==> (r.date, mode) in b.stored))
    decreases |schedule|
  {
    hide OneReport, Answers, Due;
    var n := |schedule| - 1;
    var init, asked := schedule[..n], queries[..n];
    var before := AllReports(b, init, r, asked).0;
    OkIff(b, schedule, r, queries);
    SameRaises(b, schedule, r, queries, n);
    OneMoreRaises(b, schedule, r, queries, k);
    if k < n {
      ReportsMadeIff(b, init, r, asked, k);
      if AllReports(b, init, r, asked).1.Ok? {
        ElsewhereKept(before, schedule[n].0, schedule[n].1, r, queries[n], schedule[k].0);
      }
    } else {
      Untouched(b, init, r, asked, schedule[n].0);
      OkIff(b, init, r, asked);
      OneReportIs(before, schedule[n].0, schedule[n].1, r, queries[n]);
    }
  }

  /** `DailyPnlReporter`, with the table of daily rows it fills. */
  class DailyPnlReporter {
    const schedule: seq<(Mode, Option<int>)>
    var lastRun: map<Mode, int>
    var stored: map<(int, Mode), DailyPnl.Stats>

    constructor (schedule: seq<(Mode, Option<int>)>)
      ensures this.schedule == schedule && Made() == Record(map[], map[])
    {
      this.schedule, lastRun, stored := schedule, map[], map[];
    }

    function Made(): Record
      reads this
    {
      Record(lastRun, stored)
    }

    /** `_maybe_report_mode`; Err if the query raises. Then there is no report, and as the day already counts as
        done, none will be made for it. */
    method MaybeReportMode(mode: Mode, closeTime: Option<int>, r: Reading, q: Query)
      returns (result: Result<Option<DailyPnl.Stats>>)
      requires Answers(q, mode, closeTime, r)
      modifies this
      ensures (Made(), result) == OneReport(old(Made()), mode, closeTime, r, q)
      ensures Made().LastOf(mode) == LastRun(closeTime, old(Made()).LastOf(mode), [r])
    {
      assert [r][..0] == [];
      if closeTime.None? {
        return Ok(None);
      }
      if r.time < closeTime.value || (mode in lastRun && lastRun[mode] == r.date) {
        return Ok(None);
      }
      lastRun := lastRun[mode := r.date];
      if q.listing.None? {
        return Err;
      }
      var computed := DailyPnl.ComputeDailyPnl(RowsOf(q.table, q.listing.value), r.date, mode);
      stored := stored[(r.date, mode) := computed];
      return Ok(Some(computed));
    }

    /** `maybe_report`: every mode of the schedule in turn; a query that raises ends the loop and its results are
        lost. */
    method MaybeReport(r: Reading, queries: seq<Query>) returns (results: Result<seq<DailyPnl.Stats>>)
      requires AllAnswer(schedule, r, queries)
      modifies this
      ensures (Made(), results) == AllReports(old(Made()), schedule, r, queries)
    {
      hide Lists, Due, DailyPnl.Report, OneReport, Answers;
      var made := [];
      for k := 0 to |schedule|
        invariant (Made(), Ok(made)) == AllReports(old(Made()), schedule[..k], r, queries[..k])
      {
        assert schedule[..k + 1][..k] == schedule[..k] && queries[..k + 1][..k] == queries[..k];
        var result := MaybeReportMode(schedule[k].0, schedule[k].1, r, queries[k]);
        if result.Err? {
          StopsHere(old(Made()), schedule, r, queries, k + 1);
          return Err;
        }
        if result.value.Some? {
          made := made + [result.value.value];
        }
      }
      assert schedule[..|schedule|] == schedule && queries[..|schedule|] == queries;
      return Ok(made);
    }
  }

  /** Once a query has raised, the rest of the schedule is left. */
  lemma {:induction false} StopsHere(b: Record, schedule: seq<(Mode, Option<int>)>, r: Reading, queries: seq<Query>,
                                     k: nat)
    requires AllAnswer(schedule, r, queries) && k <= |schedule|
    requires AllReports(b, schedule[..k], r, queries[..k]).1.Err?
    ensures AllReports(b, schedule, r, queries) == AllReports(b, schedule[..k], r, queries[..k])
    decreases |schedule| - k
  {
    hide OneReport, Answers;
    if k < |schedule| {
      assert schedule[..k + 1][..k] == schedule[..k] && queries[..k + 1][..k] == queries[..k];
      StopsHere(b, schedule, r, queries, k + 1);
    } else {
      assert schedule[..k] == schedule && queries[..k] == queries;
    }
  }
}
