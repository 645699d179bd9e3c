/** What the daily report says about the trades it counted. */
module DailyPnlTheorems {
  import opened Domain
  import opened DailyPnl

  // ---------------------------------------------------------------- the figures fit together

  lemma {:induction false} Partition(rows: seq<Row>)
    ensures Count(rows, Won) + Count(rows, Lost) + Count(rows, Even) == Count(rows, Counted)
    ensures Sum(rows, Pnl) == Sum(rows, Gain) + Sum(rows, Loss)
    decreases |rows|
  {
    if rows != [] {
      Partition(rows[..|rows| - 1]);
    }
  }

  /** n times x, as a name the proofs can keep folded. */
  function Times(n: nat, x: real): real {
    n as real * x
  }

  lemma OneMoreTime(n: nat, x: real)
    ensures Times(n + 1, x) == Times(n, x) + x && Times(0, x) == 0.0 && Times(n, 0.0) == 0.0
  {
  }

  /** Gains lie between zero and as many times the largest; likewise losses. */
  lemma {:induction false} GainsBounded(rows: seq<Row>, high: real, low: real)
    requires low <= 0.0 <= high && forall k :: 0 <= k < |rows| ==> low <= Pnl(rows[k]) <= high
    ensures 0.0 <= Sum(rows, Gain) <= Times(Count(rows, Won), high)
    ensures Times(Count(rows, Lost), low) <= Sum(rows, Loss) <= 0.0
    decreases |rows|
  {
    hide Pnl, Times;
    if rows == [] {
      OneMoreTime(0, high);
      OneMoreTime(0, low);
    } else {
      var init, n := rows[..|rows| - 1], |rows| - 1;
      assert forall k :: 0 <= k < n ==> init[k] == rows[k];
      GainsBounded(init, high, low);
      OneMoreTime(Count(init, Won), high);
      OneMoreTime(Count(init, Lost), low);
      assert low <= Pnl(rows[n]) <= high;
    }
  }

  lemma {:induction false} PeaksAroundZero(rows: seq<Row>)
    ensures Lowest(rows) <= 0.0 <= Highest(rows)
    ensures forall k :: 0 <= k < |rows| ==> Lowest(rows) <= Pnl(rows[k]) <= Highest(rows)
    ensures Highest(rows) == 0.0 || exists k :: 0 <= k < |rows| && Pnl(rows[k]) == Highest(rows)
    ensures Lowest(rows) == 0.0 || exists k :: 0 <= k < |rows| && Pnl(rows[k]) == Lowest(rows)
    decreases |rows|
  {
    hide Pnl;
    if rows != [] {
      var init, n := rows[..|rows| - 1], |rows| - 1;
      PeaksAroundZero(init);
      assert forall k :: 0 <= k < n ==> rows[k] == init[k];
      assert Pnl(rows[n]) <= Highest(rows) && Lowest(rows) <= Pnl(rows[n]);
    }
  }

  lemma AverageBounds(sum: real, n: nat, low: real, high: real)
    requires Times(n, low) <= sum <= Times(n, high) && low <= 0.0 <= high
    ensures low <= Average(sum, n) <= high
    ensures Times(n, Average(sum, n)) == sum
  {
    hide Times;
    if n > 0 {
      AverageTimes(sum, n);
      TimesOrder(Average(sum, n), high, n);
      TimesOrder(low, Average(sum, n), n);
    } else {
      OneMoreTime(0, low);
      OneMoreTime(0, high);
    }
  }

  lemma AverageTimes(sum: real, n: nat)
    requires n > 0
    ensures Times(n, Average(sum, n)) == sum
  {
  }

  lemma TimesOrder(x: real, y: real, n: nat)
    requires n > 0
    ensures Times(n, x) <= Times(n, y) <==> x <= y
  {
    assert n as real * y - n as real * x == n as real * (y - x);
  }

  /** The stored figures: every counted trade is a win, a loss or even; losses and gains are ordered
      around zero; the win rate is a percentage. */
  lemma ReportIsOrdered(rows: seq<Row>, date: int, mode: Mode)
    ensures var s := Report(rows, date, mode);
            && s.wins + s.losses + s.breakeven == s.total
            && s.largestLoss <= s.averageLoss <= 0.0 <= s.averageWin <= s.largestWin
            && 0.0 <= s.winRate <= 100.0
  {
    hide Quantize, Sum, Count, Highest, Lowest, Times, Pnl;
    var wins, losses := Count(rows, Won), Count(rows, Lost);
    Partition(rows);
    PeaksAroundZero(rows);
    GainsBounded(rows, Highest(rows), Lowest(rows));
    OneMoreTime(wins, 0.0);
    OneMoreTime(losses, 0.0);
    AverageBounds(Sum(rows, Gain), wins, 0.0, Highest(rows));
    AverageBounds(Sum(rows, Loss), losses, Lowest(rows), 0.0);
    QuantizeExact(0.0);
    QuantizeMonotone(Average(Sum(rows, Gain), wins), Highest(rows));
    QuantizeMonotone(0.0, Average(Sum(rows, Gain), wins));
    QuantizeMonotone(Average(Sum(rows, Loss), losses), 0.0);
    QuantizeMonotone(Lowest(rows), Average(Sum(rows, Loss), losses));
    var rate := Percentage(wins, Count(rows, Counted));
    QuantizeMonotone(0.0, rate);
    QuantizeMonotone(rate, 100.0);
  }

  lemma Percentage(part: nat, whole: nat) returns (rate: real)
    requires part <= whole
    ensures rate == if whole == 0 then 0.0 else part as real / whole as real * 100.0
    ensures 0.0 <= rate <= 100.0
  {
    rate := if whole == 0 then 0.0 else part as real / whole as real * 100.0;
    if whole > 0 {
      var q := part as real / whole as real;
      assert Times(whole, q) == part as real && Times(whole, 1.0) == whole as real && Times(whole, 0.0) == 0.0;
      TimesOrder(q, 1.0, whole);
      TimesOrder(0.0, q, whole);
    }
  }

  /** Rounding cannot pull the stored figures apart by more than half a unit per winning or losing
      trade and one for the total. */
  lemma StoredFiguresReconcile(rows: seq<Row>, date: int, mode: Mode)
    ensures var s := Report(rows, date, mode);
            var gap := s.realized - Times(s.wins, s.averageWin) - Times(s.losses, s.averageLoss);
            -Times(s.wins + s.losses + 1, HALF_UNIT) <= gap <= Times(s.wins + s.losses + 1, HALF_UNIT)
  {
    hide Quantize, Sum, Count, Highest, Lowest, Times, Pnl, Average;
    var wins, losses := Count(rows, Won), Count(rows, Lost);
    var gain, loss := Sum(rows, Gain), Sum(rows, Loss);
    Partition(rows);
    PeaksAroundZero(rows);
    GainsBounded(rows, Highest(rows), Lowest(rows));
    OneMoreTime(wins, 0.0);
    OneMoreTime(losses, 0.0);
    AverageBounds(gain, wins, 0.0, Highest(rows));
    AverageBounds(loss, losses, Lowest(rows), 0.0);
    RoundedMultiple(Average(gain, wins), wins);
    RoundedMultiple(Average(loss, losses), losses);
    QuantizeNearest(Sum(rows, Pnl), 0);
    TimesAdd(wins, losses, HALF_UNIT);
    OneMoreTime(wins + losses, HALF_UNIT);
  }

  lemma TimesAdd(n: nat, m: nat, x: real)
    ensures Times(n + m, x) == Times(n, x) + Times(m, x)
  {
  }

  lemma RoundedMultiple(v: real, n: nat)
    ensures -Times(n, HALF_UNIT) <= Times(n, Quantize(v)) - Times(n, v) <= Times(n, HALF_UNIT)
  {
    hide Quantize;
    QuantizeNearest(v, 0);
    var e := Quantize(v) - v;
    if n > 0 {
      TimesOrder(e, HALF_UNIT, n);
      TimesOrder(-HALF_UNIT, e, n);
    }
    assert n as real * Quantize(v) - n as real * v == n as real * e;
  }

  // ---------------------------------------------------------------- what each figure means

  /** A row counts when both prices and a quantity are known, zero counting as an unknown exit quantity; its P&L is
      the gain per share times the exit quantity, or the entry quantity if that is unknown. What was put in and taken
      out is price times quantity of each fill, either quantity standing in for the other. */
  lemma RowFigures(r: Row)
    ensures var exitKnown := r.exitQty.Some? && r.exitQty.value != 0.0;
            var entryKnown := r.filledQty.Some? && r.filledQty.value != 0.0;
            var counted := r.filledPrice.Some? && r.exitPrice.Some? && (exitKnown || r.filledQty.Some?);
            && (Counted(r) <==> counted)
            && (!counted ==> Pnl(r) == Invested(r) == Proceeds(r) == 0.0)
            && (counted ==>
                  var entry, exit := r.filledPrice.value, r.exitPrice.value;
                  var quantity := if exitKnown then r.exitQty.value else r.filledQty.value;
                  && Pnl(r) == (if r.kind.Long? then (exit - entry) * quantity else (entry - exit) * quantity)
                  && Invested(r) == entry * (if entryKnown then r.filledQty.value else quantity)
                  && Proceeds(r) == exit * quantity)
  {
  }

  /** The rows that satisfy p, by their places. */
  function Which(rows: seq<Row>, p: Row -> bool): set<int> {
    set k | 0 <= k < |rows| && p(rows[k])
  }

  lemma {:induction false} CountIsSize(rows: seq<Row>, p: Row -> bool)
    ensures Count(rows, p) == |Which(rows, p)|
    decreases |rows|
  {
    if rows != [] {
      var init, n := rows[..|rows| - 1], |rows| - 1;
      CountIsSize(init, p);
      assert Which(rows, p) == Which(init, p) + if p(rows[n]) then {n} else {};
    }
  }

  /** Rounded shares of a whole. */
  lemma RoundedQuotient(part: real, whole: real)
    requires whole > 0.0
    ensures var q := Quantize(part / whole * 100.0);
            part * 100.0 - HALF_UNIT * whole <= q * whole <= part * 100.0 + HALF_UNIT * whole
  {
    hide Quantize;
    var v := part / whole * 100.0;
    assert v * whole == part * 100.0;
    QuantizeNearest(v, 0);
    WithinScaled(Quantize(v), v, HALF_UNIT, whole, part * 100.0);
  }

  lemma WithinScaled(q: real, v: real, h: real, whole: real, total: real)
    requires v - h <= q <= v + h && whole > 0.0 && v * whole == total
    ensures total - h * whole <= q * whole <= total + h * whole
  {
    Scaled(v - h, q, whole);
    Scaled(q, v + h, whole);
    Distributes(v, h, whole);
  }

  lemma Distributes(v: real, h: real, whole: real)
    ensures (v + h) * whole == v * whole + h * whole && (v - h) * whole == v * whole - h * whole
  {
  }

  lemma Scaled(x: real, y: real, whole: real)
    requires x <= y && whole > 0.0
    ensures x * whole <= y * whole
  {
    NotNegative(y - x, whole);
    assert (y - x) * whole == y * whole - x * whole;
  }

  lemma NotNegative(a: real, b: real)
    requires a >= 0.0 && b >= 0.0
    ensures a * b >= 0.0
  {
  }

  /** The report counts rows, wins, losses, even trades and symbols, and its money figures are sums over the rows. */
  lemma ReportCounts(rows: seq<Row>, date: int, mode: Mode)
    ensures var s := Report(rows, date, mode);
            && s.date == date && s.mode == mode
            && s.total == |Which(rows, Counted)| && s.wins == |Which(rows, Won)|
            && s.losses == |Which(rows, Lost)| && s.breakeven == |Which(rows, Even)|
            && s.symbols == |set k | 0 <= k < |rows| && Counted(rows[k]) :: rows[k].symbol|
            && s.realized == Quantize(Sum(rows, Pnl))
            && s.invested == Quantize(Sum(rows, Invested)) && s.proceeds == Quantize(Sum(rows, Proceeds))
  {
    hide Quantize, Sum, Count, Highest, Lowest, Pnl, Counted, Invested, Proceeds, Won, Lost, Even, Average, Which;
    CountIsSize(rows, Counted);
    CountIsSize(rows, Won);
    CountIsSize(rows, Lost);
    CountIsSize(rows, Even);
    assert CountedSymbols(rows) == set k | 0 <= k < |rows| && Counted(rows[k]) :: rows[k].symbol;
  }

  /** Win rate and return are the wins per trade and the P&L per money put in, in percent, up to rounding. */
  lemma ReportRates(rows: seq<Row>, date: int, mode: Mode)
    ensures var s := Report(rows, date, mode);
            if s.total == 0 then s.winRate == 0.0
            else
              s.wins as real * 100.0 - HALF_UNIT * s.total as real <= s.winRate * s.total as real
              <= s.wins as real * 100.0 + HALF_UNIT * s.total as real
    ensures var s, gain, spent := Report(rows, date, mode), Sum(rows, Pnl), Sum(rows, Invested);
            if spent <= 0.0 then s.returnPct == 0.0
            else gain * 100.0 - HALF_UNIT * spent <= s.returnPct * spent <= gain * 100.0 + HALF_UNIT * spent
  {
    hide Quantize, Sum, Count, Highest, Lowest, Pnl, Counted, Invested, Proceeds, Won, Lost, Even, Average,
         CountedSymbols;
    QuantizeExact(0.0);
    if Count(rows, Counted) > 0 {
      RoundedQuotient(Count(rows, Won) as real, Count(rows, Counted) as real);
    }
    if Sum(rows, Invested) > 0.0 {
      RoundedQuotient(Sum(rows, Pnl), Sum(rows, Invested));
    }
  }

  /** The averages are the gains per win and the losses per loss, up to rounding. */
  lemma ReportAverages(rows: seq<Row>, date: int, mode: Mode)
    ensures var s := Report(rows, date, mode);
            && Sum(rows, Gain) - Times(s.wins, HALF_UNIT) <= Times(s.wins, s.averageWin)
                 <= Sum(rows, Gain) + Times(s.wins, HALF_UNIT)
            && Sum(rows, Loss) - Times(s.losses, HALF_UNIT) <= Times(s.losses, s.averageLoss)
                 <= Sum(rows, Loss) + Times(s.losses, HALF_UNIT)
  {
    hide Quantize, Sum, Count, Highest, Lowest, Times, Pnl, Average;
    PeaksAroundZero(rows);
    GainsBounded(rows, Highest(rows), Lowest(rows));
    OneMoreTime(Count(rows, Won), 0.0);
    OneMoreTime(Count(rows, Lost), 0.0);
    AverageBounds(Sum(rows, Gain), Count(rows, Won), 0.0, Highest(rows));
    AverageBounds(Sum(rows, Loss), Count(rows, Lost), Lowest(rows), 0.0);
    RoundedMultiple(Average(Sum(rows, Gain), Count(rows, Won)), Count(rows, Won));
    RoundedMultiple(Average(Sum(rows, Loss), Count(rows, Lost)), Count(rows, Lost));
  }

  /** The largest win and loss are those of some row, or zero, and no row goes beyond them. */
  lemma ReportPeaks(rows: seq<Row>, date: int, mode: Mode)
    ensures var s := Report(rows, date, mode);
            && (s.largestWin == 0.0 || exists k :: 0 <= k < |rows| && s.largestWin == Quantize(Pnl(rows[k])))
            && (s.largestLoss == 0.0 || exists k :: 0 <= k < |rows| && s.largestLoss == Quantize(Pnl(rows[k])))
            && forall k :: 0 <= k < |rows| ==> s.largestLoss <= Quantize(Pnl(rows[k])) <= s.largestWin
  {
    hide Quantize, Sum, Count, Highest, Lowest, Pnl, Counted, Invested, Proceeds, Won, Lost, Even, Average,
         CountedSymbols;
    QuantizeExact(0.0);
    PeaksAroundZero(rows);
    forall k | 0 <= k < |rows|
      ensures Quantize(Lowest(rows)) <= Quantize(Pnl(rows[k])) <= Quantize(Highest(rows))
    {
      QuantizeMonotone(Lowest(rows), Pnl(rows[k]));
      QuantizeMonotone(Pnl(rows[k]), Highest(rows));
    }
  }

  // ---------------------------------------------------------------- order does not matter

  function Without(rows: seq<Row>, k: nat): seq<Row>
    requires k < |rows|
  {
    rows[..k] + rows[k + 1..]
  }

  lemma {:induction false} SumWithout(rows: seq<Row>, k: nat, f: Row -> real)
    requires k < |rows|
    ensures Sum(rows, f) == Sum(Without(rows, k), f) + f(rows[k])
    decreases |rows|
  {
    var n := |rows| - 1;
    if k == n {
      assert Without(rows, k) == rows[..n];
    } else {
      SumWithout(rows[..n], k, f);
      assert Without(rows, k)[..n - 1] == Without(rows[..n], k);
    }
  }

  lemma {:induction false} CountWithout(rows: seq<Row>, k: nat, p: Row -> bool)
    requires k < |rows|
    ensures Count(rows, p) == Count(Without(rows, k), p) + if p(rows[k]) then 1 else 0
    decreases |rows|
  {
    var n := |rows| - 1;
    if k == n {
      assert Without(rows, k) == rows[..n];
    } else {
      CountWithout(rows[..n], k, p);
      assert Without(rows, k)[..n - 1] == Without(rows[..n], k);
    }
  }

  lemma RemoveMatching(rows: seq<Row>, other: seq<Row>) returns (k: nat)
    requires rows != [] && multiset(rows) == multiset(other)
    ensures k < |other| && other[k] == rows[|rows| - 1]
    ensures multiset(rows[..|rows| - 1]) == multiset(Without(other, k))
  {
    var init, last := rows[..|rows| - 1], rows[|rows| - 1];
    assert rows == init + [last];
    assert last in multiset(other);
    k :| 0 <= k < |other| && other[k] == last;
    assert other == other[..k] + ([last] + other[k + 1..]);
    assert multiset(init) == multiset(rows) - multiset{last};
    assert multiset(Without(other, k)) == multiset(other) - multiset{last};
  }

  lemma {:induction false} SumPermuted(rows: seq<Row>, other: seq<Row>, f: Row -> real)
    requires multiset(rows) == multiset(other)
    ensures Sum(rows, f) == Sum(other, f)
    decreases |rows|
  {
    if rows == [] {
      assert |multiset(other)| == 0;
    } else {
      var k := RemoveMatching(rows, other);
      SumWithout(other, k, f);
      SumPermuted(rows[..|rows| - 1], Without(other, k), f);
    }
  }

  lemma {:induction false} CountPermuted(rows: seq<Row>, other: seq<Row>, p: Row -> bool)
    requires multiset(rows) == multiset(other)
    ensures Count(rows, p) == Count(other, p)
    decreases |rows|
  {
    if rows == [] {
      assert |multiset(other)| == 0;
    } else {
      var k := RemoveMatching(rows, other);
      CountWithout(other, k, p);
      CountPermuted(rows[..|rows| - 1], Without(other, k), p);
    }
  }

  lemma SameMembers(rows: seq<Row>, other: seq<Row>)
    requires multiset(rows) == multiset(other)
    ensures forall r :: r in rows <==> r in other
  {
    assert forall r :: r in rows <==> r in multiset(rows);
    assert forall r :: r in other <==> r in multiset(other);
  }

  lemma PeaksPermuted(rows: seq<Row>, other: seq<Row>)
    requires forall r :: r in rows ==> r in other
    ensures Highest(rows) <= Highest(other) && Lowest(other) <= Lowest(rows)
  {
    PeaksAroundZero(rows);
    PeaksAroundZero(other);
    if Highest(rows) != 0.0 {
      var k :| 0 <= k < |rows| && Pnl(rows[k]) == Highest(rows);
      assert rows[k] in other;
    }
    if Lowest(rows) != 0.0 {
      var k :| 0 <= k < |rows| && Pnl(rows[k]) == Lowest(rows);
      assert rows[k] in other;
    }
  }

  /** The report depends on which trades closed, not on the order they are listed in. */
  lemma ReportIgnoresOrder(rows: seq<Row>, other: seq<Row>, date: int, mode: Mode)
    requires multiset(rows) == multiset(other)
    ensures Report(rows, date, mode) == Report(other, date, mode)
  {
    hide Quantize, Sum, Count, Highest, Lowest, Counted, Pnl;
    SameMembers(rows, other);
    CountPermuted(rows, other, Counted);
    CountPermuted(rows, other, Won);
    CountPermuted(rows, other, Lost);
    CountPermuted(rows, other, Even);
    SumPermuted(rows, other, Pnl);
    SumPermuted(rows, other, Invested);
    SumPermuted(rows, other, Proceeds);
    SumPermuted(rows, other, Gain);
    SumPermuted(rows, other, Loss);
    PeaksPermuted(rows, other);
    PeaksPermuted(other, rows);
    assert CountedSymbols(rows) == CountedSymbols(other);
  }

  // ---------------------------------------------------------------- money in, money out

  /** Proceeds less investment of a long, investment less proceeds of a short. */
  function CashResult(r: Row): real {
    if r.kind.Long? then Proceeds(r) - Invested(r) else Invested(r) - Proceeds(r)
  }

  /** The exit was for as many shares as the entry. */
  predicate SameSize(r: Row) {
    EntryQty(r) == ExitQty(r)
  }

  /** A row's P&L is its cash result, when it sold what it bought. */
  lemma PnlIsCashResult(r: Row)
    requires Counted(r) && SameSize(r)
    ensures Pnl(r) == CashResult(r)
  {
    var q, e, x := ExitQty(r), r.filledPrice.value, r.exitPrice.value;
    assert Or(r.exitQty, r.filledQty) == Some(q);
    assert (x - e) * q == x * q - e * q && (e - x) * q == e * q - x * q;
  }
}
