/** End-of-day profit and loss: one pass over the closed trades of a session. */
module DailyPnl {
  import opened Domain

  // ---------------------------------------------------------------- eight decimal places, half to even

  const SCALE: real := 100000000.0
  const HALF_UNIT: real := 0.000000005

  function RoundHalfEven(x: real): int {
    var below := x.Floor;
    var part := x - below as real;
    if part < 0.5 then below
    else if part > 0.5 then below + 1
    else if below % 2 == 0 then below else below + 1
  }

  function Quantize(v: real): real {
    RoundHalfEven(v * SCALE) as real / SCALE
  }

  /** The nearest integer, and the even one when two are equally near. */
  lemma RoundNearest(x: real, n: int)
    ensures -0.5 <= RoundHalfEven(x) as real - x <= 0.5
    ensures x - n as real == 0.5 || x - n as real == -0.5 ==> (RoundHalfEven(x) == n <==> n % 2 == 0)
  {
    var below := x.Floor;
    if x - n as real == 0.5 {
      assert below == n;
    } else if x - n as real == -0.5 {
      assert below == n - 1;
    }
  }

  /** A multiple of the unit nearest to v, and the even one when two are equally near. */
  lemma QuantizeNearest(v: real, n: int)
    ensures -HALF_UNIT <= Quantize(v) - v <= HALF_UNIT
    ensures v * SCALE - n as real == 0.5 || v * SCALE - n as real == -0.5 ==>
              (Quantize(v) == n as real / SCALE <==> n % 2 == 0)
  {
    hide RoundHalfEven;
    var x := v * SCALE;
    RoundNearest(x, n);
    assert Quantize(v) * SCALE == RoundHalfEven(x) as real;
  }

  lemma QuantizeMonotone(v: real, w: real)
    requires v <= w
    ensures Quantize(v) <= Quantize(w)
  {
    var x, y := v * SCALE, w * SCALE;
    assert x <= y;
    assert RoundHalfEven(x) <= RoundHalfEven(y);
  }

  lemma QuantizeExact(v: real)
    ensures Quantize(v) == v <==> (v * SCALE).Floor as real == v * SCALE
    ensures Quantize(Quantize(v)) == Quantize(v)
    ensures Quantize(0.0) == 0.0 && Quantize(100.0) == 100.0
  {
    var n := RoundHalfEven(v * SCALE);
    assert Quantize(v) * SCALE == n as real;
    assert RoundHalfEven(n as real) == n;
    assert RoundHalfEven(100.0 * SCALE) == 10000000000;
  }

  // ---------------------------------------------------------------- one trade

  /** Python's `a or b` on optional decimals: zero counts as missing. */
  function Or(a: Option<real>, b: Option<real>): Option<real> {
    if a.Some? && a.value != 0.0 then a else b
  }

  /** Realized P&L of one row, or None when a fill is missing. */
  function TradePnl(r: Row): Option<real> {
    var quantity := Or(r.exitQty, r.filledQty);
    if r.filledPrice.None? || r.exitPrice.None? || quantity.None? then None
    else if r.kind.Long? then Some((r.exitPrice.value - r.filledPrice.value) * quantity.value)
    else Some((r.filledPrice.value - r.exitPrice.value) * quantity.value)
  }

  function EntryQty(r: Row): real {
    Or(r.filledQty, Or(r.exitQty, Some(0.0))).GetOr(0.0)
  }

  function ExitQty(r: Row): real {
    Or(r.exitQty, Some(EntryQty(r))).GetOr(0.0)
  }

  predicate Counted(r: Row) {
    TradePnl(r).Some?
  }

  function Pnl(r: Row): real {
    TradePnl(r).GetOr(0.0)
  }

  function Invested(r: Row): real {
    if Counted(r) then r.filledPrice.GetOr(0.0) * EntryQty(r) else 0.0
  }

  function Proceeds(r: Row): real {
    if Counted(r) then r.exitPrice.GetOr(0.0) * ExitQty(r) else 0.0
  }

  predicate Won(r: Row) {
    Pnl(r) > 0.0
  }

  predicate Lost(r: Row) {
    Pnl(r) < 0.0
  }

  predicate Even(r: Row) {
    Counted(r) && Pnl(r) == 0.0
  }

  function Gain(r: Row): real {
    if Won(r) then Pnl(r) else 0.0
  }

  function Loss(r: Row): real {
    if Lost(r) then Pnl(r) else 0.0
  }

  // ---------------------------------------------------------------- many trades

  function Sum(rows: seq<Row>, f: Row -> real): real {
    if rows == [] then 0.0 else Sum(rows[..|rows| - 1], f) + f(rows[|rows| - 1])
  }

  function Count(rows: seq<Row>, p: Row -> bool): nat {
    if rows == [] then 0 else Count(rows[..|rows| - 1], p) + if p(rows[|rows| - 1]) then 1 else 0
  }

  /** The largest gain, or zero. */
  function Highest(rows: seq<Row>): real {
    if rows == [] then 0.0
    else
      var h, p := Highest(rows[..|rows| - 1]), Pnl(rows[|rows| - 1]);
      if p > h then p else h
  }

  /** The largest loss, or zero. */
  function Lowest(rows: seq<Row>): real {
    if rows == [] then 0.0
    else
      var l, p := Lowest(rows[..|rows| - 1]), Pnl(rows[|rows| - 1]);
      if p < l then p else l
  }

  function CountedSymbols(rows: seq<Row>): set<string> {
    set r | r in rows && Counted(r) :: r.symbol
  }

  datatype Stats = Stats(
    date: int, mode: Mode, total: nat, wins: nat, losses: nat, breakeven: nat, symbols: nat,
    realized: real, invested: real, proceeds: real, winRate: real, returnPct: real,
    averageWin: real, averageLoss: real, largestWin: real, largestLoss: real)

  function Average(sum: real, n: nat): real {
    if n == 0 then 0.0 else sum / n as real
  }

  /** The report, each figure from its own definition. */
  function Report(rows: seq<Row>, date: int, mode: Mode): Stats {
    var total, wins, losses := Count(rows, Counted), Count(rows, Won), Count(rows, Lost);
    var realized, invested := Sum(rows, Pnl), Sum(rows, Invested);
    Stats(date, mode, total, wins, losses, Count(rows, Even), |CountedSymbols(rows)|,
          Quantize(realized), Quantize(invested), Quantize(Sum(rows, Proceeds)),
          Quantize(if total == 0 then 0.0 else wins as real / total as real * 100.0),
          Quantize(if invested > 0.0 then realized / invested * 100.0 else 0.0),
          Quantize(Average(Sum(rows, Gain), wins)), Quantize(Average(Sum(rows, Loss), losses)),
          Quantize(Highest(rows)), Quantize(Lowest(rows)))
  }

  /** `compute_daily_pnl`: one loop over the trades, skipping those without fills. */
  method ComputeDailyPnl(rows: seq<Row>, date: int, mode: Mode) returns (stats: Stats)
    ensures stats == Report(rows, date, mode)
  {
    var total, wins, losses, breakeven := 0, 0, 0, 0;
    var realized, invested, proceeds := 0.0, 0.0, 0.0;
    var winSum, lossSum, largestWin, largestLoss := 0.0, 0.0, 0.0, 0.0;
    var symbols: set<string> := {};
    hide Sum, Count, Highest, Lowest, CountedSymbols, Quantize;
    NothingYet(rows[..0]);
    for i := 0 to |rows|
      invariant total == Count(rows[..i], Counted) && wins == Count(rows[..i], Won)
      invariant losses == Count(rows[..i], Lost) && breakeven == Count(rows[..i], Even)
      invariant realized == Sum(rows[..i], Pnl) && invested == Sum(rows[..i], Invested)
      invariant proceeds == Sum(rows[..i], Proceeds)
      invariant winSum == Sum(rows[..i], Gain) && lossSum == Sum(rows[..i], Loss)
      invariant largestWin == Highest(rows[..i]) >= 0.0 && largestLoss == Lowest(rows[..i]) <= 0.0
      invariant symbols == CountedSymbols(rows[..i])
    {
      var r := rows[i];
      OneMore(rows, i);
      var pnl := TradePnl(r);
      if pnl.None? {
        continue;
      }
      total := total + 1;
      symbols := symbols + {r.symbol};
      var entryQty := Or(Or(r.filledQty, r.exitQty), Some(0.0)).GetOr(0.0);
      var exitQty := Or(r.exitQty, Some(entryQty)).GetOr(0.0);
      assert entryQty == EntryQty(r) && exitQty == ExitQty(r);
      assert Invested(r) == r.filledPrice.GetOr(0.0) * entryQty && Proceeds(r) == r.exitPrice.GetOr(0.0) * exitQty;
      invested := invested + r.filledPrice.GetOr(0.0) * entryQty;
      proceeds := proceeds + r.exitPrice.GetOr(0.0) * exitQty;
      realized := realized + pnl.value;
      if pnl.value > 0.0 {
        wins := wins + 1;
        winSum := winSum + pnl.value;
        largestWin := if pnl.value > largestWin then pnl.value else largestWin;
      } else if pnl.value < 0.0 {
        losses := losses + 1;
        lossSum := lossSum + pnl.value;
        largestLoss := if pnl.value < largestLoss then pnl.value else largestLoss;
      } else {
        breakeven := breakeven + 1;
      }
    }
    assert rows[..|rows|] == rows;
    var winRate := if total > 0 then wins as real / total as real * 100.0 else 0.0;
    var returnPct := if invested > 0.0 then realized / invested * 100.0 else 0.0;
    stats := Stats(date, mode, total, wins, losses, breakeven, |symbols|,
                   Quantize(realized), Quantize(invested), Quantize(proceeds), Quantize(winRate), Quantize(returnPct),
                   Quantize(Average(winSum, wins)), Quantize(Average(lossSum, losses)),
                   Quantize(largestWin), Quantize(largestLoss));
  }

  /** What one more row adds to each figure. */
  lemma OneMore(rows: seq<Row>, i: nat)
    requires i < |rows|
    ensures var a, b, r := rows[..i], rows[..i + 1], rows[i];
            && Count(b, Counted) == Count(a, Counted) + (if Counted(r) then 1 else 0)
            && Count(b, Won) == Count(a, Won) + (if Won(r) then 1 else 0)
            && Count(b, Lost) == Count(a, Lost) + (if Lost(r) then 1 else 0)
            && Count(b, Even) == Count(a, Even) + (if Even(r) then 1 else 0)
            && Sum(b, Pnl) == Sum(a, Pnl) + Pnl(r) && Sum(b, Invested) == Sum(a, Invested) + Invested(r)
            && Sum(b, Proceeds) == Sum(a, Proceeds) + Proceeds(r)
            && Sum(b, Gain) == Sum(a, Gain) + Gain(r) && Sum(b, Loss) == Sum(a, Loss) + Loss(r)
            && Highest(b) == (if Pnl(r) > Highest(a) then Pnl(r) else Highest(a))
            && Lowest(b) == (if Pnl(r) < Lowest(a) then Pnl(r) else Lowest(a))
            && CountedSymbols(b) == CountedSymbols(a) + (if Counted(r) then {r.symbol} else {})
  {
    hide Counted, Won, Lost, Even, Pnl, Invested, Proceeds, Gain, Loss;
    assert rows[..i + 1] == rows[..i] + [rows[i]];
    assert rows[..i + 1][..i] == rows[..i];
  }

  lemma NothingYet(rows: seq<Row>)
    requires rows == []
    ensures Count(rows, Counted) == Count(rows, Won) == Count(rows, Lost) == Count(rows, Even) == 0
    ensures Sum(rows, Pnl) == Sum(rows, Invested) == Sum(rows, Proceeds) == Sum(rows, Gain) == Sum(rows, Loss) == 0.0
    ensures Highest(rows) == Lowest(rows) == 0.0 && CountedSymbols(rows) == {}
  {
  }
}
