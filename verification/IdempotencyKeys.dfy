/** Idempotency keys: `{mode}:{symbol}:{trigger_reason}:{signal_date}`, with `:r{attempt}` appended
    for a re-entry, and the parser the re-entry counter depends on. */
module IdempotencyKeys {
  import opened Domain

  // ---------------------------------------------------------------- decimal numerals

  predicate IsDigit(c: char) {
    '0' <= c <= '9'
  }

  /** Python's `str.isdigit` on ASCII text: false on the empty string. */
  predicate AllDigits(s: string) {
    s != "" && forall i :: 0 <= i < |s| ==> IsDigit(s[i])
  }

  function Numeral(n: nat): (s: string)
    ensures AllDigits(s)
  {
    if n < 10 then ['0' + n as char] else Numeral(n / 10) + ['0' + (n % 10) as char]
  }

  function ParseNumeral(s: string): nat
    requires forall i :: 0 <= i < |s| ==> IsDigit(s[i])
  {
    if s == "" then 0 else
      var last := s[|s| - 1];
      assert IsDigit(last);
      10 * ParseNumeral(s[..|s| - 1]) + (last as int - '0' as int)
  }

  lemma {:induction false} NumeralRoundTrip(n: nat)
    ensures ParseNumeral(Numeral(n)) == n
  {
    var s := Numeral(n);
    if n < 10 {
      assert s[..|s| - 1] == "";
    } else {
      assert s[..|s| - 1] == Numeral(n / 10);
      NumeralRoundTrip(n / 10);
    }
  }

  // ---------------------------------------------------------------- keys

  function ModeName(mode: Mode): string {
    if mode.Paper? then "paper" else "live"
  }

  /** An ISO date: ten characters, digits except for the two hyphens. */
  predicate IsDate(d: string) {
    |d| == 10 && forall i :: 0 <= i < 10 ==> if i == 4 || i == 7 then d[i] == '-' else IsDigit(d[i])
  }

  function BaseKey(mode: Mode, symbol: string, reason: Option<string>, date: string): string {
    ModeName(mode) + ":" + symbol + ":" + reason.GetOr("") + ":" + date
  }

  function ComposeKey(base: string, attempt: nat): string {
    if attempt == 0 then base else base + ":r" + Numeral(attempt)
  }

  /** Does the separator ":r" start at position i? */
  predicate MarkAt(key: string, i: int) {
    0 <= i && i + 2 <= |key| && key[i] == ':' && key[i + 1] == 'r'
  }

  /** Where `rpartition(":r")` cuts: the last separator at or before position i. */
  function LastMark(key: string, i: int): (r: Option<nat>)
    ensures r.Some? ==> r.value <= i && MarkAt(key, r.value)
    ensures forall j :: MarkAt(key, j) && j <= i ==> r.Some? && j <= r.value
    decreases if i < 0 then 0 else i + 1
  {
    if i < 0 then None else if MarkAt(key, i) then Some(i) else LastMark(key, i - 1)
  }

  function SplitAttempt(key: string): (string, nat) {
    match LastMark(key, |key|)
    case Some(i) => if AllDigits(key[i + 2..]) then (key[..i], ParseNumeral(key[i + 2..])) else (key, 0)
    case None => (key, 0)
  }

  function ExitKey(key: string): string {
    key + ":exit"
  }

  // ---------------------------------------------------------------- the round trip

  /** A string that already reads as a re-entry key. */
  ghost predicate EndsInAttempt(s: string) {
    exists i :: MarkAt(s, i) && AllDigits(s[i + 2..])
  }

  lemma LastMarkIsTheAttempt(key: string, i: nat)
    requires MarkAt(key, i) && AllDigits(key[i + 2..])
    ensures LastMark(key, |key|) == Some(i)
  {
    forall j | i + 2 <= j < |key|
      ensures IsDigit(key[j])
    {
      assert key[j] == key[i + 2..][j - i - 2];
    }
  }

  /** The parser inverts the printer on every string and attempt, except on the bare (attempt 0)
      form of a string that itself ends in an attempt suffix. */
  lemma SplitInvertsCompose(base: string, attempt: nat)
    ensures SplitAttempt(ComposeKey(base, attempt)) == (base, attempt) <==> attempt > 0 || !EndsInAttempt(base)
  {
    var key := ComposeKey(base, attempt);
    if attempt > 0 {
      assert key[|base|..] == ":r" + Numeral(attempt);
      assert key[|base| + 2..] == Numeral(attempt);
      assert key[|base|] == ':' && key[|base| + 1] == 'r';
      assert MarkAt(key, |base|);
      LastMarkIsTheAttempt(key, |base|);
      NumeralRoundTrip(attempt);
      assert key[..|base|] == base;
    } else if EndsInAttempt(base) {
      var i :| MarkAt(base, i) && AllDigits(base[i + 2..]);
      LastMarkIsTheAttempt(base, i);
      assert |base[..i]| < |base|;
    }
  }

  /** What every key built from a signal looks like: it ends in a date. */
  predicate IsBase(base: string) {
    |base| >= 11 && base[|base| - 11] == ':' && IsDate(base[|base| - 10..])
  }

  lemma BaseKeyIsBase(mode: Mode, symbol: string, reason: Option<string>, date: string)
    requires IsDate(date)
    ensures IsBase(BaseKey(mode, symbol, reason, date))
  {
    var base := BaseKey(mode, symbol, reason, date);
    assert base[|base| - 10..] == date;
  }

  lemma BaseEndsInDate(base: string)
    requires IsBase(base)
    ensures !EndsInAttempt(base)
    ensures IsDigit(base[|base| - 1]) && IsDigit(base[|base| - 2]) && base[|base| - 3] == '-'
  {
    var d := base[|base| - 10..];
    assert d[9] == base[|base| - 1] && d[8] == base[|base| - 2] && d[7] == base[|base| - 3];
    forall i | MarkAt(base, i)
      ensures !AllDigits(base[i + 2..])
    {
      if i + 2 <= |base| - 3 {
        assert base[i + 2..][|base| - 3 - i - 2] == '-';
      }
    }
  }

  /** Keys of signals parse back, whatever the trigger reason contains. */
  lemma SplitAttemptOfSignal(base: string, attempt: nat)
    requires IsBase(base)
    ensures SplitAttempt(ComposeKey(base, attempt)) == (base, attempt)
  {
    BaseEndsInDate(base);
    SplitInvertsCompose(base, attempt);
  }

  lemma ComposedKeysInjective(b1: string, n1: nat, b2: string, n2: nat)
    requires IsBase(b1) && IsBase(b2)
    ensures ComposeKey(b1, n1) == ComposeKey(b2, n2) <==> b1 == b2 && n1 == n2
  {
    SplitAttemptOfSignal(b1, n1);
    SplitAttemptOfSignal(b2, n2);
  }

  /** Exit order ids belong to one entry key, and no exit id is an entry key. */
  lemma ExitKeysApart(b1: string, n1: nat, b2: string, n2: nat)
    requires IsBase(b1) && IsBase(b2)
    ensures ExitKey(ComposeKey(b1, n1)) == ExitKey(ComposeKey(b2, n2)) <==> b1 == b2 && n1 == n2
    ensures ExitKey(ComposeKey(b1, n1)) != ComposeKey(b2, n2)
  {
    var k1, k2 := ComposeKey(b1, n1), ComposeKey(b2, n2);
    assert ExitKey(k1)[..|k1|] == k1 && ExitKey(k2)[..|k2|] == k2;
    ComposedKeysInjective(b1, n1, b2, n2);
    BaseEndsInDate(b2);
    assert ExitKey(k1)[|k1| + 4] == 't';
    assert n2 > 0 ==> k2[|k2| - 1] == Numeral(n2)[|Numeral(n2)| - 1];
  }

  // ---------------------------------------------------------------- which signals share a base

  lemma FixedTail(p1: string, x1: string, d1: string, p2: string, x2: string, d2: string)
    requires |p1| == |p2| && |d1| == |d2| && p1 + x1 + d1 == p2 + x2 + d2
    ensures p1 == p2 && x1 == x2 && d1 == d2
  {
    var k1, k2 := p1 + x1 + d1, p2 + x2 + d2;
    assert k1[..|p1|] == p1 && k2[..|p1|] == p2;
    assert k1[|k1| - |d1|..] == d1 && k2[|k2| - |d2|..] == d2;
    assert k1[|p1|..|k1| - |d1|] == x1 && k2[|p1|..|k2| - |d2|] == x2;
  }

  lemma ColonFreeHead(s1: string, t1: string, s2: string, t2: string)
    requires ':' !in s1 && ':' !in s2 && s1 + ":" + t1 == s2 + ":" + t2
    ensures s1 == s2 && t1 == t2
  {
    var x1, x2 := s1 + ":" + t1, s2 + ":" + t2;
    assert forall j :: 0 <= j < |s1| ==> x1[j] == s1[j] != ':';
    assert forall j :: 0 <= j < |s2| ==> x2[j] == s2[j] != ':';
    assert x1[|s1|] == ':' && x2[|s2|] == ':';
    assert x1[..|s1|] == s1 && x2[..|s2|] == s2;
    assert x1[|s1| + 1..] == t1 && x2[|s2| + 1..] == t2;
  }

  lemma BaseKeyParts(m: Mode, s: string, r: Option<string>, d: string)
    ensures BaseKey(m, s, r, d) == ModeName(m) + (":" + (s + ":" + r.GetOr("")) + ":") + d
    ensures BaseKey(m, s, r, d)[0] == if m.Paper? then 'p' else 'l'
  {
  }

  /** Two signals share a base exactly when mode and date agree and `symbol:reason` agrees. */
  lemma BaseKeyCollisions(m1: Mode, s1: string, r1: Option<string>, d1: string, m2: Mode, s2: string,
                          r2: Option<string>, d2: string)
    requires IsDate(d1) && IsDate(d2)
    ensures BaseKey(m1, s1, r1, d1) == BaseKey(m2, s2, r2, d2) <==>
            m1 == m2 && d1 == d2 && s1 + ":" + r1.GetOr("") == s2 + ":" + r2.GetOr("")
  {
    hide BaseKey, ModeName;
    var x1, x2 := s1 + ":" + r1.GetOr(""), s2 + ":" + r2.GetOr("");
    BaseKeyParts(m1, s1, r1, d1);
    BaseKeyParts(m2, s2, r2, d2);
    if BaseKey(m1, s1, r1, d1) == BaseKey(m2, s2, r2, d2) {
      FixedTail(ModeName(m1), ":" + x1 + ":", d1, ModeName(m2), ":" + x2 + ":", d2);
      FixedTail(":", x1, ":", ":", x2, ":");
    }
  }

  /** With colon-free symbols a base names one mode, symbol, reason (None read as empty) and date. */
  lemma BaseKeyInjective(m1: Mode, s1: string, r1: Option<string>, d1: string, m2: Mode, s2: string,
                         r2: Option<string>, d2: string)
    requires IsDate(d1) && IsDate(d2) && ':' !in s1 && ':' !in s2
    ensures BaseKey(m1, s1, r1, d1) == BaseKey(m2, s2, r2, d2) <==>
            m1 == m2 && s1 == s2 && r1.GetOr("") == r2.GetOr("") && d1 == d2
  {
    BaseKeyCollisions(m1, s1, r1, d1, m2, s2, r2, d2);
    if s1 + ":" + r1.GetOr("") == s2 + ":" + r2.GetOr("") {
      ColonFreeHead(s1, r1.GetOr(""), s2, r2.GetOr(""));
    }
  }

  /** Without that, two different signals can share one base. */
  lemma ColonInSymbolCollides()
    ensures BaseKey(Paper, "A:B", Some("C"), "2024-01-02") == BaseKey(Paper, "A", Some("B:C"), "2024-01-02")
  {
    assert "A:B" + ":" + "C" == "A" + ":" + "B:C";
    assert IsDate("2024-01-02");
    BaseKeyCollisions(Paper, "A:B", Some("C"), "2024-01-02", Paper, "A", Some("B:C"), "2024-01-02");
  }
}
