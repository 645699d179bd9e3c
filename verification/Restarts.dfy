/** Runs that go on after restarts. A restart keeps the trades as they are and starts the key table anew from
    the rows it selects; it is a restart here as long as those rows rebuild the book. */
module Restarts {
  import opened Domain
  import opened IdempotencyKeys
  import opened TradesTable
  import opened Lifecycle
  import opened LifecycleInvariants
  import opened LifecycleSafety
  import opened LifecycleTheorems
  import opened Rehydration

  /** No call in progress, and the selected rows of the table rebuild the book. */
  ghost predicate Restores(s: State, table: Table, ids: seq<nat>) {
    AllQuiet(s.trades) && Selected(table, s.config.mode, ids) && Rebuilt(table, ids) == BookOf(s.trades)
  }

  function Restarted(s: State, table: Table, ids: seq<nat>): State
    requires forall k :: 0 <= k < |ids| ==> ids[k] in table
  {
    var k := Seed(NOTHING_SEEN, Keys(table, ids));
    s.(seen := k.seen, attempts := k.attempts)
  }

  /** What happens between two starts, and the table and listing the next start finds. */
  datatype Session = Session(evs: seq<Event>, table: Table, ids: seq<nat>)

  /** The state after these sessions and the restart at the end of each; None if that could not happen. */
  ghost function RunSessions(s: State, sessions: seq<Session>): Option<State>
    decreases |sessions|
  {
    if sessions == [] then Some(s)
    else
      var last := sessions[|sessions| - 1];
      match RunSessions(s, sessions[..|sessions| - 1])
      case None => None
      case Some(m) =>
        match Run(m, last.evs)
        case None => None
        case Some(e) =>
          if Restores(e, last.table, last.ids) then Some(Restarted(e, last.table, last.ids)) else None
  }

  /** s is where some run with restarts has got to, from an empty start. */
  ghost predicate ReachableAcross(s: State) {
    exists sessions, evs ::
      var start := RunSessions(Init(s.config), sessions);
      start.Some? && Run(start.value, evs) == Some(s)
  }

  // ---------------------------------------------------------------- what is kept across restarts

  /** The trade has a position or somebody is still working on it. */
  predicate InPlay(t: Trade) {
    t.forgets == 0 && (t.pos.Some? || !AtRest(t))
  }

  /** A trade in play holds the current key of its base. */
  predicate HoldsItsKey(s: State, t: Trade) {
    t.Key() in s.seen && t.attempt == AttemptsOf(s.attempts, t.base)
  }

  predicate AllHoldKeys(s: State) {
    forall i :: 0 <= i < |s.trades| && InPlay(s.trades[i]) ==> HoldsItsKey(s, s.trades[i])
  }

  predicate OnePerBase(ts: seq<Trade>) {
    forall i, j :: 0 <= i < j < |ts| && InPlay(ts[i]) && InPlay(ts[j]) ==> ts[i].base != ts[j].base
  }

  predicate AcrossKept(s: State) {
    TradesKept(s) && AllBases(s.trades) && AllHoldKeys(s) && OnePerBase(s.trades)
  }

  lemma PlayEndsByEntry(c: Config, t: Trade, a: EntryStep)
    requires EntryGuard(c, t, a) && InPlay(EntryMove(c, t, a))
    ensures InPlay(t)
  {
    hide ComposeKey, Qty, Notional;
  }

  lemma PlayEndsByExit(c: Config, t: Trade, a: ExitStep)
    requires Control(c, t) && ExitGuard(c, t, a) && InPlay(ExitMove(c, t, a))
    ensures InPlay(t)
  {
    hide ComposeKey;
  }

  lemma PlayEndsByFill(c: Config, t: Trade, a: FillStep)
    requires FillGuard(c, t, a) && InPlay(FillMove(c, t, a))
    ensures InPlay(t)
  {
    hide ComposeKey;
  }

  lemma PlayEndsByClose(c: Config, t: Trade, a: CloseStep)
    requires CloseGuard(c, t, a) && InPlay(CloseMove(c, t, a))
    ensures InPlay(t)
  {
    hide ComposeKey;
  }

  /** No step brings a trade back into play, and one that forgets was in play and ends it. */
  lemma PlayEnds(c: Config, t: Trade, a: Action)
    requires TradeKept(c, t) && Guard(c, t, a)
    ensures InPlay(Next(c, t, a)) ==> InPlay(t)
    ensures Forgets(a) ==> InPlay(t) && !InPlay(Next(c, t, a))
  {
    hide OrdersKept, HoldsKept, TrailKept, TurnKept, RaceKept, ReasonsKept, EntryMove, ExitMove, FillMove, CloseMove,
         EntryGuard, ExitGuard, FillGuard, CloseGuard, InPlay;
    match a {
      case ByExecute(e) => if InPlay(EntryMove(c, t, e)) { PlayEndsByEntry(c, t, e); }
      case ByExit(x) => if InPlay(ExitMove(c, t, x)) { PlayEndsByExit(c, t, x); }
      case ByFill(f) => if InPlay(FillMove(c, t, f)) { PlayEndsByFill(c, t, f); }
      case ByClose(x) => if InPlay(CloseMove(c, t, x)) { PlayEndsByClose(c, t, x); }
      case ByBroker(b) => SameInPlay(t, b);
    }
    if Forgets(a) { ForgettingEndsPlay(c, t, a); }
  }

  lemma SameInPlay(t: Trade, b: BrokerStep)
    requires BrokerGuard(t, b)
    ensures InPlay(BrokerMove(t, b)) <==> InPlay(t)
  {
  }

  lemma ForgettingEndsPlay(c: Config, t: Trade, a: Action)
    requires Control(c, t) && Guard(c, t, a) && Forgets(a)
    ensures InPlay(t) && !InPlay(Next(c, t, a))
  {
  }

  lemma ActionKeptAcross(s: State, id: nat, a: Action)
    requires AcrossKept(s) && Enabled(s, On(id, a))
    ensures AcrossKept(Acted(s, id, a))
  {
    hide TradeKept, Guard, Next, Write, Acted, ComposeKey, IsBase, InPlay, SplitAttempt, WriteInTurn, SystemStep;
    var t, s' := s.trades[id], Acted(s, id, a);
    var m, w := Next(s.config, t, a), Write(s.config, t, a);
    TradeStepKept(s.config, t, a);
    ActedIsSystemStep(s, id, a);
    TradesStep(s, id, w, m, Forgets(a), s');
    PlayEnds(s.config, t, a);
    KeysHeld(s, id, w, m, Forgets(a), s');
  }

  lemma KeysHeld(s: State, id: nat, w: Option<Task>, m: Trade, forgets: bool, s': State)
    requires AllBases(s.trades) && AllHoldKeys(s) && OnePerBase(s.trades)
    requires SystemStep(s, id, w, m, forgets, s') && (InPlay(m) ==> InPlay(s.trades[id]))
    requires forgets ==> InPlay(s.trades[id]) && !InPlay(m)
    ensures AllBases(s'.trades) && AllHoldKeys(s') && OnePerBase(s'.trades)
  {
    hide ComposeKey, IsBase, InPlay, SplitAttempt, WriteInTurn;
    var t := s.trades[id];
    if forgets { SplitAttemptOfSignal(t.base, t.attempt); }
    forall i | 0 <= i < |s'.trades| && InPlay(s'.trades[i])
      ensures HoldsItsKey(s', s'.trades[i])
    {
      assert InPlay(s.trades[i]) && HoldsItsKey(s, s.trades[i]);
      if i != id {
        ComposedKeysInjective(s.trades[i].base, s.trades[i].attempt, t.base, t.attempt);
      }
    }
  }

  lemma BeginKeptAcross(s: State, entry: Entry, price: real, date: string)
    requires AcrossKept(s) && Enabled(s, Begin(entry, price, date))
    ensures AcrossKept(Begun(s, entry, price, date))
  {
    hide TradeKept, SheetKept, ComposeKey, IsBase, BaseKey, IsDate, InPlay;
    var t := BegunJoins(s, entry, price, date);
    var s' := Begun(s, entry, price, date);
    forall i | 0 <= i < |s.trades| && InPlay(s.trades[i])
      ensures s.trades[i].base != t.base && HoldsItsKey(s', s'.trades[i])
    {
      assert HoldsItsKey(s, s.trades[i]);
    }
  }

  lemma {:induction false} RunKeptAcross(s: State, evs: seq<Event>)
    requires AcrossKept(s) && Run(s, evs).Some?
    ensures AcrossKept(Run(s, evs).value) && Run(s, evs).value.config == s.config
    decreases |evs|
  {
    hide AcrossKept, Guard, Acted, Begun;
    if evs != [] {
      RunKeptAcross(s, evs[..|evs| - 1]);
      var m, ev := Run(s, evs[..|evs| - 1]).value, evs[|evs| - 1];
      match ev {
        case Begin(entry, price, date) => BeginKeptAcross(m, entry, price, date);
        case On(id, a) => ActionKeptAcross(m, id, a);
      }
      StepKeepsConfig(m, ev);
    }
  }

  lemma StepKeepsConfig(s: State, ev: Event)
    requires Enabled(s, ev)
    ensures Step(s, ev).config == s.config
  {
    hide Next, Write, Guard;
  }

  /** A position that comes back is that of a trade, which held its key. */
  lemma ListedHoldKeys(s: State, table: Table, ids: seq<nat>)
    requires AcrossKept(s) && Restores(s, table, ids)
    ensures forall k :: 0 <= k < |ids| ==> ids[k] < |s.trades| && InPlay(s.trades[ids[k]])
    ensures forall i: nat :: i < |s.trades| && InPlay(s.trades[i]) ==> i in ids
    ensures Keys(table, ids) == KeysOfTrades(s.trades, ids)
  {
    hide TradeKept, OpenRow, AtRest, ComposeKey;
    forall k | 0 <= k < |ids|
      ensures ids[k] < |s.trades| && InPlay(s.trades[ids[k]]) && table[ids[k]].key == s.trades[ids[k]].Key()
    {
      assert ids[k] in Rebuilt(table, ids);
      assert ids[k] in BookOf(s.trades);
      PositionKey(s.config, s.trades[ids[k]]);
      assert Rebuilt(table, ids)[ids[k]].key == table[ids[k]].key;
    }
    forall i: nat | i < |s.trades| && InPlay(s.trades[i])
      ensures i in ids
    {
      assert i in BookOf(s.trades);
      assert i in Rebuilt(table, ids);
    }
  }

  lemma PositionKey(c: Config, t: Trade)
    requires TradeKept(c, t) && t.pos.Some?
    ensures t.pos.value.key == t.Key() && t.forgets == 0
  {
    hide OrdersKept, HoldsKept, TrailKept, TurnKept, RaceKept, ReasonsKept, ComposeKey;
  }

  /** A restart seeds the key of every position, at its attempt. */
  lemma RestartKept(s: State, table: Table, ids: seq<nat>)
    requires AcrossKept(s) && Restores(s, table, ids)
    ensures AcrossKept(Restarted(s, table, ids))
  {
    hide TradeKept, OpenRow, AtRest, ComposeKey, IsBase, InPlay, Seed, Rebuilt;
    ListedHoldKeys(s, table, ids);
    SeedCounts(s.trades, ids);
    SeedTakesKeys(NOTHING_SEEN, KeysOfTrades(s.trades, ids));
    KeysOfTradesAre(s.trades, ids);
    var s' := Restarted(s, table, ids);
    forall i: nat | i < |s'.trades| && InPlay(s'.trades[i])
      ensures HoldsItsKey(s', s'.trades[i])
    {
      assert i in ids;
      var base := s.trades[i].base;
      var id :| id in ids && s.trades[id].base == base && s.trades[id].attempt == s'.attempts[base];
      assert id == i;
    }
  }

  lemma {:induction false} SessionsKept(c: Config, sessions: seq<Session>)
    requires RunSessions(Init(c), sessions).Some?
    ensures AcrossKept(RunSessions(Init(c), sessions).value) && RunSessions(Init(c), sessions).value.config == c
    decreases |sessions|
  {
    hide Restores, Run, TradeKept, AllHoldKeys, OnePerBase, Seed;
    if sessions != [] {
      var last := sessions[|sessions| - 1];
      SessionsKept(c, sessions[..|sessions| - 1]);
      var m := RunSessions(Init(c), sessions[..|sessions| - 1]).value;
      RunKeptAcross(m, last.evs);
      RestartKept(Run(m, last.evs).value, last.table, last.ids);
    } else {
      NothingInPlay(c);
    }
  }

  lemma NothingInPlay(c: Config)
    ensures AcrossKept(Init(c))
  {
  }

  lemma AcrossReached(s: State)
    requires ReachableAcross(s)
    ensures AcrossKept(s)
  {
    hide AcrossKept, Run, RunSessions;
    var sessions, evs :| RunSessions(Init(s.config), sessions).Some?
                         && Run(RunSessions(Init(s.config), sessions).value, evs) == Some(s);
    SessionsKept(s.config, sessions);
    RunKeptAcross(RunSessions(Init(s.config), sessions).value, evs);
  }

  // ---------------------------------------------------------------- what holds across restarts

  /** However often the engine is restarted, no two trades of one base have a position at the same time, and
      the signal of a trade that has one is taken for a repetition. */
  lemma OnePositionPerSignal(s: State, i: nat, j: nat)
    requires ReachableAcross(s) && i < |s.trades| && j < |s.trades| && i != j
    requires s.trades[i].pos.Some?
    ensures NextKey(s, s.trades[i].base) == s.trades[i].Key() && s.trades[i].Key() in s.seen
    ensures s.trades[j].pos.Some? ==> s.trades[j].base != s.trades[i].base
  {
    hide TradeKept, ReachableAcross, AtRest, ComposeKey;
    AcrossReached(s);
    PositionKey(s.config, s.trades[i]);
    assert InPlay(s.trades[i]);
    if s.trades[j].pos.Some? {
      PositionKey(s.config, s.trades[j]);
    }
  }

  /** The exit protocol, the holds and the cash are as safe as in a run without restarts. */
  lemma SafeAcrossRestarts(s: State, id: nat)
    requires ReachableAcross(s) && id < |s.trades|
    ensures ExitSafe(s.trades[id]) && HoldSettled(s.config, s.trades[id]) && CashBalances(s.trades)
  {
    hide TradeKept, ReachableAcross, ExitSafe, HoldSettled, CashBalances, AllHoldKeys, OnePerBase;
    AcrossReached(s);
    ExitSafeWhenKept(s.config, s.trades[id]);
    HoldSettledWhenKept(s.config, s.trades[id]);
    CashBalancesWhenKept(s);
  }

  /** From the table its own log amounts to, a run without restarts is restored exactly when the restart
      rebuilds its book: always on paper, in live mode under the condition proved for that. */
  lemma RestoresIff(s: State, ids: seq<nat>)
    requires Reachable(s) && AllQuiet(s.trades)
    requires Selected(TableOf(s), s.config.mode, ids) && |OpenIds(TableOf(s), s.config.mode)| <= REHYDRATE_LIMIT
    ensures Restores(s, TableOf(s), ids) <==>
            s.config.mode.Paper? || forall id :: 0 <= id < |s.trades| && id in TableOf(s) ==>
              var t, r := s.trades[id], TableOf(s)[id];
              !t.lateClose && Returns(t, r) && (t.pos.Some? ==> !t.late && FiguresSurvive(s.config, t, r))
  {
    hide Reachable, AtRest, TableOf, OpenRow, PositionFromTrade, FiguresSurvive, Returns;
    if s.config.mode.Paper? {
      RestartRebuildsTheBook(s, ids);
    } else {
      LiveRestartRebuildsTheBook(s, ids);
    }
  }
}
