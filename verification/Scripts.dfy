/** What one undisturbed call does to one trade: the actions of `execute`, of an exit, and of one
    reconciler visit, played one after the other. */
module Scripts {
  import opened Domain
  import opened Sizing
  import opened IdempotencyKeys
  import opened Lifecycle
  import opened LifecycleInvariants

  /** The trade after these actions, or None if one could not happen. */
  function Play(c: Config, t: Trade, acts: seq<Action>): Option<Trade>
    decreases |acts|
  {
    if acts == [] then Some(t)
    else if Guard(c, t, acts[0]) then Play(c, Next(c, t, acts[0]), acts[1..])
    else None
  }

  /** What they hand to the database writer. */
  function Writes(c: Config, t: Trade, acts: seq<Action>): seq<Task>
    requires Play(c, t, acts).Some?
    decreases |acts|
  {
    if acts == [] then []
    else
      var w := Write(c, t, acts[0]);
      (if w.Some? then [w.value] else []) + Writes(c, Next(c, t, acts[0]), acts[1..])
  }

  /** The cash service's answers to `_reserve_cash`. */
  datatype CashAnswer = Unavailable | Balance(amount: real, holdPlaced: bool)

  /** `execute`, after its key was claimed. */
  function EntryScript(c: Config, t: Trade, cash: CashAnswer, accepted: bool): seq<Action> {
    if ComputeSizing(t.price, c.rule).Err? then [ByExecute(SizingFails)]
    else [ByExecute(WriteRow)] +
         if c.mode.Paper? then [ByExecute(PaperFill), ByExecute(OpenPaper)]
         else
           match cash
           case Unavailable => [ByExecute(CashFails)]
           case Balance(amount, placed) =>
             if amount < Notional(c, t) then [ByExecute(FundsLow(amount))]
             else if !placed then [ByExecute(CashFails)]
             else [ByExecute(PlaceHold(amount)), ByExecute(WriteHeld)] +
                  if accepted then [ByExecute(SubmitEntry), ByExecute(WriteSubmitted), ByExecute(OpenPending)]
                  else [ByExecute(EntryRefused), ByExecute(DropHold)]
  }

  /** `_submit_exit`, after the position was claimed. */
  function ExitScript(c: Config, t: Trade, accepted: bool, now: int): seq<Action> {
    if c.mode.Paper? then [ByExit(PaperClose(now)), ByExit(PaperRemove), ByExit(PaperForget)]
    else if accepted then [ByExit(SubmitExit), ByExit(StoreExit), ByExit(WriteExit(|t.exitOrders|))]
    else [ByExit(ExitRefused), ByExit(ReopenRefused)]
  }

  /** The reconciler's visit to a pending entry; the broker reports o. */
  function FillScript(o: Order): seq<Action> {
    [ByBroker(EntryMoves(o)), ByFill(FetchEntry)] +
    match o.status
    case Working => [ByFill(EntryWorking)]
    case PartlyFilled => [ByFill(WritePartial)]
    case Complete => [ByFill(WriteFilled), ByFill(MarkOpen), ByFill(Capture)]
    case Dead => [ByFill(WriteRejected), ByFill(RemoveRejected), ByFill(ReleaseHold)]
  }

  /** The reconciler's visit to an exit; the broker reports o. */
  function CloseScript(nth: nat, o: Order, now: int): seq<Action> {
    [ByBroker(ExitMoves(nth, o)), ByClose(FetchExit)] +
    match o.status
    case Working => [ByClose(ExitWorking)]
    case PartlyFilled => [ByClose(WriteExitPartial)]
    case Complete => [ByClose(WriteClosed(now)), ByClose(RemoveClosed), ByClose(ForgetClosed)]
    case Dead => [ByClose(WriteExitFailed), ByClose(ReopenFailed)]
  }

  lemma {:induction false} RunAppend(s: State, a: seq<Event>, b: seq<Event>)
    ensures Run(s, a + b) == match Run(s, a) case Some(m) => Run(m, b) case None => None
    decreases |b|
  {
    hide Enabled, Step;
    if b == [] {
      assert a + b == a;
    } else {
      var init, last := b[..|b| - 1], b[|b| - 1];
      RunAppend(s, a, init);
      assert a + b == (a + init) + [last];
      assert b == init + [last];
      RunSnoc(s, a + init, last);
      match Run(s, a) {
        case Some(m) => RunSnoc(m, init, last);
        case None =>
      }
    }
  }

  /** A script touches the key table only by a `forget` at its end. */
  predicate ForgetsLast(acts: seq<Action>) {
    forall k :: 0 <= k < |acts| - 1 ==> !Forgets(acts[k])
  }

  function KeysAfter(s: State, key: string, acts: seq<Action>): State {
    if acts != [] && Forgets(acts[|acts| - 1]) then Forget(s, key) else s
  }

  lemma SameKeyAfter(c: Config, t: Trade, a: Action)
    requires TradeKept(c, t) && Guard(c, t, a)
    ensures Next(c, t, a).Key() == t.Key()
  {
    hide OrdersKept, HoldsKept, TrailKept, TurnKept, RaceKept, Guard, Next, Write, WriteInTurn, ComposeKey;
    StepIsLocal(c, t, a);
  }

  lemma ActedParts(s: State, id: nat, a: Action)
    requires Enabled(s, On(id, a))
    ensures var s1 := Acted(s, id, a);
            var w := Write(s.config, s.trades[id], a);
            && s1.config == s.config && s1.trades == s.trades[id := Next(s.config, s.trades[id], a)]
            && s1.log == s.log + (if w.Some? then [w.value] else [])
            && s1.seen == KeysAfter(s, s.trades[id].Key(), [a]).seen
            && s1.attempts == KeysAfter(s, s.trades[id].Key(), [a]).attempts
            && Run(s, [On(id, a)]) == Some(s1)
  {
    hide Guard, Next, Write, SplitAttempt, ComposeKey;
    RunSnoc(s, [], On(id, a));
    assert [] + [On(id, a)] == [On(id, a)];
    assert s.log + [] == s.log;
  }

  lemma KeysAfterChain(s: State, s1: State, key: string, a: Action, rest: seq<Action>)
    requires rest != [] && ForgetsLast([a] + rest)
    requires s1.seen == KeysAfter(s, key, [a]).seen && s1.attempts == KeysAfter(s, key, [a]).attempts
    ensures KeysAfter(s1, key, rest).seen == KeysAfter(s, key, [a] + rest).seen
    ensures KeysAfter(s1, key, rest).attempts == KeysAfter(s, key, [a] + rest).attempts
  {
    hide SplitAttempt;
    assert ([a] + rest)[0] == a;
  }

  /** Whatever can be played on one trade can happen in the system, with the other trades left alone. */
  lemma {:induction false} PlayRuns(s: State, id: nat, acts: seq<Action>) returns (evs: seq<Event>, s': State)
    requires id < |s.trades| && TradeKept(s.config, s.trades[id]) && ForgetsLast(acts)
    requires Play(s.config, s.trades[id], acts).Some?
    ensures Run(s, evs) == Some(s')
    ensures s'.config == s.config && s'.trades == s.trades[id := Play(s.config, s.trades[id], acts).value]
    ensures s'.log == s.log + Writes(s.config, s.trades[id], acts)
    ensures s'.seen == KeysAfter(s, s.trades[id].Key(), acts).seen
    ensures s'.attempts == KeysAfter(s, s.trades[id].Key(), acts).attempts
    decreases |acts|
  {
    hide TradeKept, Guard, Next, Write, SplitAttempt, ComposeKey, Acted, Forget, Forgets;
    if acts == [] {
      evs, s' := [], s;
      assert s.log + [] == s.log && s.trades[id := s.trades[id]] == s.trades;
    } else {
      var a, rest := acts[0], acts[1..];
      var t, s1 := s.trades[id], Acted(s, id, a);
      assert acts == [a] + rest;
      assert forall k :: 0 <= k < |rest| ==> rest[k] == acts[k + 1];
      TradeStepKept(s.config, t, a);
      SameKeyAfter(s.config, t, a);
      ActedParts(s, id, a);
      var more;
      more, s' := PlayRuns(s1, id, rest);
      evs := [On(id, a)] + more;
      RunAppend(s, [On(id, a)], more);
      var w := Write(s.config, t, a);
      assert Writes(s.config, t, acts) == (if w.Some? then [w.value] else []) + Writes(s.config, s1.trades[id], rest);
      if rest != [] {
        KeysAfterChain(s, s1, t.Key(), a, rest);
      }
      assert s.trades[id := s1.trades[id]][id := s'.trades[id]] == s.trades[id := s'.trades[id]];
    }
  }
}
