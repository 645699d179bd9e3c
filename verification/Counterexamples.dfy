/** Runs of the protocol in which something one might expect to hold fails. */
module Counterexamples {
  import opened Domain
  import opened IdempotencyKeys
  import opened Sizing
  import opened Lifecycle
  import opened LifecycleInvariants
  import opened LifecycleSafety
  import opened LifecycleTheorems
  import opened TradesTable
  import opened Rehydration

  const LIVE := Config(Live, SizingRule(Some(100.0), None))
  const PAPER := Config(Paper, SizingRule(Some(100.0), None))
  const SIGNAL := Entry("A", 10.0, 12.0, Long, None)
  const DATE := "2024-01-02"

  /** A run that begins with one signal: its key is claimed. */
  lemma Start(c: Config) returns (s: State)
    ensures Reachable(s) && s.config == c
    ensures s.trades == [Trade(0, BaseOf(c, SIGNAL, DATE), 0, SIGNAL, 10.0)]
  {
    hide BaseKey, ComposeKey;
    var ev := Begin(SIGNAL, 10.0, DATE);
    RunSnoc(Init(c), [], ev);
    s := Step(Init(c), ev);
    assert [] + [ev] == [ev];
    assert Run(Init(c), [ev]) == Some(s);
  }

  lemma Act(s: State, a: Action) returns (s': State)
    requires Reachable(s) && |s.trades| == 1 && Guard(s.config, s.trades[0], a)
    ensures Reachable(s') && s'.config == s.config && s'.trades == [Next(s.config, s.trades[0], a)]
  {
    hide Guard, Next, Write, Forget, Forgets;
    var evs :| Run(Init(s.config), evs) == Some(s);
    RunSnoc(Init(s.config), evs, On(0, a));
    s' := Acted(s, 0, a);
    assert s'.config == s.config && s'.trades == s.trades[0 := Next(s.config, s.trades[0], a)] by {
      ConfigKept(s, 0, a);
    }
  }

  lemma ConfigKept(s: State, id: nat, a: Action)
    requires Enabled(s, On(id, a))
    ensures Acted(s, id, a).config == s.config
    ensures Acted(s, id, a).trades == s.trades[id := Next(s.config, s.trades[id], a)]
  {
    hide Guard, Next, Write, SplitAttempt;
  }

  /** The broker has the entry order, and nothing of it is logged or in the book yet. */
  lemma EntrySent() returns (s: State)
    ensures Reachable(s) && s.config == LIVE && |s.trades| == 1
    ensures var t := s.trades[0];
            && t.entryPc.Accepted? && Resting(t.(entryPc := Returned)) && t.pos.None? && t.price == 10.0
            && t.entryOrder == Some(Order(Buy, 10.0)) && t.trail == []
  {
    hide Reachable, BaseOf, ComputeSizing, ExitMove, CloseMove, FillMove, BrokerMove, ExitGuard, CloseGuard,
         FillGuard, BrokerGuard;
    s := Start(LIVE);
    TenShares(s.trades[0]);
    s := Act(s, ByExecute(WriteRow));
    s := Act(s, ByExecute(PlaceHold(500.0)));
    s := Act(s, ByExecute(WriteHeld));
    s := Act(s, ByExecute(SubmitEntry));
  }

  /** A crash at that moment: the row is selected and rebuilt as a pending entry without an order id, which no
      pass of the reconciler asks about. */
  lemma SentEntryIsForgotten() returns (s: State)
    ensures Reachable(s) && s.config == LIVE && |s.trades| == 1
    ensures s.trades[0].entryOrder == Some(Order(Buy, 10.0))
    ensures forall ids :: Selected(TableOf(s), Live, ids) ==>
              0 in Rebuilt(TableOf(s), ids) && Rebuilt(TableOf(s), ids)[0].state.PENDING_ENTRY?
              && Rebuilt(TableOf(s), ids)[0].brokerOrderId.None?
  {
    hide Reachable, TableOf, Selected, OpenRow, PositionFromTrade;
    s := EntrySent();
    OneRow(s);
    RowOnceWritten(s, 0);
    HeldRowHasNoOrder(s, 0);
    forall ids | Selected(TableOf(s), Live, ids)
      ensures 0 in ids && forall k :: 0 <= k < |ids| ==> ids[k] in TableOf(s)
    {
      SelectedIsComplete(TableOf(s), Live, ids);
    }
  }

  lemma RowOnceWritten(s: State, id: nat)
    requires Reachable(s) && id < |s.trades| && !NoRowYet(s.trades[id])
    ensures id in TableOf(s)
  {
    hide Reachable, TableOf, TradeKept, SheetKept;
    var h := SheetReached(s, id);
  }

  /** The entry order is out, its position pending in the book. */
  lemma EntryOrdered() returns (s: State)
    ensures Reachable(s) && s.config == LIVE && |s.trades| == 1
    ensures var t := s.trades[0];
            && InState(t, PENDING_ENTRY) && t.pos.value.quantity == 10.0 && t.pos.value.entryPrice == 10.0
            && t.pos.value.sellPrice == Some(12.0) && t.pos.value.kind.Long?
            && Resting(t) && t.entryOrder == Some(Order(Buy, 10.0))
  {
    hide Reachable, BaseOf, ComputeSizing, ExitMove, CloseMove, FillMove, BrokerMove, ExitGuard, CloseGuard,
         FillGuard, BrokerGuard;
    s := EntrySent();
    TenShares(s.trades[0]);
    s := Act(s, ByExecute(WriteSubmitted));
    s := Act(s, ByExecute(OpenPending));
  }

  lemma TenShares(t: Trade)
    requires t.price == 10.0
    ensures LIVE.rule == PAPER.rule && ComputeSizing(t.price, LIVE.rule) == Ok((10, 100.0))
  {
    SizingIsLargestAffordable(10.0, LIVE.rule, 10);
  }

  predicate Resting(t: Trade) {
    && t.id == 0 && t.entry == SIGNAL && t.entryPc.Returned? && t.exitPc.NoExit? && t.recPc.Idle?
    && t.unlogged == map[] && t.exitOrders == [] && t.forgets == 0 && t.newest.None? && t.told.Nothing? && !t.late
        && !t.strayed
  }

  const TEN := Order(Buy, 10.0, Complete, Some(10.0), Some(10.0))

  /** The fill of ten shares is confirmed and the hold captured. */
  lemma TenBought() returns (s: State)
    ensures Reachable(s) && s.config == LIVE && |s.trades| == 1
    ensures var t := s.trades[0];
            && InState(t, OPEN) && t.pos.value.quantity == 10.0
            && t.pos.value.sellPrice == Some(12.0) && t.pos.value.kind.Long?
            && Resting(t) && t.entryOrder == Some(TEN)
  {
    hide Reachable, BaseOf, EntryMove, EntryGuard, ExitMove, CloseMove, ExitGuard, CloseGuard;
    s := EntryOrdered();
    s := Act(s, ByBroker(EntryMoves(TEN)));
    s := Act(s, ByFill(FetchEntry));
    s := Act(s, ByFill(WriteFilled));
    s := Act(s, ByFill(MarkOpen));
    s := Act(s, ByFill(Capture));
  }

  /** An exit order is out and its id stored, but EXIT_SUBMITTED is still to be enqueued. */
  lemma ExitStored(s0: State, price: real, reason: ExitReason) returns (s: State)
    requires Reachable(s0) && s0.config == LIVE && |s0.trades| == 1 && s0.trades[0].id == 0
    requires Guard(LIVE, s0.trades[0], ByExit(Claim(price, reason)))
    ensures Reachable(s) && s.config == LIVE && |s.trades| == 1
    ensures var t, t0, n := s.trades[0], s0.trades[0], |s0.trades[0].exitOrders|;
            t == t0.(pos := Some(t0.pos.value.(state := EXITING, exitOrderId := Some(ExitOrder(0, n)))),
                     exitPc := NoExit,
                     exitOrders := t0.exitOrders + [Order(t0.entry.kind.ExitSide(), t0.pos.value.quantity)],
                     reasons := t0.reasons + [reason], trail := t0.trail + [Claimed],
                     unlogged := t0.unlogged[n := reason])
  {
    hide Reachable, EntryMove, EntryGuard, CloseMove, CloseGuard, FillMove, FillGuard, BrokerMove, BrokerGuard;
    s := Act(s0, ByExit(Claim(price, reason)));
    s := Act(s, ByExit(SubmitExit));
    s := Act(s, ByExit(StoreExit));
  }

  /** A crash at that moment: the exit is working, and what is rebuilt from the row knows nothing of it. */
  lemma SentExitIsForgotten() returns (s: State)
    ensures Reachable(s) && s.config == LIVE && |s.trades| == 1
    ensures InState(s.trades[0], EXITING) && s.trades[0].exitOrders == [Order(Sell, 10.0)]
    ensures 0 in TableOf(s) && PositionFromTrade(0, TableOf(s)[0]).exitOrderId.None?
  {
    hide Reachable, TableOf, PositionFromTrade, BrokerMove, BrokerGuard, CloseMove, CloseGuard, FillMove, FillGuard,
         EntryMove, EntryGuard;
    s := TenBought();
    s := ExitStored(s, 12.0, TargetPrice);
    RowOnceWritten(s, 0);
    UnloggedExitIsUnknown(s, 0);
  }

  /** The broker settles the current exit order and the reconciler has just fetched it. */
  lemma ExitFetched(s0: State, o: Order) returns (s: State)
    requires Reachable(s0) && s0.config == LIVE && |s0.trades| == 1 && s0.trades[0].recPc.Idle?
    requires InState(s0.trades[0], EXITING) && s0.trades[0].exitOrders != []
    requires s0.trades[0].pos.value.exitOrderId == Some(ExitOrder(0, |s0.trades[0].exitOrders| - 1))
    requires Advances(s0.trades[0].exitOrders[|s0.trades[0].exitOrders| - 1], o)
    ensures Reachable(s) && s.config == LIVE && |s.trades| == 1
    ensures var t0, n := s0.trades[0], |s0.trades[0].exitOrders| - 1;
            s.trades[0] == t0.(exitOrders := t0.exitOrders[n := o], recPc := SawExit(o))
  {
    hide Reachable, EntryMove, EntryGuard, ExitMove, ExitGuard, FillMove, FillGuard;
    s := Act(s0, ByBroker(ExitMoves(|s0.trades[0].exitOrders| - 1, o)));
    s := Act(s, ByClose(FetchExit));
  }

  /** The reconciler closes the trade. */
  lemma Closes(s0: State) returns (s: State)
    requires Reachable(s0) && s0.config == LIVE && |s0.trades| == 1
    requires s0.trades[0].recPc.SawExit? && s0.trades[0].recPc.order.status.Complete?
    ensures Reachable(s) && s.config == LIVE && |s.trades| == 1
    ensures var t, t0 := s.trades[0], s0.trades[0];
            && t.pos.None? && t.recPc.Idle? && t.exitPc == t0.exitPc && t.entryPc == t0.entryPc
                && t.unlogged == t0.unlogged
            && t.exitOrders == t0.exitOrders && t.entryOrder == t0.entryOrder && t.forgets == t0.forgets + 1
            && t.lateClose == (t0.unlogged != map[]) && t.strayed == (t0.strayed || FillStrays(t0))
  {
    hide Reachable, EntryMove, EntryGuard, ExitMove, ExitGuard, FillMove, FillGuard, BrokerMove, BrokerGuard;
    s := Act(s0, ByClose(WriteClosed(0)));
    s := Act(s, ByClose(RemoveClosed));
    s := Act(s, ByClose(ForgetClosed));
  }

  /** The thread that sent the exit is held up between storing the exit id and logging it; the
      reconciler closes the trade meanwhile. The row of the closed trade is left at EXIT_SUBMITTED, a status
      that is rehydrated at the next start, and its statuses have left the lifecycle graph. */
  lemma ClosedTradeLeftExiting() returns (s: State)
    ensures Reachable(s) && |s.trades| == 1 && AllQuiet(s.trades) && s.trades[0].pos.None? && s.trades[0].forgets == 1
    ensures 0 in TableOf(s) && TableOf(s)[0].status.EXIT_SUBMITTED?
    ensures !IsPath(s.config, StatusLog(s.log, 0))
    ensures forall ids :: Selected(TableOf(s), Live, ids) ==> Rebuilt(TableOf(s), ids).Keys != BookOf(s.trades).Keys
  {
    hide Reachable, TableOf, EntryMove, EntryGuard, CloseMove, CloseGuard, FillMove, FillGuard, BrokerMove,
         BrokerGuard, IsPath, StatusLog;
    s := TenBought();
    s := ExitStored(s, 12.0, TargetPrice);
    s := ExitFetched(s, Order(Sell, 10.0, Complete, Some(10.0), Some(12.0)));
    s := Closes(s);
    s := Act(s, ByExit(WriteExit(0)));
    ClosedRowShowsClosed(s, 0);
    StatusesWalkTheLifecycle(s, 0);
    SoldPositionReturns(s);
  }

  /** A restart then brings a position back that was sold. */
  lemma SoldPositionReturns(s: State)
    requires Reachable(s) && s.config.mode.Live? && |s.trades| == 1 && AllQuiet(s.trades) && s.trades[0].lateClose
    requires 0 in TableOf(s)
    ensures forall ids :: Selected(TableOf(s), Live, ids) ==> Rebuilt(TableOf(s), ids).Keys != BookOf(s.trades).Keys
  {
    hide Reachable, TableOf, OpenRow, AtRest;
    OneRow(s);
    forall ids | Selected(TableOf(s), Live, ids)
      ensures Rebuilt(TableOf(s), ids).Keys != BookOf(s.trades).Keys
    {
      LiveRestartFindsPositions(s, ids);
    }
  }

  /** The table of a run with one trade has at most one row. */
  lemma OneRow(s: State)
    requires Reachable(s) && |s.trades| == 1
    ensures |OpenIds(TableOf(s), s.config.mode)| <= REHYDRATE_LIMIT
  {
    hide Reachable, TableOf, OpenRow;
    forall id | id in TableOf(s)
      ensures id == 0
    {
      RowHasTrade(s, id);
    }
    assert OpenIds(TableOf(s), s.config.mode) <= {0};
    assert |OpenIds(TableOf(s), s.config.mode)| <= |{0}| by {
      SubsetIsSmaller(OpenIds(TableOf(s), s.config.mode), {0});
    }
  }

  lemma SubsetIsSmaller(a: set<nat>, b: set<nat>)
    requires a <= b
    ensures |a| <= |b|
  {
    assert |b - a| == |b| - |a|;
  }

  const TEN_DEAD := Order(Sell, 10.0, Dead, None, None)

  /** The first exit is sent but not logged, dies and the position is given back; the second exit is sent. */
  lemma ExitSentTwice() returns (s: State)
    ensures Reachable(s) && s.config == LIVE && |s.trades| == 1
    ensures var t := s.trades[0];
            && InState(t, EXITING) && t.pos.value.exitOrderId == Some(ExitOrder(0, 1))
            && t.exitOrders == [TEN_DEAD, Order(Sell, 10.0, Working, None, None)]
            && t.entryPc.Returned? && t.exitPc.NoExit? && t.recPc.Idle?
            && t.unlogged == map[0 := TargetPrice, 1 := MarketClose]
  {
    hide Reachable, EntryMove, EntryGuard, FillMove, FillGuard, BrokerMove, BrokerGuard;
    s := TenBought();
    s := ExitStored(s, 12.0, TargetPrice);
    s := ExitDies(s, TEN_DEAD);
    s := ExitStored(s, 11.0, MarketClose);
  }

  /** The thread that sent the first exit is held up again; the exit dies, the position is given back, claimed
      once more and its second exit sent and logged; only then the first exit id is logged. The row names the
      dead order although the second is alive. */
  lemma DeadExitLoggedLast() returns (s: State)
    ensures Reachable(s) && |s.trades| == 1 && AllQuiet(s.trades)
    ensures var t := s.trades[0];
            && InState(t, EXITING) && t.pos.value.exitOrderId == Some(ExitOrder(0, 1))
            && |t.exitOrders| == 2 && t.exitOrders[0].status.Dead? && t.exitOrders[1].status.Working?
            && 0 in TableOf(s) && TableOf(s)[0].status.EXIT_SUBMITTED?
                && TableOf(s)[0].exitOrderId == Some(ExitOrder(0, 0))
            && Agree(t, TableOf(s)[0].status) && !RowAgrees(s.config, t, TableOf(s)[0])
  {
    hide Reachable, TableOf, EntryMove, EntryGuard, FillMove, FillGuard, CloseMove, CloseGuard, BrokerMove,
         BrokerGuard;
    s := ExitSentTwice();
    s := Act(s, ByExit(WriteExit(1)));
    s := Act(s, ByExit(WriteExit(0)));
    assert s.trades[0].unlogged == map[];
    RowShows(s);
    OnlyALateExitDisagrees(s, 0);
  }

  /** What the row of a live position at rest shows. */
  lemma RowShows(s: State)
    requires Reachable(s) && s.config.mode.Live? && |s.trades| == 1 && AtRest(s.trades[0]) && s.trades[0].pos.Some?
    ensures 0 in TableOf(s) && Fits(s.config, s.trades[0], TableOf(s)[0].status)
    ensures LiveRow(s.config, s.trades[0], TableOf(s)[0])
    ensures s.trades[0].id == 0
  {
    hide Run, Reachable, OrdersKept, HoldsKept, Replay, RowKept, LiveRow, Fits, IsPath, Resumed, PaperKept, StatusLog,
         LoggedTable;
    var h := SheetReached(s, 0);
    IdIsIndex(s, 0);
  }

  /** The broker kills the current exit order, the reconciler gives the position back. */
  lemma ExitDies(s0: State, o: Order) returns (s: State)
    requires Reachable(s0) && s0.config == LIVE && |s0.trades| == 1 && s0.trades[0].recPc.Idle?
    requires InState(s0.trades[0], EXITING) && s0.trades[0].exitOrders != [] && o.status.Dead?
    requires s0.trades[0].pos.value.exitOrderId == Some(ExitOrder(0, |s0.trades[0].exitOrders| - 1))
    requires Advances(s0.trades[0].exitOrders[|s0.trades[0].exitOrders| - 1], o)
    ensures Reachable(s) && s.config == LIVE && |s.trades| == 1
    ensures var t0, n := s0.trades[0], |s0.trades[0].exitOrders| - 1;
            s.trades[0] == t0.(exitOrders := t0.exitOrders[n := o], pos := Some(ReopenedPos(t0.pos.value)),
                               trail := t0.trail + [Reopened], late := false, told := Nothing,
                               raced := t0.raced || t0.unlogged != map[])
  {
    hide Reachable, EntryMove, EntryGuard, ExitMove, ExitGuard, FillMove, FillGuard, BrokerMove, BrokerGuard;
    s := ExitFetched(s0, o);
    s := Act(s, ByClose(WriteExitFailed));
    s := Act(s, ByClose(ReopenFailed));
  }

  const FOUR := Order(Sell, 10.0, Dead, Some(4.0), Some(12.0))

  /** The first exit order sold four shares and is cancelled; the position is open again, its row at
      EXIT_FAILED. */
  lemma SoldFour() returns (s: State)
    ensures Reachable(s) && s.config == LIVE && |s.trades| == 1 && AllQuiet(s.trades)
    ensures var t := s.trades[0];
            && InState(t, OPEN) && t.pos.value.quantity == 10.0 && t.exitOrders == [FOUR] && t.newest == Some(0)
                && !t.late
            && t.id == 0 && t.entry == SIGNAL && t.recPc.Idle? && t.forgets == 0 && t.entryOrder == Some(TEN)
            && t.told.Nothing?
  {
    hide Reachable, EntryMove, EntryGuard, FillMove, FillGuard, BrokerMove, BrokerGuard;
    s := TenBought();
    s := ExitStored(s, 12.0, TargetPrice);
    s := Act(s, ByExit(WriteExit(0)));
    s := ExitDies(s, FOUR);
  }

  /** A restart at that moment misses the position, and takes a repetition of its signal for a new one, whose
      row is refused. */
  lemma FailedExitIsForgotten() returns (s: State)
    ensures Reachable(s) && s.config == LIVE && AllQuiet(s.trades) && |s.trades| == 1 && s.trades[0].pos.Some?
    ensures 0 in TableOf(s) && TableOf(s)[0].status.EXIT_FAILED?
    ensures forall ids :: Selected(TableOf(s), Live, ids) ==> ids == [] && BoughtAgain(s, ids)
  {
    hide Reachable, TableOf, Selected, OpenRow, BoughtAgain, LiveRow;
    s := SoldFour();
    RowShows(s);
    assert !TableOf(s)[0].status.FILLED? by { NotFilledIfLogged(s.config, s.trades[0], TableOf(s)[0]); }
    LiveRowRestores(s, 0);
    forall ids | Selected(TableOf(s), Live, ids)
      ensures ids == [] && BoughtAgain(s, ids)
    {
      NothingSelected(s, ids);
      SignalIsBoughtAgain(s, ids);
    }
  }

  lemma NotFilledIfLogged(c: Config, t: Trade, r: Row)
    requires LiveRow(c, t, r) && t.newest.Some?
    ensures !r.status.FILLED?
  {
  }

  lemma NothingSelected(s: State, ids: seq<nat>)
    requires Reachable(s) && |s.trades| == 1 && Selected(TableOf(s), s.config.mode, ids)
    requires 0 in TableOf(s) ==> !OpenRow(s.config.mode, TableOf(s)[0])
    ensures ids == []
  {
    hide Reachable, TableOf, OpenRow;
    if ids != [] {
      RowHasTrade(s, ids[0]);
    }
  }

  /** After a restart from these rows the signal of the only trade goes ahead under a key whose row is refused. */
  ghost predicate BoughtAgain(s: State, ids: seq<nat>)
    requires |s.trades| == 1 && ids == []
  {
    var base, k := s.trades[0].base, Seed(NOTHING_SEEN, Keys(TableOf(s), ids));
    && NextKeyIn(k, base) !in k.seen
    && forall id, row: Row :: id !in TableOf(s) && row.key == NextKeyIn(k, base) ==>
        Execute(TableOf(s), Insert(id, row)).Err?
  }

  lemma SignalIsBoughtAgain(s: State, ids: seq<nat>)
    requires Reachable(s) && |s.trades| == 1 && ids == [] && 0 in TableOf(s)
    ensures BoughtAgain(s, ids)
  {
    hide Reachable, TableOf, Seed, ComposeKey, Execute, IsBase;
    var base := s.trades[0].base;
    HeldKeyIsBase(s, 0);
    RestartDedupsIff(s, ids, base);
    assert BaseInTable(s, base);
    forall id, row: Row | id !in TableOf(s) && row.key == NextKeyIn(Seed(NOTHING_SEEN, Keys(TableOf(s), ids)), base)
      ensures Execute(TableOf(s), Insert(id, row)).Err?
    {
      RestartKeyIsFreshIff(s, ids, base, id, row.(key := base));
      RestartKeyIsFreshIff(s, ids, base, id, row);
    }
  }

  /** A paper trade is bought and closed; after a restart its signal, seen again, is bought again under the
      same key, and that row is refused. */
  lemma ClosedSignalIsBoughtAgain() returns (s: State)
    ensures Reachable(s) && s.config == PAPER && AllQuiet(s.trades) && |s.trades| == 1 && s.trades[0].pos.None?
    ensures 0 in TableOf(s) && TableOf(s)[0].status.CLOSED?
    ensures forall ids :: Selected(TableOf(s), Paper, ids) ==> ids == [] && BoughtAgain(s, ids)
  {
    hide Reachable, TableOf, Selected, OpenRow, BoughtAgain, BaseOf, ComputeSizing, CloseMove, CloseGuard, FillMove,
         FillGuard, BrokerMove, BrokerGuard;
    s := Start(PAPER);
    TenShares(s.trades[0]);
    s := Act(s, ByExecute(WriteRow));
    s := Act(s, ByExecute(PaperFill));
    s := Act(s, ByExecute(OpenPaper));
    s := Act(s, ByExit(Claim(11.0, MarketClose)));
    s := Act(s, ByExit(PaperClose(0)));
    s := Act(s, ByExit(PaperRemove));
    s := Act(s, ByExit(PaperForget));
    PaperRowClosed(s);
    PaperRowIsPosition(s, 0);
    forall ids | Selected(TableOf(s), Paper, ids)
      ensures ids == [] && BoughtAgain(s, ids)
    {
      NothingSelected(s, ids);
      SignalIsBoughtAgain(s, ids);
    }
  }

  lemma PaperRowClosed(s: State)
    requires Reachable(s) && s.config.mode.Paper? && |s.trades| == 1 && AtRest(s.trades[0]) && s.trades[0].forgets == 1
    ensures 0 in TableOf(s) && TableOf(s)[0].status.CLOSED?
  {
    hide Run, Reachable, OrdersKept, HoldsKept, Replay, RowKept, LiveKept, IsPath, Resumed, StatusKept, StatusLog,
         LoggedTable, Qty;
    var h := SheetReached(s, 0);
  }

  /** The second exit is sent for all ten: fourteen shares are sold of the ten bought. */
  lemma SoldMoreThanBought() returns (s: State)
    ensures Reachable(s) && |s.trades| == 1 && s.trades[0].forgets == 1
    ensures s.trades[0].entryOrder.Some? && s.trades[0].entryOrder.value.filledQty == Some(10.0)
    ensures Shares(s.trades[0].exitOrders) == 14.0
  {
    hide Reachable, Shares, EntryMove, EntryGuard, FillMove, FillGuard, BrokerMove, BrokerGuard;
    var full := Order(Sell, 10.0, Complete, Some(10.0), Some(12.0));
    s := SoldFour();
    s := ExitStored(s, 11.0, MarketClose);
    s := ExitFetched(s, full);
    s := Closes(s);
    assert s.trades[0].exitOrders == [FOUR, full];
    SharesOfTwo(FOUR, full);
  }

  lemma SharesOfTwo(o1: Order, o2: Order)
    ensures Shares([o1, o2]) == o1.filledQty.GetOr(0.0) + o2.filledQty.GetOr(0.0)
  {
    assert [o1, o2][..1] == [o1] && [o1][..0] == [];
    assert Shares([]) == 0.0 && Shares([o1]) == o1.filledQty.GetOr(0.0);
  }
}
