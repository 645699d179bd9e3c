/** What each undisturbed call amounts to, and that it is a run of the protocol. */
module Calls {
  import opened Domain
  import opened Sizing
  import opened IdempotencyKeys
  import opened Lifecycle
  import opened LifecycleInvariants
  import opened LifecycleSafety
  import opened LifecycleTheorems
  import opened Scripts

  // ---------------------------------------------------------------- execute

  /** The trade `execute` leaves behind, when its key was just claimed. */
  function EntryDone(c: Config, t: Trade, cash: CashAnswer, accepted: bool): Trade {
    if ComputeSizing(t.price, c.rule).Err? then t.(entryPc := Unsized)
    else if c.mode.Paper? then t.(entryPc := Returned, pos := Some(NewPos(c, t)), trail := t.trail + [Opened])
    else
      match cash
      case Unavailable => t.(entryPc := Returned)
      case Balance(amount, placed) =>
        if amount < Notional(c, t) || !placed then t.(entryPc := Returned)
        else
          var held := t.(entryPc := Returned, holds := t.holds + [Placed(Notional(c, t), amount)]);
          if accepted then
            held.(entryOrder := Some(Order(t.entry.kind.EntrySide(), Qty(c, t))), pos := Some(NewPos(c, t)),
                  trail := t.trail + [Opened])
          else held.(holds := held.holds + [Released])
  }

  function EntryTasks(c: Config, t: Trade, cash: CashAnswer, accepted: bool): seq<Task> {
    if ComputeSizing(t.price, c.rule).Err? then []
    else
      [Insert(t.id, NewRow(c, t))] +
      if c.mode.Paper? then
        [Update(t.id, Fields(status := Set(FILLED), filledQty := Set(Some(Qty(c, t))),
                             filledPrice := Set(Some(t.price))))]
      else
        match cash
        case Unavailable => [Update(t.id, Fields(status := Set(FAILED), errorCode := Set(Some("CASH_ERROR"))))]
        case Balance(amount, placed) =>
          if amount < Notional(c, t) then [Update(t.id, Fields(status := Set(INSUFFICIENT_FUNDS)))]
          else if !placed then [Update(t.id, Fields(status := Set(FAILED), errorCode := Set(Some("CASH_ERROR"))))]
          else
            [Update(t.id, Fields(status := Set(CASH_HELD), holdId := Set(Some(t.id))))] +
            if accepted then
              [Update(t.id, Fields(status := Set(SUBMITTED), brokerOrderId := Set(Some(EntryOrder(t.id)))))]
            else [Update(t.id, Fields(status := Set(FAILED), errorCode := Set(Some("BROKER_ERROR"))))]
  }

  /** `_reserve_cash` got its hold. */
  predicate Reserved(answer: CashAnswer, notional: real) {
    answer.Balance? && answer.amount >= notional && answer.holdPlaced
  }

  /** `EntryDone` and `EntryTasks` by what the cash service and the broker answered. */
  lemma EntryShape(c: Config, t: Trade, answer: CashAnswer, accepted: bool)
    requires t == Trade(t.id, t.base, t.attempt, t.entry, t.price) && ComputeSizing(t.price, c.rule).Ok?
    ensures var done, inserted := EntryDone(c, t, answer, accepted), Insert(t.id, NewRow(c, t));
            var held := Update(t.id, Fields(status := Set(CASH_HELD), holdId := Set(Some(t.id))));
            var reserved := Reserved(answer, Notional(c, t));
            && done.id == t.id && done.Key() == t.Key() && done.exitOrders == []
            && done.pos == (if c.mode.Paper? || (reserved && accepted) then Some(NewPos(c, t)) else None)
            && done.entryOrder == (if c.mode.Live? && reserved
                                   && accepted then Some(Order(t.entry.kind.EntrySide(), Qty(c, t))) else None)
            && done.holds == (if c.mode.Paper? || !reserved then []
                              else if accepted then [Placed(Notional(c, t), answer.amount)]
                              else [Placed(Notional(c, t), answer.amount), Released])
            && EntryTasks(c, t, answer, accepted) ==
               [inserted] +
               (if c.mode.Paper? then
                  [Update(t.id, Fields(status := Set(FILLED), filledQty := Set(Some(Qty(c, t))),
                                       filledPrice := Set(Some(t.price))))]
                else if !reserved then
                  [Update(t.id, if answer.Balance? && answer.amount < Notional(c, t) then
                          Fields(status := Set(INSUFFICIENT_FUNDS))
                                else Fields(status := Set(FAILED), errorCode := Set(Some("CASH_ERROR"))))]
                else
                  [held, Update(t.id, if accepted then
                                Fields(status := Set(SUBMITTED), brokerOrderId := Set(Some(EntryOrder(t.id))))
                                      else Fields(status := Set(FAILED), errorCode := Set(Some("BROKER_ERROR"))))])
  {
    hide ComputeSizing, Notional, Qty, NewRow, NewPos, ComposeKey;
  }

  /** Playing acts on t leads to m and hands over these tasks. */
  predicate Leads(c: Config, t: Trade, acts: seq<Action>, m: Trade, tasks: seq<Task>) {
    Play(c, t, acts) == Some(m) && Writes(c, t, acts) == tasks
  }

  lemma NothingPlayed(c: Config, t: Trade) returns (acts: seq<Action>, m: Trade, tasks: seq<Task>)
    ensures acts == [] && m == t && tasks == [] && Leads(c, t, acts, m, tasks)
  {
    acts, m, tasks := [], t, [];
  }

  lemma {:induction false} Then(c: Config, t: Trade, acts: seq<Action>, m: Trade, tasks: seq<Task>, a: Action)
    returns (acts': seq<Action>, m': Trade, tasks': seq<Task>)
    requires Leads(c, t, acts, m, tasks) && Guard(c, m, a)
    ensures acts' == acts + [a] && m' == Next(c, m, a)
    ensures tasks' == tasks + match Write(c, m, a) case Some(w) => [w] case None => []
    ensures Leads(c, t, acts', m', tasks')
    decreases |acts|
  {
    hide Guard, Next, Write;
    acts', m', tasks' := acts + [a], Next(c, m, a), tasks + match Write(c, m, a) case Some(w) => [w] case None => [];
    if acts == [] {
      assert [a][1..] == [];
      assert Play(c, t, [a]) == Play(c, Next(c, t, a), []) == Some(m');
      assert Writes(c, Next(c, t, a), []) == [];
      assert acts' == [a] && m == t && tasks == [];
      assert Writes(c, t, [a]) == tasks' + [] == tasks';
    } else {
      var first := match Write(c, t, acts[0]) case Some(w) => [w] case None => [];
      var r1, r2, r3 := Then(c, Next(c, t, acts[0]), acts[1..], m, Writes(c, Next(c, t, acts[0]), acts[1..]), a);
      assert acts'[0] == acts[0] && acts'[1..] == acts[1..] + [a];
      assert Play(c, t, acts') == Play(c, Next(c, t, acts[0]), acts'[1..]);
      assert Writes(c, t, acts') == first + Writes(c, Next(c, t, acts[0]), acts'[1..]);
      assert acts'[1..] == r1;
      assert tasks' == first + r3;
    }
  }

  /** What is computed from the signal does not change along the way. */
  lemma SignalKept(c: Config, t: Trade, m: Trade)
    requires SameOrigin(t, m)
    ensures Qty(c, m) == Qty(c, t) && Notional(c, m) == Notional(c, t) && m.Key() == t.Key()
    ensures NewPos(c, m) == NewPos(c, t) && NewRow(c, m) == NewRow(c, t)
  {
    hide ComputeSizing, ComposeKey;
  }

  /** `execute` as far as the hold. */
  lemma FundedSoFar(c: Config, t: Trade, balance: real) returns (acts: seq<Action>, m: Trade, tasks: seq<Task>)
    requires t == Trade(t.id, t.base, t.attempt, t.entry, t.price)
    requires c.mode.Live? && ComputeSizing(t.price, c.rule).Ok? && balance >= Notional(c, t)
    ensures Leads(c, t, acts, m, tasks)
    ensures acts == [ByExecute(WriteRow), ByExecute(PlaceHold(balance)), ByExecute(WriteHeld)]
    ensures m == t.(entryPc := Funded, holds := t.holds + [Placed(Notional(c, t), balance)])
    ensures tasks == [Insert(t.id, NewRow(c, t)),
                      Update(t.id, Fields(status := Set(CASH_HELD), holdId := Set(Some(t.id))))]
  {
    hide Leads, ComputeSizing, Notional, Qty, ComposeKey, NewPos, NewRow, ExitMove, FillMove, CloseMove, BrokerMove,
         ExitGuard, FillGuard, CloseGuard, BrokerGuard;
    acts, m, tasks := NothingPlayed(c, t);
    acts, m, tasks := Then(c, t, acts, m, tasks, ByExecute(WriteRow));
    SignalKept(c, t, m);
    acts, m, tasks := Then(c, t, acts, m, tasks, ByExecute(PlaceHold(balance)));
    acts, m, tasks := Then(c, t, acts, m, tasks, ByExecute(WriteHeld));
  }

  lemma FundedEntryPlays(c: Config, t: Trade, balance: real, accepted: bool)
    requires t == Trade(t.id, t.base, t.attempt, t.entry, t.price)
    requires c.mode.Live? && ComputeSizing(t.price, c.rule).Ok? && balance >= Notional(c, t)
    ensures var cash := Balance(balance, true);
            Leads(c, t, EntryScript(c, t, cash, accepted), EntryDone(c, t, cash, accepted),
                  EntryTasks(c, t, cash, accepted))
  {
    hide Leads, ComputeSizing, Notional, Qty, ComposeKey, NewPos, NewRow, ExitMove, FillMove, CloseMove, BrokerMove,
         ExitGuard, FillGuard, CloseGuard, BrokerGuard;
    var acts, m, tasks := FundedSoFar(c, t, balance);
    SignalKept(c, t, m);
    if accepted {
      acts, m, tasks := Then(c, t, acts, m, tasks, ByExecute(SubmitEntry));
      acts, m, tasks := Then(c, t, acts, m, tasks, ByExecute(WriteSubmitted));
      SignalKept(c, t, m);
      acts, m, tasks := Then(c, t, acts, m, tasks, ByExecute(OpenPending));
    } else {
      acts, m, tasks := Then(c, t, acts, m, tasks, ByExecute(EntryRefused));
      acts, m, tasks := Then(c, t, acts, m, tasks, ByExecute(DropHold));
    }
    var cash := Balance(balance, true);
    assert acts == EntryScript(c, t, cash, accepted);
    assert tasks == EntryTasks(c, t, cash, accepted);
  }

  lemma EntryPlays(c: Config, t: Trade, cash: CashAnswer, accepted: bool)
    requires t == Trade(t.id, t.base, t.attempt, t.entry, t.price)
    ensures Leads(c, t, EntryScript(c, t, cash, accepted), EntryDone(c, t, cash, accepted),
                  EntryTasks(c, t, cash, accepted))
  {
    hide Leads, ComputeSizing, Notional, Qty, ComposeKey, NewPos, NewRow, ExitMove, FillMove, CloseMove, BrokerMove,
         ExitGuard, FillGuard, CloseGuard, BrokerGuard;
    var acts, m, tasks := NothingPlayed(c, t);
    if ComputeSizing(t.price, c.rule).Err? {
      acts, m, tasks := Then(c, t, acts, m, tasks, ByExecute(SizingFails));
    } else {
      acts, m, tasks := Then(c, t, acts, m, tasks, ByExecute(WriteRow));
      SignalKept(c, t, m);
      if c.mode.Paper? {
        acts, m, tasks := Then(c, t, acts, m, tasks, ByExecute(PaperFill));
        SignalKept(c, t, m);
        acts, m, tasks := Then(c, t, acts, m, tasks, ByExecute(OpenPaper));
      } else if cash.Balance? && cash.amount < Notional(c, t) {
        acts, m, tasks := Then(c, t, acts, m, tasks, ByExecute(FundsLow(cash.amount)));
      } else if cash.Unavailable? || !cash.holdPlaced {
        acts, m, tasks := Then(c, t, acts, m, tasks, ByExecute(CashFails));
      } else {
        FundedEntryPlays(c, t, cash.amount, accepted);
        return;
      }
    }
    assert acts == EntryScript(c, t, cash, accepted);
    assert tasks == EntryTasks(c, t, cash, accepted);
  }

  // ---------------------------------------------------------------- _submit_exit

  predicate ReadyToExit(t: Trade) {
    t.exitPc.ExitClaimed? && t.recPc.Idle? && t.unlogged == map[] && InState(t, EXITING)
  }

  /** The trade `_submit_exit` leaves behind. */
  function ExitDone(c: Config, t: Trade, accepted: bool): Trade
    requires ReadyToExit(t)
  {
    var p := t.pos.value;
    if c.mode.Paper? then t.(pos := None, exitPc := NoExit, trail := t.trail + [Removed], forgets := t.forgets + 1)
    else if accepted then
      t.(pos := Some(p.(exitOrderId := Some(ExitOrder(t.id, |t.exitOrders|)))), exitPc := NoExit,
         exitOrders := t.exitOrders + [Order(t.entry.kind.ExitSide(), p.quantity)],
         reasons := t.reasons + [t.exitPc.why],
         newest := Some(|t.exitOrders|), late := false, told := Submission, strayed := t.strayed || t.late)
    else
      t.(pos := Some(ReopenedPos(p)), exitPc := NoExit, trail := t.trail + [Reopened], late := false, told := Nothing)
  }

  function ExitTask(c: Config, t: Trade, accepted: bool, now: int): Task
    requires ReadyToExit(t)
  {
    Update(t.id,
      if c.mode.Paper? then
        Fields(status := Set(CLOSED), exitReason := Set(Some(t.exitPc.why)), exitQty := Set(Some(t.pos.value.quantity)),
               exitPrice := Set(Some(t.exitPc.price)), closedAt := Set(Some(now)))
      else if accepted then
        Fields(status := Set(EXIT_SUBMITTED), exitOrderId := Set(Some(ExitOrder(t.id, |t.exitOrders|))),
               exitReason := Set(Some(t.exitPc.why)))
      else Fields(status := Set(EXIT_FAILED), errorCode := Set(Some("EXIT_BROKER_ERROR"))))
  }

  lemma PaperExitPlays(c: Config, t: Trade, accepted: bool, now: int)
    requires ReadyToExit(t) && c.mode.Paper?
    ensures Leads(c, t, ExitScript(c, t, accepted, now), ExitDone(c, t, accepted), [ExitTask(c, t, accepted, now)])
  {
    hide Leads, ComposeKey, EntryMove, FillMove, CloseMove, BrokerMove, EntryGuard, FillGuard, CloseGuard, BrokerGuard;
    var acts, m, tasks := NothingPlayed(c, t);
    acts, m, tasks := Then(c, t, acts, m, tasks, ByExit(PaperClose(now)));
    acts, m, tasks := Then(c, t, acts, m, tasks, ByExit(PaperRemove));
    acts, m, tasks := Then(c, t, acts, m, tasks, ByExit(PaperForget));
    assert acts == ExitScript(c, t, accepted, now);
    assert tasks == [ExitTask(c, t, accepted, now)];
  }

  lemma SentExitPlays(c: Config, t: Trade, now: int)
    requires ReadyToExit(t) && c.mode.Live?
    ensures Leads(c, t, ExitScript(c, t, true, now), ExitDone(c, t, true), [ExitTask(c, t, true, now)])
  {
    hide Leads, ComposeKey, EntryMove, FillMove, CloseMove, BrokerMove, EntryGuard, FillGuard, CloseGuard, BrokerGuard;
    var acts, m, tasks := NothingPlayed(c, t);
    var n := |t.exitOrders|;
    acts, m, tasks := Then(c, t, acts, m, tasks, ByExit(SubmitExit));
    acts, m, tasks := Then(c, t, acts, m, tasks, ByExit(StoreExit));
    assert m.unlogged == map[n := t.exitPc.why];
    acts, m, tasks := Then(c, t, acts, m, tasks, ByExit(WriteExit(n)));
    assert m.unlogged == map[];
    assert acts == ExitScript(c, t, true, now);
    assert m == ExitDone(c, t, true);
    assert tasks == [ExitTask(c, t, true, now)];
  }

  lemma ExitPlays(c: Config, t: Trade, accepted: bool, now: int)
    requires ReadyToExit(t)
    ensures Leads(c, t, ExitScript(c, t, accepted, now), ExitDone(c, t, accepted), [ExitTask(c, t, accepted, now)])
  {
    hide Leads, ComposeKey, EntryMove, FillMove, CloseMove, BrokerMove, EntryGuard, FillGuard, CloseGuard, BrokerGuard;
    if c.mode.Paper? {
      PaperExitPlays(c, t, accepted, now);
    } else if accepted {
      SentExitPlays(c, t, now);
    } else {
      var acts, m, tasks := NothingPlayed(c, t);
      acts, m, tasks := Then(c, t, acts, m, tasks, ByExit(ExitRefused));
      acts, m, tasks := Then(c, t, acts, m, tasks, ByExit(ReopenRefused));
      assert acts == ExitScript(c, t, accepted, now);
      assert tasks == [ExitTask(c, t, accepted, now)];
    }
  }

  // ---------------------------------------------------------------- _apply_entry and _apply_exit

  predicate AwaitsFill(c: Config, t: Trade, o: Order) {
    c.mode.Live? && t.recPc.Idle? && InState(t, PENDING_ENTRY) && t.entryOrder.Some? && Advances(t.entryOrder.value, o)
  }

  /** The trade after the reconciler saw its entry order as o. */
  function FillDone(t: Trade, o: Order): Trade
    requires t.pos.Some?
  {
    var seen := t.(entryOrder := Some(o));
    match o.status
    case Working => seen
    case PartlyFilled => seen
    case Complete => seen.(pos := Some(FilledPos(t.pos.value, o)), holds := t.holds + [Captured],
                           trail := t.trail + [MarkedOpen])
    case Dead => seen.(pos := None, holds := t.holds + [Released], trail := t.trail + [Removed])
  }

  function FillTasks(t: Trade, o: Order): seq<Task> {
    match o.status
    case Working => []
    case PartlyFilled =>
      [Update(t.id, Fields(status := Set(PARTIALLY_FILLED), filledQty := Set(o.filledQty),
                           filledPrice := Set(o.filledPrice)))]
    case Complete =>
      [Update(t.id, Fields(status := Set(FILLED), filledQty := Set(o.filledQty), filledPrice := Set(o.filledPrice)))]
    case Dead => [Update(t.id, Fields(status := Set(REJECTED)))]
  }

  /** As far as the fetched order. */
  lemma EntrySeen(c: Config, t: Trade, o: Order) returns (acts: seq<Action>, m: Trade, tasks: seq<Task>)
    requires AwaitsFill(c, t, o)
    ensures Leads(c, t, acts, m, tasks) && acts == [ByBroker(EntryMoves(o)), ByFill(FetchEntry)] && tasks == []
    ensures m == t.(entryOrder := Some(o), recPc := SawEntry(o))
  {
    hide Leads, ComposeKey, EntryMove, ExitMove, CloseMove, EntryGuard, ExitGuard, CloseGuard;
    acts, m, tasks := NothingPlayed(c, t);
    acts, m, tasks := Then(c, t, acts, m, tasks, ByBroker(EntryMoves(o)));
    acts, m, tasks := Then(c, t, acts, m, tasks, ByFill(FetchEntry));
  }

  lemma FilledPlays(c: Config, t: Trade, o: Order)
    requires AwaitsFill(c, t, o) && o.status.Complete?
    ensures Leads(c, t, FillScript(o), FillDone(t, o), FillTasks(t, o))
  {
    hide Leads, ComposeKey, EntryMove, ExitMove, CloseMove, BrokerMove, EntryGuard, ExitGuard, CloseGuard,
         BrokerGuard, Advances;
    var acts, m, tasks := EntrySeen(c, t, o);
    acts, m, tasks := Then(c, t, acts, m, tasks, ByFill(WriteFilled));
    acts, m, tasks := Then(c, t, acts, m, tasks, ByFill(MarkOpen));
    acts, m, tasks := Then(c, t, acts, m, tasks, ByFill(Capture));
    assert acts == FillScript(o);
    assert m == FillDone(t, o);
    assert tasks == FillTasks(t, o);
  }

  lemma RejectedPlays(c: Config, t: Trade, o: Order)
    requires AwaitsFill(c, t, o) && o.status.Dead?
    ensures Leads(c, t, FillScript(o), FillDone(t, o), FillTasks(t, o))
  {
    hide Leads, ComposeKey, EntryMove, ExitMove, CloseMove, BrokerMove, EntryGuard, ExitGuard, CloseGuard,
         BrokerGuard, Advances;
    var acts, m, tasks := EntrySeen(c, t, o);
    acts, m, tasks := Then(c, t, acts, m, tasks, ByFill(WriteRejected));
    acts, m, tasks := Then(c, t, acts, m, tasks, ByFill(RemoveRejected));
    acts, m, tasks := Then(c, t, acts, m, tasks, ByFill(ReleaseHold));
    assert acts == FillScript(o);
    assert m == FillDone(t, o);
    assert tasks == FillTasks(t, o);
  }

  lemma WorkingPlays(c: Config, t: Trade, o: Order)
    requires AwaitsFill(c, t, o) && o.status.Working?
    ensures Leads(c, t, FillScript(o), FillDone(t, o), FillTasks(t, o))
  {
    hide Leads, ComposeKey, EntryMove, ExitMove, CloseMove, BrokerMove, EntryGuard, ExitGuard, CloseGuard,
         BrokerGuard, Advances;
    var acts, m, tasks := EntrySeen(c, t, o);
    acts, m, tasks := Then(c, t, acts, m, tasks, ByFill(EntryWorking));
    assert acts == FillScript(o);
    assert m == FillDone(t, o);
    assert tasks == FillTasks(t, o);
  }

  lemma PartialPlays(c: Config, t: Trade, o: Order)
    requires AwaitsFill(c, t, o) && o.status.PartlyFilled?
    ensures Leads(c, t, FillScript(o), FillDone(t, o), FillTasks(t, o))
  {
    hide Leads, ComposeKey, EntryMove, ExitMove, CloseMove, BrokerMove, EntryGuard, ExitGuard, CloseGuard,
         BrokerGuard, Advances;
    var acts, m, tasks := EntrySeen(c, t, o);
    acts, m, tasks := Then(c, t, acts, m, tasks, ByFill(WritePartial));
    assert acts == FillScript(o);
    assert m == FillDone(t, o);
    assert tasks == FillTasks(t, o);
  }

  lemma FillPlays(c: Config, t: Trade, o: Order)
    requires AwaitsFill(c, t, o)
    ensures Leads(c, t, FillScript(o), FillDone(t, o), FillTasks(t, o))
  {
    hide Leads, AwaitsFill, FillScript, FillTasks;
    assert t.pos.Some? by { AwaitsFillHasPosition(c, t, o); }
    match o.status
    case Complete => FilledPlays(c, t, o);
    case Dead => RejectedPlays(c, t, o);
    case Working => WorkingPlays(c, t, o);
    case PartlyFilled => PartialPlays(c, t, o);
  }

  lemma AwaitsFillHasPosition(c: Config, t: Trade, o: Order)
    requires AwaitsFill(c, t, o)
    ensures t.pos.Some?
  {
  }

  predicate AwaitsClose(c: Config, t: Trade, nth: nat, o: Order) {
    && c.mode.Live? && t.recPc.Idle? && t.unlogged == map[] && InState(t, EXITING)
    && t.pos.value.exitOrderId == Some(ExitOrder(t.id, nth)) && nth < |t.exitOrders| && Advances(t.exitOrders[nth], o)
  }

  /** The trade after the reconciler saw its exit order as o. */
  function CloseDone(t: Trade, nth: nat, o: Order): Trade
    requires t.pos.Some? && nth < |t.exitOrders|
  {
    var seen := t.(exitOrders := t.exitOrders[nth := o]);
    match o.status
    case Working => seen
    case PartlyFilled => seen.(told := Fill)
    case Complete =>
      seen.(pos := None, trail := t.trail + [Removed], forgets := t.forgets + 1, lateClose := false, told := Fill)
    case Dead =>
      seen.(pos := Some(ReopenedPos(t.pos.value)), trail := t.trail + [Reopened], late := false, told := Nothing)
  }

  function CloseTasks(t: Trade, o: Order, now: int): seq<Task> {
    match o.status
    case Working => []
    case PartlyFilled =>
      [Update(t.id, Fields(status := Set(EXIT_PARTIALLY_FILLED), exitQty := Set(o.filledQty),
                           exitPrice := Set(o.filledPrice)))]
    case Complete =>
      [Update(t.id, Fields(status := Set(CLOSED), exitQty := Set(o.filledQty), exitPrice := Set(o.filledPrice),
                           closedAt := Set(Some(now))))]
    case Dead => [Update(t.id, Fields(status := Set(EXIT_FAILED)))]
  }

  /** As far as the fetched order. */
  lemma ExitSeen(c: Config, t: Trade, nth: nat, o: Order) returns (acts: seq<Action>, m: Trade, tasks: seq<Task>)
    requires AwaitsClose(c, t, nth, o)
    ensures Leads(c, t, acts, m, tasks) && acts == [ByBroker(ExitMoves(nth, o)), ByClose(FetchExit)] && tasks == []
    ensures m == t.(exitOrders := t.exitOrders[nth := o], recPc := SawExit(o))
  {
    hide Leads, ComposeKey, EntryMove, ExitMove, FillMove, EntryGuard, ExitGuard, FillGuard;
    acts, m, tasks := NothingPlayed(c, t);
    acts, m, tasks := Then(c, t, acts, m, tasks, ByBroker(ExitMoves(nth, o)));
    acts, m, tasks := Then(c, t, acts, m, tasks, ByClose(FetchExit));
  }

  lemma ClosedPlays(c: Config, t: Trade, nth: nat, o: Order, now: int)
    requires AwaitsClose(c, t, nth, o) && o.status.Complete?
    ensures Leads(c, t, CloseScript(nth, o, now), CloseDone(t, nth, o), CloseTasks(t, o, now))
  {
    hide Leads, ComposeKey, EntryMove, ExitMove, FillMove, BrokerMove, EntryGuard, ExitGuard, FillGuard, BrokerGuard,
         Advances;
    var acts, m, tasks := ExitSeen(c, t, nth, o);
    acts, m, tasks := Then(c, t, acts, m, tasks, ByClose(WriteClosed(now)));
    acts, m, tasks := Then(c, t, acts, m, tasks, ByClose(RemoveClosed));
    acts, m, tasks := Then(c, t, acts, m, tasks, ByClose(ForgetClosed));
    assert acts == CloseScript(nth, o, now);
    assert m == CloseDone(t, nth, o);
    assert tasks == CloseTasks(t, o, now);
  }

  lemma DeadExitPlays(c: Config, t: Trade, nth: nat, o: Order, now: int)
    requires AwaitsClose(c, t, nth, o) && o.status.Dead?
    ensures Leads(c, t, CloseScript(nth, o, now), CloseDone(t, nth, o), CloseTasks(t, o, now))
  {
    hide Leads, ComposeKey, EntryMove, ExitMove, FillMove, BrokerMove, EntryGuard, ExitGuard, FillGuard, BrokerGuard,
         Advances;
    var acts, m, tasks := ExitSeen(c, t, nth, o);
    acts, m, tasks := Then(c, t, acts, m, tasks, ByClose(WriteExitFailed));
    acts, m, tasks := Then(c, t, acts, m, tasks, ByClose(ReopenFailed));
    assert acts == CloseScript(nth, o, now);
    assert m == CloseDone(t, nth, o);
    assert tasks == CloseTasks(t, o, now);
  }

  lemma ClosePlays(c: Config, t: Trade, nth: nat, o: Order, now: int)
    requires AwaitsClose(c, t, nth, o)
    ensures Leads(c, t, CloseScript(nth, o, now), CloseDone(t, nth, o), CloseTasks(t, o, now))
  {
    hide Leads, ComposeKey, EntryMove, ExitMove, FillMove, BrokerMove, EntryGuard, ExitGuard, FillGuard, BrokerGuard,
         Advances;
    match o.status {
      case Complete => ClosedPlays(c, t, nth, o, now);
      case Dead => DeadExitPlays(c, t, nth, o, now);
      case _ =>
        var acts, m, tasks := ExitSeen(c, t, nth, o);
        acts, m, tasks := Then(c, t, acts, m, tasks,
                               ByClose(if o.status.Working? then ExitWorking else WriteExitPartial));
        assert acts == CloseScript(nth, o, now);
        assert m == CloseDone(t, nth, o);
        assert tasks == CloseTasks(t, o, now);
    }
  }

  // ---------------------------------------------------------------- calls are runs

  /** The state after one call about trade id. */
  function After(s: State, id: nat, m: Trade, tasks: seq<Task>, forgets: bool): State
    requires id < |s.trades|
  {
    var keys := if forgets then Forget(s, s.trades[id].Key()) else s;
    State(s.config, keys.seen, keys.attempts, s.trades[id := m], s.log + tasks)
  }

  predicate EndsForgetting(acts: seq<Action>) {
    acts != [] && Forgets(acts[|acts| - 1])
  }

  /** What can be played on one trade can happen in the system. */
  lemma CallRuns(s: State, id: nat, acts: seq<Action>, m: Trade, tasks: seq<Task>)
    requires Reachable(s) && id < |s.trades| && Leads(s.config, s.trades[id], acts, m, tasks) && ForgetsLast(acts)
    ensures Reachable(After(s, id, m, tasks, EndsForgetting(acts)))
  {
    hide Run, Play, Writes, TradeKept, KeysKept, LogKept, Forget, ComposeKey;
    ReachableKept(s);
    var evs :| Run(Init(s.config), evs) == Some(s);
    var more, s' := PlayRuns(s, id, acts);
    RunAppend(Init(s.config), evs, more);
    assert s' == After(s, id, m, tasks, EndsForgetting(acts));
    assert Run(Init(s'.config), evs + more) == Some(s');
  }

  lemma BeginRuns(s: State, entry: Entry, price: real, date: string)
    requires Reachable(s) && Enabled(s, Begin(entry, price, date))
    ensures Reachable(Begun(s, entry, price, date))
  {
    hide Enabled;
    var evs :| Run(Init(s.config), evs) == Some(s);
    RunSnoc(Init(s.config), evs, Begin(entry, price, date));
  }

  /** The state after `execute` got past its dedup. */
  function Entered(s: State, entry: Entry, price: real, date: string, cash: CashAnswer, accepted: bool): State {
    var b := Begun(s, entry, price, date);
    var t := b.trades[|s.trades|];
    b.(trades := s.trades + [EntryDone(s.config, t, cash, accepted)],
       log := s.log + EntryTasks(s.config, t, cash, accepted))
  }

  lemma EntryRuns(s: State, entry: Entry, price: real, date: string, cash: CashAnswer, accepted: bool)
    requires Reachable(s) && Enabled(s, Begin(entry, price, date))
    ensures Reachable(Entered(s, entry, price, date, cash, accepted))
    ensures NoneRaced(s.trades) ==> NoneRaced(Entered(s, entry, price, date, cash, accepted).trades)
  {
    EntryIsUnraced(s.config, Begun(s, entry, price, date).trades[|s.trades|], cash, accepted);
    hide Run, Reachable, Play, Writes, Leads, EntryDone, EntryTasks, EntryScript, ComposeKey, BaseKey;
    BeginRuns(s, entry, price, date);
    var b, n := Begun(s, entry, price, date), |s.trades|;
    EntryPlays(s.config, b.trades[n], cash, accepted);
    EntryNeverForgets(s.config, b.trades[n], cash, accepted);
    CallRuns(b, n, EntryScript(s.config, b.trades[n], cash, accepted), EntryDone(s.config, b.trades[n], cash, accepted),
             EntryTasks(s.config, b.trades[n], cash, accepted));
    assert b.trades[n := EntryDone(s.config, b.trades[n], cash, accepted)] ==
           s.trades + [EntryDone(s.config, b.trades[n], cash, accepted)];
  }

  lemma EntryIsUnraced(c: Config, t: Trade, cash: CashAnswer, accepted: bool)
    ensures EntryDone(c, t, cash, accepted).raced == t.raced
  {
    hide ComputeSizing, Notional, Qty, NewPos;
  }

  lemma EntryNeverForgets(c: Config, t: Trade, cash: CashAnswer, accepted: bool)
    ensures ForgetsLast(EntryScript(c, t, cash, accepted)) && !EndsForgetting(EntryScript(c, t, cash, accepted))
  {
    hide ComputeSizing, Notional;
  }

  lemma ExitRuns(s: State, id: nat, accepted: bool, now: int)
    requires Reachable(s) && id < |s.trades| && ReadyToExit(s.trades[id])
    ensures Reachable(After(s, id, ExitDone(s.config, s.trades[id], accepted),
                            [ExitTask(s.config, s.trades[id], accepted, now)], s.config.mode.Paper?))
    ensures NoneRaced(s.trades) ==> NoneRaced(s.trades[id := ExitDone(s.config, s.trades[id], accepted)])
  {
    assert ExitDone(s.config, s.trades[id], accepted).raced == s.trades[id].raced;
    hide Run, Reachable, Play, Writes, Leads, ExitDone, ExitTask, After, ComposeKey;
    ExitPlays(s.config, s.trades[id], accepted, now);
    CallRuns(s, id, ExitScript(s.config, s.trades[id], accepted, now), ExitDone(s.config, s.trades[id], accepted),
             [ExitTask(s.config, s.trades[id], accepted, now)]);
  }

  lemma FillRuns(s: State, id: nat, o: Order)
    requires Reachable(s) && id < |s.trades| && AwaitsFill(s.config, s.trades[id], o)
    ensures Reachable(After(s, id, FillDone(s.trades[id], o), FillTasks(s.trades[id], o), false))
    ensures NoneRaced(s.trades) ==> NoneRaced(s.trades[id := FillDone(s.trades[id], o)])
  {
    assert FillDone(s.trades[id], o).raced == s.trades[id].raced;
    hide Run, Reachable, Play, Writes, Leads, FillDone, FillTasks, After, ComposeKey;
    FillPlays(s.config, s.trades[id], o);
    CallRuns(s, id, FillScript(o), FillDone(s.trades[id], o), FillTasks(s.trades[id], o));
  }

  lemma CloseRuns(s: State, id: nat, nth: nat, o: Order, now: int)
    requires Reachable(s) && id < |s.trades| && AwaitsClose(s.config, s.trades[id], nth, o)
    ensures Reachable(After(s, id, CloseDone(s.trades[id], nth, o), CloseTasks(s.trades[id], o, now),
                            o.status.Complete?))
    ensures NoneRaced(s.trades) ==> NoneRaced(s.trades[id := CloseDone(s.trades[id], nth, o)])
  {
    assert CloseDone(s.trades[id], nth, o).raced == s.trades[id].raced;
    hide Run, Reachable, Play, Writes, Leads, CloseDone, CloseTasks, After, ComposeKey;
    ClosePlays(s.config, s.trades[id], nth, o, now);
    CallRuns(s, id, CloseScript(nth, o, now), CloseDone(s.trades[id], nth, o), CloseTasks(s.trades[id], o, now));
  }

  // ---------------------------------------------------------------- claim_exits and claim_all_open

  /** The price an exit is sent at: the last one seen for the symbol, or the entry price. */
  function PriceFor(prices: map<string, real>, p: Pos): real {
    if p.symbol in prices then prices[p.symbol] else p.entryPrice
  }

  function ClaimTrade(t: Trade, prices: map<string, real>, why: ExitReason): Trade
    requires t.pos.Some?
  {
    t.(pos := Some(t.pos.value.(state := EXITING)), exitPc := ExitClaimed(PriceFor(prices, t.pos.value), why),
       trail := t.trail + [Claimed])
  }

  predicate CanClaim(t: Trade, prices: map<string, real>, why: ExitReason) {
    InState(t, OPEN) && (why.TargetPrice? ==> t.pos.value.Triggered(PriceFor(prices, t.pos.value)))
  }

  predicate AllCanClaim(ts: seq<Trade>, ids: set<nat>, prices: map<string, real>, why: ExitReason) {
    forall id :: id in ids ==> id < |ts| && CanClaim(ts[id], prices, why)
  }

  /** All the positions of these ids claimed at once. */
  function ClaimAll(ts: seq<Trade>, ids: set<nat>, prices: map<string, real>, why: ExitReason): (r: seq<Trade>)
    requires AllCanClaim(ts, ids, prices, why)
    ensures |r| == |ts|
  {
    seq(|ts|, i requires 0 <= i < |ts| => if i in ids then ClaimTrade(ts[i], prices, why) else ts[i])
  }

  lemma ClaimIsStep(c: Config, t: Trade, prices: map<string, real>, why: ExitReason) returns (a: Action)
    requires CanClaim(t, prices, why)
    ensures Guard(c, t, a) && Next(c, t, a) == ClaimTrade(t, prices, why) && Write(c, t, a) == None && !Forgets(a)
  {
    a := ByExit(Claim(PriceFor(prices, t.pos.value), why));
  }

  lemma ClaimsAreUnraced(ts: seq<Trade>, ids: set<nat>, prices: map<string, real>, why: ExitReason)
    requires AllCanClaim(ts, ids, prices, why)
    ensures NoneRaced(ts) ==> NoneRaced(ClaimAll(ts, ids, prices, why))
  {
    hide CanClaim;
  }

  lemma {:induction false} ClaimsRun(s: State, ids: set<nat>, prices: map<string, real>, why: ExitReason)
    requires Reachable(s) && AllCanClaim(s.trades, ids, prices, why)
    ensures Reachable(s.(trades := ClaimAll(s.trades, ids, prices, why)))
    ensures NoneRaced(s.trades) ==> NoneRaced(ClaimAll(s.trades, ids, prices, why))
    decreases |ids|
  {
    hide Run, Guard, Next, Write, CanClaim, ClaimTrade, NoneRaced, Forget, ComposeKey;
    ClaimsAreUnraced(s.trades, ids, prices, why);
    if ids == {} {
      assert ClaimAll(s.trades, ids, prices, why) == s.trades;
    } else {
      var id :| id in ids;
      ClaimsRun(s, ids - {id}, prices, why);
      var s1 := s.(trades := ClaimAll(s.trades, ids - {id}, prices, why));
      var a := ClaimIsStep(s.config, s.trades[id], prices, why);
      var evs :| Run(Init(s1.config), evs) == Some(s1);
      ActedParts(s1, id, a);
      RunAppend(Init(s1.config), evs, [On(id, a)]);
      assert Acted(s1, id, a).trades == ClaimAll(s.trades, ids, prices, why);
      assert s1.log + [] == s1.log;
      assert Run(Init(s.config), evs + [On(id, a)]) == Some(s.(trades := ClaimAll(s.trades, ids, prices, why)));
    }
  }

  // ---------------------------------------------------------------- check_exits and liquidate_all

  /** These ids, each once, in some order. */
  ghost predicate ListsIds(order: seq<nat>, ids: set<nat>) {
    && (forall k :: 0 <= k < |order| ==> order[k] in ids)
    && (forall id :: id in ids ==> id in order)
    && (forall k, l :: 0 <= k < l < |order| ==> order[k] != order[l])
  }

  /** The exit of one trade, from the claim to what became of its order. */
  function ExitOf(c: Config, t: Trade, prices: map<string, real>, why: ExitReason, accepted: bool): Trade
    requires CanClaim(t, prices, why) && AtRest(t)
  {
    ExitDone(c, ClaimTrade(t, prices, why), accepted)
  }

  /** All positions of these ids claimed, those of done also sent on their way out. */
  function Exiting(c: Config, ts: seq<Trade>, ids: set<nat>, done: set<nat>, prices: map<string, real>,
                   why: ExitReason, accepted: set<nat>): (r: seq<Trade>)
    requires AllCanClaim(ts, ids, prices, why) && AllQuiet(ts)
    ensures |r| == |ts|
  {
    seq(|ts|, i requires 0 <= i < |ts| =>
      if i !in ids then ts[i]
      else if i in done then ExitOf(c, ts[i], prices, why, i in accepted)
      else ClaimTrade(ts[i], prices, why))
  }

  function ExitTasks(c: Config, ts: seq<Trade>, order: seq<nat>, prices: map<string, real>, why: ExitReason,
                     accepted: set<nat>, now: int): seq<Task>
    requires AllQuiet(ts) && forall k :: 0 <= k < |order| ==> order[k] < |ts| && CanClaim(ts[order[k]], prices, why)
  {
    if order == [] then []
    else
      var n, id := |order| - 1, order[|order| - 1];
      assert CanClaim(ts[id], prices, why);
      ExitTasks(c, ts, order[..n], prices, why, accepted, now)
          + [ExitTask(c, ClaimTrade(ts[id], prices, why), id in accepted, now)]
  }

  /** A claim leaves the trade ready for its exit order. */
  lemma ClaimedIsReady(t: Trade, prices: map<string, real>, why: ExitReason)
    requires CanClaim(t, prices, why) && AtRest(t)
    ensures ReadyToExit(ClaimTrade(t, prices, why))
    ensures ClaimTrade(t, prices, why).exitPc == ExitClaimed(PriceFor(prices, t.pos.value), why)
  {
  }

  lemma ExitLeavesAtRest(c: Config, t: Trade, prices: map<string, real>, why: ExitReason, accepted: bool)
    requires CanClaim(t, prices, why) && AtRest(t)
    ensures AtRest(ExitOf(c, t, prices, why, accepted))
    ensures c.mode.Paper? ==> ExitOf(c, t, prices, why, accepted).pos.None?
  {
  }
}
