/**
 What a recorded run says about its poll: which answer each reason stands for, which reasons
 use the slot up, and that a poll held back for a passing reason leaves the slot to the next.
 Everything is stated from what the poll sees.
 */
module RunReasons {
  import opened Trading
  import opened PollLoop
  import opened PollSafety
  import opened PollRuns
  import RetryClock
  import opened EntryConditions
  import Rounding

  // ---------------------------------------------------------------- the reasons

  /** A directional, dated signal that is too old for the slot. */
  predicate TooOld(e: Env, sig: Signal) {
    sig.action != NoAction && sig.time.Some? && e.now - sig.time.value > e.ageLimit * SECOND
  }

  /** Every check of the guarded part before check `k` lets the poll pass. */
  predicate Clears(c: Config, taken: int, e: Env, sig: Signal, k: int) {
    var g := e.gates;
    && (k > 1 ==> taken < c.maxTradesPerDay)
    && (k > 2 ==> !g.symbolSpecMissing) && (k > 3 ==> !g.symbolMismatch) && (k > 4 ==> !g.badDistanceUnit)
    && (k > 5 ==> !PutOff(c, e, sig)) && (k > 6 ==> Admits(c, e, sig))
    && (k > 7 ==> g.assuranceBlock == None) && (k > 8 ==> g.entryQualityBlock == None)
    && (k > 9 ==> g.positionBlock == None) && (k > 10 ==> g.environmentGate == None)
    && (k > 11 ==> !g.quoteMissing) && (k > 12 ==> !g.badDistances) && (k > 13 ==> !g.nonpositiveDistance)
    && (k > 14 ==> !g.spreadTooWide) && (k > 15 ==> !g.noRiskBudget) && (k > 16 ==> !g.belowMinLot)
    && (k > 17 ==> !g.dailyRiskExceeded)
  }

  /** The poll gets as far as check `k` and is asked there, nothing having been raised. */
  predicate Asked(c: Config, taken: int, e: Env, sig: Signal, k: int) {
    Live(e, sig) && Clears(c, taken, e, sig, k) && e.raiseBefore > k
  }

  /** An exception strikes before any check has held the poll back. */
  predicate Struck(c: Config, taken: int, e: Env, sig: Signal) {
    Live(e, sig) && e.raiseBefore <= MARK_STAGE && Clears(c, taken, e, sig, e.raiseBefore)
  }

  predicate OfAge(c: Config, e: Env, sig: Signal) {
    && sig.time.Some?
    && (WithinAge(e.now, sig.time.value, c.signalMaxAge) || (e.entrySlot == None && WithinAge(e.now, sig.time.value, e.ageLimit)))
  }

  /** Why the confirm stage turns the signal down: the stored reason, or the first test it fails. */
  predicate TurnedDownFor(c: Config, e: Env, sig: Signal, why: ConfirmReason) {
    if StoredCounts(c, e, sig) then why == sig.confirmReason
    else match why
      case StaleSignal => !OfAge(c, e, sig)
      case InputHardBlocker => OfAge(c, e, sig) && sig.inputHardBlocker
      case QuoteMissing =>
        && OfAge(c, e, sig) && !sig.inputHardBlocker
        && (e.quote == None || Rounding.Round(e.quote.value.ask - e.quote.value.bid, 10_000) <= 0.0)
      case ConfirmSpreadTooWide =>
        && OfAge(c, e, sig) && !sig.inputHardBlocker && e.quote.Some?
        && Rounding.Round(e.quote.value.ask - e.quote.value.bid, 10_000) > 0.0
        && Rounding.Round(e.quote.value.ask - e.quote.value.bid, 10_000) > c.confirmSpreadMax
      case NewsBlock(text) => OfAge(c, e, sig) && !sig.inputHardBlocker && QuoteFits(c, e) && !e.newsClear && text == e.newsReason
      case MicrostructureConflict => InConflict(c, e, sig, AgeOverride(e))
      case _ => false
  }

  /** What each reason of a recorded run stands for. */
  predicate StandsFor(c: Config, taken: int, e: Env, sig: Signal, reason: Reason) {
    var g := e.gates;
    match reason
    case Hold => sig.action == NoAction
    case Stale => TooOld(e, sig)
    case InvalidSignalTimestamp =>
      sig.action != NoAction && (sig.time == None || (TooOld(e, sig) && e.write == WriteValueError))
    case CapReached => Asked(c, taken, e, sig, 1) && taken >= c.maxTradesPerDay
    case SymbolSpecMissing => Asked(c, taken, e, sig, 2) && g.symbolSpecMissing
    case SymbolMismatch => Asked(c, taken, e, sig, 3) && g.symbolMismatch
    case InvalidDistanceUnit => Asked(c, taken, e, sig, 4) && g.badDistanceUnit
    case Confirming(why) =>
      || (Asked(c, taken, e, sig, 5) && PutOff(c, e, sig) && why == MicrostructureDeferred)
      || (Asked(c, taken, e, sig, 6) && !Admits(c, e, sig) && TurnedDownFor(c, e, sig, why))
    case Gate(text) =>
      || (Asked(c, taken, e, sig, 7) && g.assuranceBlock == Some(text))
      || (Asked(c, taken, e, sig, 8) && g.entryQualityBlock == Some(text))
      || (Asked(c, taken, e, sig, 9) && g.positionBlock == Some(text))
    case Environment(text) => Asked(c, taken, e, sig, 10) && g.environmentGate == Some(text)
    case NoQuote => Asked(c, taken, e, sig, 11) && g.quoteMissing
    case InvalidDistanceValues => Asked(c, taken, e, sig, 12) && g.badDistances
    case NonpositiveDistance => Asked(c, taken, e, sig, 13) && g.nonpositiveDistance
    case SpreadTooWide => Asked(c, taken, e, sig, 14) && g.spreadTooWide
    case NoRiskBudget => Asked(c, taken, e, sig, 15) && g.noRiskBudget
    case RiskBelowMinLot => Asked(c, taken, e, sig, 16) && g.belowMinLot
    case RemainingDailyRiskExceeded => Asked(c, taken, e, sig, 17) && g.dailyRiskExceeded
    case OrderPlaced => Asked(c, taken, e, sig, 19) && e.placed.Some?
    case OrderNotPlaced => Asked(c, taken, e, sig, 19) && e.placed == None
    case ExecutionException => Live(e, sig) && (Struck(c, taken, e, sig) || e.write != WriteOk)
  }

  /**
   Which runs use the slot up for the day: all but those that wait for something that passes,
   a deferral, a crash, and a stale signal published before the slot began.
   */
  predicate UsesSlotUp(c: Config, e: Env, sig: Signal, reason: Reason) {
    match reason
    case SymbolSpecMissing | Environment(_) | NoQuote | SpreadTooWide | NoRiskBudget | ExecutionException => false
    case Confirming(_) => !PutOff(c, e, sig)
    case Stale => sig.time.Some? && sig.time.value >= e.slotStart
    case _ => true
  }

  /** The signal is traded the other way round from the veto on. */
  predicate Reversed(c: Config, taken: int, e: Env, sig: Signal) {
    && Live(e, sig) && Clears(c, taken, e, sig, 7) && e.raiseBefore > 6
    && (if StoredCounts(c, e, sig) then sig.confirmStatus != Confirmed else !Confirmable(c, e, sig, AgeOverride(e)))
  }

  /** The run belongs to the poll, and reason, flag, direction and counter mark are as the poll has it. */
  predicate RunFits(c: Config, taken: int, e: Env, slot: Slot, sig: Signal, run: Run) {
    && run.day == e.day && run.slot == slot && run.signalId == sig.id
    && StandsFor(c, taken, e, sig, run.reason)
    && (run.terminal <==> UsesSlotUp(c, e, sig, run.reason))
    && run.action == (if !Reversed(c, taken, e, sig) then sig.action else if sig.action == Buy then Sell else Buy)
    && (run.counter <==>
          && Reversed(c, taken, e, sig)
          && (run.reason == OrderPlaced || (run.reason.Gate? && e.gates.assuranceBlock == None && e.gates.entryQualityBlock.Some?)))
  }

  /** The runs of one poll: one, or two when the state write fails after the first. */
  predicate RunsFit(c: Config, taken: int, e: Env, slot: Slot, sig: Signal, runs: seq<Run>) {
    && 1 <= |runs| <= 2 && RunFits(c, taken, e, slot, sig, runs[0])
    && (runs[0].reason == ExecutionException <==> Struck(c, taken, e, sig))
    && (TooOld(e, sig) ==> runs[0].reason == Stale)
    && (|runs| == 2 <==> (TooOld(e, sig) && e.write == WriteValueError) || (Live(e, sig) && !Struck(c, taken, e, sig) && e.write != WriteOk))
    && (|runs| == 2 ==>
          && RunFits(c, taken, e, slot, sig, runs[1])
          && runs[1].reason == if TooOld(e, sig) then InvalidSignalTimestamp else ExecutionException)
  }

  // ---------------------------------------------------------------- the guarded part

  /** A check clears exactly when the guarded part does not leave before it. */
  lemma {:induction false} ClearsIff(c: Config, taken: int, e: Env, sig: Signal, k: int)
    requires k <= MARK_STAGE
    ensures var exit := FirstExit(c, taken, e, ConfirmStage(c, e, sig, e.entrySlot.None?));
            Clears(c, taken, e, sig, k) <==> exit.stage >= k
  {
    AdmitsIff(c, e, sig);
  }

  /** The reason of a signal that is turned down. */
  lemma {:induction false} TurnedDown(c: Config, e: Env, sig: Signal)
    requires Live(e, sig) && !Admits(c, e, sig) && !PutOff(c, e, sig)
    ensures TurnedDownFor(c, e, sig, ConfirmStage(c, e, sig, e.entrySlot.None?).verdict.reason)
  {
    AdmitsIff(c, e, sig);
    MustConfirmIff(c, e, sig);
    ConfirmedIff(c, e, sig, AgeOverride(e), e.entrySlot.None?);
  }

  /** The exit that is reached means what it says, up to the veto. */
  lemma {:induction false} EarlyExitFits(c: Config, taken: int, e: Env, sig: Signal)
    requires var exit := FirstExit(c, taken, e, ConfirmStage(c, e, sig, e.entrySlot.None?));
             Live(e, sig) && e.raiseBefore > exit.stage && exit.stage <= VETO_STAGE
    ensures var exit := FirstExit(c, taken, e, ConfirmStage(c, e, sig, e.entrySlot.None?));
            && StandsFor(c, taken, e, sig, exit.reason) && exit.reason != ExecutionException
            && (exit.terminal <==> UsesSlotUp(c, e, sig, exit.reason))
  {
    AdmitsIff(c, e, sig);
    if FirstExit(c, taken, e, ConfirmStage(c, e, sig, e.entrySlot.None?)).stage == VETO_STAGE {
      TurnedDown(c, e, sig);
    }
  }

  /** Past the veto the exit is the first gate that blocks. */
  lemma {:induction false} GateStands(c: Config, taken: int, e: Env, sig: Signal)
    requires Live(e, sig) && Clears(c, taken, e, sig, GateExit(e).stage) && e.raiseBefore > GateExit(e).stage
    ensures StandsFor(c, taken, e, sig, GateExit(e).reason)
  {
    assert Asked(c, taken, e, sig, GateExit(e).stage);
  }

  lemma {:induction false} GateFlag(c: Config, e: Env, sig: Signal)
    ensures GateExit(e).reason != ExecutionException
    ensures GateExit(e).terminal <==> UsesSlotUp(c, e, sig, GateExit(e).reason)
  {
  }

  lemma {:induction false} LateExitFits(c: Config, taken: int, e: Env, sig: Signal)
    requires var exit := FirstExit(c, taken, e, ConfirmStage(c, e, sig, e.entrySlot.None?));
             Live(e, sig) && e.raiseBefore > exit.stage > VETO_STAGE
    ensures var exit := FirstExit(c, taken, e, ConfirmStage(c, e, sig, e.entrySlot.None?));
            && StandsFor(c, taken, e, sig, exit.reason) && exit.reason != ExecutionException
            && (exit.terminal <==> UsesSlotUp(c, e, sig, exit.reason))
  {
    var exit := FirstExit(c, taken, e, ConfirmStage(c, e, sig, e.entrySlot.None?));
    ClearsIff(c, taken, e, sig, exit.stage);
    assert exit == GateExit(e);
    GateStands(c, taken, e, sig);
    GateFlag(c, e, sig);
  }

  /** The trade is reversed exactly when the pass is countered and gets past the veto. */
  lemma {:induction false} ReversedIff(c: Config, taken: int, e: Env, sig: Signal, last: int)
    requires var exit := FirstExit(c, taken, e, ConfirmStage(c, e, sig, e.entrySlot.None?));
             Live(e, sig) && last == if e.raiseBefore <= exit.stage then e.raiseBefore - 1 else exit.stage
    ensures Reversed(c, taken, e, sig) <==> ConfirmStage(c, e, sig, e.entrySlot.None?).countered && last >= VETO_STAGE
  {
    var pass := ConfirmStage(c, e, sig, e.entrySlot.None?);
    AdmitsIff(c, e, sig);
    ClearsIff(c, taken, e, sig, 7);
    MustConfirmIff(c, e, sig);
    ConfirmedIff(c, e, sig, AgeOverride(e), e.entrySlot.None?);
  }

  lemma {:induction false} MarkAddsRun(s: Bot, e: Env, slot: Slot, sig: Signal, action: Action, reason: Reason, terminal: bool, counter: bool)
    requires OnDay(s, e.day)
    ensures var t := Mark(s, e, slot, sig, action, reason, terminal, counter);
            t.runs == s.runs + [Run(e.day, slot, sig.id, reason, action, terminal, counter)] && OnDay(t, e.day)
  {
    ClearKeeps(s, e.day);
  }

  lemma {:induction false} EffectsAddNoRun(s: Bot, e: Env, slot: Slot, sig: Signal, pass: Pass, last: int)
    requires OnDay(s, e.day)
    ensures var t := Effects(s, e, slot, sig, pass, last); t.runs == s.runs && OnDay(t, e.day)
  {
    var m := ConfirmEffects(s, e, slot, sig, pass, last);
    assert m.runs == s.runs && m.tradeDate == s.tradeDate;
    ClearKeeps(m, e.day);
  }

  lemma {:induction false} LeaveAdds(s: Bot, e: Env, slot: Slot, sig: Signal, action: Action, exit: Exit, counter: bool)
    requires OnDay(s, e.day)
    ensures var crash := Run(e.day, slot, sig.id, ExecutionException, action, false, false);
            var run := Run(e.day, slot, sig.id, exit.reason, action, exit.terminal, counter);
            Leave(s, e, slot, sig, action, exit, counter).runs == s.runs + if e.write == WriteOk then [run] else [run, crash]
  {
    MarkAddsRun(s, e, slot, sig, action, exit.reason, exit.terminal, counter);
    MarkAddsRun(Mark(s, e, slot, sig, action, exit.reason, exit.terminal, counter), e, slot, sig, action, ExecutionException, false, false);
  }

  /** The runs that the guarded part adds, one after the other. */
  lemma {:induction false} ConcludeAdds(s: Bot, e: Env, slot: Slot, sig: Signal, pass: Pass, exit: Exit, last: int)
    requires OnDay(s, e.day) && last == if e.raiseBefore <= exit.stage then e.raiseBefore - 1 else exit.stage
    ensures var action := TradedAction(sig, pass, last);
            var crash := Run(e.day, slot, sig.id, ExecutionException, action, false, false);
            var run := Run(e.day, slot, sig.id, exit.reason, action, exit.terminal, CounterMark(e, pass, exit.stage));
            Conclude(s, e, slot, sig, pass, exit).runs ==
            s.runs + if e.raiseBefore <= exit.stage then [crash] else if e.write == WriteOk then [run] else [run, crash]
  {
    var action := TradedAction(sig, pass, last);
    var m := Effects(s, e, slot, sig, pass, last);
    EffectsAddNoRun(s, e, slot, sig, pass, last);
    LeaveAdds(m, e, slot, sig, action, exit, CounterMark(e, pass, exit.stage));
    MarkAddsRun(m, e, slot, sig, action, ExecutionException, false, false);
    assert Conclude(s, e, slot, sig, pass, exit) ==
           if e.raiseBefore <= exit.stage then Crash(m, e, slot, sig, action)
           else Leave(m, e, slot, sig, action, exit, CounterMark(e, pass, exit.stage));
  }

  // ---------------------------------------------------------------- one poll

  /** The runs of the guarded part, crash run included. */
  function GuardedRuns(c: Config, taken: int, e: Env, slot: Slot, sig: Signal, last: int): seq<Run> {
    var pass := ConfirmStage(c, e, sig, e.entrySlot.None?);
    var exit := FirstExit(c, taken, e, pass);
    var action := TradedAction(sig, pass, last);
    var crash := Run(e.day, slot, sig.id, ExecutionException, action, false, false);
    var run := Run(e.day, slot, sig.id, exit.reason, action, exit.terminal, CounterMark(e, pass, exit.stage));
    if e.raiseBefore <= exit.stage then [crash] else if e.write == WriteOk then [run] else [run, crash]
  }

  lemma {:induction false} GuardedRunsFit(c: Config, taken: int, e: Env, slot: Slot, sig: Signal, last: int)
    requires Live(e, sig)
    requires var exit := FirstExit(c, taken, e, ConfirmStage(c, e, sig, e.entrySlot.None?));
             last == if e.raiseBefore <= exit.stage then e.raiseBefore - 1 else exit.stage
    ensures RunsFit(c, taken, e, slot, sig, GuardedRuns(c, taken, e, slot, sig, last))
  {
    var exit := FirstExit(c, taken, e, ConfirmStage(c, e, sig, e.entrySlot.None?));
    var runs := GuardedRuns(c, taken, e, slot, sig, last);
    StruckIff(c, taken, e, sig);
    if e.raiseBefore <= exit.stage {
      CrashRunFits(c, taken, e, slot, sig, last, runs[0]);
    } else {
      ExitRunFits(c, taken, e, slot, sig, runs[0]);
      if |runs| == 2 {
        CrashRunFits(c, taken, e, slot, sig, last, runs[1]);
      }
    }
  }

  lemma {:induction false} CrashRunFits(c: Config, taken: int, e: Env, slot: Slot, sig: Signal, last: int, run: Run)
    requires Live(e, sig) && (Struck(c, taken, e, sig) || e.write != WriteOk)
    requires var pass := ConfirmStage(c, e, sig, e.entrySlot.None?);
             var exit := FirstExit(c, taken, e, pass);
             && last == (if e.raiseBefore <= exit.stage then e.raiseBefore - 1 else exit.stage)
             && run == Run(e.day, slot, sig.id, ExecutionException, TradedAction(sig, pass, last), false, false)
    ensures RunFits(c, taken, e, slot, sig, run)
  {
    ReversedIff(c, taken, e, sig, last);
  }

  lemma {:induction false} AttemptRunsFit(c: Config, s: Bot, e: Env, slot: Slot, sig: Signal) returns (runs: seq<Run>)
    requires OnDay(s, e.day) && Live(e, sig)
    ensures PollLoop.Attempt(c, s, e, slot, e.entrySlot.None?, sig).runs == s.runs + runs
    ensures RunsFit(c, s.tradesTaken, e, slot, sig, runs)
  {
    ClearKeeps(s, e.day);
    var pass := ConfirmStage(c, e, sig, e.entrySlot.None?);
    var exit := FirstExit(c, s.tradesTaken, e, pass);
    var last := if e.raiseBefore <= exit.stage then e.raiseBefore - 1 else exit.stage;
    ConcludeAdds(s, e, slot, sig, pass, exit, last);
    runs := GuardedRuns(c, s.tradesTaken, e, slot, sig, last);
    GuardedRunsFit(c, s.tradesTaken, e, slot, sig, last);
  }

  lemma {:induction false} StruckIff(c: Config, taken: int, e: Env, sig: Signal)
    requires Live(e, sig)
    ensures Struck(c, taken, e, sig) <==> e.raiseBefore <= FirstExit(c, taken, e, ConfirmStage(c, e, sig, e.entrySlot.None?)).stage
  {
    FirstExitShape(c, taken, e, ConfirmStage(c, e, sig, e.entrySlot.None?));
    if e.raiseBefore <= MARK_STAGE {
      ClearsIff(c, taken, e, sig, e.raiseBefore);
    }
  }

  lemma {:induction false} ExitRunFits(c: Config, taken: int, e: Env, slot: Slot, sig: Signal, run: Run)
    requires Live(e, sig)
    requires var pass := ConfirmStage(c, e, sig, e.entrySlot.None?);
             var exit := FirstExit(c, taken, e, pass);
             && e.raiseBefore > exit.stage
             && run == Run(e.day, slot, sig.id, exit.reason, TradedAction(sig, pass, exit.stage), exit.terminal, CounterMark(e, pass, exit.stage))
    ensures RunFits(c, taken, e, slot, sig, run)
  {
    var pass := ConfirmStage(c, e, sig, e.entrySlot.None?);
    var exit := FirstExit(c, taken, e, pass);
    if exit.stage <= VETO_STAGE {
      EarlyExitFits(c, taken, e, sig);
    } else {
      LateExitFits(c, taken, e, sig);
    }
    ReversedIff(c, taken, e, sig, exit.stage);
    CounterMarkIff(c, taken, e, sig);
  }

  lemma {:induction false} CounterMarkIff(c: Config, taken: int, e: Env, sig: Signal)
    ensures var pass := ConfirmStage(c, e, sig, e.entrySlot.None?);
            var exit := FirstExit(c, taken, e, pass);
            CounterMark(e, pass, exit.stage) <==>
            && pass.countered && exit.stage > VETO_STAGE
            && (exit.reason == OrderPlaced || (exit.reason.Gate? && e.gates.assuranceBlock == None && e.gates.entryQualityBlock.Some?))
  {
  }

  lemma {:induction false} ProcessRunsFit(c: Config, s: Bot, e: Env, slot: Slot, sig: Signal) returns (runs: seq<Run>)
    requires OnDay(s, e.day)
    ensures Process(c, s, e, slot, e.entrySlot.None?, sig).runs == s.runs + runs
    ensures RunsFit(c, s.tradesTaken, e, slot, sig, runs)
  {
    var s1 := Note(s, e, SignalDecision, slot, sig, sig.action, Hold);
    if Live(e, sig) {
      runs := AttemptRunsFit(c, s1, e, slot, sig);
    } else if TooOld(e, sig) {
      runs := StaleRunsFit(c, s1, e, slot, sig);
    } else if sig.action == NoAction {
      MarkAddsRun(s, e, slot, sig, sig.action, Hold, true, false);
      SingleRunFits(c, s.tradesTaken, e, slot, sig, Hold);
      runs := [Run(e.day, slot, sig.id, Hold, sig.action, true, false)];
    } else {
      MarkAddsRun(s1, e, slot, sig, sig.action, InvalidSignalTimestamp, true, false);
      SingleRunFits(c, s.tradesTaken, e, slot, sig, InvalidSignalTimestamp);
      runs := [Run(e.day, slot, sig.id, InvalidSignalTimestamp, sig.action, true, false)];
    }
  }

  /** A signal without direction, or without a readable time. */
  lemma {:induction false} SingleRunFits(c: Config, taken: int, e: Env, slot: Slot, sig: Signal, reason: Reason)
    requires if sig.action == NoAction then reason == Hold else sig.time == None && reason == InvalidSignalTimestamp
    ensures RunsFit(c, taken, e, slot, sig, [Run(e.day, slot, sig.id, reason, sig.action, true, false)])
  {
  }

  lemma {:induction false} StaleRunsFit(c: Config, s: Bot, e: Env, slot: Slot, sig: Signal) returns (runs: seq<Run>)
    requires OnDay(s, e.day) && TooOld(e, sig)
    ensures AfterStale(s, e, slot, sig).runs == s.runs + runs
    ensures RunsFit(c, s.tradesTaken, e, slot, sig, runs)
  {
    var terminal := sig.time.value >= e.slotStart;
    MarkAddsRun(s, e, slot, sig, sig.action, Stale, terminal, false);
    MarkAddsRun(Mark(s, e, slot, sig, sig.action, Stale, terminal, false), e, slot, sig, sig.action, InvalidSignalTimestamp, true, false);
    var run := Run(e.day, slot, sig.id, Stale, sig.action, terminal, false);
    runs := if e.write == WriteValueError then [run, Run(e.day, slot, sig.id, InvalidSignalTimestamp, sig.action, true, false)] else [run];
  }

  /** A working poll adds to the bot's list, and to the journal's runs of the day, runs that fit it. */
  lemma {:induction false} PollRunsFit(c: Config, s: Bot, e: Env) returns (runs: seq<Run>)
    requires WorkSlot(s, e).Some?
    ensures s.file.Some?
    ensures var t, b := Iterate(c, s, e), ClearForDay(s, e.day);
            && RunsFit(c, b.tradesTaken, e, WorkSlot(s, e).value, s.file.value, runs)
            && t.runs == b.runs + runs && RunsOf(t.journal, e.day) == RunsOf(s.journal, e.day) + runs
            && forall day :: day != e.day ==> RunsOf(t.journal, day) == RunsOf(s.journal, day)
  {
    var b, slot, sig := ClearForDay(s, e.day), WorkSlot(s, e).value, s.file.value;
    ClearIsOnDay(s, e.day);
    IterateWorks(c, s, e);
    runs := ProcessRunsFit(c, Track(b, slot, sig.id, e.now), e, slot, sig);
    var evs := IterateShape(c, s, e);
    SameTail(b.runs, runs, RunsOf(evs, e.day));
    forall day ensures RunsOf(s.journal + evs, day) == RunsOf(s.journal, day) + RunsOf(evs, day) {
      RunsOfConcat(s.journal, evs, day);
    }
    forall day | day != e.day ensures RunsOf(evs, day) == [] {
      NoRunsElsewhere(evs, e, slot, day);
    }
  }

  lemma {:induction false} SameTail<T>(x: seq<T>, a: seq<T>, b: seq<T>)
    requires x + a == x + b
    ensures a == b
  {
    assert a == (x + a)[|x|..] == (x + b)[|x|..] == b;
  }

  // ---------------------------------------------------------------- every run

  /** Step `i` is a poll that recorded the run, for what it saw and for the orders of the day so far. */
  ghost predicate RecordedBy(c: Config, steps: seq<Step>, i: nat, run: Run) {
    && i < |steps| && steps[i].Poll?
    && var s, e := After(c, steps[..i]), steps[i].e;
       && WorkSlot(s, e).Some? && s.file.Some?
       && RunFits(c, OrdersOn(s.orders, e.day), e, WorkSlot(s, e).value, s.file.value, run)
  }

  lemma {:induction false} RecordedEarlier(c: Config, steps: seq<Step>, i: nat, run: Run)
    requires steps != [] && RecordedBy(c, steps[..|steps| - 1], i, run)
    ensures RecordedBy(c, steps, i, run)
  {
    assert steps[..|steps| - 1][..i] == steps[..i];
  }

  lemma {:induction false} EachRunFits(c: Config, taken: int, e: Env, slot: Slot, sig: Signal, runs: seq<Run>, run: Run)
    requires RunsFit(c, taken, e, slot, sig, runs) && run in runs
    ensures RunFits(c, taken, e, slot, sig, run)
  {
    assert run == runs[0] || run == runs[1];
  }

  lemma {:induction false} NewRunFits(c: Config, s: Bot, e: Env, day: int, run: Run)
    requires Books(c, s) && Timely(s, e) && run in RunsOf(Iterate(c, s, e).journal, day) && run !in RunsOf(s.journal, day)
    ensures WorkSlot(s, e).Some? && s.file.Some?
    ensures RunFits(c, OrdersOn(s.orders, e.day), e, WorkSlot(s, e).value, s.file.value, run)
  {
    ClearKeepsBooks(c, s, e);
    if WorkSlot(s, e).None? {
      IterateRests(c, s, e);
    } else {
      var runs := PollRunsFit(c, s, e);
      EachRunFits(c, OrdersOn(s.orders, e.day), e, WorkSlot(s, e).value, s.file.value, runs, run);
    }
  }

  /** A run that the last step adds was recorded by that step. */
  lemma {:induction false} NewRunRecorded(c: Config, steps: seq<Step>, day: int, run: Run)
    requires ClockRuns(c, steps) && steps != []
    requires run in RunsOf(After(c, steps).journal, day) && run !in RunsOf(After(c, steps[..|steps| - 1]).journal, day)
    ensures RecordedBy(c, steps, |steps| - 1, run)
  {
    var front, last := steps[..|steps| - 1], steps[|steps| - 1];
    ClockPrefix(c, steps);
    BooksAlways(c, front);
    NewRunFits(c, After(c, front), last.e, day, run);
  }

  /**
   Every run in the journal was recorded by a poll that saw what the reason stands for, and is
   terminal exactly when that poll uses the slot up.
   */
  lemma {:induction false} EveryRunHasItsPoll(c: Config, steps: seq<Step>, day: int, run: Run)
    requires ClockRuns(c, steps) && run in RunsOf(After(c, steps).journal, day)
    ensures exists i: nat :: RecordedBy(c, steps, i, run)
  {
    var front := steps[..|steps| - 1];
    if run in RunsOf(After(c, front).journal, day) {
      ClockPrefix(c, steps);
      EveryRunHasItsPoll(c, front, day, run);
      var i: nat :| RecordedBy(c, front, i, run);
      RecordedEarlier(c, steps, i, run);
    } else {
      NewRunRecorded(c, steps, day, run);
    }
  }

  /** A reason that something which passes may be behind. */
  predicate Passing(reason: Reason) {
    || reason.SymbolSpecMissing? || reason.Environment? || reason.NoQuote? || reason.SpreadTooWide?
    || reason.NoRiskBudget? || reason.ExecutionException?
  }

  /**
   So the flag can be read off the reason: the slot stays open exactly after a missing symbol
   specification, an environment gate, a missing quote, a wide spread, an empty risk budget, a
   crash, the deferral of a signal, or a stale signal from before the slot.
   */
  lemma {:induction false} FlagFollowsReason(c: Config, steps: seq<Step>, day: int, run: Run)
    requires ClockRuns(c, steps) && run in RunsOf(After(c, steps).journal, day)
    ensures Passing(run.reason) ==> !run.terminal
    ensures !run.terminal ==> Passing(run.reason) || run.reason == Confirming(MicrostructureDeferred) || run.reason == Stale
  {
    EveryRunHasItsPoll(c, steps, day, run);
  }

  // ---------------------------------------------------------------- held back, then placed

  /** The poll is held back for something that passes, by a deferral or by a crash. */
  predicate HeldBack(c: Config, taken: int, e: Env, sig: Signal) {
    var g := e.gates;
    || Struck(c, taken, e, sig)
    || (Asked(c, taken, e, sig, 2) && g.symbolSpecMissing) || (Asked(c, taken, e, sig, 5) && PutOff(c, e, sig))
    || (Asked(c, taken, e, sig, 10) && g.environmentGate.Some?) || (Asked(c, taken, e, sig, 11) && g.quoteMissing)
    || (Asked(c, taken, e, sig, 14) && g.spreadTooWide) || (Asked(c, taken, e, sig, 15) && g.noRiskBudget)
  }

  /** A stale signal from before the slot, whose mark the state write does not disturb. */
  predicate StaleFromBefore(e: Env, sig: Signal) {
    TooOld(e, sig) && sig.time.value < e.slotStart && e.write != WriteValueError
  }

  predicate NoneTerminal(runs: seq<Run>) {
    forall i :: 0 <= i < |runs| ==> !runs[i].terminal
  }

  lemma {:induction false} HeldBackByReason(c: Config, taken: int, e: Env, sig: Signal, reason: Reason)
    requires StandsFor(c, taken, e, sig, reason) && !TooOld(e, sig)
    requires reason == ExecutionException ==> Struck(c, taken, e, sig)
    ensures !UsesSlotUp(c, e, sig, reason) <==> HeldBack(c, taken, e, sig)
  {
  }

  lemma {:induction false} FitRunsOpenIff(c: Config, taken: int, e: Env, slot: Slot, sig: Signal, runs: seq<Run>)
    requires RunsFit(c, taken, e, slot, sig, runs)
    ensures NoneTerminal(runs) <==> HeldBack(c, taken, e, sig) || StaleFromBefore(e, sig)
  {
    if TooOld(e, sig) {
      assert !HeldBack(c, taken, e, sig);
    } else {
      HeldBackByReason(c, taken, e, sig, runs[0].reason);
    }
  }

  lemma {:induction false} TerminalsAdd(journal: seq<Event>, more: seq<Event>, e: Env, slot: Slot, runs: seq<Run>)
    requires EventsOf(more, e, slot) && RunsOf(more, e.day) == runs && TerminalCount(journal, e.day, slot) == 0
    ensures TerminalCount(journal + more, e.day, slot) == 0 <==> NoneTerminal(runs)
  {
    TerminalCountConcat(journal, more, e.day, slot);
    TerminalsOfRuns(more, e, slot);
  }

  lemma {:induction false} TerminalsOfRuns(evs: seq<Event>, e: Env, slot: Slot)
    requires EventsOf(evs, e, slot)
    ensures TerminalCount(evs, e.day, slot) == 0 <==> NoneTerminal(RunsOf(evs, e.day))
  {
    if evs != [] {
      var front, last := evs[..|evs| - 1], evs[|evs| - 1];
      assert last in evs;
      TerminalsOfRuns(front, e, slot);
      var before, runs := RunsOf(front, e.day), RunsOf(evs, e.day);
      if last.kind.RiskResult? {
        assert runs == before + [RunOf(last)];
        assert runs[|before|] == RunOf(last) && forall i :: 0 <= i < |before| ==> runs[i] == before[i];
      } else {
        assert runs == before;
      }
    }
  }

  /** A working poll leaves its slot open if and only if it is held back or meets such a stale signal. */
  lemma {:induction false} SlotStaysOpenIff(c: Config, s: Bot, e: Env)
    requires Books(c, s) && Timely(s, e) && WorkSlot(s, e).Some?
    ensures s.file.Some?
    ensures TerminalCount(Iterate(c, s, e).journal, e.day, WorkSlot(s, e).value) == 0 <==>
            HeldBack(c, OrdersOn(s.orders, e.day), e, s.file.value) || StaleFromBefore(e, s.file.value)
  {
    ClearKeepsBooks(c, s, e);
    PollKeepsBooks(c, s, e);
    var slot, b := WorkSlot(s, e).value, ClearForDay(s, e.day);
    var runs := PollRunsFit(c, s, e);
    var evs := IterateShape(c, s, e);
    SameTail(b.runs, runs, RunsOf(evs, e.day));
    TerminalsAdd(s.journal, evs, e, slot, runs);
    FitRunsOpenIff(c, OrdersOn(s.orders, e.day), e, slot, s.file.value, runs);
  }

  /** Slot and clock let the signal at hand through: nothing terminal today, no attempt within 45 seconds. */
  lemma {:induction false} OpenSlotIsWorked(c: Config, s: Bot, e: Env, slot: Slot)
    requires Books(c, s) && Timely(s, e) && s.tradeDate == Some(e.day) && s.file.Some?
    requires !e.killSwitch && e.entrySlot == Some(slot) && TerminalCount(s.journal, e.day, slot) == 0
    requires slot in s.lastSeen && e.now - s.lastSeen[slot] >= 45 * SECOND
    ensures WorkSlot(s, e) == Some(slot)
  {
    ClearKeepsBooks(c, s, e);
    ClearIsOnDay(s, e.day);
    TerminalCountRuns(s.journal, e.day, slot);
  }

  /** What the later poll has to meet. */
  predicate ReadyToPlace(c: Config, s: Bot, e: Env) {
    && s.file.Some? && Live(e, s.file.value) && OrdersOn(s.orders, e.day) < c.maxTradesPerDay
    && SymbolOk(e.gates) && Admits(c, e, s.file.value) && GatesOpen(e.gates) && e.raiseBefore >= MARK_STAGE && Answered(e)
  }

  lemma {:induction false} LaterPollPlaces(c: Config, s: Bot, first: Env, file: Option<Signal>, later: Env)
    requires Books(c, s) && Timely(s, first) && WorkSlot(s, first).Some? && s.file.Some?
    requires HeldBack(c, OrdersOn(s.orders, first.day), first, s.file.value)
    requires var t := Iterate(c, s, first).(file := file); Timely(t, later) && ReadyToPlace(c, t, later)
    requires !later.killSwitch && later.entrySlot == WorkSlot(s, first) && later.day == first.day
    requires later.now - first.now >= 45 * SECOND
    ensures var t := Iterate(c, s, first).(file := file);
            Entries(Iterate(c, t, later).orders) ==
            Entries(t.orders) +
            [Entry(later.day, WorkSlot(s, first).value, file.value.id, later.now, if HalfRisk(c, later, file.value) then 0.5 else 1.0)]
  {
    var m, slot := Iterate(c, s, first), WorkSlot(s, first).value;
    var t := m.(file := file);
    PollKeepsBooks(c, s, first);
    SlotStaysOpenIff(c, s, first);
    RetryClock.WorkSetsClock(c, s, first);
    assert Books(c, t);
    OpenSlotIsWorked(c, t, later, slot);
    ClearKeepsBooks(c, t, later);
    assert Qualifies(c, t, later);
    StepAddsEntry(c, t, Poll(later));
    var orders := Iterate(c, t, later).orders;
    assert orders[..|orders| - 1] == t.orders;
  }

  /**
   A poll that is held back leaves the slot to the next: 45 seconds later, on whatever signal
   then stands in the file, a poll that meets the conditions of entry places the order.
   */
  lemma {:induction false} HeldBackThenPlaced(c: Config, steps: seq<Step>, first: Env, file: Option<Signal>, later: Env)
    requires ClockRuns(c, steps) && Timely(After(c, steps), first)
    requires var s := After(c, steps);
             && WorkSlot(s, first).Some? && s.file.Some?
             && HeldBack(c, OrdersOn(s.orders, first.day), first, s.file.value) && later.entrySlot == WorkSlot(s, first)
    requires !later.killSwitch && later.day == first.day && later.now - first.now >= 45 * SECOND
    requires var t := After(c, steps + [Poll(first), Publish(file)]); Timely(t, later) && ReadyToPlace(c, t, later)
    ensures Entries(After(c, steps + [Poll(first), Publish(file), Poll(later)]).orders) ==
            Entries(After(c, steps + [Poll(first)]).orders) +
            [Entry(later.day, later.entrySlot.value, file.value.id, later.now, if HalfRisk(c, later, file.value) then 0.5 else 1.0)]
  {
    var one, two := steps + [Poll(first)], steps + [Poll(first), Publish(file)];
    var three := steps + [Poll(first), Publish(file), Poll(later)];
    assert one[..|steps|] == steps && two[..|steps| + 1] == one && three[..|steps| + 2] == two;
    BooksAlways(c, steps);
    LaterPollPlaces(c, After(c, steps), first, file, later);
  }
}
