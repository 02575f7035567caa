/**
 The poll loop as the object that runs it: methods that change the risk state, the retry
 clock, the shared signal file and the journal in place, proved against `PollLoop.Iterate`.
 */
module BotOrchestration {
  import opened Trading
  import opened PollLoop

  class BotOrchestrator {
    const config: Config
    var tradeDate: Option<int>
    var tradesTaken: int
    var runs: seq<Run>
    var lastSignalId: map<Slot, string>
    var lastSignalSeen: map<Slot, int>
    var signalFile: Option<Signal>
    var journal: seq<Event>
    ghost var orders: seq<Order>
    ghost var deferrals: seq<Deferral>

    ghost function State(): Bot
      reads this
    {
      Bot(tradeDate, tradesTaken, runs, lastSignalId, lastSignalSeen, signalFile, journal, orders, deferrals)
    }

    constructor (config: Config)
      ensures this.config == config
      ensures State() == Bot(None, 0, [], map[], map[], None, [], [], [])
    {
      this.config := config;
      tradeDate, tradesTaken, runs := None, 0, [];
      lastSignalId, lastSignalSeen := map[], map[];
      signalFile, journal, orders, deferrals := None, [], [], [];
    }

    method ClearRunsForNewDay(day: int)
      modifies this
      ensures State() == ClearForDay(old(State()), day)
    {
      if tradeDate != Some(day) {
        tradeDate := Some(day);
        tradesTaken := 0;
        runs := [];
        lastSignalId := map[];
        lastSignalSeen := map[];
      }
      var existing := runs;
      var kept := [];
      for i := 0 to |existing|
        invariant kept == RunsOnDay(existing[..i], day)
        invariant State() == old(State()).(tradeDate := tradeDate, tradesTaken := tradesTaken, runs := existing,
                                           lastId := lastSignalId, lastSeen := lastSignalSeen)
        invariant tradeDate == Some(day)
        invariant old(tradeDate) == Some(day) ==>
          tradesTaken == old(tradesTaken) && existing == old(runs) &&
          lastSignalId == old(lastSignalId) && lastSignalSeen == old(lastSignalSeen)
        invariant old(tradeDate) != Some(day) ==>
          tradesTaken == 0 && existing == [] && lastSignalId == map[] && lastSignalSeen == map[]
      {
        assert existing[..i + 1][..i] == existing[..i];
        if existing[i].day == day {
          kept := kept + [existing[i]];
        }
      }
      assert existing[..|existing|] == existing;
      if |kept| != |existing| {
        runs := kept;
      } else {
        SameLengthSameRuns(existing, day);
      }
    }

    method SlotTerminalForToday(slot: Slot, day: int) returns (used: bool)
      modifies this
      ensures State() == ClearForDay(old(State()), day)
      ensures used <==> SlotTerminal(runs, slot, day)
    {
      ClearRunsForNewDay(day);
      for i := 0 to |runs|
        invariant State() == ClearForDay(old(State()), day)
        invariant forall k :: 0 <= k < i ==> !(runs[k].slot == slot && runs[k].day == day && runs[k].terminal)
      {
        if runs[i].slot == slot && runs[i].day == day && runs[i].terminal {
          return true;
        }
      }
      return false;
    }

    method MarkSlotUsed(e: Env, slot: Slot, sig: Signal, action: Action, reason: Reason, terminal: bool, counter: bool)
      modifies this
      ensures State() == Mark(old(State()), e, slot, sig, action, reason, terminal, counter)
    {
      ClearRunsForNewDay(e.day);
      runs := runs + [Run(e.day, slot, sig.id, reason, action, terminal, counter)];
      ghost var before := journal;
      JournalEvent(e, RiskResult, slot, None, sig, action, reason, terminal, counter);
      if terminal && reason != OrderPlaced && action.Directional() {
        JournalEvent(e, BlockedCandidate, slot, sig.window, sig, action, reason, true, counter);
      }
      assert journal == before + RunEvents(e, slot, sig.window, runs[|runs| - 1]);
      lastSignalId := lastSignalId[slot := sig.id];
    }

    method JournalEvent(e: Env, kind: Kind, slot: Slot, window: Option<Slot>, sig: Signal, action: Action,
                        reason: Reason, terminal: bool, counter: bool)
      modifies this`journal
      ensures journal == old(journal) +
                         [Event(kind, e.stamp, e.day, slot, window, sig.id, reason, action, terminal, counter)]
    {
      journal := journal + [Event(kind, e.stamp, e.day, slot, window, sig.id, reason, action, terminal, counter)];
    }

    method PersistInlineConfirm(e: Env, slot: Slot, sig: Signal, k: Confirm)
      modifies this`signalFile, this`deferrals
      ensures State() == AfterPersist(old(State()), e, slot, sig, k)
    {
      match e.persist {
        case LeftUnchanged =>
        case Truncated => signalFile := None;
        case Written =>
          signalFile := Some(Merged(sig, k));
          if k.reason.MicrostructureDeferred? {
            deferrals := deferrals + [Deferral(e.day, slot, sig.id, e.now)];
          }
      }
    }

    /** One pass of the loop body, from the kill switch to the last `continue`. */
    method PollOnce(e: Env)
      modifies this
      ensures State() == Iterate(config, old(State()), e)
    {
      if e.killSwitch {
        return;
      }
      if signalFile.None? {
        return;
      }
      var sig := signalFile.value;
      var slot := e.entrySlot;
      var grace := false;
      if slot.None? {
        if sig.WasDeferred() && e.graceWindow.Some? {
          slot := e.graceWindow;
          grace := true;
        }
      }
      if slot.None? {
        return;
      }
      var used := SlotTerminalForToday(slot.value, e.day);
      if used {
        return;
      }
      if !ShouldRetrySignalInSlot(slot.value, sig.id, e.now) {
        return;
      }
      lastSignalId := lastSignalId[slot.value := sig.id];
      lastSignalSeen := lastSignalSeen[slot.value := e.now];
      ProcessSignal(e, slot.value, grace, sig);
    }

    predicate ShouldRetrySignalInSlot(slot: Slot, id: string, now: int)
      reads this
      ensures !ShouldRetrySignalInSlot(slot, id, now) ==>
                && id != "" && slot in lastSignalId && lastSignalId[slot] == id
                && slot in lastSignalSeen && now < lastSignalSeen[slot] + RETRY_BACKOFF
    {
      if id == "" || slot !in lastSignalId || id != lastSignalId[slot] then true
      else if slot !in lastSignalSeen then true
      else now - lastSignalSeen[slot] >= RETRY_BACKOFF
    }

    method ProcessSignal(e: Env, slot: Slot, grace: bool, sig: Signal)
      modifies this
      ensures State() == Process(config, old(State()), e, slot, grace, sig)
    {
      if !sig.action.Directional() {
        MarkSlotUsed(e, slot, sig, sig.action, Hold, true, false);
        return;
      }
      JournalEvent(e, SignalDecision, slot, sig.window, sig, sig.action, Hold, false, false);
      if sig.time.None? {
        MarkSlotUsed(e, slot, sig, sig.action, InvalidSignalTimestamp, true, false);
        return;
      }
      if e.now - sig.time.value > e.ageLimit * SECOND {
        MarkSlotUsed(e, slot, sig, sig.action, Stale, sig.time.value >= e.slotStart, false);
        if e.write.WriteValueError? {
          MarkSlotUsed(e, slot, sig, sig.action, InvalidSignalTimestamp, true, false);
        }
        return;
      }
      AttemptEntry(e, slot, grace, sig);
    }

    /** The part of the iteration inside the big try block. */
    method AttemptEntry(e: Env, slot: Slot, grace: bool, sig: Signal)
      modifies this
      ensures State() == Attempt(config, old(State()), e, slot, grace, sig)
    {
      ClearRunsForNewDay(e.day);
      var pass := ConfirmStage(config, e, sig, grace);
      RunToExit(e, slot, sig, pass, FirstExit(config, tradesTaken, e, pass));
    }

    /**
     Every exit of the block records one run and continues; an exception raised before the
     exit pre-empts it and is recorded by the handler.
     */
    method RunToExit(e: Env, slot: Slot, sig: Signal, pass: Pass, exit: Exit)
      modifies this
      ensures State() == Conclude(old(State()), e, slot, sig, pass, exit)
    {
      if e.raiseBefore <= exit.stage {
        RunStages(e, slot, sig, pass, e.raiseBefore - 1);
        RecordCrash(e, slot, sig, TradedAction(sig, pass, e.raiseBefore - 1));
      } else {
        RunStages(e, slot, sig, pass, exit.stage);
        RecordExit(e, slot, sig, TradedAction(sig, pass, exit.stage), exit, CounterMark(e, pass, exit.stage));
      }
    }

    method RecordCrash(e: Env, slot: Slot, sig: Signal, action: Action)
      modifies this
      ensures State() == Crash(old(State()), e, slot, sig, action)
    {
      MarkSlotUsed(e, slot, sig, action, ExecutionException, false, false);
    }

    /** A state write that fails after the exit was recorded adds the handler's run. */
    method RecordExit(e: Env, slot: Slot, sig: Signal, action: Action, exit: Exit, counter: bool)
      modifies this
      ensures State() == Leave(old(State()), e, slot, sig, action, exit, counter)
    {
      MarkSlotUsed(e, slot, sig, action, exit.reason, exit.terminal, counter);
      if !e.write.WriteOk? {
        RecordCrash(e, slot, sig, action);
      }
    }

    /** What the stages up to `last` change: the signal file, the journal, the trade count. */
    method RunStages(e: Env, slot: Slot, sig: Signal, pass: Pass, last: int)
      modifies this
      ensures State() == Effects(old(State()), e, slot, sig, pass, last)
    {
      RunConfirmStages(e, slot, sig, pass, last);
      if last >= PLACE_STAGE && Accepted(e) {
        ClearRunsForNewDay(e.day);
        tradesTaken := tradesTaken + 1;
        orders := orders + [Order(e.day, slot, sig.id, e.now, pass.Soft(), if pass.Soft() then SOFT_RISK_MULTIPLIER else 1.0, |journal|)];
      }
    }

    method RunConfirmStages(e: Env, slot: Slot, sig: Signal, pass: Pass, last: int)
      modifies this
      ensures State() == ConfirmEffects(old(State()), e, slot, sig, pass, last)
    {
      if last >= DEFER_STAGE && pass.confirm.Some? {
        PersistInlineConfirm(e, slot, sig, pass.confirm.value);
      }
      if last >= VETO_STAGE && !pass.verdict.status.Confirmed? {
        if pass.countered {
          JournalEvent(e, CounterCandidate, slot, sig.window, sig, sig.action.Flip(), Confirming(pass.verdict.reason), false, false);
        } else {
          JournalEvent(e, ConfirmVeto, slot, sig.window, sig, sig.action, Confirming(pass.verdict.reason), false, false);
        }
      }
    }
  }

  lemma {:induction false} SameLengthSameRuns(runs: seq<Run>, day: int)
    ensures |RunsOnDay(runs, day)| <= |runs|
    ensures |RunsOnDay(runs, day)| == |runs| ==> RunsOnDay(runs, day) == runs
  {
    if runs != [] {
      SameLengthSameRuns(runs[..|runs| - 1], day);
    }
  }
}
