/**
 Ledger and bot in terms of what the polls see: which poll files a line astray, and exactly
 when the ledger agrees with the bot through a whole run.
 */
module LedgerAgreement {
  import opened Trading
  import opened PollLoop
  import opened PollSafety
  import opened PollRuns
  import opened DecisionLedger

  // ---------------------------------------------------------------- the blocked line of a poll

  /** The blocked-candidate line of a run that ends terminally without an order. */
  function Line(e: Env, slot: Slot, sig: Signal, reason: Reason, action: Action, counter: bool): Event {
    Event(BlockedCandidate, e.stamp, e.day, slot, sig.window, sig.id, reason, action, true, counter)
  }

  /** The last blocked-candidate line a poll on a slot writes, told from what the poll sees. */
  function BlockedLine(c: Config, s: Bot, e: Env, slot: Slot, sig: Signal): Option<Event> {
    var exit := FirstExit(c, s.tradesTaken, e, ConfirmStage(c, e, sig, e.entrySlot.None?));
    if !sig.action.Directional() then None
    else if sig.time.None? then Some(Line(e, slot, sig, InvalidSignalTimestamp, sig.action, false))
    else if e.now - sig.time.value > e.ageLimit * SECOND then
      if e.write.WriteValueError? then Some(Line(e, slot, sig, InvalidSignalTimestamp, sig.action, false))
      else if sig.time.value >= e.slotStart then Some(Line(e, slot, sig, Stale, sig.action, false))
      else None
    else if exit.terminal && exit.reason != OrderPlaced && e.raiseBefore > exit.stage then
      var pass := ConfirmStage(c, e, sig, e.entrySlot.None?);
      Some(Line(e, slot, sig, exit.reason, TradedAction(sig, pass, exit.stage), CounterMark(e, pass, exit.stage)))
    else None
  }

  /** The last blocked-candidate line after the first `n` lines. */
  function LastBlock(journal: seq<Event>, n: nat): Option<Event> {
    if |journal| <= n then None
    else
      var last := journal[|journal| - 1];
      if last.kind.BlockedCandidate? then Some(last) else LastBlock(journal[..|journal| - 1], n)
  }

  lemma {:induction false} LastBlockAppend(journal: seq<Event>, ev: Event, n: nat)
    requires n <= |journal|
    ensures LastBlock(journal + [ev], n) == if ev.kind.BlockedCandidate? then Some(ev) else LastBlock(journal, n)
  {
    assert (journal + [ev])[..|journal|] == journal;
  }

  lemma {:induction false} MarkBlocks(s: Bot, e: Env, slot: Slot, sig: Signal, action: Action, reason: Reason, terminal: bool, counter: bool, n: nat)
    requires n <= |s.journal|
    ensures var t := Mark(s, e, slot, sig, action, reason, terminal, counter);
            && n <= |t.journal|
            && LastBlock(t.journal, n) ==
               if terminal && reason != OrderPlaced && action.Directional() then Some(Line(e, slot, sig, reason, action, counter))
               else LastBlock(s.journal, n)
  {
    var run := Run(e.day, slot, sig.id, reason, action, terminal, counter);
    var evs := RunEvents(e, slot, sig.window, run);
    LastBlockAppend(s.journal, evs[0], n);
    if |evs| > 1 {
      LastBlockAppend(s.journal + [evs[0]], evs[1], n);
      assert s.journal + [evs[0]] + [evs[1]] == s.journal + evs;
    } else {
      assert [evs[0]] == evs;
    }
  }

  lemma {:induction false} ConfirmBlocks(s: Bot, e: Env, slot: Slot, sig: Signal, pass: Pass, last: int, n: nat)
    requires n <= |s.journal|
    ensures var t := ConfirmEffects(s, e, slot, sig, pass, last);
            n <= |t.journal| && LastBlock(t.journal, n) == LastBlock(s.journal, n)
  {
    var kind := if pass.countered then CounterCandidate else ConfirmVeto;
    var action := if pass.countered then sig.action.Flip() else sig.action;
    var ev := Event(kind, e.stamp, e.day, slot, sig.window, sig.id, Confirming(pass.verdict.reason), action, false, false);
    LastBlockAppend(s.journal, ev, n);
    assert ConfirmEffects(s, e, slot, sig, pass, last).journal == s.journal ||
           ConfirmEffects(s, e, slot, sig, pass, last).journal == s.journal + [ev];
  }

  lemma {:induction false} EffectsBlock(s: Bot, e: Env, slot: Slot, sig: Signal, pass: Pass, last: int, n: nat)
    requires n <= |s.journal|
    ensures var t := Effects(s, e, slot, sig, pass, last);
            n <= |t.journal| && LastBlock(t.journal, n) == LastBlock(s.journal, n)
  {
    ConfirmBlocks(s, e, slot, sig, pass, last, n);
    assert Effects(s, e, slot, sig, pass, last).journal == ConfirmEffects(s, e, slot, sig, pass, last).journal;
  }

  lemma {:induction false} ConcludeBlocks(s: Bot, e: Env, slot: Slot, sig: Signal, pass: Pass, exit: Exit, n: nat)
    requires n <= |s.journal| && sig.action.Directional()
    ensures LastBlock(Conclude(s, e, slot, sig, pass, exit).journal, n) ==
            if exit.terminal && exit.reason != OrderPlaced && e.raiseBefore > exit.stage
            then Some(Line(e, slot, sig, exit.reason, TradedAction(sig, pass, exit.stage), CounterMark(e, pass, exit.stage)))
            else LastBlock(s.journal, n)
  {
    var raised := e.raiseBefore <= exit.stage;
    var last := if raised then e.raiseBefore - 1 else exit.stage;
    var m, action := Effects(s, e, slot, sig, pass, last), TradedAction(sig, pass, last);
    EffectsBlock(s, e, slot, sig, pass, last, n);
    if raised {
      MarkBlocks(m, e, slot, sig, action, ExecutionException, false, false, n);
    } else {
      LeaveBlocks(m, e, slot, sig, action, exit, CounterMark(e, pass, exit.stage), n);
    }
  }

  lemma {:induction false} LeaveBlocks(s: Bot, e: Env, slot: Slot, sig: Signal, action: Action, exit: Exit, counter: bool, n: nat)
    requires n <= |s.journal| && action.Directional()
    ensures LastBlock(Leave(s, e, slot, sig, action, exit, counter).journal, n) ==
            if exit.terminal && exit.reason != OrderPlaced then Some(Line(e, slot, sig, exit.reason, action, counter))
            else LastBlock(s.journal, n)
  {
    MarkBlocks(s, e, slot, sig, action, exit.reason, exit.terminal, counter, n);
    MarkBlocks(Mark(s, e, slot, sig, action, exit.reason, exit.terminal, counter), e, slot, sig, action, ExecutionException, false, false, n);
  }

  lemma {:induction false} ProcessBlocks(c: Config, s: Bot, e: Env, slot: Slot, sig: Signal)
    requires OnDay(s, e.day)
    ensures LastBlock(Process(c, s, e, slot, e.entrySlot.None?, sig).journal, |s.journal|) == BlockedLine(c, s, e, slot, sig)
  {
    var n := |s.journal|;
    if !sig.action.Directional() {
      MarkBlocks(s, e, slot, sig, sig.action, Hold, true, false, n);
    } else {
      var s1 := Note(s, e, SignalDecision, slot, sig, sig.action, Hold);
      LastBlockAppend(s.journal, s1.journal[n], n);
      var t := DirectionalBlocks(c, s1, e, slot, sig, n);
    }
  }

  lemma {:induction false} DirectionalBlocks(c: Config, s: Bot, e: Env, slot: Slot, sig: Signal, n: nat) returns (t: Bot)
    requires OnDay(s, e.day) && sig.action.Directional() && n <= |s.journal| && LastBlock(s.journal, n) == None
    ensures t == if sig.time.None? then Mark(s, e, slot, sig, sig.action, InvalidSignalTimestamp, true, false)
                 else if e.now - sig.time.value > e.ageLimit * SECOND then AfterStale(s, e, slot, sig)
                 else Attempt(c, s, e, slot, e.entrySlot.None?, sig)
    ensures LastBlock(t.journal, n) == BlockedLine(c, s, e, slot, sig)
  {
    if sig.time.None? {
      t := Mark(s, e, slot, sig, sig.action, InvalidSignalTimestamp, true, false);
      MarkBlocks(s, e, slot, sig, sig.action, InvalidSignalTimestamp, true, false, n);
    } else if e.now - sig.time.value > e.ageLimit * SECOND {
      t := AfterStale(s, e, slot, sig);
      StaleBlocks(s, e, slot, sig, n);
    } else {
      ClearKeeps(s, e.day);
      var pass := ConfirmStage(c, e, sig, e.entrySlot.None?);
      var exit := FirstExit(c, s.tradesTaken, e, pass);
      t := Conclude(s, e, slot, sig, pass, exit);
      ConcludeBlocks(s, e, slot, sig, pass, exit, n);
    }
  }

  lemma {:induction false} StaleBlocks(s: Bot, e: Env, slot: Slot, sig: Signal, n: nat)
    requires sig.action.Directional() && n <= |s.journal| && sig.time.Some?
    ensures LastBlock(AfterStale(s, e, slot, sig).journal, n) ==
            if e.write.WriteValueError? then Some(Line(e, slot, sig, InvalidSignalTimestamp, sig.action, false))
            else if sig.time.value >= e.slotStart then Some(Line(e, slot, sig, Stale, sig.action, false))
            else LastBlock(s.journal, n)
  {
    var terminal := sig.time.value >= e.slotStart;
    MarkBlocks(s, e, slot, sig, sig.action, Stale, terminal, false, n);
    MarkBlocks(Mark(s, e, slot, sig, sig.action, Stale, terminal, false), e, slot, sig, sig.action, InvalidSignalTimestamp, true, false, n);
  }

  // ---------------------------------------------------------------- polls that file astray

  /** The line a poll files under another slot than the one it works on. */
  function StrayLine(c: Config, s: Bot, e: Env): Option<Event> {
    if WorkSlot(s, e).None? then None
    else
      var slot, sig := WorkSlot(s, e).value, s.file.value;
      if sig.window.None? || sig.window.value == slot then None
      else BlockedLine(c, ClearForDay(s, e.day), e, slot, sig)
  }

  /** What a poll adds to a journal, as far as the fold of a window is concerned. */
  ghost predicate Adds(c: Config, s: Bot, t: Bot, e: Env, slot: Slot, evs: seq<Event>) {
    && t.journal == s.journal + evs && EventsOf(evs, e, slot) && Paired(evs)
    && s.file.Some? && Labelled(evs, s.file.value.window)
    && LastBlock(t.journal, |s.journal|) == BlockedLine(c, ClearForDay(s, e.day), e, slot, s.file.value)
  }

  lemma {:induction false} PollAdds(c: Config, s: Bot, e: Env) returns (evs: seq<Event>)
    requires WorkSlot(s, e).Some?
    ensures Adds(c, s, Iterate(c, s, e), e, WorkSlot(s, e).value, evs)
    ensures Iterate(c, s, e).tradeDate == Some(e.day)
    ensures Iterate(c, s, e).runs == ClearForDay(s, e.day).runs + RunsOf(evs, e.day)
  {
    evs := IterateShape(c, s, e);
    ClearIsOnDay(s, e.day);
    IterateWorks(c, s, e);
    var b, slot, sig := ClearForDay(s, e.day), WorkSlot(s, e).value, s.file.value;
    ProcessBlocks(c, Track(b, slot, sig.id, e.now), e, slot, sig);
  }

  /** The last line among new ones that decides another slot's window. */
  lemma {:induction false} StrayDecides(journal: seq<Event>, evs: seq<Event>, e: Env, slot: Slot, window: Option<Slot>, since: int, other: Slot)
    requires EventsOf(evs, e, slot) && Labelled(evs, window) && e.stamp >= since && other != slot
    requires forall ev :: ev in evs ==> !ev.kind.PatternGateBlock? && (ev.kind.RiskResult? ==> ev.window == None)
    ensures var block := LastBlock(journal + evs, |journal|);
            LastDeciding(journal + evs, since, (e.day, other)) ==
            if window == Some(other) && block.Some? then block else LastDeciding(journal, since, (e.day, other))
  {
    if evs == [] {
      assert journal + evs == journal;
    } else {
      var front, last := evs[..|evs| - 1], evs[|evs| - 1];
      assert last in evs && forall ev :: ev in front ==> ev in evs;
      assert (journal + evs)[..|journal + evs| - 1] == journal + front;
      StrayDecides(journal, front, e, slot, window, since, other);
    }
  }

  /** Among new lines of a slot, one that decides the slot's own window, or none that is terminal. */
  lemma {:induction false} OwnDecides(journal: seq<Event>, evs: seq<Event>, e: Env, slot: Slot, since: int)
    requires EventsOf(evs, e, slot) && e.stamp >= since
    requires forall ev :: ev in evs && ev.kind.RiskResult? ==> ev.window == None
    ensures var line := LastDeciding(journal + evs, since, (e.day, slot));
            || (line.Some? && line.value.slot == slot)
            || (line == LastDeciding(journal, since, (e.day, slot)) && forall r :: r in RunsOf(evs, e.day) ==> !r.terminal)
  {
    if evs == [] {
      assert journal + evs == journal;
    } else {
      var front, last := evs[..|evs| - 1], evs[|evs| - 1];
      assert last in evs && forall ev :: ev in front ==> ev in evs;
      assert (journal + evs)[..|journal + evs| - 1] == journal + front;
      OwnDecides(journal, front, e, slot, since);
    }
  }

  // ---------------------------------------------------------------- one poll

  /** A stray line does no harm to a window that was traded or last blocked for the same reason. */
  ghost predicate Harmless(c: Config, s: Bot, e: Env) {
    var line := StrayLine(c, s, e);
    line.Some? ==>
      var runs, other := ClearForDay(s, e.day).runs, s.file.value.window.value;
      OrderRun(runs, other) || RepeatsLast(runs, other, line.value)
  }

  /** For every slot of the day nothing in the journal decides against the record. */
  ghost predicate AgreesOn(journal: seq<Event>, since: int, day: int) {
    forall slot :: Agrees(journal, since, day, slot)
  }

  lemma {:induction false} NothingFiled(journal: seq<Event>, since: int, day: int, slot: Slot)
    requires forall ev :: ev in journal ==> ev.day < day
    ensures LastDeciding(journal, since, (day, slot)) == None
  {
    if journal != [] {
      assert journal[|journal| - 1] in journal;
      NothingFiled(journal[..|journal| - 1], since, day, slot);
    }
  }

  /** Rolling over to the day of a poll keeps the agreement: a new day starts empty. */
  lemma {:induction false} AgreesAtRollOver(c: Config, s: Bot, e: Env, since: int)
    requires Books(c, s) && Timely(s, e)
    requires s.tradeDate.Some? ==> AgreesOn(s.journal, since, s.tradeDate.value)
    ensures AgreesOn(s.journal, since, e.day) && ClearForDay(s, e.day).runs == RunsOf(s.journal, e.day)
  {
    ClearKeepsBooks(c, s, e);
    if s.tradeDate != Some(e.day) {
      forall slot ensures Agrees(s.journal, since, e.day, slot) {
        NothingFiled(s.journal, since, e.day, slot);
      }
    }
  }

  /** Runs of one slot leave what the list says about another slot alone. */
  lemma {:induction false} OtherRunsApart(runs: seq<Run>, more: seq<Run>, slot: Slot)
    requires forall r :: r in more ==> r.slot != slot
    ensures OrderRun(runs + more, slot) <==> OrderRun(runs, slot)
    ensures LastTerminal(runs + more, slot) == LastTerminal(runs, slot)
  {
    forall r ensures r in runs + more <==> r in runs || r in more {}
    if more == [] {
      assert runs + more == runs;
    } else {
      assert (runs + more)[..|runs + more| - 1] == runs + more[..|more| - 1];
      assert more[|more| - 1] in more;
      OtherRunsApart(runs, more[..|more| - 1], slot);
    }
  }

  lemma {:induction false} OpenRunsAdd(runs: seq<Run>, more: seq<Run>, slot: Slot)
    requires forall r :: r in more ==> !r.terminal
    ensures OrderRun(runs, slot) ==> OrderRun(runs + more, slot)
    ensures LastTerminal(runs + more, slot) == LastTerminal(runs, slot)
  {
    forall r ensures r in runs + more <==> r in runs || r in more {}
    if more == [] {
      assert runs + more == runs;
    } else {
      assert (runs + more)[..|runs + more| - 1] == runs + more[..|more| - 1];
      assert more[|more| - 1] in more;
      OpenRunsAdd(runs, more[..|more| - 1], slot);
    }
  }

  lemma {:induction false} RunsOfSlot(evs: seq<Event>, e: Env, slot: Slot)
    requires EventsOf(evs, e, slot)
    ensures forall r :: r in RunsOf(evs, e.day) ==> r.slot == slot
  {
    if evs != [] {
      assert evs[|evs| - 1] in evs;
      RunsOfSlot(evs[..|evs| - 1], e, slot);
    }
  }

  /** The slot a poll works on keeps its agreement. */
  lemma {:induction false} OwnSlotAgrees(journal: seq<Event>, evs: seq<Event>, e: Env, slot: Slot, since: int)
    requires EventsOf(evs, e, slot) && Paired(evs) && e.stamp >= since && Agrees(journal, since, e.day, slot)
    ensures Agrees(journal + evs, since, e.day, slot)
  {
    RunsOfConcat(journal, evs, e.day);
    OwnDecides(journal, evs, e, slot, since);
    var line := LastDeciding(journal + evs, since, (e.day, slot));
    if !(line.Some? && line.value.slot == slot) {
      OpenRunsAdd(RunsOf(journal, e.day), RunsOf(evs, e.day), slot);
    }
  }

  /** Another slot keeps its agreement exactly when the poll files nothing harmful there. */
  lemma {:induction false} OtherSlotAgreesIff(journal: seq<Event>, evs: seq<Event>, e: Env, slot: Slot, window: Option<Slot>, since: int, other: Slot)
    requires EventsOf(evs, e, slot) && Labelled(evs, window) && Paired(evs) && e.stamp >= since && other != slot
    requires Agrees(journal, since, e.day, other)
    ensures var block, runs := LastBlock(journal + evs, |journal|), RunsOf(journal, e.day);
            Agrees(journal + evs, since, e.day, other) <==>
            (window == Some(other) && block.Some? ==> OrderRun(runs, other) || RepeatsLast(runs, other, block.value))
  {
    RunsOfConcat(journal, evs, e.day);
    RunsOfSlot(evs, e, slot);
    OtherRunsApart(RunsOf(journal, e.day), RunsOf(evs, e.day), other);
    StrayDecides(journal, evs, e, slot, window, since, other);
    BlockIsNew(journal, evs, e, slot);
  }

  lemma {:induction false} BlockIsNew(journal: seq<Event>, evs: seq<Event>, e: Env, slot: Slot)
    requires EventsOf(evs, e, slot)
    ensures var block := LastBlock(journal + evs, |journal|); block.Some? ==> block.value.slot == slot
  {
    if evs == [] {
      assert journal + evs == journal;
    } else {
      assert evs[|evs| - 1] in evs;
      assert (journal + evs)[..|journal + evs| - 1] == journal + evs[..|evs| - 1];
      BlockIsNew(journal, evs[..|evs| - 1], e, slot);
    }
  }

  /** One poll keeps the agreement if and only if the line it files astray, if any, is harmless. */
  lemma {:induction false} PollAgreesIff(c: Config, s: Bot, e: Env, since: int)
    requires Books(c, s) && Timely(s, e) && e.stamp >= since
    requires s.tradeDate.Some? ==> AgreesOn(s.journal, since, s.tradeDate.value)
    ensures var t := Iterate(c, s, e);
            (t.tradeDate.Some? ==> AgreesOn(t.journal, since, t.tradeDate.value)) <==> Harmless(c, s, e)
  {
    if WorkSlot(s, e).None? {
      RestKeepsAgreement(c, s, e, since);
    } else {
      WorkAgreesIff(c, s, e, since);
    }
  }

  /** A poll that works on no slot at most rolls the day over. */
  lemma {:induction false} RestKeepsAgreement(c: Config, s: Bot, e: Env, since: int)
    requires Books(c, s) && Timely(s, e) && WorkSlot(s, e).None?
    requires s.tradeDate.Some? ==> AgreesOn(s.journal, since, s.tradeDate.value)
    ensures var t := Iterate(c, s, e); t.tradeDate.Some? ==> AgreesOn(t.journal, since, t.tradeDate.value)
  {
    IterateRests(c, s, e);
    AgreesAtRollOver(c, s, e, since);
    ClearIsOnDay(s, e.day);
  }

  lemma {:induction false} WorkAgreesIff(c: Config, s: Bot, e: Env, since: int)
    requires Books(c, s) && Timely(s, e) && e.stamp >= since && WorkSlot(s, e).Some?
    requires s.tradeDate.Some? ==> AgreesOn(s.journal, since, s.tradeDate.value)
    ensures Iterate(c, s, e).tradeDate == Some(e.day)
    ensures AgreesOn(Iterate(c, s, e).journal, since, e.day) <==> Harmless(c, s, e)
  {
    AgreesAtRollOver(c, s, e, since);
    var evs := PollAdds(c, s, e);
    SlotsAgreeIff(s.journal, evs, e, WorkSlot(s, e).value, s.file.value.window, since);
  }

  lemma {:induction false} SlotsAgreeIff(journal: seq<Event>, evs: seq<Event>, e: Env, slot: Slot, window: Option<Slot>, since: int)
    requires EventsOf(evs, e, slot) && Labelled(evs, window) && Paired(evs) && e.stamp >= since
    requires AgreesOn(journal, since, e.day)
    ensures var block, runs := LastBlock(journal + evs, |journal|), RunsOf(journal, e.day);
            AgreesOn(journal + evs, since, e.day) <==>
            (window.Some? && window.value != slot && block.Some? ==>
               OrderRun(runs, window.value) || RepeatsLast(runs, window.value, block.value))
  {
    var block, runs := LastBlock(journal + evs, |journal|), RunsOf(journal, e.day);
    assert Agrees(journal, since, e.day, slot);
    OwnSlotAgrees(journal, evs, e, slot, since);
    forall other | other != slot
      ensures Agrees(journal + evs, since, e.day, other) <==>
              (window == Some(other) && block.Some? ==> OrderRun(runs, other) || RepeatsLast(runs, other, block.value))
    {
      assert Agrees(journal, since, e.day, other);
      OtherSlotAgreesIff(journal, evs, e, slot, window, since, other);
    }
  }

  // ---------------------------------------------------------------- whole runs

  /** The report agrees with the bot's list of the current day, slot by slot. */
  ghost predicate LedgerRight(s: Bot, since: int) {
    s.tradeDate.Some? ==>
      forall slot :: LedgerSays(s.journal, since, s.tradeDate.value, slot) == BotFinding(s.runs, slot)
  }

  /** In the state after the run and in every state before. */
  ghost predicate RightThroughout(c: Config, steps: seq<Step>, since: int) {
    LedgerRight(After(c, steps), since) && (steps == [] || RightThroughout(c, steps[..|steps| - 1], since))
  }

  ghost predicate AllHarmless(c: Config, steps: seq<Step>) {
    steps == [] ||
    (var front, last := steps[..|steps| - 1], steps[|steps| - 1];
     AllHarmless(c, front) && (last.Poll? ==> Harmless(c, After(c, front), last.e)))
  }

  ghost predicate StampedFrom(steps: seq<Step>, since: int) {
    forall step :: step in steps && step.Poll? ==> step.e.stamp >= since
  }

  lemma {:induction false} JournalStampedFrom(c: Config, steps: seq<Step>, since: int)
    requires StampedFrom(steps, since)
    ensures forall ev :: ev in After(c, steps).journal ==> ev.stamp >= since
  {
    if steps != [] {
      var front, last := steps[..|steps| - 1], steps[|steps| - 1];
      assert last in steps && forall step :: step in front ==> step in steps;
      JournalStampedFrom(c, front, since);
      if last.Poll? {
        var s := After(c, front);
        var evs := IterateShape(c, s, last.e);
        ClearIsOnDay(s, last.e.day);
      }
    }
  }

  lemma {:induction false} RightIffAgrees(c: Config, steps: seq<Step>, since: int)
    requires ClockRuns(c, steps) && StampedFrom(steps, since)
    ensures var s := After(c, steps);
            LedgerRight(s, since) <==> (s.tradeDate.Some? ==> AgreesOn(s.journal, since, s.tradeDate.value))
  {
    var s := After(c, steps);
    JournalStampedFrom(c, steps, since);
    if s.tradeDate.Some? {
      forall slot
        ensures LedgerSays(s.journal, since, s.tradeDate.value, slot) == BotFinding(s.runs, slot) <==>
                Agrees(s.journal, since, s.tradeDate.value, slot)
      {
        LedgerAgreesWithBot(c, steps, since, s.tradeDate.value, slot);
      }
    }
  }

  /**
   Through a whole run the ledger agrees with the bot after every step if and only if every
   poll that ends terminally without an order, on a signal labelled for another window, finds
   that window traded or last blocked for the same reason.
   */
  lemma {:induction false} LedgerRightIff(c: Config, steps: seq<Step>, since: int)
    requires ClockRuns(c, steps) && StampedFrom(steps, since)
    ensures RightThroughout(c, steps, since) <==> AllHarmless(c, steps)
  {
    RightIffAgrees(c, steps, since);
    if steps != [] {
      var front, last := steps[..|steps| - 1], steps[|steps| - 1];
      assert last in steps && forall step :: step in front ==> step in steps;
      ClockPrefix(c, steps);
      BooksAlways(c, front);
      LedgerRightIff(c, front, since);
      RightIffAgrees(c, front, since);
      if last.Poll? && LedgerRight(After(c, front), since) {
        PollAgreesIff(c, After(c, front), last.e, since);
      }
    }
  }
}
