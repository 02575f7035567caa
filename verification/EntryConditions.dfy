/**
 Exactly when a position is opened, over whole runs: the orders of a run are the polls that
 meet the conditions of the whole chain from the kill switch to the executor, free of the
 order in which the loop asks for them.
 */
module EntryConditions {
  import opened Trading
  import opened PollLoop
  import opened PollSafety
  import opened PollRuns
  import opened DeferralProtocol
  import Rounding

  // ---------------------------------------------------------------- the confirm pass

  /** A quote whose rounded spread is positive and within the confirm limit. */
  predicate QuoteFits(c: Config, e: Env) {
    e.quote.Some? && 0.0 < Rounding.Round(e.quote.value.ask - e.quote.value.bid, 10_000) <= c.confirmSpreadMax
  }

  /** The age in whole seconds is within the limit; a time in the future counts as age zero. */
  predicate WithinAge(now: int, time: int, maxAge: int) {
    0 <= maxAge && now - time < (maxAge + 1) * SECOND
  }

  /** A directional signal, dated and young enough, on a good quote outside news. */
  predicate Readable(c: Config, e: Env, sig: Signal, ageOverride: Option<int>) {
    && sig.action != NoAction && !sig.inputHardBlocker && QuoteFits(c, e) && e.newsClear
    && sig.time.Some?
    && (WithinAge(e.now, sig.time.value, c.signalMaxAge) || (ageOverride.Some? && WithinAge(e.now, sig.time.value, ageOverride.value)))
  }

  /** Trend or shadow signal point the other way. */
  predicate Against(action: Action, trend: Trend, shadow: Action) {
    || (action == Buy && (trend == Bearish || shadow == Sell))
    || (action == Sell && (trend == Bullish || shadow == Buy))
  }

  /** Confident at 0.60, the models in agreement, and with an id to come back to. */
  predicate Strong(sig: Signal) {
    sig.action != NoAction && sig.id != "" && !sig.inputHardBlocker && sig.confidence >= 0.60 && sig.aligned
  }

  /** The signal carries the marks of an earlier deferral. */
  predicate Marked(sig: Signal) {
    sig.deferred || sig.deferCount > 0
  }

  /** Confirmable: unopposed by the microstructure, or strong and deferred before. */
  predicate Confirmable(c: Config, e: Env, sig: Signal, ageOverride: Option<int>) {
    Readable(c, e, sig, ageOverride) && (Against(sig.action, e.trend, e.shadow) ==> Strong(sig) && Marked(sig))
  }

  /** To be deferred: opposed, strong, and not deferred before. */
  predicate Deferrable(c: Config, e: Env, sig: Signal, ageOverride: Option<int>) {
    Readable(c, e, sig, ageOverride) && Against(sig.action, e.trend, e.shadow) && Strong(sig) && !Marked(sig)
  }

  /** In conflict: opposed and not strong enough to be deferred. */
  predicate InConflict(c: Config, e: Env, sig: Signal, ageOverride: Option<int>) {
    Readable(c, e, sig, ageOverride) && Against(sig.action, e.trend, e.shadow) && !Strong(sig)
  }

  /** A confidence that reaches 0.60 once it is rounded to two places. */
  lemma {:induction false} RoundsToStrongIff(c: Config, sig: Signal)
    ensures CounterCandidateSignal(c, sig).confidence >= 0.60 <==> c.counterConfidence >= 0.595
  {
    var clamped := if c.counterConfidence < 0.0 then 0.0 else if c.counterConfidence > 1.0 then 1.0 else c.counterConfidence;
    var n := Rounding.HalfEven(clamped * 100.0);
    assert CounterCandidateSignal(c, sig).confidence == n as real / 100.0;
    if clamped > 0.595 {
      assert n >= 60;
    } else if clamped == 0.595 {
      assert (clamped * 100.0).Floor == 59;
    }
  }

  lemma {:induction false} ConfirmedIff(c: Config, e: Env, sig: Signal, ageOverride: Option<int>, grace: bool)
    ensures var k := BuildConfirm(c, e, sig, ageOverride, grace);
            && (k.status.Confirmed? <==> Confirmable(c, e, sig, ageOverride))
            && (k.reason.MicrostructureConflict? <==> InConflict(c, e, sig, ageOverride))
            && (k.reason.MicrostructureConflict? ==> k.status.Skip?)
            && (k.status.Pending? <==> Deferrable(c, e, sig, ageOverride))
            && (k.reason.MicrostructureDeferred? <==> k.status.Pending?)
  {
  }

  /** A weak signal in conflict may be traded the other way round, if that way round is confirmable. */
  predicate Reversible(c: Config, e: Env, sig: Signal, conflict: bool) {
    && conflict && c.counterEnabled && !Strong(sig) && Readable(c, e, sig, None)
    && (Against(if sig.action == Buy then Sell else Buy, e.trend, e.shadow) ==>
          sig.id != "" && c.counterConfidence >= 0.595 && Marked(sig))
  }

  /** A stored CONFIRMED or SKIP that is fresh enough to be used without a new pass. */
  predicate StoredCounts(c: Config, e: Env, sig: Signal) {
    && sig.confirmStatus != Pending && sig.confirmTime.Some? && sig.confirmTime.value <= e.now
    && (e.now == sig.confirmTime.value || e.now - sig.confirmTime.value <= c.confirmMaxAge * SECOND)
  }

  /** Outside the slot's own window the age limit of the grace window extends the confirm age. */
  function AgeOverride(e: Env): Option<int> {
    if e.entrySlot.None? then Some(e.ageLimit) else None
  }

  /** The signal is confirmable now, or its stored confirmation still counts, or it is reversible. */
  predicate Admits(c: Config, e: Env, sig: Signal) {
    if StoredCounts(c, e, sig)
    then sig.confirmStatus == Confirmed || Reversible(c, e, sig, sig.confirmReason == MicrostructureConflict)
    else Confirmable(c, e, sig, AgeOverride(e)) || Reversible(c, e, sig, InConflict(c, e, sig, AgeOverride(e)))
  }

  /** The signal is put off: a new pass finds it strong, opposed and not deferred before. */
  predicate PutOff(c: Config, e: Env, sig: Signal) {
    !StoredCounts(c, e, sig) && Deferrable(c, e, sig, AgeOverride(e))
  }

  lemma {:induction false} MustConfirmIff(c: Config, e: Env, sig: Signal)
    ensures MustConfirm(c, e, sig) <==> !StoredCounts(c, e, sig)
  {
  }

  lemma {:induction false} CounterConfirmableIff(c: Config, e: Env, sig: Signal)
    requires sig.action != NoAction
    ensures Confirmable(c, e, CounterCandidateSignal(c, sig), None) <==>
            && Readable(c, e, sig, None)
            && (Against(if sig.action == Buy then Sell else Buy, e.trend, e.shadow) ==>
                  sig.id != "" && c.counterConfidence >= 0.595 && Marked(sig))
  {
    RoundsToStrongIff(c, sig);
  }

  lemma {:induction false} AdmitsIff(c: Config, e: Env, sig: Signal)
    ensures var pass := ConfirmStage(c, e, sig, e.entrySlot.None?);
            && (pass.verdict.status.Confirmed? || pass.countered <==> Admits(c, e, sig))
            && (pass.Defers() <==> PutOff(c, e, sig))
  {
    MustConfirmIff(c, e, sig);
    ConfirmedIff(c, e, sig, AgeOverride(e), e.entrySlot.None?);
    if sig.action != NoAction {
      CounterConfirmableIff(c, e, sig);
      ConfirmedIff(c, e, CounterCandidateSignal(c, sig), None, false);
    }
  }

  // ---------------------------------------------------------------- the whole chain

  /** No gate after the confirm stage blocks. */
  predicate GatesOpen(g: Gates) {
    && g.assuranceBlock.None? && g.entryQualityBlock.None? && g.positionBlock.None? && g.environmentGate.None?
    && !g.quoteMissing && !g.badDistances && !g.nonpositiveDistance && !g.spreadTooWide
    && !g.noRiskBudget && !g.belowMinLot && !g.dailyRiskExceeded
  }

  predicate SymbolOk(g: Gates) {
    !g.symbolSpecMissing && !g.symbolMismatch && !g.badDistanceUnit
  }

  /** A directional signal with a readable time that is not too old for the slot. */
  predicate Live(e: Env, sig: Signal) {
    sig.action != NoAction && sig.time.Some? && e.now - sig.time.value <= e.ageLimit * SECOND
  }

  /** The executor answers with a position id. */
  predicate Answered(e: Env) {
    e.placed.Some? && e.placed.value != ""
  }

  /**
   The loop is on and a slot is open and due for this signal; the signal is directional, dated,
   young enough and admitted; the cap is not reached, symbol and gates let it pass, nothing is
   raised before the executor's answer, and that answer names a position.
   */
  predicate Qualifies(c: Config, s: Bot, e: Env) {
    && WorkSlot(s, e).Some?
    && var sig := s.file.value;
       && Live(e, sig) && ClearForDay(s, e.day).tradesTaken < c.maxTradesPerDay
       && SymbolOk(e.gates) && Admits(c, e, sig) && GatesOpen(e.gates)
       && e.raiseBefore >= MARK_STAGE && Answered(e)
  }

  /** The guarded part reaches the executor exactly when nothing before it leaves. */
  lemma {:induction false} ReachesExecutorIff(c: Config, taken: int, e: Env, pass: Pass)
    requires pass.countered ==> !pass.verdict.status.Confirmed? && pass.verdict.reason.MicrostructureConflict?
    ensures FirstExit(c, taken, e, pass).stage >= PLACE_STAGE <==>
            taken < c.maxTradesPerDay && SymbolOk(e.gates) && (pass.verdict.status.Confirmed? || pass.countered) && GatesOpen(e.gates)
  {
  }

  /** The guarded part adds an order exactly when it reaches the executor and nothing is raised before the answer. */
  lemma {:induction false} ConcludePlacesIff(s: Bot, e: Env, slot: Slot, sig: Signal, pass: Pass, exit: Exit)
    requires exit.stage != PLACE_STAGE && exit.stage <= MARK_STAGE
    ensures Conclude(s, e, slot, sig, pass, exit).orders != s.orders <==>
            exit.stage >= PLACE_STAGE && e.raiseBefore >= MARK_STAGE && Answered(e)
  {
    var last := if e.raiseBefore <= exit.stage then e.raiseBefore - 1 else exit.stage;
    ConcludeOrders(s, e, slot, sig, pass, exit, last);
    EffectsOrders(s, e, slot, sig, pass, last);
    assert e.raiseBefore <= exit.stage ==> (last >= PLACE_STAGE <==> e.raiseBefore >= MARK_STAGE);
  }

  /** Recording a run touches no order. */
  lemma {:induction false} ConcludeOrders(s: Bot, e: Env, slot: Slot, sig: Signal, pass: Pass, exit: Exit, last: int)
    requires last == if e.raiseBefore <= exit.stage then e.raiseBefore - 1 else exit.stage
    ensures Conclude(s, e, slot, sig, pass, exit).orders == Effects(s, e, slot, sig, pass, last).orders
  {
    var m, action := Effects(s, e, slot, sig, pass, last), TradedAction(sig, pass, last);
    LeaveOrders(m, e, slot, sig, action, exit, CounterMark(e, pass, exit.stage));
  }

  lemma {:induction false} LeaveOrders(s: Bot, e: Env, slot: Slot, sig: Signal, action: Action, exit: Exit, counter: bool)
    ensures Crash(s, e, slot, sig, action).orders == s.orders
    ensures Leave(s, e, slot, sig, action, exit, counter).orders == s.orders
  {
  }

  lemma {:induction false} EffectsOrders(s: Bot, e: Env, slot: Slot, sig: Signal, pass: Pass, last: int)
    ensures var m := Effects(s, e, slot, sig, pass, last);
            if last >= PLACE_STAGE && Accepted(e) then |m.orders| == |s.orders| + 1 else m.orders == s.orders
  {
  }

  /** One poll adds an order exactly when it qualifies. */
  lemma {:induction false} OrderPlacedIff(c: Config, s: Bot, e: Env)
    ensures Iterate(c, s, e).orders != s.orders <==> Qualifies(c, s, e)
  {
    ClearIsOnDay(s, e.day);
    if WorkSlot(s, e).None? {
      IterateRests(c, s, e);
    } else {
      IterateWorks(c, s, e);
      var b, slot, sig := ClearForDay(s, e.day), WorkSlot(s, e).value, s.file.value;
      ProcessPlacesIff(c, Track(b, slot, sig.id, e.now), e, slot, sig);
    }
  }

  lemma {:induction false} ProcessPlacesIff(c: Config, s: Bot, e: Env, slot: Slot, sig: Signal)
    requires OnDay(s, e.day)
    ensures Process(c, s, e, slot, e.entrySlot.None?, sig).orders != s.orders <==>
            && Live(e, sig)
            && s.tradesTaken < c.maxTradesPerDay && SymbolOk(e.gates) && Admits(c, e, sig) && GatesOpen(e.gates)
            && e.raiseBefore >= MARK_STAGE && Answered(e)
  {
    if Live(e, sig) {
      var s1 := Note(s, e, SignalDecision, slot, sig, sig.action, Hold);
      AttemptPlacesIff(c, s1, e, slot, sig);
      assert Process(c, s, e, slot, e.entrySlot.None?, sig) == Attempt(c, s1, e, slot, e.entrySlot.None?, sig);
    } else {
      UntradablePlacesNothing(c, s, e, slot, sig);
    }
  }

  lemma {:induction false} UntradablePlacesNothing(c: Config, s: Bot, e: Env, slot: Slot, sig: Signal)
    requires !Live(e, sig)
    ensures Process(c, s, e, slot, e.entrySlot.None?, sig).orders == s.orders
  {
    var s1 := Note(s, e, SignalDecision, slot, sig, sig.action, Hold);
    var t := Process(c, s, e, slot, e.entrySlot.None?, sig);
    assert t == if sig.action == NoAction then Mark(s, e, slot, sig, sig.action, Hold, true, false)
                else if sig.time.None? then Mark(s1, e, slot, sig, sig.action, InvalidSignalTimestamp, true, false)
                else AfterStale(s1, e, slot, sig);
  }

  lemma {:induction false} AttemptPlacesIff(c: Config, s: Bot, e: Env, slot: Slot, sig: Signal)
    requires OnDay(s, e.day)
    ensures Attempt(c, s, e, slot, e.entrySlot.None?, sig).orders != s.orders <==>
            && s.tradesTaken < c.maxTradesPerDay && SymbolOk(e.gates) && Admits(c, e, sig) && GatesOpen(e.gates)
            && e.raiseBefore >= MARK_STAGE && Answered(e)
  {
    ClearKeeps(s, e.day);
    var pass := ConfirmStage(c, e, sig, e.entrySlot.None?);
    var exit := FirstExit(c, s.tradesTaken, e, pass);
    FirstExitShape(c, s.tradesTaken, e, pass);
    ReachesExecutorIff(c, s.tradesTaken, e, pass);
    ConcludePlacesIff(s, e, slot, sig, pass, exit);
    AdmitsIff(c, e, sig);
  }

  // ---------------------------------------------------------------- the orders of a run

  /** Day, slot, signal, time and risk share of an order, or of the poll that places it. */
  datatype Entry = Entry(day: int, slot: Slot, signalId: string, at: int, multiplier: real)

  function EntryOf(o: Order): Entry {
    Entry(o.day, o.slot, o.signalId, o.at, o.multiplier)
  }

  /** The signal trades at half risk: confirmed against the microstructure, now or as stored. */
  predicate HalfRisk(c: Config, e: Env, sig: Signal) {
    if StoredCounts(c, e, sig)
    then sig.confirmStatus == Confirmed && (sig.confirmReason == SoftConfirmed || sig.confirmReason == SoftConfirmedGrace)
    else Confirmable(c, e, sig, AgeOverride(e)) && Against(sig.action, e.trend, e.shadow)
  }

  lemma {:induction false} SoftIff(c: Config, e: Env, sig: Signal)
    ensures ConfirmStage(c, e, sig, e.entrySlot.None?).Soft() <==> HalfRisk(c, e, sig)
  {
    MustConfirmIff(c, e, sig);
  }

  function Entries(orders: seq<Order>): seq<Entry> {
    if orders == [] then [] else Entries(orders[..|orders| - 1]) + [EntryOf(orders[|orders| - 1])]
  }

  /** The entry a step makes, told from what the step sees. */
  function EntryOfStep(c: Config, s: Bot, step: Step): Option<Entry> {
    if step.Poll? && Qualifies(c, s, step.e)
    then Some(Entry(step.e.day, WorkSlot(s, step.e).value, s.file.value.id, step.e.now,
                    if HalfRisk(c, step.e, s.file.value) then 0.5 else 1.0)) else None
  }

  function QualifyingPolls(c: Config, steps: seq<Step>): seq<Entry> {
    if steps == [] then []
    else
      var before, entry := QualifyingPolls(c, steps[..|steps| - 1]),
                           EntryOfStep(c, After(c, steps[..|steps| - 1]), steps[|steps| - 1]);
      if entry.None? then before else before + [entry.value]
  }

  /** A step adds the order of its entry, and none without one. */
  lemma {:induction false} StepAddsEntry(c: Config, s: Bot, step: Step)
    ensures var t, entry := Next(c, s, step), EntryOfStep(c, s, step);
            if entry.None? then t.orders == s.orders
            else |t.orders| > 0 && t.orders == s.orders + [t.orders[|t.orders| - 1]]
                 && EntryOf(t.orders[|t.orders| - 1]) == entry.value
  {
    if step.Poll? {
      var e := step.e;
      OrderPlacedIff(c, s, e);
      if Qualifies(c, s, e) {
        var b, slot, sig := ClearForDay(s, e.day), WorkSlot(s, e).value, s.file.value;
        ClearIsOnDay(s, e.day);
        IterateWorks(c, s, e);
        SoftIff(c, e, sig);
        ProcessOnFile(c, Track(b, slot, sig.id, e.now), e, slot, e.entrySlot.None?, sig, ConfirmStage(c, e, sig, e.entrySlot.None?));
      }
    }
  }

  /**
   The orders of a run are, one for one and in order, its qualifying polls: each for the day,
   slot, signal and time of its poll, at half risk if the poll confirmed against the microstructure.
   */
  lemma {:induction false} OrdersAreQualifyingPolls(c: Config, steps: seq<Step>)
    ensures Entries(After(c, steps).orders) == QualifyingPolls(c, steps)
  {
    if steps != [] {
      var s := After(c, steps[..|steps| - 1]);
      OrdersAreQualifyingPolls(c, steps[..|steps| - 1]);
      StepAddsEntry(c, s, steps[|steps| - 1]);
      var t := After(c, steps);
      if EntryOfStep(c, s, steps[|steps| - 1]).Some? {
        assert t.orders[..|t.orders| - 1] == s.orders;
      }
    }
  }

  // ---------------------------------------------------------------- a second order in a slot

  function EntryAt(c: Config, steps: seq<Step>, i: nat): Option<Entry>
    requires i < |steps|
  {
    EntryOfStep(c, After(c, steps[..i]), steps[i])
  }

  lemma {:induction false} NewOrderIsEntry(c: Config, s: Bot, step: Step, o: Order)
    requires o in Next(c, s, step).orders && o !in s.orders
    ensures EntryOfStep(c, s, step) == Some(EntryOf(o))
  {
    StepAddsEntry(c, s, step);
  }

  lemma {:induction false} OrderHasPoll(c: Config, steps: seq<Step>, o: Order) returns (i: nat)
    requires o in After(c, steps).orders
    ensures i < |steps| && EntryAt(c, steps, i) == Some(EntryOf(o))
  {
    var front := steps[..|steps| - 1];
    if o in After(c, front).orders {
      i := OrderHasPoll(c, front, o);
      assert front[..i] == steps[..i];
    } else {
      i := |front|;
      NewOrderIsEntry(c, After(c, front), steps[i], o);
    }
  }

  lemma {:induction false} PollHasOrder(c: Config, steps: seq<Step>, i: nat)
    requires i < |steps| && EntryAt(c, steps, i).Some?
    ensures exists o :: o in After(c, steps).orders && EntryOf(o) == EntryAt(c, steps, i).value
  {
    var front := steps[..|steps| - 1];
    StepAddsEntry(c, After(c, front), steps[|steps| - 1]);
    if i < |front| {
      assert front[..i] == steps[..i];
      PollHasOrder(c, front, i);
      var o :| o in After(c, front).orders && EntryOf(o) == EntryAt(c, front, i).value;
      assert o in After(c, steps).orders;
    } else {
      var orders := After(c, steps).orders;
      assert orders[|orders| - 1] in orders;
    }
  }

  /** An entry whose poll is not struck between placement and mark closes its slot for good. */
  lemma {:induction false} CleanEntryCloses(c: Config, steps: seq<Step>, i: nat)
    requires ClockRuns(c, steps) && i < |steps| && EntryAt(c, steps, i).Some? && steps[i].e.raiseBefore != MARK_STAGE
    ensures var x := EntryAt(c, steps, i).value; TerminalCount(After(c, steps).journal, x.day, x.slot) > 0
  {
    var front, last := steps[..|steps| - 1], steps[|steps| - 1];
    var s, x := After(c, front), EntryAt(c, steps, i).value;
    ClockPrefix(c, steps);
    BooksAlways(c, front);
    if i < |front| {
      assert front[..i] == steps[..i] && front[i] == steps[i];
      CleanEntryCloses(c, front, i);
      if last.Poll? {
        JournalOnlyGrows(c, s, last.e, x.day, x.slot);
      }
    } else {
      assert steps[..i] == front;
      OrderPlacedIff(c, s, last.e);
      OrderClosesSlotIff(c, s, last.e);
      PollKeepsBooks(c, s, last.e);
      BooksAlways(c, steps);
      DayOfWork(c, s, last.e);
      TerminalCountRuns(After(c, steps).journal, x.day, x.slot);
    }
  }

  lemma {:induction false} DayOfWork(c: Config, s: Bot, e: Env)
    requires WorkSlot(s, e).Some?
    ensures Iterate(c, s, e).tradeDate == Some(e.day)
  {
    var evs := IterateShape(c, s, e);
  }

  lemma {:induction false} JournalOnlyGrows(c: Config, s: Bot, e: Env, day: int, slot: Slot)
    ensures TerminalCount(Iterate(c, s, e).journal, day, slot) >= TerminalCount(s.journal, day, slot)
  {
    var evs := IterateShape(c, s, e);
    ClearIsOnDay(s, e.day);
    if WorkSlot(s, e).Some? {
      TerminalCountConcat(s.journal, evs, day, slot);
    }
  }

  /** An entry that an exception strikes before its mark, and a later entry of the same slot and day. */
  ghost predicate StruckThenEntered(c: Config, steps: seq<Step>, i: nat, j: nat) {
    && i < j < |steps| && EntryAt(c, steps, i).Some? && EntryAt(c, steps, j).Some?
    && EntryAt(c, steps, i).value.day == EntryAt(c, steps, j).value.day
    && EntryAt(c, steps, i).value.slot == EntryAt(c, steps, j).value.slot
    && steps[i].e.raiseBefore == MARK_STAGE
  }

  ghost predicate SecondEntry(c: Config, steps: seq<Step>) {
    exists i: nat, j: nat :: StruckThenEntered(c, steps, i, j)
  }

  /**
   A run has two orders in one slot of one day if and only if an exception struck a qualifying
   poll between placement and mark and a later poll of that slot and day qualified again.
   */
  lemma {:induction false} SecondOrderIff(c: Config, steps: seq<Step>)
    requires ClockRuns(c, steps)
    ensures !OneOrderPerSlot(After(c, steps).orders) <==> SecondEntry(c, steps)
  {
    if steps != [] {
      var front, last := steps[..|steps| - 1], steps[|steps| - 1];
      ClockPrefix(c, steps);
      SecondOrderIff(c, front);
      if !OneOrderPerSlot(After(c, steps).orders) {
        if OneOrderPerSlot(After(c, front).orders) {
          NewPairStruck(c, steps);
        } else {
          EarlierPairStays(c, steps);
        }
      }
      if i: nat, j: nat :| StruckThenEntered(c, steps, i, j) {
        StruckMeansTwoOrders(c, steps, i, j);
      }
    }
  }

  lemma {:induction false} EarlierPairStays(c: Config, steps: seq<Step>)
    requires steps != [] && SecondEntry(c, steps[..|steps| - 1])
    ensures SecondEntry(c, steps)
  {
    var front := steps[..|steps| - 1];
    var i: nat, j: nat :| StruckThenEntered(c, front, i, j);
    assert front[..i] == steps[..i] && front[..j] == steps[..j];
    assert StruckThenEntered(c, steps, i, j);
  }

  /** The first pair of orders in one slot: the earlier of the two was struck. */
  lemma {:induction false} NewPairStruck(c: Config, steps: seq<Step>)
    requires ClockRuns(c, steps) && steps != []
    requires OneOrderPerSlot(After(c, steps[..|steps| - 1]).orders) && !OneOrderPerSlot(After(c, steps).orders)
    ensures SecondEntry(c, steps)
  {
    var front, last, n := steps[..|steps| - 1], steps[|steps| - 1], |steps| - 1;
    var s := After(c, front);
    assert steps[..n] == front;
    StepAddsEntry(c, s, last);
    var o := EarlierOrder(s.orders, After(c, steps).orders);
    var i := OrderHasPoll(c, front, o);
    assert front[..i] == steps[..i] && front[i] == steps[i];
    assert EntryAt(c, steps, i) == Some(EntryOf(o)) && EntryAt(c, steps, n) == EntryOfStep(c, s, last);
    OpenSlotWasStruck(c, steps, i);
    assert StruckThenEntered(c, steps, i, n);
  }

  /** A poll that works on a slot in which an earlier poll of the day entered: that one was struck. */
  lemma {:induction false} OpenSlotWasStruck(c: Config, steps: seq<Step>, i: nat)
    requires ClockRuns(c, steps) && i < |steps| - 1 && EntryAt(c, steps[..|steps| - 1], i).Some?
    requires EntryOfStep(c, After(c, steps[..|steps| - 1]), steps[|steps| - 1]).Some?
    requires var x, y := EntryAt(c, steps[..|steps| - 1], i).value,
                         EntryOfStep(c, After(c, steps[..|steps| - 1]), steps[|steps| - 1]).value;
             x.day == y.day && x.slot == y.slot
    ensures steps[i].e.raiseBefore == MARK_STAGE
  {
    var front, last := steps[..|steps| - 1], steps[|steps| - 1];
    ClockPrefix(c, steps);
    BooksAlways(c, front);
    PollKeepsBooks(c, After(c, front), last.e);
    if front[i].e.raiseBefore != MARK_STAGE {
      CleanEntryCloses(c, front, i);
    }
  }

  /** The one new order shares slot and day with an earlier one. */
  lemma {:induction false} EarlierOrder(orders: seq<Order>, more: seq<Order>) returns (o: Order)
    requires OneOrderPerSlot(orders) && !OneOrderPerSlot(more)
    requires more == orders || (|more| > 0 && more == orders + [more[|more| - 1]])
    ensures more != orders && o in orders && o.day == more[|more| - 1].day && o.slot == more[|more| - 1].slot
  {
    var i, j :| 0 <= i < j < |more| && more[i].day == more[j].day && more[i].slot == more[j].slot;
    assert more[i] == orders[i];
    o := orders[i];
  }

  lemma {:induction false} StruckMeansTwoOrders(c: Config, steps: seq<Step>, i: nat, j: nat)
    requires steps != [] && StruckThenEntered(c, steps, i, j)
    requires SecondEntry(c, steps[..|steps| - 1]) ==> !OneOrderPerSlot(After(c, steps[..|steps| - 1]).orders)
    ensures !OneOrderPerSlot(After(c, steps).orders)
  {
    var front := steps[..|steps| - 1];
    assert front[..i] == steps[..i] && front[i] == steps[i];
    StepAddsEntry(c, After(c, front), steps[|steps| - 1]);
    if j < |front| {
      assert front[..j] == steps[..j] && front[j] == steps[j];
      assert StruckThenEntered(c, front, i, j);
      PairStays(After(c, front).orders, After(c, steps).orders);
    } else {
      LateEntryPairs(c, steps, i);
    }
  }

  lemma {:induction false} PairStays(before: seq<Order>, orders: seq<Order>)
    requires !OneOrderPerSlot(before) && before <= orders
    ensures !OneOrderPerSlot(orders)
  {
    var a, b :| 0 <= a < b < |before| && before[a].day == before[b].day && before[a].slot == before[b].slot;
    assert orders[a] == before[a] && orders[b] == before[b];
  }

  /** An entry at the last step in a slot and day that has one already. */
  lemma {:induction false} LateEntryPairs(c: Config, steps: seq<Step>, i: nat)
    requires i < |steps| - 1 && EntryAt(c, steps[..|steps| - 1], i).Some?
    requires EntryOfStep(c, After(c, steps[..|steps| - 1]), steps[|steps| - 1]).Some?
    requires var x, y := EntryAt(c, steps[..|steps| - 1], i).value,
                         EntryOfStep(c, After(c, steps[..|steps| - 1]), steps[|steps| - 1]).value;
             x.day == y.day && x.slot == y.slot
    ensures !OneOrderPerSlot(After(c, steps).orders)
  {
    var front := steps[..|steps| - 1];
    StepAddsEntry(c, After(c, front), steps[|steps| - 1]);
    PollHasOrder(c, front, i);
    var o :| o in After(c, front).orders && EntryOf(o) == EntryAt(c, front, i).value;
    PairWithLast(After(c, front).orders, After(c, steps).orders, o);
  }

  lemma {:induction false} PairWithLast(before: seq<Order>, orders: seq<Order>, o: Order)
    requires o in before && |orders| > 0 && orders == before + [orders[|orders| - 1]]
    requires o.day == orders[|orders| - 1].day && o.slot == orders[|orders| - 1].slot
    ensures !OneOrderPerSlot(orders)
  {
    var a :| 0 <= a < |before| && before[a] == o;
    assert orders[a] == o;
  }
}
