/**
 Safety of the poll loop over every run: polls in any order with any outside answers, and
 an outside writer that may replace the signal file between polls.
 */
module PollSafety {
  import opened Trading
  import opened PollLoop

  datatype Step = Poll(e: Env) | Publish(file: Option<Signal>)

  const START := Bot(None, 0, [], map[], map[], None, [], [], [])

  function Next(c: Config, s: Bot, step: Step): Bot {
    match step
    case Poll(e) => Iterate(c, s, e)
    case Publish(file) => s.(file := file)
  }

  function After(c: Config, steps: seq<Step>): Bot {
    if steps == [] then START else Next(c, After(c, steps[..|steps| - 1]), steps[|steps| - 1])
  }

  /** The clock is not behind anything already recorded. */
  ghost predicate Timely(s: Bot, e: Env) {
    && (s.tradeDate.Some? ==> s.tradeDate.value <= e.day)
    && (forall ev :: ev in s.journal ==> ev.stamp <= e.stamp)
  }

  ghost predicate ClockRuns(c: Config, steps: seq<Step>) {
    forall i :: 0 <= i < |steps| && steps[i].Poll? ==> Timely(After(c, steps[..i]), steps[i].e)
  }

  lemma {:induction false} ClockPrefix(c: Config, steps: seq<Step>)
    requires steps != [] && ClockRuns(c, steps)
    ensures ClockRuns(c, steps[..|steps| - 1])
    ensures steps[|steps| - 1].Poll? ==> Timely(After(c, steps[..|steps| - 1]), steps[|steps| - 1].e)
  {
    var front := steps[..|steps| - 1];
    forall i | 0 <= i < |front| && front[i].Poll? ensures Timely(After(c, front[..i]), front[i].e) {
      assert front[..i] == steps[..i] && front[i] == steps[i];
    }
  }

  // ---------------------------------------------------------------- what one iteration can do

  predicate TerminalEvent(ev: Event, day: int, slot: Slot) {
    ev.kind.RiskResult? && ev.terminal && ev.day == day && ev.slot == slot
  }

  /** The slot the iteration would work on, if it gets past the clock and the retry guard. */
  function WorkSlot(s: Bot, e: Env): Option<Slot> {
    if e.killSwitch || s.file.None? then None
    else
      var sig := s.file.value;
      var slot := if e.entrySlot.Some? then e.entrySlot
                  else if sig.WasDeferred() then e.graceWindow else None;
      if slot.None? then None
      else
        var s1 := ClearForDay(s, e.day);
        if SlotTerminal(s1.runs, slot.value, e.day) || !ShouldRetry(s1, slot.value, sig.id, e.now) then None
        else slot
  }

  ghost predicate EventsOf(evs: seq<Event>, e: Env, slot: Slot) {
    forall ev :: ev in evs ==> ev.stamp == e.stamp && ev.day == e.day && ev.slot == slot
  }

  /** The lines name no window or the one the signal names; blocked candidates name the signal's. */
  ghost predicate Labelled(evs: seq<Event>, window: Option<Slot>) {
    forall ev :: ev in evs ==> ev.window == window || (ev.window == None && !ev.kind.BlockedCandidate?)
  }

  /** `s'` is `s`, on the day of `e`, with `evs` journalled and their runs recorded. */
  ghost predicate Extends(s: Bot, s': Bot, e: Env, slot: Slot, window: Option<Slot>, evs: seq<Event>) {
    && s.tradeDate == s'.tradeDate == Some(e.day)
    && EventsOf(evs, e, slot) && Labelled(evs, window) && Paired(evs)
    && s'.journal == s.journal + evs
    && s'.runs == s.runs + RunsOf(evs, e.day)
  }

  ghost predicate SameTrades(s: Bot, s': Bot) {
    s'.tradesTaken == s.tradesTaken && s'.orders == s.orders
  }

  /** Counters of the day `e` falls in are current. */
  ghost predicate OnDay(s: Bot, day: int) {
    s.tradeDate == Some(day) && forall r :: r in s.runs ==> r.day == day
  }

  lemma {:induction false} ClearIsOnDay(s: Bot, day: int)
    ensures OnDay(ClearForDay(s, day), day)
    ensures ClearForDay(s, day).journal == s.journal && ClearForDay(s, day).orders == s.orders
  {
    RunsOnDayMembers(s.runs, day);
  }

  lemma {:induction false} RunsOnDayMembers(runs: seq<Run>, day: int)
    ensures forall r :: r in RunsOnDay(runs, day) ==> r.day == day
  {
    if runs != [] {
      RunsOnDayMembers(runs[..|runs| - 1], day);
    }
  }

  lemma {:induction false} ClearKeeps(s: Bot, day: int)
    requires OnDay(s, day)
    ensures ClearForDay(s, day) == s
  {
    RunsOnDayIdentity(s.runs, day);
  }

  lemma {:induction false} MarkExtends(s: Bot, e: Env, slot: Slot, sig: Signal, action: Action, reason: Reason, terminal: bool, counter: bool)
    requires OnDay(s, e.day) && (reason.Hold? ==> !action.Directional())
    ensures var run := Run(e.day, slot, sig.id, reason, action, terminal, counter);
            var evs := RunEvents(e, slot, sig.window, run);
            var s' := Mark(s, e, slot, sig, action, reason, terminal, counter);
            && Extends(s, s', e, slot, sig.window, evs) && SameTrades(s, s') && OnDay(s', e.day)
            && RunsOf(evs, e.day) == [run]
  {
    ClearKeeps(s, e.day);
    var run := Run(e.day, slot, sig.id, reason, action, terminal, counter);
    var evs := RunEvents(e, slot, sig.window, run);
    assert RunsOf(evs[..1], e.day) == [run] by {
      assert evs[..1][..0] == [];
    }
    if |evs| > 1 {
      assert evs[..|evs| - 1] == evs[..1];
    } else {
      assert evs[..1] == evs;
    }
  }

  lemma {:induction false} NoteExtends(s: Bot, e: Env, kind: Kind, slot: Slot, sig: Signal, action: Action, reason: Reason)
    requires OnDay(s, e.day) && (kind.SignalDecision? || kind.CounterCandidate? || kind.ConfirmVeto?)
    ensures var s' := Note(s, e, kind, slot, sig, action, reason);
            var ev := Event(kind, e.stamp, e.day, slot, sig.window, sig.id, reason, action, false, false);
            Extends(s, s', e, slot, sig.window, [ev]) && SameTrades(s, s') && OnDay(s', e.day)
  {
    var ev := Event(kind, e.stamp, e.day, slot, sig.window, sig.id, reason, action, false, false);
    assert [ev][..0] == [];
    assert RunsOf([ev], e.day) == [];
  }

  lemma {:induction false} ExtendsTwice(s: Bot, m: Bot, t: Bot, e: Env, slot: Slot, window: Option<Slot>, a: seq<Event>, b: seq<Event>)
    requires Extends(s, m, e, slot, window, a) && Extends(m, t, e, slot, window, b)
    ensures Extends(s, t, e, slot, window, a + b)
  {
    RunsOfConcat(a, b, e.day);
    LinesConcat(e, slot, window, a, b);
    Associative(s.journal, a, b);
    Associative(s.runs, RunsOf(a, e.day), RunsOf(b, e.day));
  }

  lemma {:induction false} Associative<T>(x: seq<T>, a: seq<T>, b: seq<T>)
    ensures x + a + b == x + (a + b)
  {
  }

  lemma {:induction false} LinesConcat(e: Env, slot: Slot, window: Option<Slot>, a: seq<Event>, b: seq<Event>)
    requires EventsOf(a, e, slot) && Labelled(a, window) && Paired(a)
    requires EventsOf(b, e, slot) && Labelled(b, window) && Paired(b)
    ensures EventsOf(a + b, e, slot) && Labelled(a + b, window) && Paired(a + b)
  {
    PairedConcat(a, b);
  }

  /** How many terminal runs the journal records for a slot of a day. */
  function TerminalCount(journal: seq<Event>, day: int, slot: Slot): nat {
    if journal == [] then 0
    else TerminalCount(journal[..|journal| - 1], day, slot) +
         (if TerminalEvent(journal[|journal| - 1], day, slot) then 1 else 0)
  }

  lemma {:induction false} TerminalCountConcat(a: seq<Event>, b: seq<Event>, day: int, slot: Slot)
    ensures TerminalCount(a + b, day, slot) == TerminalCount(a, day, slot) + TerminalCount(b, day, slot)
  {
    if b == [] {
      assert a + b == a;
    } else {
      assert (a + b)[..|a + b| - 1] == a + b[..|b| - 1];
      TerminalCountConcat(a, b[..|b| - 1], day, slot);
    }
  }

  lemma {:induction false} TerminalCountElsewhere(evs: seq<Event>, e: Env, slot: Slot, day: int, other: Slot)
    requires EventsOf(evs, e, slot) && (day != e.day || other != slot)
    ensures TerminalCount(evs, day, other) == 0
  {
    if evs != [] {
      TerminalCountElsewhere(evs[..|evs| - 1], e, slot, day, other);
    }
  }

  lemma {:induction false} RunEventsTerminals(e: Env, slot: Slot, window: Option<Slot>, run: Run)
    requires run.day == e.day && run.slot == slot
    ensures TerminalCount(RunEvents(e, slot, window, run), e.day, slot) == if run.terminal then 1 else 0
  {
    var evs := RunEvents(e, slot, window, run);
    assert evs[..1][..0] == [];
    assert TerminalCount(evs[..1], e.day, slot) == if run.terminal then 1 else 0;
    if |evs| > 1 {
      assert evs[..|evs| - 1] == evs[..1];
    } else {
      assert evs[..1] == evs;
    }
  }

  /**
   The one iteration that records two terminal runs: a stale signal from inside its own
   window, and a state write that fails with an error the timestamp handler also catches.
   */
  predicate DoubleMark(s: Bot, e: Env) {
    WorkSlot(s, e).Some? && StaleTwice(e, s.file.value)
  }

  /** An accepted order, the state it was placed in and the journal at that moment. */
  ghost predicate PlacedOne(c: Config, b: Bot, s': Bot, e: Env, slot: Slot, evs: seq<Event>) {
    && |s'.orders| > 0 && s'.orders == b.orders + [s'.orders[|s'.orders| - 1]]
    && s'.tradesTaken == b.tradesTaken + 1 && b.tradesTaken < c.maxTradesPerDay
    && Accepted(e) && e.raiseBefore >= MARK_STAGE
    && var o := s'.orders[|s'.orders| - 1];
    && o.day == e.day && o.slot == slot && |b.journal| <= o.logged <= |b.journal| + |evs|
    && TerminalCount(evs[..o.logged - |b.journal|], e.day, slot) == 0
    && (TerminalCount(evs, e.day, slot) == if e.raiseBefore > MARK_STAGE then 1 else 0)
  }

  /** Everything the safety arguments need to know about an iteration that records a run. */
  ghost predicate Worked(c: Config, s: Bot, s': Bot, e: Env, slot: Slot, evs: seq<Event>) {
    var b := ClearForDay(s, e.day);
    && s.file.Some? && Extends(b, s', e, slot, s.file.value.window, evs) && OnDay(s', e.day)
    && (TerminalCount(evs, e.day, slot) == 2 <==> DoubleMark(s, e))
    && TerminalCount(evs, e.day, slot) <= 2
    && (SameTrades(b, s') || PlacedOne(c, b, s', e, slot, evs))
  }

  lemma {:induction false} ConfirmEffectsShape(s: Bot, e: Env, slot: Slot, sig: Signal, pass: Pass, last: int) returns (evs: seq<Event>)
    requires OnDay(s, e.day)
    ensures var t := ConfirmEffects(s, e, slot, sig, pass, last);
            Extends(s, t, e, slot, sig.window, evs) && SameTrades(s, t) && OnDay(t, e.day)
    ensures TerminalCount(evs, e.day, slot) == 0
  {
    var s1 := if last >= DEFER_STAGE && pass.confirm.Some? then AfterPersist(s, e, slot, sig, pass.confirm.value) else s;
    assert s1.journal == s.journal && s1.runs == s.runs && s1.tradeDate == s.tradeDate && SameTrades(s, s1);
    if last < VETO_STAGE || pass.verdict.status.Confirmed? {
      evs := [];
      assert s.journal + [] == s.journal && s.runs + RunsOf([], e.day) == s.runs;
    } else {
      var kind := if pass.countered then CounterCandidate else ConfirmVeto;
      var action := if pass.countered then sig.action.Flip() else sig.action;
      NoteExtends(s1, e, kind, slot, sig, action, Confirming(pass.verdict.reason));
      evs := [Event(kind, e.stamp, e.day, slot, sig.window, sig.id, Confirming(pass.verdict.reason), action, false, false)];
      assert evs[..0] == [];
    }
  }

  lemma {:induction false} LeaveShape(s: Bot, e: Env, slot: Slot, sig: Signal, action: Action, exit: Exit, counter: bool) returns (evs: seq<Event>)
    requires OnDay(s, e.day) && !exit.reason.Hold?
    ensures var t := Leave(s, e, slot, sig, action, exit, counter);
            Extends(s, t, e, slot, sig.window, evs) && SameTrades(s, t) && OnDay(t, e.day)
    ensures TerminalCount(evs, e.day, slot) == if exit.terminal then 1 else 0
  {
    var run := Run(e.day, slot, sig.id, exit.reason, action, exit.terminal, counter);
    var s1 := Mark(s, e, slot, sig, action, exit.reason, exit.terminal, counter);
    MarkExtends(s, e, slot, sig, action, exit.reason, exit.terminal, counter);
    evs := RunEvents(e, slot, sig.window, run);
    RunEventsTerminals(e, slot, sig.window, run);
    if !e.write.WriteOk? {
      var more := CrashShape(s1, e, slot, sig, action);
      ExtendsTwice(s, s1, Crash(s1, e, slot, sig, action), e, slot, sig.window, evs, more);
      TerminalCountConcat(evs, more, e.day, slot);
      evs := evs + more;
    }
  }

  lemma {:induction false} CrashShape(s: Bot, e: Env, slot: Slot, sig: Signal, action: Action) returns (evs: seq<Event>)
    requires OnDay(s, e.day)
    ensures var t := Crash(s, e, slot, sig, action);
            Extends(s, t, e, slot, sig.window, evs) && SameTrades(s, t) && OnDay(t, e.day)
    ensures TerminalCount(evs, e.day, slot) == 0
  {
    var run := Run(e.day, slot, sig.id, ExecutionException, action, false, false);
    MarkExtends(s, e, slot, sig, action, ExecutionException, false, false);
    evs := RunEvents(e, slot, sig.window, run);
    RunEventsTerminals(e, slot, sig.window, run);
  }

  /** `m` is `s` with one more order, placed after `first` was journalled. */
  ghost predicate JustPlaced(c: Config, s: Bot, m: Bot, e: Env, slot: Slot, first: seq<Event>) {
    && s.tradesTaken < c.maxTradesPerDay && m.tradesTaken == s.tradesTaken + 1
    && |m.orders| > 0 && m.orders == s.orders + [m.orders[|m.orders| - 1]]
    && var o := m.orders[|m.orders| - 1];
    o.day == e.day && o.slot == slot && o.logged == |s.journal| + |first|
  }

  lemma {:induction false} EffectsShape(c: Config, s: Bot, e: Env, slot: Slot, sig: Signal, pass: Pass, last: int) returns (evs: seq<Event>)
    requires OnDay(s, e.day) && (last >= PLACE_STAGE ==> s.tradesTaken < c.maxTradesPerDay)
    ensures var t := Effects(s, e, slot, sig, pass, last);
            && Extends(s, t, e, slot, sig.window, evs) && OnDay(t, e.day)
            && (if last >= PLACE_STAGE && Accepted(e) then JustPlaced(c, s, t, e, slot, evs) else SameTrades(s, t))
    ensures TerminalCount(evs, e.day, slot) == 0
  {
    evs := ConfirmEffectsShape(s, e, slot, sig, pass, last);
    ClearKeeps(ConfirmEffects(s, e, slot, sig, pass, last), e.day);
  }

  lemma {:induction false} PlacedThen(c: Config, s: Bot, m: Bot, t: Bot, e: Env, slot: Slot, first: seq<Event>, rest: seq<Event>)
    requires JustPlaced(c, s, m, e, slot, first) && SameTrades(m, t)
    requires Accepted(e) && e.raiseBefore >= MARK_STAGE
    requires TerminalCount(first, e.day, slot) == 0
    requires TerminalCount(rest, e.day, slot) == if e.raiseBefore > MARK_STAGE then 1 else 0
    ensures PlacedOne(c, s, t, e, slot, first + rest)
  {
    TerminalCountConcat(first, rest, e.day, slot);
    assert (first + rest)[..|first|] == first;
  }

  /** Lines journalled before the placing part do not disturb what it says about its order. */
  lemma {:induction false} PlacedAfter(c: Config, s: Bot, m: Bot, t: Bot, e: Env, slot: Slot, first: seq<Event>, rest: seq<Event>)
    requires SameTrades(s, m) && m.journal == s.journal + first && PlacedOne(c, m, t, e, slot, rest)
    requires TerminalCount(first, e.day, slot) == 0
    ensures PlacedOne(c, s, t, e, slot, first + rest)
  {
    PrefixCount(first, rest, t.orders[|t.orders| - 1].logged - |m.journal|, e.day, slot);
    TerminalCountConcat(first, rest, e.day, slot);
  }

  lemma {:induction false} PrefixCount(first: seq<Event>, rest: seq<Event>, n: nat, day: int, slot: Slot)
    requires n <= |rest|
    ensures TerminalCount((first + rest)[..|first| + n], day, slot) ==
            TerminalCount(first, day, slot) + TerminalCount(rest[..n], day, slot)
  {
    assert (first + rest)[..|first| + n] == first + rest[..n];
    TerminalCountConcat(first, rest[..n], day, slot);
  }

  /** The guarded part: at most one terminal run, at most one order, the order first. */
  lemma {:induction false} ConcludeShape(c: Config, s: Bot, e: Env, slot: Slot, sig: Signal, pass: Pass, exit: Exit) returns (evs: seq<Event>)
    requires OnDay(s, e.day) && exit.stage <= MARK_STAGE && !exit.reason.Hold?
    requires exit.stage >= PLACE_STAGE ==> exit.stage == MARK_STAGE && exit.terminal && s.tradesTaken < c.maxTradesPerDay
    ensures var t := Conclude(s, e, slot, sig, pass, exit);
            && Extends(s, t, e, slot, sig.window, evs) && OnDay(t, e.day)
            && TerminalCount(evs, e.day, slot) <= 1
            && (SameTrades(s, t) || PlacedOne(c, s, t, e, slot, evs))
  {
    var raised := e.raiseBefore <= exit.stage;
    var last := if raised then e.raiseBefore - 1 else exit.stage;
    var m := Effects(s, e, slot, sig, pass, last);
    var first := EffectsShape(c, s, e, slot, sig, pass, last);
    var t, rest := RecordShape(m, e, slot, sig, TradedAction(sig, pass, last), exit, CounterMark(e, pass, exit.stage), raised);
    assert t == Conclude(s, e, slot, sig, pass, exit);
    evs := first + rest;
    ExtendsTwice(s, m, t, e, slot, sig.window, first, rest);
    TerminalCountConcat(first, rest, e.day, slot);
    if last >= PLACE_STAGE && Accepted(e) {
      PlacedThen(c, s, m, t, e, slot, first, rest);
    }
  }

  lemma {:induction false} RecordShape(m: Bot, e: Env, slot: Slot, sig: Signal, action: Action, exit: Exit, counter: bool, raised: bool)
    returns (t: Bot, evs: seq<Event>)
    requires OnDay(m, e.day) && !exit.reason.Hold?
    ensures t == if raised then Crash(m, e, slot, sig, action) else Leave(m, e, slot, sig, action, exit, counter)
    ensures Extends(m, t, e, slot, sig.window, evs) && SameTrades(m, t) && OnDay(t, e.day)
    ensures TerminalCount(evs, e.day, slot) == if !raised && exit.terminal then 1 else 0
  {
    if raised {
      t := Crash(m, e, slot, sig, action);
      evs := CrashShape(m, e, slot, sig, action);
    } else {
      t := Leave(m, e, slot, sig, action, exit, counter);
      evs := LeaveShape(m, e, slot, sig, action, exit, counter);
    }
  }

  lemma {:induction false} FirstExitShape(c: Config, taken: int, e: Env, pass: Pass)
    ensures var exit := FirstExit(c, taken, e, pass);
            && 1 <= exit.stage <= MARK_STAGE && !exit.reason.Hold?
            && (exit.stage >= PLACE_STAGE ==> exit.stage == MARK_STAGE && exit.terminal && taken < c.maxTradesPerDay)
  {}

  /** One iteration either only rolls the day over, or records runs of exactly one slot. */
  lemma {:induction false} IterateShape(c: Config, s: Bot, e: Env) returns (evs: seq<Event>)
    ensures var s' := Iterate(c, s, e);
            if WorkSlot(s, e).None? then s' == s || s' == ClearForDay(s, e.day)
            else Worked(c, s, s', e, WorkSlot(s, e).value, evs)
  {
    evs := [];
    if WorkSlot(s, e).Some? {
      var sig, slot := s.file.value, WorkSlot(s, e).value;
      var b, grace := ClearForDay(s, e.day), e.entrySlot.None?;
      ClearIsOnDay(s, e.day);
      IterateWorks(c, s, e);
      evs := ProcessShape(c, Track(b, slot, sig.id, e.now), e, slot, grace, sig);
      FromTracked(c, b, Iterate(c, s, e), e, slot, sig.id, sig.window, evs);
    } else {
      IterateRests(c, s, e);
    }
  }

  lemma {:induction false} IterateWorks(c: Config, s: Bot, e: Env)
    requires WorkSlot(s, e).Some?
    ensures s.file.Some?
    ensures var slot, sig := WorkSlot(s, e).value, s.file.value;
            Iterate(c, s, e) == Process(c, Track(ClearForDay(s, e.day), slot, sig.id, e.now), e, slot, e.entrySlot.None?, sig)
  {
  }

  lemma {:induction false} IterateRests(c: Config, s: Bot, e: Env)
    requires WorkSlot(s, e).None?
    ensures Iterate(c, s, e) == s || Iterate(c, s, e) == ClearForDay(s, e.day)
  {
  }

  /** The retry clock plays no part in what an iteration adds. */
  lemma {:induction false} FromTracked(c: Config, b: Bot, t: Bot, e: Env, slot: Slot, id: string, window: Option<Slot>, evs: seq<Event>)
    requires var s1 := Track(b, slot, id, e.now);
             Extends(s1, t, e, slot, window, evs) && (SameTrades(s1, t) || PlacedOne(c, s1, t, e, slot, evs))
    ensures Extends(b, t, e, slot, window, evs) && (SameTrades(b, t) || PlacedOne(c, b, t, e, slot, evs))
  {
  }

  predicate StaleTwice(e: Env, sig: Signal) {
    && sig.action.Directional() && sig.time.Some? && e.now - sig.time.value > e.ageLimit * SECOND
    && sig.time.value >= e.slotStart && e.write.WriteValueError?
  }

  lemma {:induction false} ProcessShape(c: Config, s: Bot, e: Env, slot: Slot, grace: bool, sig: Signal) returns (evs: seq<Event>)
    requires OnDay(s, e.day)
    ensures var t := Process(c, s, e, slot, grace, sig);
            && Extends(s, t, e, slot, sig.window, evs) && OnDay(t, e.day)
            && TerminalCount(evs, e.day, slot) <= 2
            && (TerminalCount(evs, e.day, slot) == 2 <==> StaleTwice(e, sig))
            && (SameTrades(s, t) || PlacedOne(c, s, t, e, slot, evs))
  {
    if !sig.action.Directional() {
      evs := MarkShape(s, e, slot, sig, Hold, true);
    } else {
      var s1 := Note(s, e, SignalDecision, slot, sig, sig.action, Hold);
      NoteExtends(s, e, SignalDecision, slot, sig, sig.action, Hold);
      var first := [Event(SignalDecision, e.stamp, e.day, slot, sig.window, sig.id, Hold, sig.action, false, false)];
      assert first[..0] == [] && TerminalCount(first, e.day, slot) == 0;
      var t, rest := DirectionalShape(c, s1, e, slot, grace, sig);
      evs := first + rest;
      ExtendsTwice(s, s1, t, e, slot, sig.window, first, rest);
      TerminalCountConcat(first, rest, e.day, slot);
      if !SameTrades(s, t) {
        PlacedAfter(c, s, s1, t, e, slot, first, rest);
      }
    }
  }

  /** What follows the `signal_decision` line of a directional signal. */
  lemma {:induction false} DirectionalShape(c: Config, s: Bot, e: Env, slot: Slot, grace: bool, sig: Signal) returns (t: Bot, evs: seq<Event>)
    requires OnDay(s, e.day) && sig.action.Directional()
    ensures t == if sig.time.None? then Mark(s, e, slot, sig, sig.action, InvalidSignalTimestamp, true, false)
                 else if e.now - sig.time.value > e.ageLimit * SECOND then AfterStale(s, e, slot, sig)
                 else Attempt(c, s, e, slot, grace, sig)
    ensures Extends(s, t, e, slot, sig.window, evs) && OnDay(t, e.day)
    ensures TerminalCount(evs, e.day, slot) <= 2
    ensures TerminalCount(evs, e.day, slot) == 2 <==> StaleTwice(e, sig)
    ensures SameTrades(s, t) || PlacedOne(c, s, t, e, slot, evs)
  {
    if sig.time.None? {
      t := Mark(s, e, slot, sig, sig.action, InvalidSignalTimestamp, true, false);
      evs := MarkShape(s, e, slot, sig, InvalidSignalTimestamp, true);
    } else if e.now - sig.time.value > e.ageLimit * SECOND {
      t := AfterStale(s, e, slot, sig);
      evs := StaleShape(s, e, slot, sig);
    } else {
      ClearKeeps(s, e.day);
      var pass := ConfirmStage(c, e, sig, grace);
      var exit := FirstExit(c, s.tradesTaken, e, pass);
      FirstExitShape(c, s.tradesTaken, e, pass);
      t := Conclude(s, e, slot, sig, pass, exit);
      evs := ConcludeShape(c, s, e, slot, sig, pass, exit);
    }
  }

  lemma {:induction false} MarkShape(s: Bot, e: Env, slot: Slot, sig: Signal, reason: Reason, terminal: bool) returns (evs: seq<Event>)
    requires OnDay(s, e.day) && (reason.Hold? ==> !sig.action.Directional())
    ensures var t := Mark(s, e, slot, sig, sig.action, reason, terminal, false);
            Extends(s, t, e, slot, sig.window, evs) && SameTrades(s, t) && OnDay(t, e.day)
    ensures TerminalCount(evs, e.day, slot) == if terminal then 1 else 0
  {
    MarkExtends(s, e, slot, sig, sig.action, reason, terminal, false);
    var run := Run(e.day, slot, sig.id, reason, sig.action, terminal, false);
    evs := RunEvents(e, slot, sig.window, run);
    RunEventsTerminals(e, slot, sig.window, run);
  }

  /** The branch for a signal that is too old. */
  lemma {:induction false} StaleShape(s: Bot, e: Env, slot: Slot, sig: Signal) returns (evs: seq<Event>)
    requires OnDay(s, e.day) && sig.time.Some?
    ensures var t := AfterStale(s, e, slot, sig);
            && Extends(s, t, e, slot, sig.window, evs) && SameTrades(s, t) && OnDay(t, e.day)
            && TerminalCount(evs, e.day, slot) ==
               (if sig.time.value >= e.slotStart then 1 else 0) + (if e.write.WriteValueError? then 1 else 0)
  {
    var terminal := sig.time.value >= e.slotStart;
    var s2 := Mark(s, e, slot, sig, sig.action, Stale, terminal, false);
    evs := MarkShape(s, e, slot, sig, Stale, terminal);
    if e.write.WriteValueError? {
      var more := MarkShape(s2, e, slot, sig, InvalidSignalTimestamp, true);
      ExtendsTwice(s, s2, Mark(s2, e, slot, sig, sig.action, InvalidSignalTimestamp, true, false), e, slot, sig.window, evs, more);
      TerminalCountConcat(evs, more, e.day, slot);
      evs := evs + more;
    }
  }
}
