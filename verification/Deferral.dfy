/**
 The deferral protocol of the confirm pass, over every run in which the poll loop itself
 confirms and each published signal is new and carries no deferral marks.
 */
module DeferralProtocol {
  import opened Trading
  import opened PollLoop
  import opened PollSafety

  function PublishedIds(steps: seq<Step>): set<string> {
    if steps == [] then {}
    else PublishedIds(steps[..|steps| - 1]) +
         match steps[|steps| - 1] {
           case Publish(Some(sig)) => {sig.id}
           case _ => {}
         }
  }

  ghost predicate FreshSignal(sig: Signal, earlier: set<string>) {
    !sig.WasDeferred() && !sig.confirmReason.Soft() && (sig.id == "" || sig.id !in earlier)
  }

  ghost predicate Disciplined(steps: seq<Step>) {
    forall i :: 0 <= i < |steps| && steps[i].Publish? && steps[i].file.Some? ==>
      FreshSignal(steps[i].file.value, PublishedIds(steps[..i]))
  }

  ghost predicate HasDeferral(s: Bot, id: string) {
    exists d :: d in s.deferrals && d.signalId == id
  }

  /** What the signal file remembers, and what the retry clock remembers about it. */
  ghost predicate FileRemembers(s: Bot) {
    s.file.Some? ==>
      var f := s.file.value;
      && (f.WasDeferred() ==> HasDeferral(s, f.id))
      && (f.confirmReason.Soft() ==> HasDeferral(s, f.id))
      && forall d :: d in s.deferrals && d.signalId == f.id ==>
           && f.WasDeferred() && f.id != ""
           && (s.tradeDate == Some(d.day) ==>
                d.slot in s.lastId && s.lastId[d.slot] == f.id && d.slot in s.lastSeen && s.lastSeen[d.slot] >= d.at)
  }

  ghost predicate DeferralsDated(s: Bot) {
    forall d :: d in s.deferrals ==> d.signalId != "" && s.tradeDate.Some? && d.day <= s.tradeDate.value
  }

  ghost predicate DeferredOnce(s: Bot) {
    forall i, j :: 0 <= i < j < |s.deferrals| ==> s.deferrals[i].signalId != s.deferrals[j].signalId
  }

  /** A soft-confirmed order and the deferral that allows it. */
  ghost predicate Backed(o: Order, d: Deferral) {
    && d.signalId == o.signalId
    && (d.slot == o.slot && d.day == o.day ==> o.at - d.at >= 45 * SECOND)
  }

  ghost predicate SoftOrdersBacked(s: Bot) {
    forall o :: o in s.orders && o.soft ==>
      o.multiplier == 0.5 && exists d :: d in s.deferrals && Backed(o, d)
  }

  ghost predicate Protocol(s: Bot, published: set<string>) {
    && FileRemembers(s) && DeferralsDated(s) && DeferredOnce(s) && SoftOrdersBacked(s)
    && (s.file.Some? ==> s.file.value.id in published)
    && (forall d :: d in s.deferrals ==> d.signalId in published)
  }

  // ---------------------------------------------------------------- what a poll does to the file

  /** The confirm pass of a poll, as far as file and log are concerned. */
  ghost predicate FileStep(s: Bot, t: Bot, e: Env, slot: Slot, sig: Signal, pass: Pass) {
    || (t.file == s.file && t.deferrals == s.deferrals)
    || (&& pass.confirm.Some?
        && var p := AfterPersist(s, e, slot, sig, pass.confirm.value);
           t.file == p.file && t.deferrals == p.deferrals)
  }

  ghost predicate OrderFor(o: Order, e: Env, slot: Slot, sig: Signal, pass: Pass) {
    && o.day == e.day && o.slot == slot && o.signalId == sig.id && o.at == e.now
    && o.soft == pass.Soft() && o.multiplier == (if o.soft then 0.5 else 1.0)
  }

  ghost predicate OrderStep(s: Bot, t: Bot, e: Env, slot: Slot, sig: Signal, pass: Pass) {
    || t.orders == s.orders
    || (!pass.Defers() && exists o :: t.orders == s.orders + [o] && OrderFor(o, e, slot, sig, pass))
  }

  ghost predicate ClockStep(s: Bot, t: Bot, slot: Slot, sig: Signal) {
    t.lastSeen == s.lastSeen && (t.lastId == s.lastId || t.lastId == s.lastId[slot := sig.id])
  }

  lemma {:induction false} MarkLeavesFile(s: Bot, e: Env, slot: Slot, sig: Signal, action: Action, reason: Reason, terminal: bool, counter: bool)
    requires OnDay(s, e.day)
    ensures var t := Mark(s, e, slot, sig, action, reason, terminal, counter);
            && t.file == s.file && t.deferrals == s.deferrals && t.orders == s.orders
            && ClockStep(s, t, slot, sig) && OnDay(t, e.day)
  {
    ClearKeeps(s, e.day);
  }

  lemma {:induction false} ClockTwice(s: Bot, m: Bot, t: Bot, slot: Slot, sig: Signal)
    requires ClockStep(s, m, slot, sig) && ClockStep(m, t, slot, sig)
    ensures ClockStep(s, t, slot, sig)
  {
    assert s.lastId[slot := sig.id][slot := sig.id] == s.lastId[slot := sig.id];
  }

  /** Two runs recorded one after the other. */
  lemma {:induction false} TwoMarksLeaveFile(s: Bot, e: Env, slot: Slot, sig: Signal, action: Action, first: Reason, t1: bool, counter: bool, second: Reason, t2: bool)
    requires OnDay(s, e.day)
    ensures var t := Mark(Mark(s, e, slot, sig, action, first, t1, counter), e, slot, sig, action, second, t2, false);
            t.file == s.file && t.deferrals == s.deferrals && t.orders == s.orders && ClockStep(s, t, slot, sig)
  {
    var m := Mark(s, e, slot, sig, action, first, t1, counter);
    MarkLeavesFile(s, e, slot, sig, action, first, t1, counter);
    MarkLeavesFile(m, e, slot, sig, action, second, t2, false);
    ClockTwice(s, m, Mark(m, e, slot, sig, action, second, t2, false), slot, sig);
  }

  lemma {:induction false} LeaveLeavesFile(s: Bot, e: Env, slot: Slot, sig: Signal, action: Action, exit: Exit, counter: bool)
    requires OnDay(s, e.day)
    ensures var t := Leave(s, e, slot, sig, action, exit, counter);
            t.file == s.file && t.deferrals == s.deferrals && t.orders == s.orders && ClockStep(s, t, slot, sig)
  {
    MarkLeavesFile(s, e, slot, sig, action, exit.reason, exit.terminal, counter);
    TwoMarksLeaveFile(s, e, slot, sig, action, exit.reason, exit.terminal, counter, ExecutionException, false);
  }

  lemma {:induction false} ConfirmEffectsOnFile(s: Bot, e: Env, slot: Slot, sig: Signal, pass: Pass, last: int)
    requires OnDay(s, e.day)
    ensures var t := ConfirmEffects(s, e, slot, sig, pass, last);
            && FileStep(s, t, e, slot, sig, pass) && t.orders == s.orders
            && ClockStep(s, t, slot, sig) && OnDay(t, e.day)
  {
  }

  lemma {:induction false} EffectsOnFile(s: Bot, e: Env, slot: Slot, sig: Signal, pass: Pass, last: int)
    requires OnDay(s, e.day) && (last >= PLACE_STAGE ==> !pass.Defers())
    ensures var t := Effects(s, e, slot, sig, pass, last);
            && FileStep(s, t, e, slot, sig, pass) && OrderStep(s, t, e, slot, sig, pass)
            && ClockStep(s, t, slot, sig) && OnDay(t, e.day)
  {
    var s1 := ConfirmEffects(s, e, slot, sig, pass, last);
    ConfirmEffectsOnFile(s, e, slot, sig, pass, last);
    if last >= PLACE_STAGE && Accepted(e) {
      PlacementOnFile(s1, e, slot, sig, pass);
    }
  }

  lemma {:induction false} PlacementOnFile(s: Bot, e: Env, slot: Slot, sig: Signal, pass: Pass)
    requires OnDay(s, e.day) && !pass.Defers()
    ensures var t := AfterPlacement(s, e, slot, sig, pass.Soft());
            && t.file == s.file && t.deferrals == s.deferrals && OrderStep(s, t, e, slot, sig, pass)
            && t.lastId == s.lastId && t.lastSeen == s.lastSeen && OnDay(t, e.day)
  {
    ClearKeeps(s, e.day);
    var t := AfterPlacement(s, e, slot, sig, pass.Soft());
    var o := t.orders[|s.orders|];
    assert t.orders == s.orders + [o] && OrderFor(o, e, slot, sig, pass);
  }

  lemma {:induction false} DeferredNeverPlaces(c: Config, taken: int, e: Env, pass: Pass)
    ensures pass.Defers() ==> FirstExit(c, taken, e, pass).stage <= DEFER_STAGE
  {
  }

  lemma {:induction false} ConcludeOnFile(s: Bot, e: Env, slot: Slot, sig: Signal, pass: Pass, exit: Exit)
    requires OnDay(s, e.day) && (pass.Defers() ==> exit.stage <= DEFER_STAGE)
    ensures var t := Conclude(s, e, slot, sig, pass, exit);
            FileStep(s, t, e, slot, sig, pass) && OrderStep(s, t, e, slot, sig, pass) && ClockStep(s, t, slot, sig)
  {
    var raised := e.raiseBefore <= exit.stage;
    var last := if raised then e.raiseBefore - 1 else exit.stage;
    EffectsOnFile(s, e, slot, sig, pass, last);
    var m, action := Effects(s, e, slot, sig, pass, last), TradedAction(sig, pass, last);
    var t := RecordLeavesFile(m, e, slot, sig, action, exit, CounterMark(e, pass, exit.stage), raised);
    ThenRecorded(s, m, t, e, slot, sig, pass);
  }

  lemma {:induction false} RecordLeavesFile(m: Bot, e: Env, slot: Slot, sig: Signal, action: Action, exit: Exit, counter: bool, raised: bool)
    returns (t: Bot)
    requires OnDay(m, e.day)
    ensures t == if raised then Crash(m, e, slot, sig, action) else Leave(m, e, slot, sig, action, exit, counter)
    ensures t.file == m.file && t.deferrals == m.deferrals && t.orders == m.orders && ClockStep(m, t, slot, sig)
  {
    if raised {
      t := Crash(m, e, slot, sig, action);
      MarkLeavesFile(m, e, slot, sig, action, ExecutionException, false, false);
    } else {
      t := Leave(m, e, slot, sig, action, exit, counter);
      LeaveLeavesFile(m, e, slot, sig, action, exit, counter);
    }
  }

  /** Recording a run after the stages adds nothing to what the stages did. */
  lemma {:induction false} ThenRecorded(s: Bot, m: Bot, t: Bot, e: Env, slot: Slot, sig: Signal, pass: Pass)
    requires FileStep(s, m, e, slot, sig, pass) && OrderStep(s, m, e, slot, sig, pass) && ClockStep(s, m, slot, sig)
    requires t.file == m.file && t.deferrals == m.deferrals && t.orders == m.orders && ClockStep(m, t, slot, sig)
    ensures FileStep(s, t, e, slot, sig, pass) && OrderStep(s, t, e, slot, sig, pass) && ClockStep(s, t, slot, sig)
  {
  }

  lemma {:induction false} ProcessOnFile(c: Config, s: Bot, e: Env, slot: Slot, grace: bool, sig: Signal, pass: Pass)
    requires OnDay(s, e.day) && pass == ConfirmStage(c, e, sig, grace)
    ensures var t := Process(c, s, e, slot, grace, sig);
            FileStep(s, t, e, slot, sig, pass) && OrderStep(s, t, e, slot, sig, pass) && ClockStep(s, t, slot, sig)
  {
    if !sig.action.Directional() {
      MarkLeavesFile(s, e, slot, sig, sig.action, Hold, true, false);
    } else {
      var s1 := Note(s, e, SignalDecision, slot, sig, sig.action, Hold);
      var t := DirectionalOnFile(c, s1, e, slot, grace, sig, pass);
      SameStart(s, s1, t, e, slot, sig, pass);
    }
  }

  /** Lines journalled before do not matter to file, orders and retry clock. */
  lemma {:induction false} SameStart(s: Bot, m: Bot, t: Bot, e: Env, slot: Slot, sig: Signal, pass: Pass)
    requires m == s.(journal := m.journal)
    requires FileStep(m, t, e, slot, sig, pass) && OrderStep(m, t, e, slot, sig, pass) && ClockStep(m, t, slot, sig)
    ensures FileStep(s, t, e, slot, sig, pass) && OrderStep(s, t, e, slot, sig, pass) && ClockStep(s, t, slot, sig)
  {
  }

  lemma {:induction false} DirectionalOnFile(c: Config, s: Bot, e: Env, slot: Slot, grace: bool, sig: Signal, pass: Pass) returns (t: Bot)
    requires OnDay(s, e.day) && pass == ConfirmStage(c, e, sig, grace)
    ensures t == if sig.time.None? then Mark(s, e, slot, sig, sig.action, InvalidSignalTimestamp, true, false)
                 else if e.now - sig.time.value > e.ageLimit * SECOND then AfterStale(s, e, slot, sig)
                 else Attempt(c, s, e, slot, grace, sig)
    ensures FileStep(s, t, e, slot, sig, pass) && OrderStep(s, t, e, slot, sig, pass) && ClockStep(s, t, slot, sig)
  {
    if sig.time.None? {
      t := Mark(s, e, slot, sig, sig.action, InvalidSignalTimestamp, true, false);
      MarkLeavesFile(s, e, slot, sig, sig.action, InvalidSignalTimestamp, true, false);
    } else if e.now - sig.time.value > e.ageLimit * SECOND {
      t := AfterStale(s, e, slot, sig);
      var terminal := sig.time.value >= e.slotStart;
      MarkLeavesFile(s, e, slot, sig, sig.action, Stale, terminal, false);
      TwoMarksLeaveFile(s, e, slot, sig, sig.action, Stale, terminal, false, InvalidSignalTimestamp, true);
    } else {
      ClearKeeps(s, e.day);
      DeferredNeverPlaces(c, s.tradesTaken, e, pass);
      var exit := FirstExit(c, s.tradesTaken, e, pass);
      t := Conclude(s, e, slot, sig, pass, exit);
      ConcludeOnFile(s, e, slot, sig, pass, exit);
    }
  }

  // ---------------------------------------------------------------- the protocol is kept

  /** A soft verdict rests on deferral marks, or on an earlier soft verdict in the file. */
  lemma {:induction false} SoftNeedsMarks(c: Config, e: Env, sig: Signal, grace: bool)
    ensures ConfirmStage(c, e, sig, grace).Soft() ==> sig.WasDeferred() || sig.confirmReason.Soft()
  {
  }

  /** A confirm pass defers only an unmarked signal, and always leaves marks behind. */
  lemma {:induction false} DeferralMarks(c: Config, e: Env, sig: Signal, grace: bool)
    ensures var k := ConfirmPass(c, e, sig, grace);
            && (k.reason.MicrostructureDeferred? ==> !sig.WasDeferred() && sig.id != "" && Merged(sig, k).WasDeferred())
            && (sig.WasDeferred() ==> Merged(sig, k).WasDeferred())
            && (k.reason.Soft() ==> sig.WasDeferred())
            && Merged(sig, k).id == sig.id
            && (Merged(sig, k).WasDeferred() ==> sig.WasDeferred() || k.reason.MicrostructureDeferred?)
  {
  }

  ghost predicate ReadyToWork(s: Bot, e: Env, slot: Slot, sig: Signal) {
    OnDay(s, e.day) && s.file == Some(sig) && ShouldRetry(s, slot, sig.id, e.now)
  }

  /** Deferrals of the signal at hand, in this slot and on this day, are 45 seconds old. */
  lemma {:induction false} BackoffHolds(s: Bot, e: Env, slot: Slot, sig: Signal, d: Deferral)
    requires FileRemembers(s) && ReadyToWork(s, e, slot, sig)
    requires d in s.deferrals && d.signalId == sig.id && d.slot == slot && d.day == e.day
    ensures e.now - d.at >= RETRY_BACKOFF
  {
  }

  /** Moving the retry clock to the signal at hand keeps what the file remembers. */
  lemma {:induction false} TrackKeeps(s: Bot, e: Env, slot: Slot, sig: Signal)
    requires FileRemembers(s) && ReadyToWork(s, e, slot, sig)
    ensures FileRemembers(Track(s, slot, sig.id, e.now))
  {
    forall d | d in s.deferrals && d.signalId == sig.id && d.slot == slot && d.day == e.day
      ensures e.now >= d.at
    {
      BackoffHolds(s, e, slot, sig, d);
    }
  }

  lemma {:induction false} WorkKeepsProtocol(c: Config, s: Bot, t: Bot, e: Env, slot: Slot, grace: bool, sig: Signal, pass: Pass, published: set<string>)
    requires Protocol(s, published) && OnDay(s, e.day) && s.file == Some(sig) && pass == ConfirmStage(c, e, sig, grace)
    requires slot in s.lastSeen && s.lastSeen[slot] == e.now && slot in s.lastId && s.lastId[slot] == sig.id
    requires FileStep(s, t, e, slot, sig, pass) && OrderStep(s, t, e, slot, sig, pass) && ClockStep(s, t, slot, sig)
    requires t.tradeDate == s.tradeDate
    requires forall d :: d in s.deferrals && d.signalId == sig.id && d.slot == slot && d.day == e.day ==> e.now - d.at >= RETRY_BACKOFF
    ensures Protocol(t, published)
  {
    assert t.lastId == s.lastId;
    FileStepKeeps(c, s, t, e, slot, grace, sig, pass, published);
    SoftNeedsMarks(c, e, sig, grace);
    forall o | o in t.orders && o.soft
      ensures o.multiplier == 0.5 && exists d :: d in t.deferrals && Backed(o, d)
    {
      if o in s.orders {
        var d :| d in s.deferrals && Backed(o, d);
        assert d in t.deferrals;
      } else {
        assert HasDeferral(s, sig.id);
        var d :| d in s.deferrals && d.signalId == sig.id;
        assert d in t.deferrals && Backed(o, d);
      }
    }
  }

  lemma {:induction false} FileStepKeeps(c: Config, s: Bot, t: Bot, e: Env, slot: Slot, grace: bool, sig: Signal, pass: Pass, published: set<string>)
    requires Protocol(s, published) && OnDay(s, e.day) && s.file == Some(sig) && pass == ConfirmStage(c, e, sig, grace)
    requires slot in s.lastSeen && s.lastSeen[slot] == e.now && slot in s.lastId && s.lastId[slot] == sig.id
    requires FileStep(s, t, e, slot, sig, pass)
    requires t.lastId == s.lastId && t.lastSeen == s.lastSeen && t.tradeDate == s.tradeDate
    ensures FileRemembers(t) && DeferralsDated(t) && DeferredOnce(t)
    ensures t.file.Some? ==> t.file.value.id in published
    ensures forall d :: d in t.deferrals ==> d.signalId in published
    ensures forall d :: d in s.deferrals ==> d in t.deferrals
  {
    DeferralMarks(c, e, sig, grace);
    if t.file == s.file && t.deferrals == s.deferrals {
    } else {
      var k := ConfirmPass(c, e, sig, grace);
      if e.persist.Written? && k.reason.MicrostructureDeferred? {
        var added := Deferral(e.day, slot, sig.id, e.now);
        assert t.deferrals == s.deferrals + [added];
        assert added in t.deferrals;
        assert forall d :: d in s.deferrals ==> d.signalId != sig.id;
      }
    }
  }

  lemma {:induction false} RollOverKeeps(s: Bot, e: Env, published: set<string>)
    requires Protocol(s, published) && Timely(s, e)
    ensures Protocol(ClearForDay(s, e.day), published)
  {
  }

  lemma {:induction false} PollKeepsProtocol(c: Config, s: Bot, e: Env, published: set<string>)
    requires Protocol(s, published) && Timely(s, e)
    ensures Protocol(Iterate(c, s, e), published)
  {
    RollOverKeeps(s, e, published);
    ClearIsOnDay(s, e.day);
    if WorkSlot(s, e).Some? {
      var sig, slot, b := s.file.value, WorkSlot(s, e).value, ClearForDay(s, e.day);
      var s1 := Track(b, slot, sig.id, e.now);
      TrackKeeps(b, e, slot, sig);
      forall d | d in b.deferrals && d.signalId == sig.id && d.slot == slot && d.day == e.day
        ensures e.now - d.at >= RETRY_BACKOFF
      {
        BackoffHolds(b, e, slot, sig, d);
      }
      var grace := e.entrySlot.None?;
      var pass := ConfirmStage(c, e, sig, grace);
      ProcessOnFile(c, s1, e, slot, grace, sig, pass);
      IterateWorks(c, s, e);
      assert Iterate(c, s, e).tradeDate == Some(e.day) by {
        var evs := IterateShape(c, s, e);
      }
      WorkKeepsProtocol(c, s1, Iterate(c, s, e), e, slot, grace, sig, pass, published);
    }
  }

  /**
   In every disciplined run: each soft-confirmed order is sized with half risk and follows a
   persisted deferral of the same signal, at least 45 seconds earlier if in the same slot of
   the same day; and no signal is deferred twice once its deferral has been persisted.
   */
  lemma {:induction false} ProtocolAlways(c: Config, steps: seq<Step>)
    requires ClockRuns(c, steps) && Disciplined(steps)
    ensures Protocol(After(c, steps), PublishedIds(steps))
  {
    if steps != [] {
      var front, last := steps[..|steps| - 1], steps[|steps| - 1];
      ClockPrefix(c, steps);
      forall i | 0 <= i < |front| ensures front[i] == steps[i] && front[..i] == steps[..i] {}
      ProtocolAlways(c, front);
      match last
      case Poll(e) => PollKeepsProtocol(c, After(c, front), e, PublishedIds(front));
      case Publish(file) =>
    }
  }

  /** A signal whose deferral is on record is never deferred again. */
  lemma {:induction false} NeverDeferredAgain(c: Config, steps: seq<Step>, e: Env, grace: bool)
    requires ClockRuns(c, steps) && Disciplined(steps)
    requires var s := After(c, steps); s.file.Some? && HasDeferral(s, s.file.value.id)
    ensures !ConfirmPass(c, e, After(c, steps).file.value, grace).reason.MicrostructureDeferred?
  {
    ProtocolAlways(c, steps);
    DeferralMarks(c, e, After(c, steps).file.value, grace);
  }
}
