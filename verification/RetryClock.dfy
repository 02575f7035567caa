/**
 The retry clock over whole runs: which polls work on a slot, told from the history alone,
 and how far apart two attempts on the same signal are.
 */
module RetryClock {
  import opened Trading
  import opened PollLoop
  import opened PollSafety
  import opened PollRuns
  import opened DeferralProtocol

  /** A poll that gets past clock and retry guard: the day, the slot and the signal it works on. */
  datatype Attempt = Attempt(day: int, slot: Slot, signalId: string)

  function AttemptAt(c: Config, steps: seq<Step>, i: nat): Option<Attempt>
    requires i < |steps|
  {
    if !steps[i].Poll? then None
    else
      var s, e := After(c, steps[..i]), steps[i].e;
      if WorkSlot(s, e).None? then None else Some(Attempt(e.day, WorkSlot(s, e).value, s.file.value.id))
  }

  /** As long as the day lasts, the clock of the slot stands at this attempt. */
  ghost predicate ClockStands(s: Bot, a: Attempt, at: int) {
    && s.tradeDate.Some? && a.day <= s.tradeDate.value
    && (s.tradeDate.value == a.day ==>
          a.slot in s.lastId && s.lastId[a.slot] == a.signalId && a.slot in s.lastSeen && s.lastSeen[a.slot] == at)
  }

  /** What a working poll leaves in the clock. */
  lemma {:induction false} WorkSetsClock(c: Config, s: Bot, e: Env)
    requires WorkSlot(s, e).Some?
    ensures var t, b := Iterate(c, s, e), ClearForDay(s, e.day);
            var slot, id := WorkSlot(s, e).value, s.file.value.id;
            t.lastId == b.lastId[slot := id] && t.lastSeen == b.lastSeen[slot := e.now] && t.tradeDate == Some(e.day)
  {
    var b, slot, sig := ClearForDay(s, e.day), WorkSlot(s, e).value, s.file.value;
    ClearIsOnDay(s, e.day);
    IterateWorks(c, s, e);
    ProcessOnFile(c, Track(b, slot, sig.id, e.now), e, slot, e.entrySlot.None?, sig, ConfirmStage(c, e, sig, e.entrySlot.None?));
    assert b.lastId[slot := sig.id][slot := sig.id] == b.lastId[slot := sig.id];
    var evs := IterateShape(c, s, e);
  }

  /** A step that is no attempt on the slot that day leaves the clock standing. */
  lemma {:induction false} OtherStepsKeepClock(c: Config, s: Bot, step: Step, a: Attempt, at: int)
    requires ClockStands(s, a, at) && (step.Poll? ==> Timely(s, step.e))
    requires step.Poll? && WorkSlot(s, step.e).Some? ==> step.e.day != a.day || WorkSlot(s, step.e).value != a.slot
    ensures ClockStands(Next(c, s, step), a, at)
  {
    if step.Poll? {
      ClearIsOnDay(s, step.e.day);
      if WorkSlot(s, step.e).Some? {
        WorkSetsClock(c, s, step.e);
      } else {
        IterateRests(c, s, step.e);
      }
    }
  }

  /** Step `k` is an attempt on the slot, in the day, of attempt `i`. */
  predicate Repeats(c: Config, steps: seq<Step>, i: nat, k: nat)
    requires i < |steps| && k < |steps| && AttemptAt(c, steps, i).Some?
  {
    && AttemptAt(c, steps, k).Some? && AttemptAt(c, steps, k).value.day == AttemptAt(c, steps, i).value.day
    && AttemptAt(c, steps, k).value.slot == AttemptAt(c, steps, i).value.slot
  }

  lemma {:induction false} ClockStandsUntil(c: Config, steps: seq<Step>, i: nat, j: nat)
    requires i < j <= |steps| && ClockRuns(c, steps) && AttemptAt(c, steps, i).Some?
    requires forall k :: i < k < j ==> !Repeats(c, steps, i, k)
    ensures ClockStands(After(c, steps[..j]), AttemptAt(c, steps, i).value, steps[i].e.now)
  {
    if j == i + 1 {
      AttemptSetsClock(c, steps, i);
    } else {
      ClockStandsUntil(c, steps, i, j - 1);
      assert !Repeats(c, steps, i, j - 1);
      ClockStandsOn(c, steps, i, j - 1, steps[i].e.now);
    }
  }

  lemma {:induction false} AttemptSetsClock(c: Config, steps: seq<Step>, i: nat)
    requires i < |steps| && AttemptAt(c, steps, i).Some?
    ensures ClockStands(After(c, steps[..i + 1]), AttemptAt(c, steps, i).value, steps[i].e.now)
  {
    assert steps[..i + 1][..i] == steps[..i];
    WorkSetsClock(c, After(c, steps[..i]), steps[i].e);
  }

  lemma {:induction false} ClockStandsOn(c: Config, steps: seq<Step>, i: nat, k: nat, at: int)
    requires i < |steps| && k < |steps| && ClockRuns(c, steps) && AttemptAt(c, steps, i).Some? && !Repeats(c, steps, i, k)
    requires ClockStands(After(c, steps[..k]), AttemptAt(c, steps, i).value, at)
    ensures ClockStands(After(c, steps[..k + 1]), AttemptAt(c, steps, i).value, at)
  {
    assert steps[..k + 1][..k] == steps[..k];
    OtherStepsKeepClock(c, After(c, steps[..k]), steps[k], AttemptAt(c, steps, i).value, at);
  }

  /**
   In every run two successive attempts on a slot of one day that work on the same signal are
   at least 45 seconds apart.
   */
  lemma {:induction false} RetriesSpaced(c: Config, steps: seq<Step>, i: nat, j: nat)
    requires i < j < |steps| && ClockRuns(c, steps)
    requires AttemptAt(c, steps, i).Some? && AttemptAt(c, steps, i) == AttemptAt(c, steps, j)
    requires AttemptAt(c, steps, i).value.signalId != ""
    requires forall k :: i < k < j ==> !Repeats(c, steps, i, k)
    ensures steps[j].e.now - steps[i].e.now >= 45 * SECOND
  {
    ClockStandsUntil(c, steps, i, j);
    assert Timely(After(c, steps[..j]), steps[j].e);
  }

  // ---------------------------------------------------------------- which polls work

  /** The signal of an attempt and its time. */
  datatype Visit = Visit(signalId: string, at: int)

  /** The slot of the live window, or of the grace window for a signal that was deferred before. */
  function SlotOnOffer(e: Env, sig: Signal): Option<Slot> {
    if e.entrySlot != None then e.entrySlot else if sig.deferred || sig.deferCount > 0 then e.graceWindow else None
  }

  /** A signal without an id, the first visit, another signal than last time, or 45 seconds gone by. */
  predicate Due(last: Option<Visit>, id: string, now: int) {
    id == "" || last == None || last.value.signalId != id || now - last.value.at >= 45 * SECOND
  }

  /**
   The slot a poll after these steps works on, from the history: the loop is on, a signal and a
   slot are there, the journal has no terminal run of the slot today, and the last poll of the
   day that worked on the slot was for another signal or is 45 seconds old.
   */
  function SlotWorked(c: Config, steps: seq<Step>, e: Env): Option<Slot>
    decreases |steps|, 1
  {
    var s := After(c, steps);
    if e.killSwitch || s.file == None || SlotOnOffer(e, s.file.value) == None then None
    else
      var sig, slot := s.file.value, SlotOnOffer(e, s.file.value).value;
      var last := LastVisit(c, steps, e.day, slot);
      if TerminalCount(s.journal, e.day, slot) > 0 then None
      else if Due(last, sig.id, e.now) then Some(slot)
      else None
  }

  /** The last poll of a day that worked on a slot. */
  function LastVisit(c: Config, steps: seq<Step>, day: int, slot: Slot): Option<Visit>
    decreases |steps|, 0
  {
    if steps == [] then None
    else
      var front, last := steps[..|steps| - 1], steps[|steps| - 1];
      if last.Poll? && last.e.day == day && SlotWorked(c, front, last.e) == Some(slot) && After(c, front).file.Some?
      then Some(Visit(After(c, front).file.value.id, last.e.now))
      else LastVisit(c, front, day, slot)
  }

  /** The clock of a slot as a visit. */
  function Clock(s: Bot, slot: Slot): Option<Visit> {
    if slot in s.lastId && slot in s.lastSeen then Some(Visit(s.lastId[slot], s.lastSeen[slot])) else None
  }

  /** The clock tells the last visit of the current day, and no later day has one. */
  ghost predicate ClockTells(c: Config, steps: seq<Step>, s: Bot) {
    && (s.tradeDate.Some? ==> forall slot :: Clock(s, slot) == LastVisit(c, steps, s.tradeDate.value, slot))
    && (forall day, slot :: LastVisit(c, steps, day, slot).Some? ==> s.tradeDate.Some? && day <= s.tradeDate.value)
  }

  lemma {:induction false} GuardAsksClock(s: Bot, slot: Slot, id: string, now: int)
    ensures ShouldRetry(s, slot, id, now) <==> Due(Clock(s, slot), id, now)
  {
  }

  lemma {:induction false} ClockRolls(s: Bot, day: int, slot: Slot)
    ensures Clock(ClearForDay(s, day), slot) == if s.tradeDate == Some(day) then Clock(s, slot) else None
  {
  }

  lemma {:induction false} ClockAfterRollOver(c: Config, steps: seq<Step>, s: Bot, e: Env, slot: Slot)
    requires Timely(s, e) && ClockTells(c, steps, s)
    ensures Clock(ClearForDay(s, e.day), slot) == LastVisit(c, steps, e.day, slot)
  {
    ClockRolls(s, e.day, slot);
    if s.tradeDate == Some(e.day) {
      assert Clock(s, slot) == LastVisit(c, steps, s.tradeDate.value, slot);
    } else if LastVisit(c, steps, e.day, slot).Some? {
      assert false;
    }
  }

  /** What decides whether an offered slot is worked on. */
  lemma {:induction false} OfferTaken(s: Bot, e: Env)
    requires !e.killSwitch && s.file.Some? && SlotOnOffer(e, s.file.value).Some?
    ensures var slot, b := SlotOnOffer(e, s.file.value).value, ClearForDay(s, e.day);
            WorkSlot(s, e) == if SlotTerminal(b.runs, slot, e.day) || !ShouldRetry(b, slot, s.file.value.id, e.now) then None else Some(slot)
  {
  }

  /** Slots are worked exactly when the history says so. */
  lemma {:induction false} WorkedIfTold(c: Config, steps: seq<Step>, e: Env)
    requires var s := After(c, steps); Books(c, s) && Timely(s, e) && ClockTells(c, steps, s)
    ensures WorkSlot(After(c, steps), e) == SlotWorked(c, steps, e)
  {
    var s := After(c, steps);
    if !e.killSwitch && s.file.Some? && SlotOnOffer(e, s.file.value).Some? {
      var slot, b := SlotOnOffer(e, s.file.value).value, ClearForDay(s, e.day);
      OfferTaken(s, e);
      ClearKeepsBooks(c, s, e);
      TerminalCountRuns(s.journal, e.day, slot);
      GuardAsksClock(b, slot, s.file.value.id, e.now);
      ClockAfterRollOver(c, steps, s, e, slot);
    }
  }

  /** A visit sets the clock of its slot and leaves the others, after a roll-over empty, alone. */
  lemma {:induction false} ClockTellsVisit(c: Config, steps: seq<Step>, slot: Slot)
    requires steps != [] && steps[|steps| - 1].Poll?
    requires var s, e := After(c, steps[..|steps| - 1]), steps[|steps| - 1].e;
             && ClockTells(c, steps[..|steps| - 1], s) && Timely(s, e)
             && WorkSlot(s, e) == Some(slot) == SlotWorked(c, steps[..|steps| - 1], e) && s.file.Some?
    ensures ClockTells(c, steps, After(c, steps))
  {
    var front, e := steps[..|steps| - 1], steps[|steps| - 1].e;
    var s, t := After(c, front), After(c, steps);
    WorkSetsClock(c, s, e);
    forall other ensures Clock(t, other) == LastVisit(c, steps, e.day, other) {
      ClockAfterRollOver(c, front, s, e, other);
    }
  }

  lemma {:induction false} ClockTellsOn(c: Config, steps: seq<Step>)
    requires steps != [] && ClockRuns(c, steps)
    requires ClockTells(c, steps[..|steps| - 1], After(c, steps[..|steps| - 1]))
    ensures ClockTells(c, steps, After(c, steps))
  {
    var front, last := steps[..|steps| - 1], steps[|steps| - 1];
    var s := After(c, front);
    ClockPrefix(c, steps);
    if last.Poll? {
      BooksAlways(c, front);
      WorkedIfTold(c, front, last.e);
      if WorkSlot(s, last.e).Some? {
        ClockTellsVisit(c, steps, WorkSlot(s, last.e).value);
      } else {
        IterateRests(c, s, last.e);
      }
    }
  }

  lemma {:induction false} ClockTellsAlways(c: Config, steps: seq<Step>)
    requires ClockRuns(c, steps)
    ensures ClockTells(c, steps, After(c, steps))
  {
    if steps != [] {
      ClockPrefix(c, steps);
      ClockTellsAlways(c, steps[..|steps| - 1]);
      ClockTellsOn(c, steps);
    }
  }

  /** In every run the bot's record and retry clock let through exactly the polls that the history lets through. */
  lemma {:induction false} WorksAsHistoryTells(c: Config, steps: seq<Step>, e: Env)
    requires ClockRuns(c, steps) && Timely(After(c, steps), e)
    ensures WorkSlot(After(c, steps), e) == SlotWorked(c, steps, e)
  {
    BooksAlways(c, steps);
    ClockTellsAlways(c, steps);
    WorkedIfTold(c, steps, e);
  }
}
