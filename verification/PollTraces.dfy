/**
 What a poll leaves behind besides its runs: the outcome of its own confirm pass in the signal
 file, if it made one and got as far as writing it down, and the notes it puts in the journal.
 */
module PollTraces {
  import opened Trading
  import opened PollLoop
  import opened PollSafety
  import opened DeferralProtocol
  import opened EntryConditions
  import opened RunReasons

  /** The poll makes a confirm pass of its own and gets as far as writing it down. */
  predicate WritesConfirm(c: Config, taken: int, e: Env, sig: Signal) {
    Live(e, sig) && !StoredCounts(c, e, sig) && Clears(c, taken, e, sig, 5) && e.raiseBefore > 5
  }

  /** Confirmed against the microstructure, on the strength of an earlier deferral. */
  predicate SoftNow(c: Config, e: Env, sig: Signal) {
    Confirmable(c, e, sig, AgeOverride(e)) && Against(sig.action, e.trend, e.shadow)
  }

  /** Why the pass comes out as it does. */
  predicate ReasonFits(c: Config, e: Env, sig: Signal, why: ConfirmReason) {
    if SoftNow(c, e, sig) then why == if e.entrySlot == None then SoftConfirmedGrace else SoftConfirmed
    else if Confirmable(c, e, sig, AgeOverride(e)) then why == PlainConfirmed
    else if Deferrable(c, e, sig, AgeOverride(e)) then why == MicrostructureDeferred
    else TurnedDownFor(c, e, sig, why)
  }

  /** The signal with the outcome of the pass in it and everything else as before. */
  predicate HoldsOutcome(c: Config, e: Env, sig: Signal, f: Signal) {
    && f.confirmStatus == (if Confirmable(c, e, sig, AgeOverride(e)) then Confirmed else if Deferrable(c, e, sig, AgeOverride(e)) then Pending else Skip)
    && ReasonFits(c, e, sig, f.confirmReason)
    && f.confirmTime.Some? && f.confirmTime.value % SECOND == 0 && f.confirmTime.value <= e.now < f.confirmTime.value + SECOND
    && f.deferred == (sig.deferred || SoftNow(c, e, sig) || Deferrable(c, e, sig, AgeOverride(e)))
    && f.softConfirmed == (sig.softConfirmed || SoftNow(c, e, sig))
    && f.deferCount == (if Deferrable(c, e, sig, AgeOverride(e)) || (SoftNow(c, e, sig) && sig.deferCount == 0) then 1 else sig.deferCount)
    && (f.id, f.time, f.window, f.action) == (sig.id, sig.time, sig.window, sig.action)
    && (f.confidence, f.aligned, f.inputHardBlocker) == (sig.confidence, sig.aligned, sig.inputHardBlocker)
  }

  /** The signal file and the log of deferrals after a poll. */
  ghost predicate FileFits(c: Config, taken: int, s: Bot, t: Bot, e: Env, slot: Slot, sig: Signal) {
    if !WritesConfirm(c, taken, e, sig) || e.persist == LeftUnchanged then t.file == s.file && t.deferrals == s.deferrals
    else if e.persist == Truncated then t.file == None && t.deferrals == s.deferrals
    else
      && t.file.Some? && HoldsOutcome(c, e, sig, t.file.value)
      && t.deferrals == if Deferrable(c, e, sig, AgeOverride(e)) then s.deferrals + [Deferral(e.day, slot, sig.id, e.now)] else s.deferrals
  }

  lemma {:induction false} PassReason(c: Config, e: Env, sig: Signal)
    requires Live(e, sig) && !StoredCounts(c, e, sig)
    ensures ReasonFits(c, e, sig, ConfirmPass(c, e, sig, e.entrySlot.None?).reason)
  {
  }

  lemma {:induction false} PassOutcome(c: Config, e: Env, sig: Signal)
    requires Live(e, sig) && !StoredCounts(c, e, sig)
    ensures HoldsOutcome(c, e, sig, Merged(sig, ConfirmPass(c, e, sig, e.entrySlot.None?)))
  {
    ConfirmedIff(c, e, sig, AgeOverride(e), e.entrySlot.None?);
    PassReason(c, e, sig);
  }

  // ---------------------------------------------------------------- from the stages to the poll

  lemma {:induction false} EffectsWrite(s: Bot, e: Env, slot: Slot, sig: Signal, pass: Pass, last: int)
    requires OnDay(s, e.day)
    ensures var t := Effects(s, e, slot, sig, pass, last);
            var p := if last >= DEFER_STAGE && pass.confirm.Some? then AfterPersist(s, e, slot, sig, pass.confirm.value) else s;
            t.file == p.file && t.deferrals == p.deferrals && OnDay(t, e.day)
  {
    ConfirmEffectsOnFile(s, e, slot, sig, pass, last);
    ClearKeeps(ConfirmEffects(s, e, slot, sig, pass, last), e.day);
  }

  lemma {:induction false} AttemptWrites(c: Config, s: Bot, e: Env, slot: Slot, sig: Signal)
    requires OnDay(s, e.day) && Live(e, sig)
    ensures var t := Attempt(c, s, e, slot, e.entrySlot.None?, sig);
            var p := if WritesConfirm(c, s.tradesTaken, e, sig) then AfterPersist(s, e, slot, sig, ConfirmPass(c, e, sig, e.entrySlot.None?)) else s;
            t.file == p.file && t.deferrals == p.deferrals
  {
    ClearKeeps(s, e.day);
    var pass := ConfirmStage(c, e, sig, e.entrySlot.None?);
    var exit := FirstExit(c, s.tradesTaken, e, pass);
    var raised := e.raiseBefore <= exit.stage;
    var last := if raised then e.raiseBefore - 1 else exit.stage;
    ClearsIff(c, s.tradesTaken, e, sig, DEFER_STAGE);
    MustConfirmIff(c, e, sig);
    EffectsWrite(s, e, slot, sig, pass, last);
    var t := RecordLeavesFile(Effects(s, e, slot, sig, pass, last), e, slot, sig, TradedAction(sig, pass, last), exit,
                              CounterMark(e, pass, exit.stage), raised);
    assert t == Attempt(c, s, e, slot, e.entrySlot.None?, sig);
  }

  /** A signal that is not live leaves the file alone. */
  lemma {:induction false} UntradableWritesNothing(c: Config, s: Bot, e: Env, slot: Slot, sig: Signal)
    requires OnDay(s, e.day) && !Live(e, sig)
    ensures var t := Process(c, s, e, slot, e.entrySlot.None?, sig); t.file == s.file && t.deferrals == s.deferrals
  {
    if sig.action == NoAction {
      MarkLeavesFile(s, e, slot, sig, sig.action, Hold, true, false);
    } else {
      var s1 := Note(s, e, SignalDecision, slot, sig, sig.action, Hold);
      var t := DirectionalOnFile(c, s1, e, slot, e.entrySlot.None?, sig, ConfirmStage(c, e, sig, e.entrySlot.None?));
      if sig.time.Some? {
        var terminal := sig.time.value >= e.slotStart;
        MarkLeavesFile(s1, e, slot, sig, sig.action, Stale, terminal, false);
        TwoMarksLeaveFile(s1, e, slot, sig, sig.action, Stale, terminal, false, InvalidSignalTimestamp, true);
      } else {
        MarkLeavesFile(s1, e, slot, sig, sig.action, InvalidSignalTimestamp, true, false);
      }
    }
  }

  lemma {:induction false} ProcessWrites(c: Config, s: Bot, e: Env, slot: Slot, sig: Signal)
    requires OnDay(s, e.day)
    ensures FileFits(c, s.tradesTaken, s, Process(c, s, e, slot, e.entrySlot.None?, sig), e, slot, sig)
  {
    if Live(e, sig) {
      AttemptWrites(c, Note(s, e, SignalDecision, slot, sig, sig.action, Hold), e, slot, sig);
      if WritesConfirm(c, s.tradesTaken, e, sig) {
        PassOutcome(c, e, sig);
        ConfirmedIff(c, e, sig, AgeOverride(e), e.entrySlot.None?);
      }
    } else {
      UntradableWritesNothing(c, s, e, slot, sig);
    }
  }

  /**
   What any poll does to the signal file and to the log of deferrals: nothing, unless it works on
   a slot, confirms anew and gets that far; then the outcome of the pass, told from the signal,
   the quote, the news and the microstructure, as far as the file can be written.
   */
  lemma {:induction false} PollWritesOutcome(c: Config, s: Bot, e: Env)
    ensures var t := Iterate(c, s, e);
            if WorkSlot(s, e).None? || s.file.None? then t.file == s.file && t.deferrals == s.deferrals
            else FileFits(c, ClearForDay(s, e.day).tradesTaken, s, t, e, WorkSlot(s, e).value, s.file.value)
  {
    ClearIsOnDay(s, e.day);
    if WorkSlot(s, e).Some? {
      var b, slot, sig := ClearForDay(s, e.day), WorkSlot(s, e).value, s.file.value;
      IterateWorks(c, s, e);
      ProcessWrites(c, Track(b, slot, sig.id, e.now), e, slot, sig);
    } else {
      IterateRests(c, s, e);
    }
  }

  // ---------------------------------------------------------------- the notes in the journal

  /** The journal lines that record no run. */
  function NotesOf(journal: seq<Event>): seq<Event> {
    if journal == [] then []
    else
      var last := journal[|journal| - 1];
      var before := NotesOf(journal[..|journal| - 1]);
      if last.kind.RiskResult? || last.kind.BlockedCandidate? then before else before + [last]
  }

  /** A note of the poll. */
  predicate NoteFits(e: Env, slot: Slot, sig: Signal, ev: Event, kind: Kind, action: Action) {
    && ev.kind == kind && ev.action == action && ev.stamp == e.stamp && ev.day == e.day && ev.slot == slot
    && ev.window == sig.window && ev.signalId == sig.id && !ev.terminal && !ev.counter
  }

  /** The poll gets past the veto stage without a confirmation. */
  predicate Unconfirmed(c: Config, taken: int, e: Env, sig: Signal) {
    && Live(e, sig) && Clears(c, taken, e, sig, 6) && e.raiseBefore > 6
    && (if StoredCounts(c, e, sig) then sig.confirmStatus != Confirmed else !Confirmable(c, e, sig, AgeOverride(e)))
  }

  /** A directional signal is noted, and a signal left unconfirmed as a veto or as the reversed candidate. */
  predicate NotesFit(c: Config, taken: int, e: Env, slot: Slot, sig: Signal, notes: seq<Event>) {
    && |notes| == (if sig.action == NoAction then 0 else if Unconfirmed(c, taken, e, sig) then 2 else 1)
    && (|notes| >= 1 ==> NoteFits(e, slot, sig, notes[0], SignalDecision, sig.action))
    && (|notes| == 2 ==>
          && notes[1].reason.Confirming? && TurnedDownFor(c, e, sig, notes[1].reason.why)
          && if Admits(c, e, sig) then NoteFits(e, slot, sig, notes[1], CounterCandidate, if sig.action == Buy then Sell else Buy)
             else NoteFits(e, slot, sig, notes[1], ConfirmVeto, sig.action))
  }

  lemma {:induction false} NotesAppend(journal: seq<Event>, ev: Event)
    ensures NotesOf(journal + [ev]) == NotesOf(journal) + if ev.kind.RiskResult? || ev.kind.BlockedCandidate? then [] else [ev]
  {
    assert (journal + [ev])[..|journal|] == journal;
  }

  lemma {:induction false} MarkNotesNothing(s: Bot, e: Env, slot: Slot, sig: Signal, action: Action, reason: Reason, terminal: bool, counter: bool)
    ensures NotesOf(Mark(s, e, slot, sig, action, reason, terminal, counter).journal) == NotesOf(s.journal)
  {
    var evs := RunEvents(e, slot, sig.window, Run(e.day, slot, sig.id, reason, action, terminal, counter));
    NotesAppend(s.journal, evs[0]);
    if |evs| == 2 {
      NotesAppend(s.journal + [evs[0]], evs[1]);
      assert s.journal + [evs[0]] + [evs[1]] == s.journal + evs;
    } else {
      assert [evs[0]] == evs;
    }
  }

  lemma {:induction false} LeaveNotesNothing(s: Bot, e: Env, slot: Slot, sig: Signal, action: Action, exit: Exit, counter: bool)
    ensures NotesOf(Leave(s, e, slot, sig, action, exit, counter).journal) == NotesOf(s.journal)
    ensures NotesOf(Crash(s, e, slot, sig, action).journal) == NotesOf(s.journal)
  {
    MarkNotesNothing(s, e, slot, sig, action, exit.reason, exit.terminal, counter);
    MarkNotesNothing(Mark(s, e, slot, sig, action, exit.reason, exit.terminal, counter), e, slot, sig, action, ExecutionException, false, false);
    MarkNotesNothing(s, e, slot, sig, action, ExecutionException, false, false);
  }

  /** The veto or candidate line of the stages. */
  function VetoNotes(e: Env, slot: Slot, sig: Signal, pass: Pass, last: int): seq<Event> {
    if last < VETO_STAGE || pass.verdict.status.Confirmed? then []
    else
      var action := if pass.countered then sig.action.Flip() else sig.action;
      [Event(if pass.countered then CounterCandidate else ConfirmVeto, e.stamp, e.day, slot, sig.window, sig.id,
             Confirming(pass.verdict.reason), action, false, false)]
  }

  lemma {:induction false} ConfirmNotes(s: Bot, e: Env, slot: Slot, sig: Signal, pass: Pass, last: int)
    ensures var notes := VetoNotes(e, slot, sig, pass, last);
            ConfirmEffects(s, e, slot, sig, pass, last).journal == if notes == [] then s.journal else s.journal + [notes[0]]
  {
  }

  lemma {:induction false} EffectsNote(s: Bot, e: Env, slot: Slot, sig: Signal, pass: Pass, last: int)
    ensures NotesOf(Effects(s, e, slot, sig, pass, last).journal) == NotesOf(s.journal) + VetoNotes(e, slot, sig, pass, last)
  {
    var journal, notes := Effects(s, e, slot, sig, pass, last).journal, VetoNotes(e, slot, sig, pass, last);
    assert journal == ConfirmEffects(s, e, slot, sig, pass, last).journal;
    ConfirmNotes(s, e, slot, sig, pass, last);
    if notes != [] {
      VetoNoteAlone(e, slot, sig, pass, last);
      NotesAppend(s.journal, notes[0]);
    }
  }

  lemma {:induction false} VetoNoteAlone(e: Env, slot: Slot, sig: Signal, pass: Pass, last: int)
    requires VetoNotes(e, slot, sig, pass, last) != []
    ensures var notes := VetoNotes(e, slot, sig, pass, last);
            notes == [notes[0]] && !notes[0].kind.RiskResult? && !notes[0].kind.BlockedCandidate?
  {
  }

  lemma {:induction false} AttemptNotes(c: Config, s: Bot, e: Env, slot: Slot, sig: Signal, last: int)
    requires OnDay(s, e.day)
    requires var exit := FirstExit(c, s.tradesTaken, e, ConfirmStage(c, e, sig, e.entrySlot.None?));
             last == if e.raiseBefore <= exit.stage then e.raiseBefore - 1 else exit.stage
    ensures NotesOf(Attempt(c, s, e, slot, e.entrySlot.None?, sig).journal) ==
            NotesOf(s.journal) + VetoNotes(e, slot, sig, ConfirmStage(c, e, sig, e.entrySlot.None?), last)
  {
    ClearKeeps(s, e.day);
    var pass := ConfirmStage(c, e, sig, e.entrySlot.None?);
    var exit := FirstExit(c, s.tradesTaken, e, pass);
    var m := Effects(s, e, slot, sig, pass, last);
    EffectsNote(s, e, slot, sig, pass, last);
    LeaveNotesNothing(m, e, slot, sig, TradedAction(sig, pass, last), exit, CounterMark(e, pass, exit.stage));
  }

  /** Those lines are as the poll has it. */
  lemma {:induction false} VetoNotesFit(c: Config, taken: int, e: Env, slot: Slot, sig: Signal, last: int, decision: Event)
    requires Live(e, sig) && NoteFits(e, slot, sig, decision, SignalDecision, sig.action)
    requires var exit := FirstExit(c, taken, e, ConfirmStage(c, e, sig, e.entrySlot.None?));
             last == if e.raiseBefore <= exit.stage then e.raiseBefore - 1 else exit.stage
    ensures NotesFit(c, taken, e, slot, sig, [decision] + VetoNotes(e, slot, sig, ConfirmStage(c, e, sig, e.entrySlot.None?), last))
  {
    AdmitsIff(c, e, sig);
    MustConfirmIff(c, e, sig);
    ConfirmedIff(c, e, sig, AgeOverride(e), e.entrySlot.None?);
    ClearsIff(c, taken, e, sig, 6);
    if Unconfirmed(c, taken, e, sig) {
      UnconfirmedReason(c, e, sig);
    }
  }

  lemma {:induction false} UnconfirmedReason(c: Config, e: Env, sig: Signal)
    requires Live(e, sig) && !PutOff(c, e, sig)
    requires if StoredCounts(c, e, sig) then sig.confirmStatus != Confirmed else !Confirmable(c, e, sig, AgeOverride(e))
    ensures TurnedDownFor(c, e, sig, ConfirmStage(c, e, sig, e.entrySlot.None?).verdict.reason)
  {
    MustConfirmIff(c, e, sig);
    if !StoredCounts(c, e, sig) {
      PassReason(c, e, sig);
    }
  }

  lemma {:induction false} LiveNotes(c: Config, s: Bot, e: Env, slot: Slot, sig: Signal, decision: Event) returns (notes: seq<Event>)
    requires OnDay(s, e.day) && Live(e, sig) && NoteFits(e, slot, sig, decision, SignalDecision, sig.action)
    ensures NotesOf(Attempt(c, s, e, slot, e.entrySlot.None?, sig).journal) == NotesOf(s.journal) + notes
    ensures NotesFit(c, s.tradesTaken, e, slot, sig, [decision] + notes)
  {
    var exit := FirstExit(c, s.tradesTaken, e, ConfirmStage(c, e, sig, e.entrySlot.None?));
    var last := if e.raiseBefore <= exit.stage then e.raiseBefore - 1 else exit.stage;
    AttemptNotes(c, s, e, slot, sig, last);
    VetoNotesFit(c, s.tradesTaken, e, slot, sig, last, decision);
    notes := VetoNotes(e, slot, sig, ConfirmStage(c, e, sig, e.entrySlot.None?), last);
  }

  lemma {:induction false} DirectionalNotes(c: Config, s: Bot, e: Env, slot: Slot, sig: Signal, decision: Event)
    returns (t: Bot, notes: seq<Event>)
    requires OnDay(s, e.day) && sig.action != NoAction && NoteFits(e, slot, sig, decision, SignalDecision, sig.action)
    ensures t == if sig.time.None? then Mark(s, e, slot, sig, sig.action, InvalidSignalTimestamp, true, false)
                 else if e.now - sig.time.value > e.ageLimit * SECOND then AfterStale(s, e, slot, sig)
                 else Attempt(c, s, e, slot, e.entrySlot.None?, sig)
    ensures NotesOf(t.journal) == NotesOf(s.journal) + notes
    ensures NotesFit(c, s.tradesTaken, e, slot, sig, [decision] + notes)
  {
    if Live(e, sig) {
      t := Attempt(c, s, e, slot, e.entrySlot.None?, sig);
      notes := LiveNotes(c, s, e, slot, sig, decision);
    } else {
      t := if sig.time.None? then Mark(s, e, slot, sig, sig.action, InvalidSignalTimestamp, true, false) else AfterStale(s, e, slot, sig);
      UntradableNotesNothing(c, s, e, slot, sig);
      notes := [];
    }
  }

  lemma {:induction false} ProcessNotes(c: Config, s: Bot, e: Env, slot: Slot, sig: Signal) returns (notes: seq<Event>)
    requires OnDay(s, e.day)
    ensures NotesOf(Process(c, s, e, slot, e.entrySlot.None?, sig).journal) == NotesOf(s.journal) + notes
    ensures NotesFit(c, s.tradesTaken, e, slot, sig, notes)
  {
    if sig.action == NoAction {
      MarkNotesNothing(s, e, slot, sig, sig.action, Hold, true, false);
      notes := [];
    } else {
      var decision := Event(SignalDecision, e.stamp, e.day, slot, sig.window, sig.id, Hold, sig.action, false, false);
      NotesAppend(s.journal, decision);
      var t, more := DirectionalNotes(c, Note(s, e, SignalDecision, slot, sig, sig.action, Hold), e, slot, sig, decision);
      notes := [decision] + more;
      Associative(NotesOf(s.journal), [decision], more);
    }
  }

  lemma {:induction false} UntradableNotesNothing(c: Config, s: Bot, e: Env, slot: Slot, sig: Signal)
    requires sig.action != NoAction && !Live(e, sig)
    ensures sig.time.None? ==> NotesOf(Mark(s, e, slot, sig, sig.action, InvalidSignalTimestamp, true, false).journal) == NotesOf(s.journal)
    ensures sig.time.Some? ==> NotesOf(AfterStale(s, e, slot, sig).journal) == NotesOf(s.journal)
  {
    MarkNotesNothing(s, e, slot, sig, sig.action, InvalidSignalTimestamp, true, false);
    if sig.time.Some? {
      var terminal := sig.time.value >= e.slotStart;
      MarkNotesNothing(s, e, slot, sig, sig.action, Stale, terminal, false);
      MarkNotesNothing(Mark(s, e, slot, sig, sig.action, Stale, terminal, false), e, slot, sig, sig.action, InvalidSignalTimestamp, true, false);
    }
  }

  /** Besides its runs a working poll journals exactly these notes. */
  lemma {:induction false} PollNotesFit(c: Config, s: Bot, e: Env) returns (notes: seq<Event>)
    requires WorkSlot(s, e).Some?
    ensures s.file.Some? && NotesOf(Iterate(c, s, e).journal) == NotesOf(s.journal) + notes
    ensures NotesFit(c, ClearForDay(s, e.day).tradesTaken, e, WorkSlot(s, e).value, s.file.value, notes)
  {
    ClearIsOnDay(s, e.day);
    var b, slot, sig := ClearForDay(s, e.day), WorkSlot(s, e).value, s.file.value;
    IterateWorks(c, s, e);
    notes := ProcessNotes(c, Track(b, slot, sig.id, e.now), e, slot, sig);
  }
}
