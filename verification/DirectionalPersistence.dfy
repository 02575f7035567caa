/**
 One direction per London day: the first confident signal locks a direction, and a signal
 against it passes only with more confidence and a macro driver whose sign has turned.
 */
module DirectionalPersistence {
  import opened Trading
  import Rounding

  /** A stored macro driver: absent, not readable as a number, or a number. */
  datatype Driver = Missing | Unreadable | Reading(x: real)

  type Signature = map<string, Driver>

  /**
   The persisted lock; an empty date stands for a missing one. Proposals are BUY, SELL or
   HOLD, which is `NoAction`; so is any other text in a stored direction.
   */
  datatype Lock = Lock(date: string, direction: Action, signature: Option<Signature>)

  datatype Policy =
    | HoldPassThrough | LockDirection | LowConfidenceNoLock | AlignedWithLock
    | FlipBlockedLowConfidence | FlipBlockedMacroUnchanged | FlipAllowed

  datatype Decision = Decision(action: Action, confidence: real, policy: Policy, next: Option<Lock>)

  /** A proposal on a London date; `saved` says whether writing a new lock would succeed. */
  datatype Proposal = Proposal(action: Action, confidence: real, signature: Option<Signature>, date: string, saved: bool)

  datatype Thresholds = Thresholds(lock: real, flip: real)

  function Sign(d: Driver): int {
    if !d.Reading? || d.x == 0.0 then 0 else if d.x > 0.0 then 1 else -1
  }

  /** Both drivers point somewhere, and not the same way. */
  predicate Opposed(a: Driver, b: Driver) {
    Sign(a) * Sign(b) == -1
  }

  /** Some driver of the lock has turned to the other side. */
  predicate Turned(was: Option<Signature>, now: Option<Signature>) {
    was.Some? && now.Some? &&
    exists key :: key in was.value && key in now.value && Opposed(was.value[key], now.value[key])
  }

  /** Counts the drivers that turned; at least one is a flip. */
  method MacroFlipped(was: Option<Signature>, now: Option<Signature>) returns (flipped: bool)
    ensures flipped == Turned(was, now)
  {
    if was.None? || now.None? {
      return false;
    }
    var flips := 0;
    var keys := was.value.Keys;
    while keys != {}
      invariant keys <= was.value.Keys && flips >= 0
      invariant flips >= 1 <==> exists key :: key in was.value.Keys - keys && key in now.value && Opposed(was.value[key], now.value[key])
      decreases |keys|
    {
      var key :| key in keys;
      keys := keys - {key};
      var before, after := was.value[key], if key in now.value then now.value[key] else Missing;
      if before.Reading? && before.x != 0.0 && after.Reading? && after.x != 0.0 && (before.x > 0.0) != (after.x > 0.0) {
        flips := flips + 1;
      }
    }
    return flips >= 1;
  }

  function Clamped(x: real): real {
    if x < 0.0 then 0.0 else if x > 1.0 then 1.0 else x
  }

  predicate Binds(state: Option<Lock>, date: string) {
    state.Some? && date != "" && state.value.date == date
  }

  function NewLock(p: Proposal): Lock {
    Lock(p.date, p.action, Some(if p.signature.Some? then p.signature.value else map[]))
  }

  /** The policy. */
  function Apply(state: Option<Lock>, p: Proposal, t: Thresholds): Decision {
    var confidence := Clamped(p.confidence);
    if p.action == NoAction then Decision(NoAction, confidence, HoldPassThrough, None)
    else if !Binds(state, p.date) then
      if confidence >= t.lock && p.action.Directional() then
        Decision(p.action, confidence, LockDirection, Some(NewLock(p)))
      else Decision(p.action, confidence, LowConfidenceNoLock, None)
    else if p.action == state.value.direction then Decision(p.action, confidence, AlignedWithLock, None)
    else if confidence < t.flip then Decision(NoAction, 0.0, FlipBlockedLowConfidence, None)
    else if !Turned(state.value.signature, p.signature) then Decision(NoAction, 0.0, FlipBlockedMacroUnchanged, None)
    else Decision(p.action, confidence, FlipAllowed, Some(NewLock(p)))
  }

  // ---------------------------------------------------------------- runs

  /** The stored lock after a proposal. */
  function Kept(state: Option<Lock>, p: Proposal, t: Thresholds): Option<Lock> {
    var next := Apply(state, p, t).next;
    if next.Some? && p.saved then next else state
  }

  function StateAfter(state: Option<Lock>, ps: seq<Proposal>, t: Thresholds): Option<Lock> {
    if ps == [] then state
    else Kept(StateAfter(state, ps[..|ps| - 1], t), ps[|ps| - 1], t)
  }

  /** The decision on the proposal at a position. */
  function DecisionAt(state: Option<Lock>, ps: seq<Proposal>, i: nat, t: Thresholds): Decision
    requires i < |ps|
  {
    Apply(StateAfter(state, ps[..i], t), ps[i], t)
  }

  /** Some driver that the lock and the proposal both name was positive and is negative, or the other way round. */
  predicate DriverTurned(was: Option<Signature>, now: Option<Signature>) {
    && was.Some? && now.Some?
    && exists key :: key in was.value && key in now.value && was.value[key].Reading? && now.value[key].Reading? &&
         ((was.value[key].x > 0.0 && now.value[key].x < 0.0) || (was.value[key].x < 0.0 && now.value[key].x > 0.0))
  }

  lemma {:induction false} TurnedIff(was: Option<Signature>, now: Option<Signature>)
    ensures Turned(was, now) <==> DriverTurned(was, now)
  {
    if Turned(was, now) {
      var key :| key in was.value && key in now.value && Opposed(was.value[key], now.value[key]);
      assert was.value[key].Reading? && now.value[key].Reading?;
    }
    if DriverTurned(was, now) {
      var key :| key in was.value && key in now.value && was.value[key].Reading? && now.value[key].Reading? &&
        ((was.value[key].x > 0.0 && now.value[key].x < 0.0) || (was.value[key].x < 0.0 && now.value[key].x > 0.0));
      assert Opposed(was.value[key], now.value[key]);
    }
  }

  /** The confidence counts as at least 0 and at most 1. */
  predicate Reaches(confidence: real, threshold: real) {
    threshold <= 0.0 || (confidence >= threshold && threshold <= 1.0)
  }

  /** A proposal against a lock of the same day that is confident enough, with a driver that turned. */
  predicate FlipPasses(state: Option<Lock>, p: Proposal, t: Thresholds) {
    Opposes(state, p) && Reaches(p.confidence, t.flip) && DriverTurned(state.value.signature, p.signature)
  }

  predicate FlipFails(state: Option<Lock>, p: Proposal, t: Thresholds) {
    Opposes(state, p) && !(Reaches(p.confidence, t.flip) && DriverTurned(state.value.signature, p.signature))
  }

  predicate Opposes(state: Option<Lock>, p: Proposal) {
    && p.action != NoAction && state.Some? && p.date != "" && state.value.date == p.date
    && p.action != state.value.direction
  }

  /** How many flips pass and are stored. */
  function FlipCount(state: Option<Lock>, ps: seq<Proposal>, t: Thresholds): nat {
    if ps == [] then 0
    else
      var front, last := ps[..|ps| - 1], ps[|ps| - 1];
      FlipCount(state, front, t) + (if FlipPasses(StateAfter(state, front, t), last, t) && last.saved then 1 else 0)
  }

  /** Every proposal is for this date. */
  predicate OneDay(ps: seq<Proposal>, date: string) {
    date != "" && forall i :: 0 <= i < |ps| ==> ps[i].date == date
  }

  /** A lock of this date in a direction. */
  predicate LockedOn(state: Option<Lock>, date: string) {
    Binds(state, date) && state.value.direction.Directional()
  }

  /**
   Once locked, the lock holds for the day: its direction is the first one turned about once
   for every stored flip, so it is unchanged exactly when the number of flips is even.
   */
  lemma {:induction false} DirectionIsFlipParity(state: Option<Lock>, ps: seq<Proposal>, date: string, t: Thresholds)
    requires LockedOn(state, date) && OneDay(ps, date)
    ensures LockedOn(StateAfter(state, ps, t), date)
    ensures StateAfter(state, ps, t).value.direction ==
            if FlipCount(state, ps, t) % 2 == 0 then state.value.direction else state.value.direction.Flip()
  {
    if ps != [] {
      var front, last := ps[..|ps| - 1], ps[|ps| - 1];
      DirectionIsFlipParity(state, front, date, t);
      assert last.date == date;
      OneKept(StateAfter(state, front, t), last, date, t);
    }
  }

  /** One proposal against a lock of its day: what is stored and what is answered. */
  lemma {:induction false} OneKept(state: Option<Lock>, p: Proposal, date: string, t: Thresholds)
    requires LockedOn(state, date) && p.date == date
    ensures LockedOn(Kept(state, p, t), date)
    ensures !(FlipPasses(state, p, t) && p.saved) ==> Kept(state, p, t) == state
    ensures FlipPasses(state, p, t) && p.saved ==> Kept(state, p, t).value.direction == state.value.direction.Flip()
    ensures Apply(state, p, t).action ==
            if FlipPasses(state, p, t) then state.value.direction.Flip()
            else if p.action == state.value.direction then p.action else NoAction
  {
    TurnedIff(state.value.signature, p.signature);
  }

  lemma {:induction false} NoFlipsNoChange(state: Option<Lock>, ps: seq<Proposal>, i: nat, date: string, t: Thresholds)
    requires LockedOn(state, date) && OneDay(ps, date) && i <= |ps|
    requires forall k :: 0 <= k < i ==> !FlipPasses(StateAfter(state, ps[..k], t), ps[k], t)
    ensures StateAfter(state, ps[..i], t) == state
  {
    if i > 0 {
      NoFlipsNoChange(state, ps, i - 1, date, t);
      assert ps[..i][..i - 1] == ps[..i - 1];
      assert ps[i - 1].date == date;
      OneKept(state, ps[i - 1], date, t);
    }
  }

  /**
   After the lock, a signal that is let through against the locked direction means that at
   or before it a proposal was confident enough and had a driver turned since the lock.
   */
  lemma {:induction false} PassedAgainstNeedsFlip(state: Option<Lock>, ps: seq<Proposal>, i: nat, date: string, t: Thresholds)
    requires LockedOn(state, date) && OneDay(ps, date) && i < |ps|
    requires DecisionAt(state, ps, i, t).action == state.value.direction.Flip()
    ensures exists k :: 0 <= k <= i && FlipPasses(StateAfter(state, ps[..k], t), ps[k], t)
  {
    if forall k :: 0 <= k < i ==> !FlipPasses(StateAfter(state, ps[..k], t), ps[k], t) {
      NoFlipsNoChange(state, ps, i, date, t);
      OneKept(state, ps[i], date, t);
      assert FlipPasses(StateAfter(state, ps[..i], t), ps[i], t);
    }
  }

  /** No driver ever points against the lock's. */
  predicate Steady(state: Option<Lock>, ps: seq<Proposal>)
    requires state.Some?
  {
    forall k :: 0 <= k < |ps| ==> !DriverTurned(state.value.signature, ps[k].signature)
  }

  /**
   A day whose macro drivers never point against the lock's has one direction: nothing but
   the locked direction and HOLD comes out, whatever is proposed with whatever confidence.
   */
  lemma {:induction false} SteadyMacroOneDirection(state: Option<Lock>, ps: seq<Proposal>, i: nat, date: string, t: Thresholds)
    requires LockedOn(state, date) && OneDay(ps, date) && i < |ps| && Steady(state, ps)
    ensures StateAfter(state, ps[..i], t) == state
    ensures DecisionAt(state, ps, i, t).action == if ps[i].action == state.value.direction then ps[i].action else NoAction
  {
    SteadyState(state, ps, i, date, t);
    OneKept(state, ps[i], date, t);
  }

  lemma {:induction false} SteadyState(state: Option<Lock>, ps: seq<Proposal>, i: nat, date: string, t: Thresholds)
    requires LockedOn(state, date) && OneDay(ps, date) && i <= |ps| && Steady(state, ps)
    ensures StateAfter(state, ps[..i], t) == state
  {
    if i > 0 {
      SteadyState(state, ps, i - 1, date, t);
      assert ps[..i][..i - 1] == ps[..i - 1];
      assert ps[i - 1].date == date;
      OneKept(state, ps[i - 1], date, t);
    }
  }

  /**
   A new day starts fresh: with a lock of another day in the file every decision of the day
   is the one taken without any file, and so is the lock once one is stored.
   */
  lemma {:induction false} DayStartsFresh(state: Option<Lock>, ps: seq<Proposal>, date: string, t: Thresholds)
    requires state.Some? && state.value.date != date && OneDay(ps, date)
    ensures forall i :: 0 <= i < |ps| ==> DecisionAt(state, ps, i, t) == DecisionAt(None, ps, i, t)
    ensures var alone := StateAfter(None, ps, t);
            StateAfter(state, ps, t) == if alone.None? then state else alone
  {
    if ps != [] {
      var front, last := ps[..|ps| - 1], ps[|ps| - 1];
      DayStartsFresh(state, front, date, t);
      assert last.date == date;
      forall i | 0 <= i < |ps| ensures DecisionAt(state, ps, i, t) == DecisionAt(None, ps, i, t) {
        if i < |front| {
          assert front[..i] == ps[..i] && front[i] == ps[i];
          assert DecisionAt(state, front, i, t) == DecisionAt(None, front, i, t);
        }
      }
    }
  }

  /** A proposal that takes the lock of a day that has none. */
  predicate TakesLock(p: Proposal, t: Thresholds) {
    p.action != NoAction && Reaches(p.confidence, t.lock) && p.saved
  }

  /**
   The first confident BUY or SELL of a day takes the lock: before it every proposal passes with
   its own direction and nothing is stored, and then the lock has its date, direction and drivers.
   */
  lemma {:induction false} FirstConfidentLocks(state: Option<Lock>, ps: seq<Proposal>, i: nat, date: string, t: Thresholds)
    requires (state.Some? ==> state.value.date != date) && OneDay(ps, date) && i < |ps|
    requires forall k :: 0 <= k < i ==> !TakesLock(ps[k], t)
    ensures StateAfter(state, ps[..i], t) == state && DecisionAt(state, ps, i, t).action == ps[i].action
    ensures StateAfter(state, ps[..i + 1], t) ==
            if TakesLock(ps[i], t) then Some(Lock(date, ps[i].action, if ps[i].signature.Some? then ps[i].signature else Some(map[]))) else state
  {
    if i == 0 {
      assert ps[..0] == [];
    } else {
      FirstConfidentLocks(state, ps, i - 1, date, t);
      assert !TakesLock(ps[i - 1], t);
    }
    assert ps[..i + 1][..i] == ps[..i];
    assert ps[i].date == date;
  }

  // ---------------------------------------------------------------- what is published

  /**
   The signal after the policy. A blocked BUY or SELL only gains a warning and keeps its
   direction and confidence; any other difference is taken over.
   */
  function Published(p: Proposal, d: Decision): (Action, real) {
    if d.action == p.action && d.confidence == p.confidence then (p.action, p.confidence)
    else if d.action == NoAction && p.action.Directional() then (p.action, p.confidence)
    else (d.action, Rounding.Round(d.confidence, 100))
  }

  /** Every published direction of the day is the policy's verdict. */
  ghost predicate PublishedAsDecided(state: Option<Lock>, ps: seq<Proposal>, t: Thresholds) {
    forall i :: 0 <= i < |ps| ==> Published(ps[i], DecisionAt(state, ps, i, t)).0 == DecisionAt(state, ps, i, t).action
  }

  /** The block is advice: one published direction differs from its verdict exactly when a flip fails. */
  lemma {:induction false} BlockedFlipIsPublished(state: Option<Lock>, p: Proposal, t: Thresholds)
    ensures Published(p, Apply(state, p, t)).0 != Apply(state, p, t).action <==> FlipFails(state, p, t)
  {
    if state.Some? {
      TurnedIff(state.value.signature, p.signature);
    }
  }

  /** A failed flip is published as it was proposed; anything else as decided, with the confidence clamped. */
  lemma {:induction false} PublishedInFull(state: Option<Lock>, p: Proposal, t: Thresholds)
    ensures Published(p, Apply(state, p, t)) ==
            if FlipFails(state, p, t) then (p.action, p.confidence)
            else (Apply(state, p, t).action, if p.confidence < 0.0 then 0.0 else if p.confidence > 1.0 then 1.0 else p.confidence)
  {
    BlockedFlipIsPublished(state, p, t);
    Rounding.RoundExact(0.0, 0, 100);
    Rounding.RoundExact(1.0, 100, 100);
  }

  /**
   Over a whole run the published directions are the verdicts if and only if no proposal
   ever goes against the lock it meets with too little confidence or without a turned driver.
   */
  lemma {:induction false} PublishedAsDecidedIff(state: Option<Lock>, ps: seq<Proposal>, t: Thresholds)
    ensures PublishedAsDecided(state, ps, t) <==>
            forall i :: 0 <= i < |ps| ==> !FlipFails(StateAfter(state, ps[..i], t), ps[i], t)
  {
    forall i | 0 <= i < |ps|
      ensures Published(ps[i], DecisionAt(state, ps, i, t)).0 == DecisionAt(state, ps, i, t).action <==>
              !FlipFails(StateAfter(state, ps[..i], t), ps[i], t)
    {
      BlockedFlipIsPublished(StateAfter(state, ps[..i], t), ps[i], t);
    }
  }

  /**
   On a locked day with steady drivers that comes down to the proposals alone: published and
   decided agree if and only if nothing is ever proposed against the locked direction.
   */
  lemma {:induction false} SteadyDayPublishedIff(state: Option<Lock>, ps: seq<Proposal>, date: string, t: Thresholds)
    requires LockedOn(state, date) && OneDay(ps, date) && Steady(state, ps)
    ensures PublishedAsDecided(state, ps, t) <==>
            forall i :: 0 <= i < |ps| ==> ps[i].action != state.value.direction.Flip()
  {
    PublishedAsDecidedIff(state, ps, t);
    forall i | 0 <= i < |ps|
      ensures FlipFails(StateAfter(state, ps[..i], t), ps[i], t) <==> ps[i].action == state.value.direction.Flip()
    {
      SteadyState(state, ps, i, date, t);
      assert ps[i].date == date;
    }
  }
}
