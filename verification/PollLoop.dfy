/**
 One iteration of the entry-slot poll loop as a function of the bot's record and of
 everything the iteration can observe: clock, shared signal file, quote, gates, executor.
 */
module PollLoop {
  import opened Trading
  import Rounding

  const SECOND := 1_000_000            // times are microseconds
  const RETRY_BACKOFF := 45 * SECOND
  const STRONG_CONFIDENCE := 0.60
  const SOFT_RISK_MULTIPLIER := 0.5

  // ---------------------------------------------------------------- the shared signal

  /** Any status text other than CONFIRMED and SKIP is treated like PENDING. */
  datatype ConfirmStatus = Confirmed | Skip | Pending

  /** The record under `xauex_signal`. `time` is the parsed `id`, if it parses. */
  datatype Signal = Signal(
    id: string, time: Option<int>, window: Option<Slot>, action: Action, confidence: real,
    aligned: bool, inputHardBlocker: bool,
    confirmStatus: ConfirmStatus, confirmReason: ConfirmReason, confirmTime: Option<int>,
    deferred: bool, deferCount: int, softConfirmed: bool)
  {
    predicate WasDeferred() { deferred || deferCount > 0 }

    predicate StrongAligned() {
      action.Directional() && id != "" && !inputHardBlocker && confidence >= STRONG_CONFIDENCE && aligned
    }
  }

  // ---------------------------------------------------------------- what one iteration sees

  datatype Config = Config(
    maxTradesPerDay: int, confirmMaxAge: int, signalMaxAge: int, confirmSpreadMax: real,
    counterEnabled: bool, counterConfidence: real)

  datatype Quote = Quote(bid: real, ask: real)
  datatype Trend = Bullish | Bearish | Neutral
  datatype PersistOutcome = Written | LeftUnchanged | Truncated
  datatype WriteOutcome = WriteOk | WriteValueError | WriteOtherError

  /**
   The answers of the gates inside the guarded part, in source order: which of them block. A
   gate of another module gives the reason it blocks for.
   */
  datatype Gates = Gates(
    symbolSpecMissing: bool, symbolMismatch: bool, badDistanceUnit: bool,
    assuranceBlock: Option<string>, entryQualityBlock: Option<string>, positionBlock: Option<string>,
    environmentGate: Option<string>, quoteMissing: bool, badDistances: bool, nonpositiveDistance: bool,
    spreadTooWide: bool, noRiskBudget: bool, belowMinLot: bool, dailyRiskExceeded: bool)

  const NOTHING_BLOCKS := Gates(
    symbolSpecMissing := false, symbolMismatch := false, badDistanceUnit := false,
    assuranceBlock := None, entryQualityBlock := None, positionBlock := None,
    environmentGate := None, quoteMissing := false, badDistances := false, nonpositiveDistance := false,
    spreadTooWide := false, noRiskBudget := false, belowMinLot := false, dailyRiskExceeded := false)

  /**
   Everything outside the bot's own record. The gates that live in other modules are given
   by their answers (`Some` carries the reason they block). An exception is raised just
   before stage `raiseBefore` of the guarded part, if the iteration gets that far.
   */
  datatype Env = Env(
    now: int, stamp: int, day: int, killSwitch: bool,
    entrySlot: Option<Slot>, graceWindow: Option<Slot>, ageLimit: int, slotStart: int,
    quote: Option<Quote>, newsClear: bool, newsReason: string, trend: Trend, shadow: Action,
    gates: Gates,
    placed: Option<string>, persist: PersistOutcome, raiseBefore: int, write: WriteOutcome)

  // ---------------------------------------------------------------- the bot's record

  /** An order the executor accepted. `logged` is the journal length when it was placed. */
  datatype Order = Order(day: int, slot: Slot, signalId: string, at: int, soft: bool, multiplier: real, logged: nat)

  /** A deferral that reached the signal file. */
  datatype Deferral = Deferral(day: int, slot: Slot, signalId: string, at: int)

  /**
   `orders` and `deferrals` are logs kept for the statements about whole runs; the loop
   itself never reads them.
   */
  datatype Bot = Bot(
    tradeDate: Option<int>, tradesTaken: int, runs: seq<Run>,
    lastId: map<Slot, string>, lastSeen: map<Slot, int>,
    file: Option<Signal>, journal: seq<Event>,
    orders: seq<Order>, deferrals: seq<Deferral>)

  function RunsOnDay(runs: seq<Run>, day: int): (kept: seq<Run>) {
    if runs == [] then []
    else RunsOnDay(runs[..|runs| - 1], day) + (if runs[|runs| - 1].day == day then [runs[|runs| - 1]] else [])
  }

  lemma {:induction false} RunsOnDayIdentity(runs: seq<Run>, day: int)
    requires forall r :: r in runs ==> r.day == day
    ensures RunsOnDay(runs, day) == runs
  {
    if runs != [] {
      RunsOnDayIdentity(runs[..|runs| - 1], day);
    }
  }

  /** A new London day empties the counters; runs of other days never survive. */
  function ClearForDay(s: Bot, day: int): Bot {
    var s1 := if s.tradeDate == Some(day) then s
              else s.(tradeDate := Some(day), tradesTaken := 0, runs := [], lastId := map[], lastSeen := map[]);
    s1.(runs := RunsOnDay(s1.runs, day))
  }

  predicate SlotTerminal(runs: seq<Run>, slot: Slot, day: int) {
    exists i :: 0 <= i < |runs| && runs[i].slot == slot && runs[i].day == day && runs[i].terminal
  }

  predicate ShouldRetry(s: Bot, slot: Slot, id: string, now: int) {
    id == "" || slot !in s.lastId || s.lastId[slot] != id ||
    slot !in s.lastSeen || now - s.lastSeen[slot] >= RETRY_BACKOFF
  }

  function Track(s: Bot, slot: Slot, id: string, now: int): Bot {
    s.(lastId := s.lastId[slot := id], lastSeen := s.lastSeen[slot := now])
  }

  /** The journal lines of one recorded run. */
  function RunEvents(e: Env, slot: Slot, window: Option<Slot>, run: Run): seq<Event> {
    [Event(RiskResult, e.stamp, e.day, slot, None, run.signalId, run.reason, run.action, run.terminal, run.counter)] +
    if run.terminal && run.reason != OrderPlaced && run.action.Directional()
    then [Event(BlockedCandidate, e.stamp, e.day, slot, window, run.signalId, run.reason, run.action, true, run.counter)]
    else []
  }

  function Mark(s: Bot, e: Env, slot: Slot, sig: Signal, action: Action, reason: Reason, terminal: bool, counter: bool): Bot {
    var s1 := ClearForDay(s, e.day);
    var run := Run(e.day, slot, sig.id, reason, action, terminal, counter);
    s1.(runs := s1.runs + [run],
        journal := s1.journal + RunEvents(e, slot, sig.window, run),
        lastId := s1.lastId[slot := sig.id])
  }

  function Note(s: Bot, e: Env, kind: Kind, slot: Slot, sig: Signal, action: Action, reason: Reason): Bot {
    s.(journal := s.journal + [Event(kind, e.stamp, e.day, slot, sig.window, sig.id, reason, action, false, false)])
  }

  // ---------------------------------------------------------------- the confirm pass

  datatype Confirm = Confirm(
    status: ConfirmStatus, reason: ConfirmReason, at: int,
    deferred: Option<bool>, soft: Option<bool>, count: Option<int>)

  predicate Opposed(action: Action, trend: Trend, shadow: Action) {
    if action.Buy? then trend.Bearish? || shadow.Sell? else trend.Bullish? || shadow.Buy?
  }

  function AgeSeconds(now: int, time: int): int {
    if now < time then 0 else (now - time) / SECOND
  }

  function BuildConfirm(c: Config, e: Env, sig: Signal, ageOverride: Option<int>, grace: bool): Confirm {
    var at := e.now - e.now % SECOND;
    var skip := (why: ConfirmReason) => Confirm(Skip, why, at, None, None, None);
    var maxAge := if ageOverride.Some? && ageOverride.value > c.signalMaxAge then ageOverride.value else c.signalMaxAge;
    if !sig.action.Directional() then skip(NoDirectionalSignal)
    else if sig.time.None? then skip(BadSignalTimestamp)
    else if AgeSeconds(e.now, sig.time.value) > maxAge then skip(StaleSignal)
    else if sig.inputHardBlocker then skip(InputHardBlocker)
    else if e.quote.None? then skip(QuoteMissing)
    else
      var spread := Rounding.Round(e.quote.value.ask - e.quote.value.bid, 10_000);
      if spread <= 0.0 then skip(QuoteMissing)
      else if spread > c.confirmSpreadMax then skip(ConfirmSpreadTooWide)
      else if !e.newsClear then skip(NewsBlock(e.newsReason))
      else if Opposed(sig.action, e.trend, e.shadow) then
        if sig.StrongAligned() && sig.WasDeferred() then
          Confirm(Confirmed, if grace then SoftConfirmedGrace else SoftConfirmed, at,
                  Some(true), Some(true), Some(if sig.deferCount == 0 then 1 else sig.deferCount))
        else if sig.StrongAligned() then Confirm(Pending, MicrostructureDeferred, at, Some(true), None, Some(1))
        else skip(MicrostructureConflict)
      else if sig.StrongAligned() && sig.deferred then
        Confirm(Confirmed, PlainConfirmed, at, Some(true), None, Some(sig.deferCount))
      else Confirm(Confirmed, PlainConfirmed, at, None, None, None)
  }

  /** The signal record after the confirm result is merged into it. */
  function Merged(sig: Signal, k: Confirm): Signal {
    sig.(confirmStatus := k.status, confirmReason := k.reason, confirmTime := Some(k.at),
         deferred := if k.deferred.Some? then k.deferred.value else sig.deferred,
         softConfirmed := if k.soft.Some? then k.soft.value else sig.softConfirmed,
         deferCount := if k.count.Some? then k.count.value else sig.deferCount)
  }

  predicate ConfirmFresh(c: Config, confirmTime: Option<int>, now: int) {
    confirmTime.Some? && 0 <= now - confirmTime.value <= (if c.confirmMaxAge > 0 then c.confirmMaxAge else 0) * SECOND
  }

  /** A stored CONFIRMED or SKIP that has gone stale is not trusted again. */
  predicate MustConfirm(c: Config, e: Env, sig: Signal) {
    sig.confirmStatus.Pending? || !ConfirmFresh(c, sig.confirmTime, e.now)
  }

  function ConfirmPass(c: Config, e: Env, sig: Signal, grace: bool): Confirm {
    BuildConfirm(c, e, sig, if grace then Some(e.ageLimit) else None, grace)
  }

  /** Status and reason the rest of the iteration works with. */
  datatype Verdict = Verdict(status: ConfirmStatus, reason: ConfirmReason)

  // ---------------------------------------------------------------- the counter signal

  function CounterCandidateSignal(c: Config, sig: Signal): Signal {
    var clamped := if c.counterConfidence < 0.0 then 0.0 else if c.counterConfidence > 1.0 then 1.0 else c.counterConfidence;
    sig.(action := sig.action.Flip(), confidence := Rounding.Round(clamped, 100), aligned := true)
  }

  /** An unconfirmed signal vetoed by microstructure may be traded the other way round. */
  predicate Countered(c: Config, e: Env, sig: Signal, v: Verdict) {
    && !v.status.Confirmed?
    && c.counterEnabled && sig.action.Directional() && !sig.StrongAligned()
    && v.reason.MicrostructureConflict?
    && BuildConfirm(c, e, CounterCandidateSignal(c, sig), None, false).status.Confirmed?
  }

  /** What the confirm stage finds: the pass it made, if any, its verdict and the counter trade. */
  datatype Pass = Pass(confirm: Option<Confirm>, verdict: Verdict, countered: bool) {
    predicate Soft() { verdict.status.Confirmed? && verdict.reason.Soft() }
    predicate Defers() { verdict == Verdict(Pending, MicrostructureDeferred) }
  }

  function ConfirmStage(c: Config, e: Env, sig: Signal, grace: bool): Pass {
    var confirm := if MustConfirm(c, e, sig) then Some(ConfirmPass(c, e, sig, grace)) else None;
    var v := if confirm.Some? then Verdict(confirm.value.status, confirm.value.reason)
             else Verdict(sig.confirmStatus, sig.confirmReason);
    Pass(confirm, v, Countered(c, e, sig, v))
  }

  // ---------------------------------------------------------------- the guarded part

  /** Stages of the guarded part, in source order. */
  const DEFER_STAGE := 5
  const VETO_STAGE := 6
  const PLACE_STAGE := 18
  const MARK_STAGE := 19

  /** Where the iteration leaves the guarded part when nothing is raised. */
  datatype Exit = Exit(stage: int, reason: Reason, terminal: bool)

  function FirstExit(c: Config, taken: int, e: Env, pass: Pass): Exit {
    if taken >= c.maxTradesPerDay then Exit(1, CapReached, true)
    else if e.gates.symbolSpecMissing then Exit(2, SymbolSpecMissing, false)
    else if e.gates.symbolMismatch then Exit(3, SymbolMismatch, true)
    else if e.gates.badDistanceUnit then Exit(4, InvalidDistanceUnit, true)
    else if pass.Defers() then Exit(DEFER_STAGE, Confirming(pass.verdict.reason), false)
    else if !pass.verdict.status.Confirmed? && !pass.countered then Exit(VETO_STAGE, Confirming(pass.verdict.reason), true)
    else GateExit(e)
  }

  function GateExit(e: Env): (exit: Exit)
    ensures VETO_STAGE < exit.stage <= MARK_STAGE && exit.stage != PLACE_STAGE
  {
    var g := e.gates;
    if g.assuranceBlock.Some? then Exit(7, Gate(g.assuranceBlock.value), true)
    else if g.entryQualityBlock.Some? then Exit(8, Gate(g.entryQualityBlock.value), true)
    else if g.positionBlock.Some? then Exit(9, Gate(g.positionBlock.value), true)
    else if g.environmentGate.Some? then Exit(10, Environment(g.environmentGate.value), false)
    else if g.quoteMissing then Exit(11, NoQuote, false)
    else if g.badDistances then Exit(12, InvalidDistanceValues, true)
    else if g.nonpositiveDistance then Exit(13, NonpositiveDistance, true)
    else if g.spreadTooWide then Exit(14, SpreadTooWide, false)
    else if g.noRiskBudget then Exit(15, NoRiskBudget, false)
    else if g.belowMinLot then Exit(16, RiskBelowMinLot, true)
    else if g.dailyRiskExceeded then Exit(17, RemainingDailyRiskExceeded, true)
    else Exit(MARK_STAGE, if e.placed.Some? then OrderPlaced else OrderNotPlaced, true)
  }

  /** The executor's answer counts as a trade when it is a non-empty position id. */
  predicate Accepted(e: Env) {
    e.placed.Some? && e.placed.value != ""
  }

  function AfterPersist(s: Bot, e: Env, slot: Slot, sig: Signal, k: Confirm): Bot {
    match e.persist
    case LeftUnchanged => s
    case Truncated => s.(file := None)
    case Written =>
      s.(file := Some(Merged(sig, k)),
         deferrals := if k.reason.MicrostructureDeferred?
                      then s.deferrals + [Deferral(e.day, slot, sig.id, e.now)] else s.deferrals)
  }

  function AfterPlacement(s: Bot, e: Env, slot: Slot, sig: Signal, soft: bool): Bot {
    var s1 := ClearForDay(s, e.day);
    s1.(tradesTaken := s1.tradesTaken + 1,
        orders := s1.orders +
          [Order(e.day, slot, sig.id, e.now, soft, if soft then SOFT_RISK_MULTIPLIER else 1.0, |s1.journal|)])
  }

  /** Effects of the confirm and veto stages, if the iteration gets past stage `last`. */
  function ConfirmEffects(s: Bot, e: Env, slot: Slot, sig: Signal, pass: Pass, last: int): Bot {
    var s1 := if last >= DEFER_STAGE && pass.confirm.Some? then AfterPersist(s, e, slot, sig, pass.confirm.value) else s;
    if last < VETO_STAGE || pass.verdict.status.Confirmed? then s1
    else Note(s1, e, if pass.countered then CounterCandidate else ConfirmVeto, slot, sig,
              if pass.countered then sig.action.Flip() else sig.action, Confirming(pass.verdict.reason))
  }

  /** All effects up to and including stage `last`, before any run is recorded. */
  function Effects(s: Bot, e: Env, slot: Slot, sig: Signal, pass: Pass, last: int): Bot {
    var s1 := ConfirmEffects(s, e, slot, sig, pass, last);
    if last >= PLACE_STAGE && Accepted(e) then AfterPlacement(s1, e, slot, sig, pass.Soft()) else s1
  }

  /** The direction the iteration would trade, once it has passed stage `last`. */
  function TradedAction(sig: Signal, pass: Pass, last: int): Action {
    if last >= VETO_STAGE && pass.countered then sig.action.Flip() else sig.action
  }

  /** The `counter_signal` mark of the run that leaves at `stage`. */
  predicate CounterMark(e: Env, pass: Pass, stage: int) {
    pass.countered && (stage == 8 || (stage == MARK_STAGE && e.placed.Some?))
  }

  function Crash(s: Bot, e: Env, slot: Slot, sig: Signal, action: Action): Bot {
    Mark(s, e, slot, sig, action, ExecutionException, false, false)
  }

  /** Record the exit; a state write that fails afterwards adds a crash run. */
  function Leave(s: Bot, e: Env, slot: Slot, sig: Signal, action: Action, exit: Exit, counter: bool): Bot {
    var s1 := Mark(s, e, slot, sig, action, exit.reason, exit.terminal, counter);
    if e.write.WriteOk? then s1 else Crash(s1, e, slot, sig, action)
  }

  /** The guarded part from its start state: the first exit, or the exception that pre-empts it. */
  function Conclude(s: Bot, e: Env, slot: Slot, sig: Signal, pass: Pass, exit: Exit): Bot {
    var raised := e.raiseBefore <= exit.stage;
    var last := if raised then e.raiseBefore - 1 else exit.stage;
    var s1 := Effects(s, e, slot, sig, pass, last);
    var action := TradedAction(sig, pass, last);
    if raised then Crash(s1, e, slot, sig, action)
    else Leave(s1, e, slot, sig, action, exit, CounterMark(e, pass, exit.stage))
  }

  function Attempt(c: Config, s: Bot, e: Env, slot: Slot, grace: bool, sig: Signal): Bot {
    var s0 := ClearForDay(s, e.day);
    var pass := ConfirmStage(c, e, sig, grace);
    Conclude(s0, e, slot, sig, pass, FirstExit(c, s0.tradesTaken, e, pass))
  }

  // ---------------------------------------------------------------- one iteration

  function Iterate(c: Config, s: Bot, e: Env): Bot {
    if e.killSwitch || s.file.None? then s
    else
      var sig := s.file.value;
      var grace := e.entrySlot.None? && sig.WasDeferred() && e.graceWindow.Some?;
      if e.entrySlot.None? && !grace then s
      else
        var slot := if grace then e.graceWindow.value else e.entrySlot.value;
        var s1 := ClearForDay(s, e.day);
        if SlotTerminal(s1.runs, slot, e.day) || !ShouldRetry(s1, slot, sig.id, e.now) then s1
        else Process(c, Track(s1, slot, sig.id, e.now), e, slot, grace, sig)
  }

  function Process(c: Config, s: Bot, e: Env, slot: Slot, grace: bool, sig: Signal): Bot {
    if !sig.action.Directional() then Mark(s, e, slot, sig, sig.action, Hold, true, false)
    else
      var s1 := Note(s, e, SignalDecision, slot, sig, sig.action, Hold);
      if sig.time.None? then Mark(s1, e, slot, sig, sig.action, InvalidSignalTimestamp, true, false)
      else if e.now - sig.time.value > e.ageLimit * SECOND then AfterStale(s1, e, slot, sig)
      else Attempt(c, s1, e, slot, grace, sig)
  }

  /**
   A stale signal uses up the slot only if it was published inside the slot's own window. The
   handler for unreadable timestamps also sees a value error of the state write.
   */
  function AfterStale(s: Bot, e: Env, slot: Slot, sig: Signal): Bot
    requires sig.time.Some?
  {
    var s1 := Mark(s, e, slot, sig, sig.action, Stale, sig.time.value >= e.slotStart, false);
    if e.write.WriteValueError? then Mark(s1, e, slot, sig, sig.action, InvalidSignalTimestamp, true, false) else s1
  }
}
