/**
 The values that the poll loop writes and the decision ledger reads back: slots, reasons,
 the bot's own list of signal runs and the events of the append-only journal.
 */
module Trading {

  datatype Option<+T> = None | Some(value: T)

  datatype Slot = Morning | Midday | UsOpen

  /** Any action text other than BUY and SELL carries no direction. */
  datatype Action = Buy | Sell | NoAction {
    predicate Directional() { Buy? || Sell? }

    function Flip(): Action {
      match this
      case Buy => Sell
      case Sell => Buy
      case NoAction => NoAction
    }
  }

  /** Why a confirm pass, in the loop or outside it, reached its status. */
  datatype ConfirmReason =
    | PlainConfirmed | SoftConfirmed | SoftConfirmedGrace | CounterConfirmed
    | MicrostructureDeferred | MicrostructureConflict
    | NoDirectionalSignal | BadSignalTimestamp | StaleSignal | InputHardBlocker
    | QuoteMissing | ConfirmSpreadTooWide | NewsBlock(text: string)
    | WaitingForConfirm | ConfirmTimestampStale | OtherConfirmReason(text: string)
  {
    /** The test the sizing code makes on the text of the reason. */
    predicate Soft() { SoftConfirmed? || SoftConfirmedGrace? }
  }

  /** The reason recorded for one run of a slot. */
  datatype Reason =
    | Hold | Stale | InvalidSignalTimestamp | CapReached | SymbolSpecMissing | SymbolMismatch
    | InvalidDistanceUnit | Confirming(why: ConfirmReason) | Gate(text: string) | Environment(text: string)
    | NoQuote | InvalidDistanceValues | NonpositiveDistance | SpreadTooWide | NoRiskBudget
    | RiskBelowMinLot | RemainingDailyRiskExceeded | OrderPlaced | OrderNotPlaced
    | ExecutionException

  /** One entry of `xauex_signal_runs_london`. */
  datatype Run = Run(
    day: int, slot: Slot, signalId: string, reason: Reason, action: Action,
    terminal: bool, counter: bool)

  datatype Kind =
    | RiskResult | BlockedCandidate | SignalDecision | CounterCandidate | ConfirmVeto
    | PatternGateBlock

  /**
   One journal line. `day` is the London date of `stamp`; `window` is the slot named by the
   payload's window label, if it names one of the three windows.
   */
  datatype Event = Event(
    kind: Kind, stamp: int, day: int, slot: Slot, window: Option<Slot>, signalId: string,
    reason: Reason, action: Action, terminal: bool, counter: bool)

  function RunOf(ev: Event): Run {
    Run(ev.day, ev.slot, ev.signalId, ev.reason, ev.action, ev.terminal, ev.counter)
  }

  /** The runs that the journal records for one London day, in order. */
  function RunsOf(journal: seq<Event>, day: int): (runs: seq<Run>)
    ensures forall r :: r in runs ==> r.day == day
  {
    if journal == [] then []
    else
      var last := journal[|journal| - 1];
      RunsOf(journal[..|journal| - 1], day) +
      (if last.kind.RiskResult? && last.day == day then [RunOf(last)] else [])
  }

  lemma {:induction false} RunsOfConcat(a: seq<Event>, b: seq<Event>, day: int)
    ensures RunsOf(a + b, day) == RunsOf(a, day) + RunsOf(b, day)
  {
    if b == [] {
      assert a + b == a;
    } else {
      assert (a + b)[..|a + b| - 1] == a + b[..|b| - 1];
      RunsOfConcat(a, b[..|b| - 1], day);
    }
  }

  /** A blocked candidate repeats the terminal run recorded just before it. */
  predicate Repeats(r: Event, b: Event) {
    && r.kind.RiskResult? && r.terminal && r.action.Directional() && r.reason != OrderPlaced
    && r.day == b.day && r.slot == b.slot && r.reason == b.reason
  }

  /** Every blocked candidate follows its run; a HOLD run has no direction, a run names no window. */
  ghost predicate Paired(evs: seq<Event>) {
    && (forall i :: 0 <= i < |evs| && evs[i].kind.BlockedCandidate? ==> i > 0 && Repeats(evs[i - 1], evs[i]))
    && (forall ev :: ev in evs && ev.kind.RiskResult? && ev.reason.Hold? ==> !ev.action.Directional())
    && (forall ev :: ev in evs ==> !ev.kind.PatternGateBlock? && (ev.kind.RiskResult? ==> ev.window == None))
  }

  lemma {:induction false} PairedConcat(a: seq<Event>, b: seq<Event>)
    requires Paired(a) && Paired(b)
    ensures Paired(a + b)
  {
    var c := a + b;
    forall i | 0 <= i < |c| && c[i].kind.BlockedCandidate? ensures i > 0 && Repeats(c[i - 1], c[i]) {
      if i >= |a| {
        assert c[i] == b[i - |a|] && c[i - 1] == b[i - |a| - 1];
      } else {
        assert c[i] == a[i] && c[i - 1] == a[i - 1];
      }
    }
  }

  lemma {:induction false} PairedPrefix(evs: seq<Event>)
    requires evs != [] && Paired(evs)
    ensures Paired(evs[..|evs| - 1])
  {
    var front := evs[..|evs| - 1];
    forall i | 0 <= i < |front| && front[i].kind.BlockedCandidate? ensures i > 0 && Repeats(front[i - 1], front[i]) {
      assert front[i] == evs[i] && front[i - 1] == evs[i - 1];
    }
  }
}
