/**
 The entry-quality gate: policy factors collected from the signal, the pattern evidence and
 the London day so far, weighed into a hard-block score.
 */
module EntryQuality {
  import opened Basics
  import opened Trading
  import opened StableSort

  datatype Factor =
    | StaleContextLowConfidence | PriceConflict | FlipBlockedLowConfidence | FlipBlockedMacroUnchanged
    | CounterSignalDailyLimit | CounterSignalAfterLoss | CounterSignalStaleContext | SameDirectionLossCooldown
    | LowerThirdNoChase | PatternMissing | PatternDirectionMismatch | PatternDataUnavailable
  {
    function Weight(): nat {
      match this
      case PatternDirectionMismatch => 3
      case CounterSignalAfterLoss => 2
      case SameDirectionLossCooldown => 2
      case PatternMissing => 2
      case _ => 1
    }
  }

  const HARD_BLOCK_SCORE := 3

  /** A missing or unreadable date counts as today. */
  predicate OnDay(day: Option<int>, today: int) {
    day.None? || day.value == today
  }

  datatype ClosedTrade = ClosedTrade(pnl: real, closedOn: Option<int>, action: Action)
  datatype SlotRun = SlotRun(day: Option<int>, order: bool, action: Action, counter: bool)

  datatype Signal = Signal(
    action: Action, confidence: real, warnings: seq<Option<Factor>>, staleContext: bool, counter: bool, lowerThird: bool)

  datatype Config = Config(staleMinConfidence: real, counterLimit: int, lossCooldown: bool)

  /** Everything the gate looks at. `assuranceAllows` is the answer of the assurance profile. */
  datatype Case = Case(
    signal: Signal, config: Config, assuranceAllows: bool, pattern: Option<Factor>, today: int,
    trades: seq<ClosedTrade>, runs: seq<SlotRun>)

  datatype QualityReason = EntryOk | EntryWarnings | HardBlocker | NoDirection | AssuranceReason

  datatype Quality = Quality(
    allowed: bool, reason: QualityReason, factors: seq<Factor>, score: nat, riskMultiplier: real)

  // ---------------------------------------------------------------- the London day so far

  predicate IsLoss(t: ClosedTrade, today: int, action: Action, sameDirectionOnly: bool) {
    t.pnl < 0.0 && OnDay(t.closedOn, today) && (sameDirectionOnly ==> t.action == action)
  }

  ghost predicate HasLoss(trades: seq<ClosedTrade>, today: int, action: Action, sameDirectionOnly: bool) {
    exists t :: t in trades && IsLoss(t, today, action, sameDirectionOnly)
  }

  method HasSameDayLoss(trades: seq<ClosedTrade>, today: int, action: Action, sameDirectionOnly: bool) returns (found: bool)
    ensures found <==> HasLoss(trades, today, action, sameDirectionOnly)
  {
    for i := 0 to |trades|
      invariant forall k :: 0 <= k < i ==> !IsLoss(trades[k], today, action, sameDirectionOnly)
    {
      if trades[i].pnl < 0.0 && OnDay(trades[i].closedOn, today) && (!sameDirectionOnly || trades[i].action == action) {
        assert IsLoss(trades[i], today, action, sameDirectionOnly);
        return true;
      }
    }
    return false;
  }

  /** An order of the day, of the given direction if one is given, counter signals only if asked. */
  predicate IsOrder(r: SlotRun, today: int, action: Option<Action>, counterOnly: bool) {
    OnDay(r.day, today) && r.order && (action.Some? ==> r.action == action.value) && (counterOnly ==> r.counter)
  }

  function OrderCount(runs: seq<SlotRun>, today: int, action: Option<Action>, counterOnly: bool): nat {
    if runs == [] then 0
    else OrderCount(runs[..|runs| - 1], today, action, counterOnly) +
         (if IsOrder(runs[|runs| - 1], today, action, counterOnly) then 1 else 0)
  }

  method PriorOrderCount(runs: seq<SlotRun>, today: int, action: Option<Action>, counterOnly: bool) returns (count: nat)
    ensures count == OrderCount(runs, today, action, counterOnly)
  {
    count := 0;
    for i := 0 to |runs|
      invariant count == OrderCount(runs[..i], today, action, counterOnly)
    {
      assert runs[..i + 1][..i] == runs[..i];
      if IsOrder(runs[i], today, action, counterOnly) {
        count := count + 1;
      }
    }
    assert runs[..|runs|] == runs;
  }

  // ---------------------------------------------------------------- the factors as a set

  ghost function If(condition: bool, f: Factor): set<Factor> {
    if condition then {f} else {}
  }

  ghost function Warned(warnings: seq<Option<Factor>>): set<Factor> {
    set f: Factor | Some(f) in warnings
  }

  /** Factors the signal and the pattern evidence bring with them. */
  ghost function SignalSet(x: Case): set<Factor> {
    (if x.pattern.Some? then {x.pattern.value} else {}) + Warned(x.signal.warnings) +
    If(x.signal.staleContext && x.signal.confidence < x.config.staleMinConfidence, StaleContextLowConfidence)
  }

  function CounterLimit(x: Case): nat {
    if x.config.counterLimit < 0 then 0 else x.config.counterLimit
  }

  /** Factors of a counter signal, given the day so far. */
  ghost function CounterSet(x: Case): set<Factor> {
    if !x.signal.counter then {}
    else
      If(OrderCount(x.runs, x.today, None, true) >= CounterLimit(x), CounterSignalDailyLimit) +
      If(HasLoss(x.trades, x.today, x.signal.action, false), CounterSignalAfterLoss) +
      If(x.signal.staleContext, CounterSignalStaleContext)
  }

  /** Factors any signal gets from the day so far. */
  ghost function DaySet(x: Case): set<Factor> {
    If(x.config.lossCooldown && HasLoss(x.trades, x.today, x.signal.action, true), SameDirectionLossCooldown) +
    If(x.signal.action.Sell? && x.signal.lowerThird && OrderCount(x.runs, x.today, Some(x.signal.action), false) > 0,
       LowerThirdNoChase)
  }

  ghost function Raised(x: Case): set<Factor> {
    SignalSet(x) + CounterSet(x) + DaySet(x)
  }

  function Part(fs: set<Factor>, f: Factor): nat {
    if f in fs then f.Weight() else 0
  }

  function EvidencePart(fs: set<Factor>): nat {
    Part(fs, StaleContextLowConfidence) + Part(fs, PriceConflict) + Part(fs, FlipBlockedLowConfidence) +
    Part(fs, FlipBlockedMacroUnchanged) + Part(fs, PatternMissing) + Part(fs, PatternDirectionMismatch) +
    Part(fs, PatternDataUnavailable)
  }

  function DayPart(fs: set<Factor>): nat {
    Part(fs, CounterSignalDailyLimit) + Part(fs, CounterSignalAfterLoss) + Part(fs, CounterSignalStaleContext) +
    Part(fs, SameDirectionLossCooldown) + Part(fs, LowerThirdNoChase)
  }

  /** The weight of a set of factors: no order, no duplicates. */
  function WeightSum(fs: set<Factor>): nat {
    EvidencePart(fs) + DayPart(fs)
  }

  lemma {:induction false} PartGrows(fs: set<Factor>, f: Factor, g: Factor)
    requires f !in fs
    ensures Part(fs + {f}, g) == Part(fs, g) + (if g == f then f.Weight() else 0)
  {
  }

  lemma {:induction false} WeightSumGrows(fs: set<Factor>, f: Factor)
    requires f !in fs
    ensures WeightSum(fs + {f}) == WeightSum(fs) + f.Weight()
  {
    var more := fs + {f};
    PartGrows(fs, f, StaleContextLowConfidence);
    PartGrows(fs, f, PriceConflict);
    PartGrows(fs, f, FlipBlockedLowConfidence);
    PartGrows(fs, f, FlipBlockedMacroUnchanged);
    PartGrows(fs, f, PatternMissing);
    PartGrows(fs, f, PatternDirectionMismatch);
    PartGrows(fs, f, PatternDataUnavailable);
    PartGrows(fs, f, CounterSignalDailyLimit);
    PartGrows(fs, f, CounterSignalAfterLoss);
    PartGrows(fs, f, CounterSignalStaleContext);
    PartGrows(fs, f, SameDirectionLossCooldown);
    PartGrows(fs, f, LowerThirdNoChase);
  }

  lemma {:induction false} WeightSumMonotone(a: set<Factor>, b: set<Factor>)
    requires a <= b
    ensures WeightSum(a) <= WeightSum(b)
  {
    forall f ensures Part(a, f) <= Part(b, f) {}
  }

  /** A factor list without repeats, and the score that belongs to it. */
  ghost predicate Weighed(fs: seq<Factor>, score: nat) {
    && score == WeightSum(SetOf(fs))
    && forall i, j :: 0 <= i < j < |fs| ==> fs[i] != fs[j]
  }

  lemma {:induction false} NothingWeighed()
    ensures SetOf<Factor>([]) == {} && WeightSum({}) == 0 && Weighed([], 0)
  {
    assert SetOf<Factor>([]) == {};
  }

  method AddFactorIf(condition: bool, fs: seq<Factor>, score: nat, f: Factor) returns (more: seq<Factor>, total: nat)
    requires Weighed(fs, score)
    ensures Weighed(more, total) && SetOf(more) == SetOf(fs) + If(condition, f)
  {
    more, total := fs, score;
    if condition && f !in fs {
      more, total := fs + [f], score + f.Weight();
      WeightSumGrows(SetOf(fs), f);
      assert SetOf(more) == SetOf(fs) + {f};
    } else {
      assert SetOf(fs) == SetOf(fs) + If(condition, f);
    }
  }

  lemma {:induction false} WarnedAppend(warnings: seq<Option<Factor>>, w: Option<Factor>)
    ensures Warned(warnings + [w]) == Warned(warnings) + (if w.Some? then {w.value} else {})
  {
    forall f: Factor ensures Some(f) in warnings + [w] <==> Some(f) in warnings || Some(f) == w {}
  }

  method AddWarnings(warnings: seq<Option<Factor>>, fs: seq<Factor>, score: nat) returns (more: seq<Factor>, total: nat)
    requires Weighed(fs, score)
    ensures Weighed(more, total) && SetOf(more) == SetOf(fs) + Warned(warnings)
  {
    more, total := fs, score;
    for i := 0 to |warnings|
      invariant Weighed(more, total) && SetOf(more) == SetOf(fs) + Warned(warnings[..i])
    {
      assert warnings[..i + 1] == warnings[..i] + [warnings[i]];
      WarnedAppend(warnings[..i], warnings[i]);
      if warnings[i].Some? {
        more, total := AddFactorIf(true, more, total, warnings[i].value);
      }
    }
    assert warnings[..|warnings|] == warnings;
  }

  /** The factors of the signal itself: pattern evidence, warnings, stale context. */
  method SignalFactors(x: Case) returns (fs: seq<Factor>, score: nat)
    ensures Weighed(fs, score) && SetOf(fs) == SignalSet(x)
  {
    fs, score := [], 0;
    NothingWeighed();
    if x.pattern.Some? {
      fs, score := AddFactorIf(true, fs, score, x.pattern.value);
    }
    fs, score := AddWarnings(x.signal.warnings, fs, score);
    fs, score := AddFactorIf(x.signal.staleContext && x.signal.confidence < x.config.staleMinConfidence,
                             fs, score, StaleContextLowConfidence);
  }

  method CounterFactors(x: Case, fs: seq<Factor>, score: nat) returns (more: seq<Factor>, total: nat)
    requires Weighed(fs, score)
    ensures Weighed(more, total) && SetOf(more) == SetOf(fs) + CounterSet(x)
  {
    more, total := fs, score;
    if x.signal.counter {
      var used := PriorOrderCount(x.runs, x.today, None, true);
      more, total := AddFactorIf(used >= CounterLimit(x), more, total, CounterSignalDailyLimit);
      var lost := HasSameDayLoss(x.trades, x.today, x.signal.action, false);
      more, total := AddFactorIf(lost, more, total, CounterSignalAfterLoss);
      more, total := AddFactorIf(x.signal.staleContext, more, total, CounterSignalStaleContext);
    }
  }

  method DayFactors(x: Case, fs: seq<Factor>, score: nat) returns (more: seq<Factor>, total: nat)
    requires Weighed(fs, score)
    ensures Weighed(more, total) && SetOf(more) == SetOf(fs) + DaySet(x)
  {
    var lost := HasSameDayLoss(x.trades, x.today, x.signal.action, true);
    more, total := AddFactorIf(x.config.lossCooldown && lost, fs, score, SameDirectionLossCooldown);
    var prior := PriorOrderCount(x.runs, x.today, Some(x.signal.action), false);
    more, total := AddFactorIf(x.signal.action.Sell? && x.signal.lowerThird && prior > 0, more, total, LowerThirdNoChase);
  }

  /** The score of a case: the weight of the set of factors it raises. */
  ghost function Score(x: Case): nat {
    WeightSum(Raised(x))
  }

  ghost predicate Judged(x: Case) {
    x.signal.action.Directional() && x.assuranceAllows
  }

  ghost predicate Allowed(x: Case) {
    Judged(x) && Score(x) < HARD_BLOCK_SCORE
  }

  /** The multiplier reported with the verdict; a blocked verdict still reports 1. */
  ghost function RiskMultiplier(x: Case): real {
    if !Allowed(x) || Score(x) == 0 then 1.0 else if Score(x) == 1 then 0.5 else 0.25
  }

  method BuildEntryQuality(x: Case) returns (q: Quality)
    ensures q.allowed <==> Allowed(x)
    ensures q.riskMultiplier == RiskMultiplier(x)
    ensures Judged(x) ==> q.score == Score(x) && SetOf(q.factors) == Raised(x)
    ensures forall i, j :: 0 <= i < j < |q.factors| ==> q.factors[i] != q.factors[j]
    ensures q.reason == if !x.signal.action.Directional() then NoDirection else if !x.assuranceAllows then AssuranceReason
                        else if Score(x) >= HARD_BLOCK_SCORE then HardBlocker else if Score(x) > 0 then EntryWarnings else EntryOk
  {
    if !x.signal.action.Directional() {
      return Quality(false, NoDirection, [], 0, 1.0);
    }
    if !x.assuranceAllows {
      return Quality(false, AssuranceReason, [], 0, 1.0);
    }
    var fs, score := SignalFactors(x);
    fs, score := CounterFactors(x, fs, score);
    fs, score := DayFactors(x, fs, score);
    if score >= HARD_BLOCK_SCORE {
      return Quality(false, HardBlocker, fs, score, 1.0);
    }
    if score > 0 {
      return Quality(true, EntryWarnings, fs, score, if score == 1 then 0.5 else 0.25);
    }
    return Quality(true, EntryOk, fs, score, 1.0);
  }

  // ---------------------------------------------------------------- the verdict only tightens

  /** The same signal and evidence later in the day: trades and runs have only been added. */
  ghost predicate Later(x: Case, y: Case) {
    y == x.(trades := y.trades, runs := y.runs) && x.trades <= y.trades && x.runs <= y.runs
  }

  lemma {:induction false} OrderCountGrows(runs: seq<SlotRun>, more: seq<SlotRun>, today: int, action: Option<Action>, counterOnly: bool)
    ensures OrderCount(runs, today, action, counterOnly) <= OrderCount(runs + more, today, action, counterOnly)
  {
    if more == [] {
      assert runs + more == runs;
    } else {
      assert (runs + more)[..|runs + more| - 1] == runs + more[..|more| - 1];
      OrderCountGrows(runs, more[..|more| - 1], today, action, counterOnly);
    }
  }

  lemma {:induction false} RaisedGrows(x: Case, y: Case)
    requires Later(x, y)
    ensures Raised(x) <= Raised(y)
  {
    assert y.runs == x.runs + y.runs[|x.runs|..];
    OrderCountGrows(x.runs, y.runs[|x.runs|..], x.today, None, true);
    OrderCountGrows(x.runs, y.runs[|x.runs|..], x.today, Some(x.signal.action), false);
    forall t | t in x.trades ensures t in y.trades {
      var i :| 0 <= i < |x.trades| && x.trades[i] == t;
      assert y.trades[i] == t;
    }
    assert HasLoss(x.trades, x.today, x.signal.action, false) ==> HasLoss(y.trades, x.today, x.signal.action, false);
    assert HasLoss(x.trades, x.today, x.signal.action, true) ==> HasLoss(y.trades, x.today, x.signal.action, true);
    assert SignalSet(x) == SignalSet(y) && CounterSet(x) <= CounterSet(y) && DaySet(x) <= DaySet(y);
  }

  /** The score never falls and a block is never lifted while the day only grows. */
  lemma {:induction false} VerdictOnlyTightens(x: Case, y: Case)
    requires Later(x, y)
    ensures Score(x) <= Score(y)
    ensures Allowed(y) ==> Allowed(x)
  {
    RaisedGrows(x, y);
    WeightSumMonotone(Raised(x), Raised(y));
  }

  /**
   A blocked verdict reports multiplier 1, so the reported number rises exactly when the
   factors weigh one or two at first and reach the block score later: in all other cases it
   never rises.
   */
  lemma {:induction false} MultiplierFallsIff(x: Case, y: Case)
    requires Later(x, y)
    ensures RiskMultiplier(y) <= RiskMultiplier(x) <==>
            !Judged(x) || Score(x) == 0 || Score(x) >= HARD_BLOCK_SCORE || Score(y) < HARD_BLOCK_SCORE
  {
    VerdictOnlyTightens(x, y);
  }

  lemma {:induction false} TwoWeights()
    ensures WeightSum({PatternMissing}) == 2
    ensures WeightSum({PatternMissing, SameDirectionLossCooldown}) == 4
  {
    NothingWeighed();
    var one: set<Factor> := {} + {PatternMissing};
    assert one == {PatternMissing};
    WeightSumGrows({}, PatternMissing);
    WeightSumGrows(one, SameDirectionLossCooldown);
    assert one + {SameDirectionLossCooldown} == {PatternMissing, SameDirectionLossCooldown};
  }

  /** A BUY with no pattern evidence, before and after a losing BUY closes. */
  function MissingPattern(trades: seq<ClosedTrade>): Case {
    Case(Signal(Buy, 0.8, [], false, false, false), Config(0.7, 1, true), true, Some(PatternMissing), 1, trades, [])
  }

  const LOSS := ClosedTrade(-5.0, Some(1), Buy)

  lemma {:induction false} MissingPatternFactors()
    ensures Raised(MissingPattern([])) == {PatternMissing}
    ensures Raised(MissingPattern([LOSS])) == {PatternMissing, SameDirectionLossCooldown}
  {
    var x, y := MissingPattern([]), MissingPattern([LOSS]);
    assert !HasLoss(x.trades, 1, Buy, true);
    assert IsLoss(LOSS, 1, Buy, true) && LOSS in y.trades;
    assert HasLoss(y.trades, 1, Buy, true);
    assert Warned([]) == {};
  }

  /** A two-point verdict at quarter risk becomes a block that reports full risk. */
  lemma {:induction false} MultiplierRisesOnBlock()
    ensures var x, y := MissingPattern([]), MissingPattern([LOSS]);
            Later(x, y) && RiskMultiplier(x) == 0.25 && RiskMultiplier(y) == 1.0 && !Allowed(y)
  {
    TwoWeights();
    MissingPatternFactors();
  }

  /** Order and repetition of the warnings do not matter. */
  lemma {:induction false} WarningsAsSet(x: Case, y: Case)
    requires y == x.(signal := x.signal.(warnings := y.signal.warnings))
    requires forall w :: w in x.signal.warnings <==> w in y.signal.warnings
    ensures Score(x) == Score(y) && (Allowed(x) <==> Allowed(y))
  {
    SameWarned(x.signal.warnings, y.signal.warnings);
    assert Raised(x) == Raised(y);
  }

  lemma {:induction false} SameWarned(a: seq<Option<Factor>>, b: seq<Option<Factor>>)
    requires forall w :: w in a <==> w in b
    ensures Warned(a) == Warned(b)
  {
    forall f ensures f in Warned(a) <==> f in Warned(b) {
      assert f in Warned(a) <==> Some(f) in a;
      assert f in Warned(b) <==> Some(f) in b;
    }
  }

  // ---------------------------------------------------------------- in points

  /** The run is an order of the day. */
  predicate OrderToday(r: SlotRun, today: int) {
    r.order && (r.day == None || r.day == Some(today))
  }

  /** The trade was closed at a loss on the day. */
  predicate LostToday(t: ClosedTrade, today: int) {
    t.pnl < 0.0 && (t.closedOn == None || t.closedOn == Some(today))
  }

  /** Some trade of the day was closed at a loss, in any direction or in the signal's own. */
  ghost predicate LossToday(x: Case) {
    exists t :: t in x.trades && LostToday(t, x.today)
  }

  ghost predicate OwnLossToday(x: Case) {
    exists t :: t in x.trades && LostToday(t, x.today) && t.action == x.signal.action
  }

  ghost predicate OrderedToday(x: Case) {
    exists r :: r in x.runs && OrderToday(r, x.today) && r.action == x.signal.action
  }

  function CounterOrders(x: Case): nat {
    |Filter(x.runs, (r: SlotRun) => OrderToday(r, x.today) && r.counter)|
  }

  /** The factors that the case itself brings, besides pattern evidence and warnings. */
  ghost predicate Brings(x: Case, f: Factor) {
    match f
    case StaleContextLowConfidence => x.signal.staleContext && x.signal.confidence < x.config.staleMinConfidence
    case CounterSignalDailyLimit => x.signal.counter && CounterOrders(x) >= x.config.counterLimit
    case CounterSignalAfterLoss => x.signal.counter && LossToday(x)
    case CounterSignalStaleContext => x.signal.counter && x.signal.staleContext
    case SameDirectionLossCooldown => x.config.lossCooldown && OwnLossToday(x)
    case LowerThirdNoChase => x.signal.action == Sell && x.signal.lowerThird && OrderedToday(x)
    case _ => false
  }

  ghost predicate Shows(x: Case, f: Factor) {
    x.pattern == Some(f) || Some(f) in x.signal.warnings || Brings(x, f)
  }

  ghost function PointsFor(x: Case, f: Factor, points: nat): nat {
    if Shows(x, f) then points else 0
  }

  /** Three points for a pattern the other way, two for a missing one and for losses, one for the rest. */
  ghost function Points(x: Case): nat {
    PointsFor(x, PatternDirectionMismatch, 3) + PointsFor(x, PatternMissing, 2) + PointsFor(x, PatternDataUnavailable, 1) +
    PointsFor(x, CounterSignalAfterLoss, 2) + PointsFor(x, SameDirectionLossCooldown, 2) +
    PointsFor(x, StaleContextLowConfidence, 1) + PointsFor(x, PriceConflict, 1) + PointsFor(x, FlipBlockedLowConfidence, 1) +
    PointsFor(x, FlipBlockedMacroUnchanged, 1) + PointsFor(x, CounterSignalDailyLimit, 1) +
    PointsFor(x, CounterSignalStaleContext, 1) + PointsFor(x, LowerThirdNoChase, 1)
  }

  lemma {:induction false} CounterOrdersCounted(runs: seq<SlotRun>, today: int)
    ensures OrderCount(runs, today, None, true) == |Filter(runs, (r: SlotRun) => OrderToday(r, today) && r.counter)|
  {
    if runs != [] {
      CounterOrdersCounted(runs[..|runs| - 1], today);
    }
  }

  lemma {:induction false} SomeOrderCounted(runs: seq<SlotRun>, today: int, action: Action)
    ensures OrderCount(runs, today, Some(action), false) > 0 <==> exists r :: r in runs && OrderToday(r, today) && r.action == action
  {
    if runs != [] {
      var front, last := runs[..|runs| - 1], runs[|runs| - 1];
      SomeOrderCounted(front, today, action);
      assert runs == front + [last];
      assert last in runs;
    }
  }

  lemma {:induction false} LossesOfDay(x: Case)
    ensures HasLoss(x.trades, x.today, x.signal.action, false) <==> LossToday(x)
    ensures HasLoss(x.trades, x.today, x.signal.action, true) <==> OwnLossToday(x)
  {
    if t :| t in x.trades && LostToday(t, x.today) {
      assert IsLoss(t, x.today, x.signal.action, false);
    }
    if t :| t in x.trades && LostToday(t, x.today) && t.action == x.signal.action {
      assert IsLoss(t, x.today, x.signal.action, true);
    }
  }

  lemma {:induction false} InSignalSet(x: Case, f: Factor)
    ensures f in SignalSet(x) <==>
            x.pattern == Some(f) || Some(f) in x.signal.warnings || (f == StaleContextLowConfidence && Brings(x, f))
  {
  }

  lemma {:induction false} InCounterSet(x: Case, f: Factor)
    ensures f in CounterSet(x) <==>
            (f == CounterSignalDailyLimit || f == CounterSignalAfterLoss || f == CounterSignalStaleContext) && Brings(x, f)
  {
    CounterOrdersCounted(x.runs, x.today);
    LossesOfDay(x);
  }

  lemma {:induction false} InDaySet(x: Case, f: Factor)
    ensures f in DaySet(x) <==> (f == SameDirectionLossCooldown || f == LowerThirdNoChase) && Brings(x, f)
  {
    SomeOrderCounted(x.runs, x.today, x.signal.action);
    LossesOfDay(x);
  }

  /** Each factor is raised by the pattern evidence, by a warning, or by what the case itself shows. */
  lemma {:induction false} RaisedIffShown(x: Case, f: Factor)
    ensures f in Raised(x) <==> Shows(x, f)
  {
    InSignalSet(x, f);
    InCounterSet(x, f);
    InDaySet(x, f);
  }

  lemma {:induction false} PartIsPoints(x: Case, f: Factor, points: nat)
    requires f.Weight() == points
    ensures Part(Raised(x), f) == PointsFor(x, f, points)
  {
    RaisedIffShown(x, f);
  }

  lemma {:induction false} ScoreIsPoints(x: Case)
    ensures Score(x) == Points(x)
  {
    PartIsPoints(x, PatternDirectionMismatch, 3);
    PartIsPoints(x, PatternMissing, 2);
    PartIsPoints(x, PatternDataUnavailable, 1);
    PartIsPoints(x, CounterSignalAfterLoss, 2);
    PartIsPoints(x, SameDirectionLossCooldown, 2);
    PartIsPoints(x, StaleContextLowConfidence, 1);
    PartIsPoints(x, PriceConflict, 1);
    PartIsPoints(x, FlipBlockedLowConfidence, 1);
    PartIsPoints(x, FlipBlockedMacroUnchanged, 1);
    PartIsPoints(x, CounterSignalDailyLimit, 1);
    PartIsPoints(x, CounterSignalStaleContext, 1);
    PartIsPoints(x, LowerThirdNoChase, 1);
  }

  /** The verdict in points: three block, two trade at a quarter of the risk, one at half. */
  lemma {:induction false} VerdictInPoints(x: Case)
    ensures Allowed(x) <==> x.signal.action != NoAction && x.assuranceAllows && Points(x) < 3
    ensures RiskMultiplier(x) == if Allowed(x) && Points(x) == 1 then 0.5 else if Allowed(x) && Points(x) == 2 then 0.25 else 1.0
  {
    ScoreIsPoints(x);
  }
}
