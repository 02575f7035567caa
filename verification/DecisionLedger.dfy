/**
 The decision ledger: events of one London day and window are grouped, ordered by time and
 folded to one outcome. The fold of the bot's own journal gives back the bot's own record.
 */
module DecisionLedger {
  import opened Basics
  import opened Trading
  import opened PollLoop
  import opened PollSafety
  import opened PollRuns
  import opened StableSort

  datatype Outcome = Traded | Held | Blocked | NoDecision | NoSignal | NotConsumed | GateHold

  datatype LedgerReason =
    | Because(reason: Reason) | NoTerminalEvent | NoPipelineRun | SignalNeverReachedBot | HoldParser
    | ParserGate(gate: string)

  datatype Finding = Finding(outcome: Outcome, reason: LedgerReason)

  const NOTHING := Finding(NoDecision, NoTerminalEvent)
  const TRADED := Finding(Traded, Because(OrderPlaced))

  // ---------------------------------------------------------------- the fold

  /** The window an event is filed under: the one its label names, else its slot. */
  function WindowOf(ev: Event): Slot {
    if ev.window.Some? then ev.window.value else ev.slot
  }

  predicate ShowsOrder(ev: Event) {
    ev.kind.RiskResult? && ev.reason == OrderPlaced
  }

  /** What one event says about its window, if it decides anything. */
  function Says(ev: Event): Option<Finding> {
    match ev.kind
    case RiskResult =>
      if !ev.terminal then None
      else if ev.reason.Hold? || !ev.action.Directional() then Some(Finding(Held, Because(ev.reason)))
      else Some(Finding(Blocked, Because(ev.reason)))
    case BlockedCandidate => Some(Finding(Blocked, Because(ev.reason)))
    case PatternGateBlock => Some(Finding(Blocked, Because(ev.reason)))
    case _ => None
  }

  function LastSaying(evs: seq<Event>): Finding {
    if evs == [] then NOTHING
    else
      var last := evs[|evs| - 1];
      if Says(last).Some? then Says(last).value else LastSaying(evs[..|evs| - 1])
  }

  /** An order settles the window; otherwise the last event that decides anything does. */
  function OutcomeOf(evs: seq<Event>): Finding {
    if exists i :: 0 <= i < |evs| && ShowsOrder(evs[i]) then TRADED else LastSaying(evs)
  }

  method FinalOutcome(evs: seq<Event>) returns (finding: Finding)
    ensures finding == OutcomeOf(evs)
  {
    finding := NOTHING;
    for i := 0 to |evs|
      invariant forall k :: 0 <= k < i ==> !ShowsOrder(evs[k])
      invariant finding == LastSaying(evs[..i])
    {
      assert evs[..i + 1][..i] == evs[..i];
      if evs[i].kind.RiskResult? {
        if evs[i].reason == OrderPlaced {
          return TRADED;
        }
        if evs[i].terminal {
          if evs[i].reason.Hold? || !evs[i].action.Directional() {
            finding := Finding(Held, Because(evs[i].reason));
          } else {
            finding := Finding(Blocked, Because(evs[i].reason));
          }
        }
      } else if evs[i].kind.BlockedCandidate? || evs[i].kind.PatternGateBlock? {
        finding := Finding(Blocked, Because(evs[i].reason));
      }
    }
    assert evs[..|evs|] == evs;
  }

  // ---------------------------------------------------------------- the grouping

  type Key = (int, Slot)

  predicate FiledUnder(ev: Event, since: int, key: Key) {
    ev.stamp >= since && ev.day == key.0 && WindowOf(ev) == key.1
  }

  function Filed(journal: seq<Event>, since: int, key: Key): seq<Event> {
    Filter(journal, ev => FiledUnder(ev, since, key))
  }

  method GroupEvents(journal: seq<Event>, since: int) returns (grouped: map<Key, seq<Event>>)
    ensures forall key :: key in grouped <==> Filed(journal, since, key) != []
    ensures forall key :: key in grouped ==> grouped[key] == Filed(journal, since, key)
  {
    grouped := map[];
    for i := 0 to |journal|
      invariant forall key :: key in grouped <==> Filed(journal[..i], since, key) != []
      invariant forall key :: key in grouped ==> grouped[key] == Filed(journal[..i], since, key)
    {
      assert journal[..i + 1][..i] == journal[..i];
      var ev := journal[i];
      if ev.stamp >= since {
        var key := (ev.day, WindowOf(ev));
        grouped := grouped[key := (if key in grouped then grouped[key] else []) + [ev]];
      }
    }
    assert journal[..|journal|] == journal;
  }

  // ---------------------------------------------------------------- the report

  datatype ParserRun = ParserRun(action: Action, gate: Option<string>)

  datatype Record = Record(day: int, slot: Slot, finding: Finding)

  /** The finding for one window, from its ordered events and the archived pipeline run. */
  function WindowFinding(evs: seq<Event>, run: Option<ParserRun>): Finding {
    if evs == [] && run.None? then Finding(NoSignal, NoPipelineRun)
    else
      var found := if evs != [] then OutcomeOf(evs)
                   else if run.value.action.Directional() then Finding(NotConsumed, SignalNeverReachedBot)
                   else Finding(Held, HoldParser);
      if found.outcome.Held? && run.Some? && run.value.gate.Some?
      then Finding(GateHold, ParserGate(run.value.gate.value)) else found
  }

  function Reported(journal: seq<Event>, since: int, archived: map<Key, ParserRun>, key: Key): Finding {
    WindowFinding(Sort(Filed(journal, since, key), (ev: Event) => ev.stamp),
                  if key in archived then Some(archived[key]) else None)
  }

  function CountOutcome(records: seq<Record>, outcome: Outcome): nat {
    if records == [] then 0
    else CountOutcome(records[..|records| - 1], outcome) +
         (if records[|records| - 1].finding.outcome == outcome then 1 else 0)
  }

  function CountReason(records: seq<Record>, reason: LedgerReason): nat {
    if records == [] then 0
    else CountReason(records[..|records| - 1], reason) +
         (if records[|records| - 1].finding.reason == reason then 1 else 0)
  }

  /** A counter: what is not in it has been seen zero times. */
  function Tally<K>(totals: map<K, nat>, key: K): nat {
    if key in totals then totals[key] else 0
  }

  datatype Totals = Totals(byOutcome: map<Outcome, nat>, byReason: map<LedgerReason, nat>)

  /** The sum of the outcome counter, which the report prints as its number of windows. */
  function TotalWindows(totals: map<Outcome, nat>): nat {
    Tally(totals, Traded) + Tally(totals, Held) + Tally(totals, Blocked) + Tally(totals, NoDecision) +
    Tally(totals, NoSignal) + Tally(totals, NotConsumed) + Tally(totals, GateHold)
  }

  const WINDOWS: seq<Slot> := [Morning, Midday, UsOpen]

  function RecordFor(journal: seq<Event>, since: int, archived: map<Key, ParserRun>, key: Key): Record {
    Record(key.0, key.1, Reported(journal, since, archived, key))
  }

  lemma {:induction false} CountAppend(records: seq<Record>, record: Record, outcome: Outcome, reason: LedgerReason)
    ensures CountOutcome(records + [record], outcome) ==
            CountOutcome(records, outcome) + (if record.finding.outcome == outcome then 1 else 0)
    ensures CountReason(records + [record], reason) ==
            CountReason(records, reason) + (if record.finding.reason == reason then 1 else 0)
  {
    assert (records + [record])[..|records|] == records;
  }

  method ReportWindow(grouped: map<Key, seq<Event>>, archived: map<Key, ParserRun>, key: Key,
                      ghost journal: seq<Event>, ghost since: int) returns (finding: Finding)
    requires key in grouped ==> grouped[key] == Filed(journal, since, key)
    requires key !in grouped ==> Filed(journal, since, key) == []
    ensures finding == Reported(journal, since, archived, key)
  {
    var evs := Sort(if key in grouped then grouped[key] else [], (ev: Event) => ev.stamp);
    var run := if key in archived then Some(archived[key]) else None;
    if evs == [] && run.None? {
      return Finding(NoSignal, NoPipelineRun);
    }
    if evs != [] {
      finding := FinalOutcome(evs);
    } else if run.value.action.Directional() {
      finding := Finding(NotConsumed, SignalNeverReachedBot);
    } else {
      finding := Finding(Held, HoldParser);
    }
    if finding.outcome.Held? && run.Some? && run.value.gate.Some? {
      finding := Finding(GateHold, ParserGate(run.value.gate.value));
    }
  }

  function DayRecords(journal: seq<Event>, since: int, archived: map<Key, ParserRun>, day: int): (records: seq<Record>)
    ensures |records| == |WINDOWS|
  {
    seq(|WINDOWS|, w requires 0 <= w < |WINDOWS| => RecordFor(journal, since, archived, (day, WINDOWS[w])))
  }

  /** The three records of each reported day, in order. */
  function AllRecords(journal: seq<Event>, since: int, archived: map<Key, ParserRun>, dates: seq<int>): (records: seq<Record>)
    ensures |records| == 3 * |dates|
  {
    if dates == [] then []
    else
      AllRecords(journal, since, archived, dates[..|dates| - 1]) +
      DayRecords(journal, since, archived, dates[|dates| - 1])
  }

  /** The counters count the records, outcome by outcome, reason by reason and in total. */
  ghost predicate Counted(records: seq<Record>, totals: Totals) {
    && (forall outcome :: Tally(totals.byOutcome, outcome) == CountOutcome(records, outcome))
    && (forall reason :: Tally(totals.byReason, reason) == CountReason(records, reason))
    && TotalWindows(totals.byOutcome) == |records|
  }

  function Bumped<K>(totals: map<K, nat>, key: K): map<K, nat> {
    totals[key := Tally(totals, key) + 1]
  }

  lemma {:induction false} BumpAddsOne<K(!new)>(totals: map<K, nat>, key: K)
    ensures forall other :: Tally(Bumped(totals, key), other) == Tally(totals, other) + (if other == key then 1 else 0)
  {
    forall other ensures Tally(Bumped(totals, key), other) == Tally(totals, other) + (if other == key then 1 else 0) {}
  }

  lemma {:induction false} BumpAddsWindow(totals: map<Outcome, nat>, outcome: Outcome)
    ensures TotalWindows(Bumped(totals, outcome)) == TotalWindows(totals) + 1
  {
    BumpAddsOne(totals, outcome);
    match outcome {
      case Traded => case Held => case Blocked => case NoDecision =>
      case NoSignal => case NotConsumed => case GateHold =>
    }
  }

  method AddRecord(records: seq<Record>, totals: Totals, record: Record) returns (more: seq<Record>, counted: Totals)
    requires Counted(records, totals)
    ensures more == records + [record] && Counted(more, counted)
  {
    var outcome, reason := record.finding.outcome, record.finding.reason;
    more := records + [record];
    counted := Totals(Bumped(totals.byOutcome, outcome), Bumped(totals.byReason, reason));
    BumpAddsOne(totals.byOutcome, outcome);
    BumpAddsOne(totals.byReason, reason);
    BumpAddsWindow(totals.byOutcome, outcome);
    forall o ensures Tally(counted.byOutcome, o) == CountOutcome(more, o) {
      CountAppend(records, record, o, reason);
    }
    forall x ensures Tally(counted.byReason, x) == CountReason(more, x) {
      CountAppend(records, record, outcome, x);
    }
  }

  method ReportDay(grouped: map<Key, seq<Event>>, archived: map<Key, ParserRun>, day: int, records: seq<Record>,
                   totals: Totals, ghost journal: seq<Event>, ghost since: int)
    returns (more: seq<Record>, counted: Totals)
    requires forall key :: key in grouped ==> grouped[key] == Filed(journal, since, key)
    requires forall key :: key !in grouped ==> Filed(journal, since, key) == []
    requires Counted(records, totals)
    ensures more == records + DayRecords(journal, since, archived, day) && Counted(more, counted)
  {
    more, counted := records, totals;
    ghost var all := DayRecords(journal, since, archived, day);
    for w := 0 to |WINDOWS|
      invariant more == records + all[..w] && Counted(more, counted)
    {
      var finding := ReportWindow(grouped, archived, (day, WINDOWS[w]), journal, since);
      var record := Record(day, WINDOWS[w], finding);
      OneMore(records, all, w, record);
      more, counted := AddRecord(more, counted, record);
    }
    assert all[..|WINDOWS|] == all;
  }

  lemma {:induction false} OneMore<T>(before: seq<T>, all: seq<T>, k: nat, x: T)
    requires k < |all| && all[k] == x
    ensures before + all[..k] + [x] == before + all[..k + 1]
  {
  }

  function Newest(day: int): int { -day }

  /** The days of a set, newest first. */
  method NewestFirst(days: set<int>) returns (dates: seq<int>)
    ensures StrictlySorted(dates, Newest) && forall day :: day in dates <==> day in days
  {
    var listed := Enumerate(days);
    dates := Sort(listed, Newest);
    SortSorted(listed, Newest);
    forall day ensures day in dates <==> day in listed {
      assert day in dates <==> day in multiset(listed);
    }
    DistinctStrictlySorted(listed, dates, Newest);
  }

  /** A day is reported when it has an event since the start of the look-back, or an archived run. */
  ghost predicate Occupied(journal: seq<Event>, since: int, archived: map<Key, ParserRun>, day: int) {
    exists slot: Slot :: Filed(journal, since, (day, slot)) != [] || (day, slot) in archived
  }

  method BuildDecisionLedger(journal: seq<Event>, since: int, archived: map<Key, ParserRun>)
    returns (dates: seq<int>, records: seq<Record>, totals: Totals)
    ensures StrictlySorted(dates, Newest) && forall day :: day in dates <==> Occupied(journal, since, archived, day)
    ensures records == AllRecords(journal, since, archived, dates)
    ensures Counted(records, totals)
  {
    var grouped := GroupEvents(journal, since);
    var days := set key | key in grouped.Keys + archived.Keys :: key.0;
    dates := NewestFirst(days);
    forall day ensures day in days <==> Occupied(journal, since, archived, day) {
      DaysOfKeys(journal, since, archived, grouped, day);
    }
    records, totals := [], Totals(map[], map[]);
    for d := 0 to |dates|
      invariant records == AllRecords(journal, since, archived, dates[..d])
      invariant Counted(records, totals)
    {
      records, totals := ReportDay(grouped, archived, dates[d], records, totals, journal, since);
      assert dates[..d + 1][..d] == dates[..d];
    }
    assert dates[..|dates|] == dates;
  }

  lemma {:induction false} DaysOfKeys(journal: seq<Event>, since: int, archived: map<Key, ParserRun>, grouped: map<Key, seq<Event>>, day: int)
    requires forall key :: key in grouped <==> Filed(journal, since, key) != []
    ensures (exists key :: key in grouped.Keys + archived.Keys && key.0 == day) <==> Occupied(journal, since, archived, day)
  {
    if key :| key in grouped.Keys + archived.Keys && key.0 == day {
      assert key == (day, key.1);
    }
    if slot: Slot :| Filed(journal, since, (day, slot)) != [] || (day, slot) in archived {
      assert (day, slot) in grouped.Keys + archived.Keys;
    }
  }

  // ---------------------------------------------------------------- what the records say

  /** The line counts for this day and window: recent enough, and labelled for it or, unlabelled, from its slot. */
  predicate Concerns(ev: Event, since: int, day: int, slot: Slot) {
    ev.stamp >= since && ev.day == day && (ev.window == Some(slot) || (ev.window == None && ev.slot == slot))
  }

  /** A line that settles a window unless a later one or an order does. */
  predicate Decides(ev: Event) {
    (ev.kind == RiskResult && ev.terminal) || ev.kind == BlockedCandidate || ev.kind == PatternGateBlock
  }

  /** Line `k` is the last that decides. */
  ghost predicate LastDecides(evs: seq<Event>, k: int) {
    0 <= k < |evs| && Decides(evs[k]) && forall j :: k < j < |evs| ==> !Decides(evs[j])
  }

  /** A terminal result without a direction, or for the reason HOLD, holds; any other deciding line blocks. */
  predicate Settles(ev: Event, f: Finding) {
    f == if ev.kind == RiskResult && (ev.reason == Hold || ev.action == NoAction) then Finding(Held, Because(ev.reason))
         else Finding(Blocked, Because(ev.reason))
  }

  /** What the lines of a window come to. */
  ghost predicate LinesMean(evs: seq<Event>, f: Finding) {
    if exists ev :: ev in evs && ev.kind == RiskResult && ev.reason == OrderPlaced then f == Finding(Traded, Because(OrderPlaced))
    else if forall ev :: ev in evs ==> !Decides(ev) then f == Finding(NoDecision, NoTerminalEvent)
    else exists k :: LastDecides(evs, k) && Settles(evs[k], f)
  }

  /** Lines and archived pipeline run together; a hold that a parser gate made is put down to the gate. */
  ghost predicate WindowMeans(evs: seq<Event>, run: Option<ParserRun>, f: Finding) {
    if evs == [] && run == None then f == Finding(NoSignal, NoPipelineRun)
    else if evs == [] && run.value.action != NoAction then f == Finding(NotConsumed, SignalNeverReachedBot)
    else if f.outcome == GateHold then
      && run.Some? && run.value.gate.Some? && f.reason == ParserGate(run.value.gate.value)
      && (evs != [] ==> exists why :: LinesMean(evs, Finding(Held, why)))
    else
      && (f.outcome == Held ==> run == None || run.value.gate == None)
      && if evs == [] then f == Finding(Held, HoldParser) else LinesMean(evs, f)
  }

  lemma {:induction false} FoldMeans(evs: seq<Event>)
    ensures LinesMean(evs, OutcomeOf(evs))
  {
    if exists i :: 0 <= i < |evs| && ShowsOrder(evs[i]) {
      var i :| 0 <= i < |evs| && ShowsOrder(evs[i]);
      assert evs[i] in evs;
    } else {
      LastSayingMeans(evs);
    }
  }

  lemma {:induction false} LastSayingMeans(evs: seq<Event>)
    ensures if forall ev :: ev in evs ==> !Decides(ev) then LastSaying(evs) == Finding(NoDecision, NoTerminalEvent)
            else exists k :: LastDecides(evs, k) && Settles(evs[k], LastSaying(evs))
  {
    if evs != [] {
      var front, last := evs[..|evs| - 1], evs[|evs| - 1];
      assert evs == front + [last];
      if Decides(last) {
        assert LastDecides(evs, |front|) && Settles(evs[|front|], LastSaying(evs));
      } else {
        LastSayingMeans(front);
        if k :| LastDecides(front, k) && Settles(front[k], LastSaying(front)) {
          assert LastDecides(evs, k) && Settles(evs[k], LastSaying(evs));
        }
      }
    }
  }

  lemma {:induction false} WindowFindingMeans(evs: seq<Event>, run: Option<ParserRun>)
    ensures WindowMeans(evs, run, WindowFinding(evs, run))
  {
    FoldMeans(evs);
    var f := WindowFinding(evs, run);
    if evs != [] && f.outcome == GateHold {
      assert LinesMean(evs, Finding(Held, OutcomeOf(evs).reason));
    }
  }

  /** The lines of a window: exactly those that concern it, as often as they are journalled, by time. */
  ghost predicate LinesOf(evs: seq<Event>, journal: seq<Event>, since: int, day: int, slot: Slot) {
    && multiset(evs) == multiset(Filter(journal, (ev: Event) => Concerns(ev, since, day, slot)))
    && forall i, j :: 0 <= i < j < |evs| ==> evs[i].stamp <= evs[j].stamp
  }

  ghost predicate RecordMeans(journal: seq<Event>, since: int, archived: map<Key, ParserRun>, record: Record) {
    exists evs :: LinesOf(evs, journal, since, record.day, record.slot) &&
      WindowMeans(evs, if (record.day, record.slot) in archived then Some(archived[(record.day, record.slot)]) else None, record.finding)
  }

  lemma {:induction false} FiledConcerns(journal: seq<Event>, since: int, day: int, slot: Slot)
    ensures Filed(journal, since, (day, slot)) == Filter(journal, (ev: Event) => Concerns(ev, since, day, slot))
  {
    if journal != [] {
      FiledConcerns(journal[..|journal| - 1], since, day, slot);
    }
  }

  lemma {:induction false} RecordForMeans(journal: seq<Event>, since: int, archived: map<Key, ParserRun>, day: int, slot: Slot)
    ensures RecordMeans(journal, since, archived, RecordFor(journal, since, archived, (day, slot)))
  {
    var byTime := (ev: Event) => ev.stamp;
    var evs := Sort(Filed(journal, since, (day, slot)), byTime);
    FiledConcerns(journal, since, day, slot);
    SortSorted(Filed(journal, since, (day, slot)), byTime);
    forall i, j | 0 <= i < j < |evs| ensures evs[i].stamp <= evs[j].stamp {
      assert byTime(evs[i]) <= byTime(evs[j]);
    }
    assert LinesOf(evs, journal, since, day, slot);
    WindowFindingMeans(evs, if (day, slot) in archived then Some(archived[(day, slot)]) else None);
  }

  /**
   The report has, for each of its days, a record of each of the three windows in order, and each
   record means what it says: traded, held, blocked or undecided by the window's own lines, never
   signalled, never consumed by the bot, or held by a parser gate.
   */
  lemma {:induction false} RecordsMeanWhatTheySay(journal: seq<Event>, since: int, archived: map<Key, ParserRun>, dates: seq<int>, d: nat, w: nat)
    requires d < |dates| && w < 3
    ensures var record := AllRecords(journal, since, archived, dates)[3 * d + w];
            && record.day == dates[d] && record.slot == (if w == 0 then Morning else if w == 1 then Midday else UsOpen)
            && RecordMeans(journal, since, archived, record)
  {
    if d < |dates| - 1 {
      RecordsMeanWhatTheySay(journal, since, archived, dates[..|dates| - 1], d, w);
    } else {
      RecordForMeans(journal, since, archived, dates[d], WINDOWS[w]);
    }
  }

  // ---------------------------------------------------------------- the bot's own record

  function LastTerminal(runs: seq<Run>, slot: Slot): Option<Run> {
    if runs == [] then None
    else
      var last := runs[|runs| - 1];
      if last.slot == slot && last.terminal then Some(last) else LastTerminal(runs[..|runs| - 1], slot)
  }

  /** What the bot's runs list says about a slot, without looking at the journal. */
  function BotFinding(runs: seq<Run>, slot: Slot): Finding {
    if exists r :: r in runs && r.slot == slot && r.reason == OrderPlaced then TRADED
    else
      match LastTerminal(runs, slot)
      case None => NOTHING
      case Some(r) => Finding(if r.action.Directional() then Blocked else Held, Because(r.reason))
  }

  /** No blocked candidate of another slot is filed under this day and window. */
  ghost predicate NoStrayLines(journal: seq<Event>, day: int, slot: Slot) {
    forall ev :: ev in journal && ev.kind.BlockedCandidate? && ev.day == day && WindowOf(ev) == slot ==> ev.slot == slot
  }

  lemma {:induction false} LastSayingIsNoTrade(evs: seq<Event>)
    ensures LastSaying(evs).outcome != Traded
  {
    if evs != [] {
      LastSayingIsNoTrade(evs[..|evs| - 1]);
    }
  }

  /** One more event: an order settles the window for good, other events overwrite. */
  lemma {:induction false} OutcomeAppend(evs: seq<Event>, last: Event)
    ensures OutcomeOf(evs + [last]) ==
            if ShowsOrder(last) || OutcomeOf(evs) == TRADED then TRADED
            else if Says(last).Some? then Says(last).value else OutcomeOf(evs)
  {
    var all := evs + [last];
    assert all[..|all| - 1] == evs;
    LastSayingIsNoTrade(evs);
    if exists i :: 0 <= i < |evs| && ShowsOrder(evs[i]) {
      var i :| 0 <= i < |evs| && ShowsOrder(evs[i]);
      assert ShowsOrder(all[i]);
    } else if ShowsOrder(last) {
      assert ShowsOrder(all[|evs|]);
    } else {
      forall i | 0 <= i < |all| ensures !ShowsOrder(all[i]) {}
    }
  }

  predicate OrderRun(runs: seq<Run>, slot: Slot) {
    exists r :: r in runs && r.slot == slot && r.reason == OrderPlaced
  }

  lemma {:induction false} BotAppend(runs: seq<Run>, run: Run, slot: Slot)
    ensures BotFinding(runs + [run], slot) ==
            if run.slot != slot then BotFinding(runs, slot)
            else if run.reason == OrderPlaced || BotFinding(runs, slot) == TRADED then TRADED
            else if run.terminal then Finding(if run.action.Directional() then Blocked else Held, Because(run.reason))
            else BotFinding(runs, slot)
  {
    var more := runs + [run];
    assert more[..|more| - 1] == runs;
    forall r ensures r in more <==> r in runs || r == run {}
    if OrderRun(runs, slot) {
      assert OrderRun(more, slot);
    } else if run.slot == slot && run.reason == OrderPlaced {
      assert run in more;
    } else {
      assert !OrderRun(more, slot);
    }
  }

  /** The last line filed under a day and window that decides anything. */
  function LastDeciding(journal: seq<Event>, since: int, key: Key): Option<Event> {
    if journal == [] then None
    else
      var last := journal[|journal| - 1];
      if FiledUnder(last, since, key) && Says(last).Some? then Some(last)
      else LastDeciding(journal[..|journal| - 1], since, key)
  }

  /** The line says again what the slot's last terminal run said. */
  predicate RepeatsLast(runs: seq<Run>, slot: Slot, line: Event) {
    var r := LastTerminal(runs, slot);
    r.Some? && r.value.action.Directional() && r.value.reason == line.reason
  }

  /**
   The slot was traded, or nothing decides its window, or the deciding line is the slot's own,
   or a stray line that only says what the slot's last terminal run said.
   */
  predicate Agrees(journal: seq<Event>, since: int, day: int, slot: Slot) {
    var runs, line := RunsOf(journal, day), LastDeciding(journal, since, (day, slot));
    OrderRun(runs, slot) || line.None? || line.value.slot == slot || RepeatsLast(runs, slot, line.value)
  }

  /** What fold and bot say, case by case of the line that decides. */
  ghost predicate FoldCases(journal: seq<Event>, since: int, day: int, slot: Slot) {
    var runs, line := RunsOf(journal, day), LastDeciding(journal, since, (day, slot));
    var fold, bot := OutcomeOf(Filed(journal, since, (day, slot))), BotFinding(runs, slot);
    if OrderRun(runs, slot) then fold == TRADED && bot == TRADED
    else if line.None? then fold == NOTHING && bot == NOTHING
    else
      && Says(line.value) == Some(fold)
      && (if line.value.slot == slot then fold == bot else line.value.kind.BlockedCandidate?)
  }

  lemma {:induction false} FoldByCases(journal: seq<Event>, since: int, day: int, slot: Slot)
    requires Paired(journal) && forall ev :: ev in journal && ev.day == day ==> ev.stamp >= since
    ensures FoldCases(journal, since, day, slot)
  {
    if journal != [] {
      PairedPrefix(journal);
      FoldByCases(journal[..|journal| - 1], since, day, slot);
      FoldNext(journal, since, day, slot);
    }
  }

  lemma {:induction false} FoldNext(journal: seq<Event>, since: int, day: int, slot: Slot)
    requires journal != [] && Paired(journal) && forall ev :: ev in journal && ev.day == day ==> ev.stamp >= since
    requires FoldCases(journal[..|journal| - 1], since, day, slot)
    ensures FoldCases(journal, since, day, slot)
  {
    var front, last := journal[..|journal| - 1], journal[|journal| - 1];
    assert last in journal;
    if last.kind.BlockedCandidate? && last.slot == slot && FiledUnder(last, since, (day, slot)) {
      OwnBlockRepeats(journal, day, slot);
    }
    FoldOneMore(front, last, since, day, slot);
    assert front + [last] == journal;
  }

  lemma {:induction false} FiledAppend(front: seq<Event>, last: Event, since: int, key: Key)
    ensures Filed(front + [last], since, key) ==
            if FiledUnder(last, since, key) then Filed(front, since, key) + [last] else Filed(front, since, key)
    ensures LastDeciding(front + [last], since, key) ==
            if FiledUnder(last, since, key) && Says(last).Some? then Some(last) else LastDeciding(front, since, key)
  {
    assert (front + [last])[..|front|] == front;
  }

  lemma {:induction false} RunsAppend(front: seq<Event>, last: Event, day: int)
    ensures RunsOf(front + [last], day) ==
            if last.kind.RiskResult? && last.day == day then RunsOf(front, day) + [RunOf(last)] else RunsOf(front, day)
  {
    assert (front + [last])[..|front|] == front;
  }

  /** One more line: the cases of the fold are kept. */
  lemma {:induction false} FoldOneMore(front: seq<Event>, last: Event, since: int, day: int, slot: Slot)
    requires FoldCases(front, since, day, slot) && (last.day == day ==> last.stamp >= since)
    requires last.kind.RiskResult? ==> last.window == None && (last.reason.Hold? ==> !last.action.Directional())
    requires !last.kind.PatternGateBlock?
    requires last.kind.BlockedCandidate? && last.slot == slot && FiledUnder(last, since, (day, slot)) ==>
               BotFinding(RunsOf(front, day), slot) in {TRADED, Finding(Blocked, Because(last.reason))}
    ensures FoldCases(front + [last], since, day, slot)
  {
    var evs, runs := Filed(front, since, (day, slot)), RunsOf(front, day);
    FiledAppend(front, last, since, (day, slot));
    RunsAppend(front, last, day);
    OutcomeAppend(evs, last);
    BotAppend(runs, RunOf(last), slot);
    OrderRunIsTraded(runs, slot);
    OrderRunAppend(runs, RunOf(last), slot);
  }

  lemma {:induction false} OrderRunIsTraded(runs: seq<Run>, slot: Slot)
    ensures OrderRun(runs, slot) <==> BotFinding(runs, slot) == TRADED
  {
    if !OrderRun(runs, slot) && LastTerminal(runs, slot).Some? {
      LastTerminalIsMember(runs, slot);
    }
  }

  lemma {:induction false} LastTerminalIsMember(runs: seq<Run>, slot: Slot)
    requires LastTerminal(runs, slot).Some?
    ensures var r := LastTerminal(runs, slot).value; r in runs && r.slot == slot && r.terminal
  {
    var last := runs[|runs| - 1];
    if last.slot != slot || !last.terminal {
      LastTerminalIsMember(runs[..|runs| - 1], slot);
    }
  }

  lemma {:induction false} OrderRunAppend(runs: seq<Run>, run: Run, slot: Slot)
    ensures OrderRun(runs + [run], slot) <==> OrderRun(runs, slot) || (run.slot == slot && run.reason == OrderPlaced)
  {
    forall r ensures r in runs + [run] <==> r in runs || r == run {}
  }

  /** A slot's own blocked candidate only repeats what its terminal run already said. */
  lemma {:induction false} OwnBlockRepeats(journal: seq<Event>, day: int, slot: Slot)
    requires journal != [] && Paired(journal)
    requires var last := journal[|journal| - 1]; last.kind.BlockedCandidate? && last.day == day && last.slot == slot
    ensures var found := BotFinding(RunsOf(journal[..|journal| - 1], day), slot);
            found == TRADED || found == Finding(Blocked, Because(journal[|journal| - 1].reason))
  {
    var front, last := journal[..|journal| - 1], journal[|journal| - 1];
    var before, run := front[..|front| - 1], front[|front| - 1];
    assert Repeats(run, last);
    BotAppend(RunsOf(before, day), RunOf(run), slot);
  }

  /**
   The fold over one window is the bot's finding if and only if the slot was traded or the line
   that decides its window is not a stray, or repeats the slot's last terminal run.
   */
  lemma {:induction false} FoldAgreesIff(journal: seq<Event>, since: int, day: int, slot: Slot)
    requires Paired(journal) && forall ev :: ev in journal && ev.day == day ==> ev.stamp >= since
    ensures OutcomeOf(Filed(journal, since, (day, slot))) == BotFinding(RunsOf(journal, day), slot) <==>
            Agrees(journal, since, day, slot)
  {
    FoldByCases(journal, since, day, slot);
    OrderRunIsTraded(RunsOf(journal, day), slot);
  }

  lemma {:induction false} NoStraysAgree(journal: seq<Event>, since: int, day: int, slot: Slot)
    requires NoStrayLines(journal, day, slot) && Paired(journal)
    ensures Agrees(journal, since, day, slot)
  {
    DecidingIsFiled(journal, since, (day, slot));
  }

  lemma {:induction false} DecidingIsFiled(journal: seq<Event>, since: int, key: Key)
    ensures var line := LastDeciding(journal, since, key);
            line.Some? ==> line.value in journal && FiledUnder(line.value, since, key) && Says(line.value).Some?
  {
    if journal != [] {
      DecidingIsFiled(journal[..|journal| - 1], since, key);
    }
  }

  // ---------------------------------------------------------------- every run

  /** Every signal the loop works on names the slot it is worked in, or no window at all. */
  ghost predicate LabelsMatch(c: Config, steps: seq<Step>) {
    forall i :: 0 <= i < |steps| && steps[i].Poll? ==>
      var s := After(c, steps[..i]);
      WorkSlot(s, steps[i].e).Some? ==>
        s.file.value.window == None || s.file.value.window == WorkSlot(s, steps[i].e)
  }

  ghost predicate WellFiled(journal: seq<Event>) {
    forall ev :: ev in journal ==> WindowOf(ev) == ev.slot
  }

  lemma {:induction false} JournalAlwaysPaired(c: Config, steps: seq<Step>)
    ensures Paired(After(c, steps).journal)
    ensures LabelsMatch(c, steps) ==> WellFiled(After(c, steps).journal)
  {
    if steps != [] {
      var front, last := steps[..|steps| - 1], steps[|steps| - 1];
      JournalAlwaysPaired(c, front);
      forall i | 0 <= i < |front| ensures front[i] == steps[i] && front[..i] == steps[..i] {}
      if last.Poll? {
        PollPairs(c, After(c, front), last.e);
      }
    }
  }

  lemma {:induction false} PollPairs(c: Config, s: Bot, e: Env)
    requires Paired(s.journal)
    ensures Paired(Iterate(c, s, e).journal)
    ensures WellFiled(s.journal) && (WorkSlot(s, e).Some? ==> s.file.value.window == None || s.file.value.window == WorkSlot(s, e))
            ==> WellFiled(Iterate(c, s, e).journal)
  {
    var evs := IterateShape(c, s, e);
    ClearIsOnDay(s, e.day);
    if WorkSlot(s, e).Some? {
      PairedConcat(s.journal, evs);
    }
  }

  /** The outcome the report gives a window of the bot: its events by time, then the fold. */
  function LedgerSays(journal: seq<Event>, since: int, day: int, slot: Slot): Finding {
    OutcomeOf(Sort(Filed(journal, since, (day, slot)), (ev: Event) => ev.stamp))
  }

  /**
   In every reachable state and for every day and slot the ledger's outcome is the bot's own,
   TRADED, HOLD or BLOCKED with the reason of the terminal run, or NO_DECISION, if and only if
   no stray line decides it against the record. The runs of the current London day are the
   bot's list.
   */
  lemma {:induction false} LedgerAgreesWithBot(c: Config, steps: seq<Step>, since: int, day: int, slot: Slot)
    requires ClockRuns(c, steps)
    requires forall ev :: ev in After(c, steps).journal && ev.day == day ==> ev.stamp >= since
    ensures var s := After(c, steps);
            && (LedgerSays(s.journal, since, day, slot) == BotFinding(RunsOf(s.journal, day), slot) <==>
                Agrees(s.journal, since, day, slot))
            && (s.tradeDate == Some(day) ==> RunsOf(s.journal, day) == s.runs)
  {
    var s := After(c, steps);
    BooksAlways(c, steps);
    JournalAlwaysPaired(c, steps);
    FoldAgreesIff(s.journal, since, day, slot);
    FilterKeepsOrder(s.journal, since, (day, slot));
    SortIdentity(Filed(s.journal, since, (day, slot)), (ev: Event) => ev.stamp);
  }

  /** With matching labels nothing is filed astray, so the agreement holds for every day and slot. */
  lemma {:induction false} MatchingLabelsSuffice(c: Config, steps: seq<Step>, since: int, day: int, slot: Slot)
    requires ClockRuns(c, steps) && LabelsMatch(c, steps)
    requires forall ev :: ev in After(c, steps).journal && ev.day == day ==> ev.stamp >= since
    ensures var s := After(c, steps);
            LedgerSays(s.journal, since, day, slot) == BotFinding(RunsOf(s.journal, day), slot)
  {
    JournalAlwaysPaired(c, steps);
    NoStraysAgree(After(c, steps).journal, since, day, slot);
    LedgerAgreesWithBot(c, steps, since, day, slot);
  }

  lemma {:induction false} FilterKeepsOrder(journal: seq<Event>, since: int, key: Key)
    requires forall i, j :: 0 <= i < j < |journal| ==> journal[i].stamp <= journal[j].stamp
    ensures Sorted(Filed(journal, since, key), (ev: Event) => ev.stamp)
  {
    if journal != [] {
      var front, last := journal[..|journal| - 1], journal[|journal| - 1];
      FilterKeepsOrder(front, since, key);
      var evs := Filed(front, since, key);
      forall i | 0 <= i < |evs| ensures evs[i].stamp <= last.stamp {
        assert evs[i] in front;
      }
    }
  }
}
