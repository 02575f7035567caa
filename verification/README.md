# Verification of the XAUEX trading runtime

A Dafny model of the parts of the runtime where a mistake costs money or corrupts the record:
the entry-slot poll loop and its journal, the decision ledger that reads the journal back, the
daily loss budget, the position phases, the two policy gates, the tick and bar arithmetic of
loader, replay and backtest, the two replay defences of manual commands, the dashboard's rate
limiter, the trade journal's cursor and the daily direction lock. `dafny verify dfyconfig.toml`
checks everything.

## How it is built

Objects that the program updates in place (`BotOrchestrator`, `RiskBook`, `CommandReplayGuard`,
`CommandDesk`, `ProcessLocalRateLimiter`, `JournalWriter`) are classes, and loops are methods
with invariants. Each such method is proved equal to a specification function (`Iterate`,
`Moved`, `Consumed`, `Allowed`, `Ran`, ...), and what the program promises is then proved of that
function over whole runs. A run is any finite list of steps with any outside answers, so a
property of `After(...)` holds in every reachable state. What a specification function computes is
pinned in turn by statements that spell the conditions out without naming it: which answer each
recorded reason stands for, prices and profits in dollars, thresholds in points.

| file | content |
|---|---|
| `Trading`, `PollLoop`, `BotOrchestrator` | runs, events, one loop iteration as a function and as the object's methods |
| `EntryConditions`, `RunReasons`, `PollTraces` | the orders of a run are its qualifying polls, and exactly when a slot gets a second one; what each recorded reason stands for; what else a poll leaves in file and journal |
| `PollSafety`, `PollRuns`, `PollWitnesses` | what an iteration can add; what holds after any run; runs that mark the limits |
| `Deferral`, `RetryClock` | the microstructure deferral protocol; which polls work on a slot, and the spacing of retries |
| `DecisionLedger`, `LedgerAgreement` | grouping, fold and totals; exactly when report and bot agree |
| `RiskBudget`, `SessionPhase`, `Assurance`, `EntryQuality` | money and policy arithmetic |
| `Basics`, `Rounding`, `StableSort` | shared notions; round-half-even on reals; the contract of Python's `sorted` |
| `Bars`, `FastLoader`, `HourlyCloses`, `GateEconomics`, `Backtest` | ticks, bars, replay, simulation |
| `ReplayGuard`, `ManualCommands` | the truncated ledger; at-most-once consumption |
| `RateLimiter`, `TradeJournal`, `DirectionalPersistence` | three small protocols |

Poll times are integer microseconds, tick times integer milliseconds, a London day is an integer,
prices and cash are reals, and `round(x, k)` is round-half-even at `10^k` units.

## Where the code does less than its documentation or its evident intent

Each of these is proved with a concrete input, and the exact condition under which the property
does hold is proved for all inputs.

- **Two terminal runs in one slot.** `write_state()` sits inside the `try` whose handler catches
  `ValueError` and `TypeError` (main.py:4182-4232). If it raises one of these after a stale signal
  from the slot's own window was marked, the slot is marked again as `INVALID_SIGNAL_TIMESTAMP`.
  Terminal runs are unique if and only if that never happens (`UniqueTerminalsIff`,
  `StaleMarkedTwice`).
- **Two orders in one slot.** An exception between the accepted placement and the mark records a
  retryable run, and the slot can place again 45 seconds later (main.py:5138-5197). A slot gets a
  second order in a day if and only if a qualifying poll is struck there and a later one qualifies
  again (`SecondOrderIff`, `CrashAllowsSecondOrder`). The daily cap holds regardless.
- **Misfiled block.** The ledger trusts the window label before the slot. A signal labelled for
  another window, worked in this one and blocked, can show up as a block of the other window
  (`MislabelledSignal`). For one state, ledger and bot agree on a window if and only if it was
  traded, or its deciding line is not a stray, or that stray repeats the window's last terminal
  run (`FoldAgreesIff`, `LedgerAgreesWithBot`). Through a run they agree if and only if every such
  poll finds the labelled window traded or last blocked for the same reason (`LedgerRightIff`).
- **Risk multiplier of a block.** A blocked entry-quality verdict reports multiplier 1.0, so the
  reported number rises from 0.25 to 1.0 when a warning becomes a block (`MultiplierRisesOnBlock`).
  As the day grows it never rises unless the factors weighed one or two and come to weigh three or
  more (`MultiplierFallsIff`).
- **Risk and confidence.** More confidence never lowers the assurance risk multiplier if and only
  if the low multiplier in force is at most 0.5 (`RiskMonotoneIff`): a stale signal gets 0.5 in
  the medium bucket (`StaleCrossing`).
- **Pending orders and the budget.** Accepted orders that wait for their fill reserve nothing; a
  run in which a second one is let through beside the first overruns the daily limit
  (`UntrackedOrdersOverrun`). Realised loss plus all reserves stays within the limit and two half
  cents if and only if every order let through also fits beside those waiting
  (`CommittedWithinIff`). In the check's own terms: counting the waiting orders' reserves in would
  keep the bound, and would refuse only orders within two cents of it (`CountingPendingSuffices`,
  `CountingPendingFits`).
- **File and line order.** The fast loading path cuts every file into bars in line order
  (tick_parser/src/lib.rs:84-171) and merges them in file order; it never sorts ticks. Files out of
  order, or lines out of order inside one file, can change an hour's open and close, though never
  its range, spread or count (`ReversedFilesSwapOpenAndClose`, `AnyFileOrderKeepsRanges`). The bars
  are right if and only if each hour's first and last tick have the same price in line order as in
  time order (`FastEqualsSlowIff`).
- **Blocked flips are published.** The signal parser's docstring says a blocked flip is downgraded
  to HOLD; the code keeps the proposed direction and only adds a warning
  (signal_parser.py:465-472). The published directions of a run are the policy's verdicts if and
  only if no proposal goes against the lock it meets with too little confidence or without a
  turned driver (`PublishedAsDecidedIff`); on a day with steady drivers, if and only if nothing is
  proposed against the lock at all (`SteadyDayPublishedIff`).
- **Id forms.** Trades are merged by the text of their id but remembered by the raw value. Without
  any crash a position is journalled twice if and only if the merged trades held its id both as
  text and as a number (`TwiceIffBothForms`, `MixedFormsTwice`). The executor and the event
  payloads write ids as text (executor.py:309-312, post_trade_journal.py:67-91), so a number can
  only come from a state file that another writer produced.

## Model

| member | source | states |
|---|---|---|
| BotOrchestration.BotOrchestrator.PollOnce | xauex/main.py:4058-4114 | one pass of the loop body on the risk state, retry clock, signal file and journal is exactly the iteration the run theorems speak about |
| BotOrchestration.BotOrchestrator.ProcessSignal | xauex/main.py:4116-4232 | HOLD, unreadable time and staleness exits, with the second mark when the state write raises a value error |
| BotOrchestration.BotOrchestrator.RunToExit | xauex/main.py:4234-5197 | the guarded part runs its stages up to the exit it is given and records it, or a retryable run when an exception comes first; which exit that is, and its flag, is stated by RunReasons |
| BotOrchestration.BotOrchestrator.RunConfirmStages | xauex/main.py:4323-4486 | the confirm result reaches the signal file and a veto or counter candidate the journal, if the iteration gets that far |
| BotOrchestration.BotOrchestrator.ClearRunsForNewDay | xauex/main.py:3253-3265 | a new London day empties counters and runs, the same day keeps them and drops runs of other days |
| BotOrchestration.BotOrchestrator.SlotTerminalForToday | xauex/main.py:3320-3328 | true exactly when a terminal run of the slot exists today |
| RetryClock.RetriesSpaced | xauex/main.py:3330-3338 | in every run two successive attempts on a slot of one day that work on the same signal are at least 45 seconds apart |
| RetryClock.WorksAsHistoryTells | xauex/main.py:4058-4114 | in every run a poll works on exactly the slot that the history lets it: loop on, a slot on offer for the signal, no terminal run of the slot in today's journal, and the last poll of the day on that slot for another signal or 45 seconds old |
| BotOrchestration.BotOrchestrator.MarkSlotUsed | xauex/main.py:3343-3504 | one run is recorded with its risk result, and a blocked candidate follows exactly for a terminal directional run without an order |
| BotOrchestration.BotOrchestrator.PersistInlineConfirm | xauex/main.py:3590-3614 | the merged confirm result is written, left out or truncated away as the file write goes |
| EntryConditions.OrdersAreQualifyingPolls | xauex/main.py:4058-5197 | the orders of a run are, one for one and in order, the polls that meet every condition from kill switch to executor answer, each with its poll's day, slot, signal and time, at half risk exactly when confirmed against the microstructure |
| EntryConditions.AdmitsIff | xauex/main.py:397-587 | the confirm stage lets a signal on exactly when age, quote, news and microstructure confirm it, or its stored confirmation still counts, or it is in conflict, weak and confirmable the other way round; it defers exactly a strong opposed signal not deferred before |
| EntryConditions.SecondOrderIff | xauex/main.py:5138-5197 | a run has two orders in one slot of one day if and only if a qualifying poll was struck between placement and mark and a later poll of that slot and day qualified again |
| RunReasons.EveryRunHasItsPoll | xauex/main.py:4116-5197 | every run in the journal was recorded by a poll for which the gate answer, confirm outcome or time condition its reason stands for holds, with every check before it passed; its terminal flag, direction and counter mark are those of that reason |
| RunReasons.FlagFollowsReason | xauex/main.py:4656-4817 | in every run SYMBOL_SPEC_MISSING, an environment gate, NO_QUOTE, SPREAD_TOO_WIDE, NO_RISK_BUDGET and EXECUTION_EXCEPTION leave the slot open, and besides them only a deferral or a stale signal can |
| RunReasons.PollRunsFit | xauex/main.py:4116-5197 | a working poll adds one such run, or two when the state write fails after the first, to list and journal, and nothing to other days |
| RunReasons.SlotStaysOpenIff | xauex/main.py:3320-3328 | a working poll leaves its slot open if and only if it is held back for one of those reasons or meets a stale signal from before the slot |
| RunReasons.HeldBackThenPlaced | xauex/main.py:4106-4114 | after a poll that was held back a poll 45 seconds later that meets the conditions of entry, on whatever signal then stands in the file, places the order |
| PollTraces.PollWritesOutcome | xauex/main.py:397-508 | what a poll does to the signal file and the deferral log: nothing, unless it confirms anew and gets that far, and then status, reason, time and deferral marks as signal, quote, news and microstructure decide them |
| PollTraces.PollNotesFit | xauex/main.py:4374-4470 | besides its runs a poll journals one decision line for a directional signal, and a veto line or a reversed candidate exactly when it passes the veto stage unconfirmed |
| PollSafety.IterateShape | xauex/main.py:4058-5197 | a poll only rolls the day over, or records runs of one slot: paired journal lines, at most one order under the cap and before the terminal run, two terminal runs only in the stale-write case |
| PollRuns.BooksAlways | xauex/main.py:3253-3265 | in every reachable state the trade counter is the number of orders of that day, no day exceeds the cap, the runs list is the journal's, timestamps are ordered and no order follows a terminal run of its slot, crashes included |
| PollRuns.PollKeepsBooks | xauex/main.py:4106-4114 | one poll keeps those books, and a slot it works on had no terminal run |
| PollRuns.UniqueTerminalsIff | xauex/main.py:4182-4232 | each slot and day has at most one terminal run if and only if no poll met a stale signal of its own window with a failing state write |
| PollRuns.PollTerminals | xauex/main.py:3320-3328 | one poll keeps terminal runs unique if and only if it is not such a poll |
| PollRuns.OrderClosesSlotIff | xauex/main.py:5138-5197 | an accepted order closes its slot if and only if nothing is raised between placement and mark |
| PollRuns.OneOrderAlways | xauex/main.py:5138-5176 | without such exceptions no two orders share slot and day, and each order's slot is closed |
| PollRuns.DayKeepsItsRuns | xauex/main.py:3253-3265 | what the journal records for a day stays the list the bot held when the day ended |
| PollWitnesses.CrashAllowsSecondOrder | xauex/main.py:5177-5197 | a three-step run with two orders in one slot of one day |
| PollWitnesses.StaleMarkedTwice | xauex/main.py:4190-4232 | a two-step run with two terminal runs of one slot |
| PollWitnesses.MislabelledSignal | xauex/analyst/decision_ledger.py:69-76 | a two-step run after which the ledger blocks a window the bot never worked |
| DeferralProtocol.ProtocolAlways | xauex/main.py:4323-4373 | over every disciplined run each soft-confirmed order has half risk and follows a persisted deferral of the same signal, 45 seconds earlier if in the same slot of the day, and persisted deferrals have distinct signals |
| DeferralProtocol.NeverDeferredAgain | xauex/main.py:397-508 | a signal with a persisted deferral is never deferred again |
| DecisionLedger.FinalOutcome | xauex/analyst/decision_ledger.py:164-185 | the loop with its early return: an order anywhere settles the window, else the last deciding event |
| DecisionLedger.GroupEvents | xauex/analyst/decision_ledger.py:338-349 | each day and window gets exactly its events since the start, in order, and only occupied keys exist |
| DecisionLedger.BuildDecisionLedger | xauex/analyst/decision_ledger.py:327-435 | the occupied days newest first, one record per window with the window's finding, and totals that count the records by outcome, by reason and in sum |
| DecisionLedger.RecordsMeanWhatTheySay | xauex/analyst/decision_ledger.py:353-400 | each day of the report has its three windows in order, and each record means what it says: NO_SIGNAL without lines and run, NOT_CONSUMED for a directional run without lines, GATE_HOLD for a hold with a parser gate, else what the window's own lines settle by time |
| DecisionLedger.FoldAgreesIff | xauex/analyst/decision_ledger.py:164-185 | the fold of a window is the finding read off the bot's runs if and only if the slot was traded, or the deciding line is no stray, or it repeats the slot's last terminal run |
| DecisionLedger.LedgerAgreesWithBot | xauex/analyst/decision_ledger.py:338-375 | in every reachable state, for every day and slot, the report's fold is the bot's own record if and only if that condition holds; the runs of the current day are the bot's list |
| DecisionLedger.MatchingLabelsSuffice | xauex/analyst/decision_ledger.py:69-76 | labels that name the worked slot or none of the three are enough for that agreement |
| LedgerAgreement.PollAgreesIff | xauex/main.py:3429-3504 | one poll keeps the agreement of all slots if and only if the line it files astray, told from label, slot and exit of the poll, is harmless |
| LedgerAgreement.LedgerRightIff | xauex/analyst/decision_ledger.py:69-76 | through a whole run the report agrees with the bot after every step if and only if every poll that ends terminally without an order on a signal labelled for another window finds that window traded or last blocked for the same reason |
| RiskBudget.CommittedWithinIff | xauex/main.py:102-112 | along every run of orders, fills, closes and stop amendments realised loss plus all reserves, waiting orders included, stays within the daily limit and two half cents if and only if every order let through fitted beside those waiting |
| RiskBudget.DailyLossBounded | xauex/main.py:102-112 | in particular when no order is let through while another one waits |
| RiskBudget.CountingPendingFits | xauex/main.py:3532-3567 | an order within the remaining budget that counts waiting orders in fits beside them, and one that fits with two cents to spare is within that budget |
| RiskBudget.CountingPendingSuffices | xauex/main.py:3532-3567 | a check that counted waiting orders in would keep the bound along every run |
| RiskBudget.PlacementFitsCents | xauex/main.py:102-112 | with reserves in whole cents the slack is one half cent |
| RiskBudget.PlacementInPrices | xauex/main.py:4994-5030 | an order with its stop at the stop distance keeps, if let through, the loss at its stop as reserve to half a cent; realised loss, reserves and that loss then fit the day's share of the balance up to the roundings, and an order that fits with two cents to spare is let through |
| RiskBudget.ReservedInPrices | xauex/main.py:3532-3559 | an xauex position reserves what it was accepted with, or else what closing it at its stop would change; any other position reserves nothing |
| RiskBudget.RealisedLossBounded | xauex/main.py:102-112 | over every run of a day in prices, with fills no worse than quoted, stops only tightened, closes no worse than the stop and no order let through beside a waiting one, the realised loss stays within the share of the balance, one cent, and half a cent a close |
| RiskBudget.RiskBook.OpenReservedRisk | xauex/main.py:3532-3559 | the rounded sum of what xauex positions can still lose, by stored cash risk or by stop distance |
| RiskBudget.RiskBook.PlaceWithinBudget | xauex/main.py:4994-5030 | an order is let through exactly when its cash risk is within the remaining budget, and is then a tracked position or waits for its fill as the broker answers |
| RiskBudget.RiskBook.OrderFilled | xauex/main.py:5584-5606 | a fill turns the waiting order into a tracked position at the fill price, with the reserve it was accepted with |
| RiskBudget.RiskBook.OrderDropped | xauex/bot/execution/executor.py:230-254 | a waiting order the broker no longer knows is forgotten and nothing else changes |
| RiskBudget.RiskBook.StopAmended | xauex/main.py:5299-5305 | an amended stop replaces the position's stop and nothing else changes |
| RiskBudget.RiskBook.PositionClosed | xauex/main.py:5568-5577 | a close adds its profit to the day and removes the position |
| RiskBudget.UntrackedOrdersOverrun | xauex/bot/execution/executor.py:345-361 | a run of two accepted orders that both fill and together expose twice the limit |
| SessionPhase.PhaseNeverMovesBack | xauex/main.py:1352-1422 | over any prices and profit figures the phase never moves back |
| SessionPhase.PhaseIsThresholdOfMax | xauex/main.py:1352-1422 | with profit equal to progress times lot times contract the phase is the threshold function of the running maximum of progress |
| SessionPhase.PhaseBelowThreshold | xauex/main.py:1383-1422 | other profit figures can only hold the phase below that threshold |
| SessionPhase.PhaseIsFurthestConfirmed | xauex/main.py:1352-1422 | for any prices and profit figures the phase is the furthest one that some single look reached by price and confirmed by profit |
| SessionPhase.LookMoves | xauex/main.py:1352-1422 | where one look moves any session, in prices: which of entry plus or minus each threshold times the risk distance is reached, and which profit confirms it, zero thresholds and sizes included |
| SessionPhase.PhaseInPrices | xauex/main.py:1352-1422 | after any looks a position has left OBSERVE exactly when some look showed the protect price, confirmed by profit, and is in TRAIL exactly when some look showed the trail price, confirmed likewise |
| SessionPhase.LosingSideNeverAdvances | xauex/main.py:1369-1378 | a look on the losing side of the entry moves no session to another phase |
| SessionPhase.ProgressKept | xauex/main.py:1374-1375 | the progress kept is the gain per risk distance to four places |
| Assurance.MoreConfidenceNeverDemotes | xauex/main.py:1139-1303 | more confidence never lowers bucket or target ratio and never blocks a trade, through block rules, score adjustments and roundings |
| Assurance.RiskMonotoneIff | xauex/main.py:1139-1303 | nor the risk multiplier, for all signals, if and only if the low multiplier in force is at most one half |
| Assurance.HalfSuffices | xauex/main.py:1268-1289 | a configured low multiplier of at most one half is in force as at most one half |
| Assurance.TrailAfterProtect | xauex/main.py:1236-1289 | every allowed profile trails at least 0.2 R later than it protects, after rounding |
| Assurance.BucketInPoints | xauex/main.py:1139-1303 | the bucket of every signal in points: confidence in thousandths plus what consensus, validator, summary and staleness add, against 699.5, 549.5 and 299.5 with the refusals written out |
| Assurance.BucketTerms | xauex/main.py:1222-1289 | risk multiplier and target ratio of each bucket, halved after losses, and the session thresholds as configured, to half a hundredth |
| Assurance.ScoreInPoints | xauex/main.py:1170-1191 | the reported score is those points, or the bare confidence of a hard-blocked signal, to half a thousandth |
| EntryQuality.BuildEntryQuality | xauex/main.py:977-1096 | factors without repeats that are exactly the set the case raises, the score its weight sum, the verdict and reason by the block score |
| EntryQuality.RaisedIffShown | xauex/main.py:1017-1076 | a factor is raised exactly when the pattern evidence or a warning names it or the day's trades and orders, the counter mark or a stale context show it |
| EntryQuality.VerdictInPoints | xauex/main.py:72-85 | with the points of each factor written out: three block, two trade at a quarter of the risk, one at half |
| EntryQuality.VerdictOnlyTightens | xauex/main.py:977-1096 | as trades and runs of the day only grow the score never falls and a block is never lifted |
| EntryQuality.MultiplierFallsIff | xauex/main.py:1066-1096 | as the day grows the reported multiplier never rises if and only if the factors were not judged, weigh nothing or already block, or still do not block later |
| EntryQuality.MultiplierRisesOnBlock | xauex/main.py:1066-1096 | a case where quarter risk becomes a block that reports full risk |
| EntryQuality.WarningsAsSet | xauex/main.py:72-85 | order and repetition of warnings change neither score nor verdict |
| EntryQuality.HasSameDayLoss | xauex/main.py:956-974 | true exactly when a losing trade of the day exists, of the same direction if asked |
| EntryQuality.PriorOrderCount | xauex/main.py:934-953 | the number of order runs of the day with the given direction or counter mark |
| Bars.Resample | xauex/backtester/loader.py:225-247 | the loop returns the bars of the stably time-sorted ticks |
| Bars.ResamplePartition | xauex/backtester/loader.py:225-260 | bars concatenate to the sorted input, hours strictly increase, each tick lies in its bar's hour, counts sum up, low and high bound open and close |
| Bars.PartitionUnique | xauex/backtester/loader.py:225-247 | any bars with that partition are the resampled ones |
| Bars.BarsAreCut | xauex/tick_parser/src/lib.rs:138-163 | ticks in any order are cut wherever the hour changes, nothing lost, moved or mixed |
| Bars.ExtremesBound | xauex/backtester/loader.py:249-260 | high, low and widest spread are attained and bound every tick of the bar |
| Bars.HourlyBarsInFull | xauex/backtester/loader.py:225-260 | each hourly bar of any ticks: its clock hour, first and last mid price, extremes and widest spread of exactly its ticks |
| FastLoader.ParseFile | xauex/tick_parser/src/lib.rs:102-170 | the native parser's line loop gives the bars without ticks of the file's stretches of equal hours, in line order |
| FastLoader.LoadBars | xauex/backtester/loader.py:94-141 | the merge loop holds one bar per hour and returns them in hour order |
| FastLoader.LoadBarsRust | xauex/backtester/loader.py:94-141 | parsing every file and merging gives the fast path's bars |
| FastLoader.LoadBarsPython | xauex/backtester/loader.py:143-175 | gathering the same lines and resampling them gives the slow path's bars |
| FastLoader.FastEqualsSlowIff | xauex/tick_parser/src/lib.rs:84-171 | for any files the fast path's bars are the bars of all ticks together if and only if every hour's first and last tick have the same price in line order as in time order |
| FastLoader.FastPathRefinesSlowPath | xauex/backtester/loader.py:94-141 | in particular when the lines, read one file after the other, are in time order |
| FastLoader.AnyFileOrderKeepsRanges | xauex/backtester/loader.py:94-141 | in any file order hours, range, spread and counts agree |
| FastLoader.ReversedFilesSwapOpenAndClose | xauex/tick_parser/src/lib.rs:140-163 | two ticks of one hour in the wrong order, in two files or in one, give different bars |
| FastLoader.CombineIsConcat | xauex/backtester/loader.py:94-141 | merging the bars of two tick lists of an hour is the bar of the joined list |
| HourlyCloses.AggregateH1ClosesFromM5 | xauex/main.py:2878-2897 | the roll-up if it has at least 200 hours, else nothing |
| HourlyCloses.RollUpMatchesHours | xauex/main.py:2878-2897 | five-minute bars rolled up give the closes of the hourly bars of the same ticks |
| HourlyCloses.StreamRollUp | xauex/backtester/loader.py:225-260 | for a whole tick stream the roll-up lists exactly each hour's last close |
| GateEconomics.ReplayBracket | xauex/analyst/gate_economics.py:120-166 | the break loop gives the first-touch exit of the session's bars, written down with its roundings and cash value, and nothing for bad distances or an empty session |
| GateEconomics.SessionIsWindow | xauex/analyst/gate_economics.py:133-139 | the session is the bars that open in the window, in order |
| GateEconomics.ReplayInPrices | xauex/analyst/gate_economics.py:140-158 | entry at the first open, exit at the price of the first bar that touches stop or target, the stop if it touches both, else at the last close; R times the stop distance is the price move in the trade's direction |
| GateEconomics.ReportedNear | xauex/analyst/gate_economics.py:158-166 | prices and cash are written down to half a cent and R to half a thousandth, cash being R times the stop distance |
| GateEconomics.BarWalkConservative | xauex/analyst/gate_economics.py:144-157 | bar walk and tick walk agree unless one bar touched both sides, where the bar walk books the stop |
| GateEconomics.BarReplayNeverFlatters | xauex/analyst/gate_economics.py:120-166 | bar R is at most the tick-by-tick R, equal unless ambiguous |
| GateEconomics.ReportedNeverFlatters | xauex/analyst/gate_economics.py:158-166 | also after rounding to three decimals |
| GateEconomics.ReplayBounded | xauex/analyst/gate_economics.py:120-166 | R lies between -1 and target over stop |
| GateEconomics.MirrorSwapsDirections | xauex/analyst/gate_economics.py:140-157 | reflecting prices at the entry swaps BUY and SELL with the same exit reason and R |
| GateEconomics.AggregateGateEconomics | xauex/analyst/gate_economics.py:194-225 | one group per key of the look-back with counts, average R and cash of exactly its runs, and the number of runs replayed |
| GateEconomics.AggregateBy | xauex/analyst/gate_economics.py:204-220 | the in-place statistics of each key are those of exactly its runs |
| GateEconomics.StatsOverRuns | xauex/analyst/gate_economics.py:204-220 | the statistics of a key are the counts by exit and the sums of R and cash over exactly its runs |
| GateEconomics.SummedNear | xauex/analyst/gate_economics.py:221-225 | average R to half a thousandth and cash to half a cent |
| GateEconomics.EligibleIsLookBack | xauex/analyst/gate_economics.py:201-202 | the look-back keeps the runs from the cut-off day on, in order |
| GateEconomics.ExpectancyBounded | xauex/analyst/gate_economics.py:221-225 | no group's reported average loses more than one R |
| GateEconomics.GroupsCoverRuns | xauex/analyst/gate_economics.py:194-225 | group sizes over distinct covering keys sum to the number of runs |
| GateEconomics.StatsAddUp | xauex/analyst/gate_economics.py:204-225 | a group splits into its exits and loses at most one R per run |
| Backtest.TradesMeetTheirFates | xauex/backtester/engine.py:216-334 | the bar-by-bar simulation of all trades together closes each one as it would fare alone: however ends are weighed (by profit, by counting one end) the closed trades weigh as much as the fates of the trades taken |
| Backtest.FateIsFirstTouch | xauex/backtester/engine.py:384-401 | that fate is the first touch in all ticks after the bar that opened the trade, else the last close |
| Backtest.FateInPrices | xauex/backtester/engine.py:384-412 | in bid and ask prices: a trade ends at the first later tick that reaches its stop, or else its target, or untouched at the last close, and each dollar in its favour pays 100 ounces a lot at 0.80 |
| Backtest.TargetWinsStopLoses | xauex/backtester/engine.py:403-412 | with the stop on the losing and the target on the winning side, ending at the target wins and at the stop loses, long or short |
| Backtest.MirrorEarnsTheSame | xauex/backtester/engine.py:384-412 | a trade and its mirror image at the entry earn the same over mirrored ticks |
| Backtest.PlayingConserves | xauex/backtester/engine.py:216-326 | at every bar each taken trade is exactly as often open or closed, and the counts add up |
| Backtest.Simulate | xauex/backtester/engine.py:198-382 | the metrics of the simulated trades: closed equals taken, every closed trade is paid for its stop, target or the last close and wins or loses accordingly, balance, total, win rate and profit factor of the closed list, drawdown and losing streak its extremes |
| Backtest.MetricsFromFates | xauex/backtester/engine.py:336-343 | profit, wins, gross profit and gross loss are the sums over the trades' own fates |
| Backtest.GrossAddsUp | xauex/backtester/engine.py:337-342 | gross profit is the profit of the winners, gross loss the rest, and together they are the total; wins count the winners |
| Backtest.TakenAreOnOffer | xauex/backtester/engine.py:216-326 | the trades taken are those on offer from the third bar to the last but one, in order |
| Backtest.RunBars | xauex/backtester/engine.py:216-334 | the loop and the force-close produce the simulated trades; first two bars and last bar open nothing |
| Backtest.MaxDrawdown | xauex/backtester/engine.py:345-355 | the largest fall of the balance path from an earlier to a later point |
| Backtest.DrawdownIsLargestFall | xauex/backtester/engine.py:345-355 | the running peak and gap compute that fall |
| Backtest.MaxConsecutiveLosses | xauex/backtester/engine.py:357-364 | the length of the longest run of non-positive P&L |
| Backtest.CheckExit | xauex/backtester/engine.py:384-401 | the first tick that touches stop or target, the stop first, long on bid/ask and short on ask/bid |
| Backtest.HitsSplit | xauex/backtester/engine.py:226-243 | one bar splits the open trades into still open and closed, none lost or doubled |
| Backtest.Deduplicate | xauex/backtester/engine.py:115-124 | the overwriting loop merges each level into its neighbour as the averaging rule says |
| Backtest.OneMoreLevel | xauex/backtester/engine.py:115-124 | one more level within a dollar of the last kept one moves that one half way and adds nothing, else it is kept |
| Backtest.DeduplicatedSpaced | xauex/backtester/engine.py:115-124 | ascending levels become levels more than a dollar apart inside the same range |
| Backtest.DeduplicateIdempotent | xauex/backtester/engine.py:115-124 | deduplication leaves exactly spaced levels alone, hence twice is once |
| ReplayGuard.CommandReplayGuard.LoadEntries | xauex/shared/replay_guard.py:33-49 | the last rows with a usable id, or an error for a broken ledger |
| ReplayGuard.LoadedHoldsIff | xauex/shared/replay_guard.py:33-49 | an entry is read exactly when a usable row among the last ones holds it, whatever else the file holds |
| ReplayGuard.CommandReplayGuard.Remember | xauex/shared/replay_guard.py:59-72 | the id moves to the end, the ledger keeps its last entries, a broken ledger or empty id changes nothing |
| ReplayGuard.LedgerIsRecentTail | xauex/shared/replay_guard.py:59-72 | after any history the ledger is the last entries of the history deduplicated by most recent use, so truncating at every step loses nothing |
| ReplayGuard.ForgottenMeansDisplaced | xauex/shared/replay_guard.py:33-72 | a remembered id is forgotten only after as many other distinct ids as the ledger holds |
| ManualCommands.CommandDesk.Verify | xauex/shared/manual_commands.py:63-96 | the verdict in the order of the checks; the id is remembered exactly on success |
| ManualCommands.CommandDesk.ConsumeCommandFile | xauex/shared/manual_commands.py:99-150 | file removed if that succeeds, verified, asked of the guard and remembered, with every ledger failure |
| ManualCommands.PayloadsAreQualified | xauex/shared/manual_commands.py:63-150 | the payloads of any run are, in order, the ids of exactly those arrivals with secret set, not legacy, schema supported, id, payload and signature present, expiry readable and not passed, signature valid, id not seen in this life and not kept in a sound ledger |
| ManualCommands.OutcomesMeanWhatTheySay | xauex/shared/manual_commands.py:63-150 | in any run each arrival comes out as those conditions say, a rejection naming the first that fails |
| ManualCommands.OncePerLife | xauex/shared/manual_commands.py:63-96 | over any run, restarts and a replaced or broken ledger file included, an id enters the ledger, and so is accepted, at most once per process life |
| ManualCommands.AtMostOnce | xauex/shared/manual_commands.py:135-150 | while only the guard writes the ledger, an id enters again only after at least the ledger's size of other distinct ids |
| ManualCommands.AcceptedAgainOnlyDisplaced | xauex/shared/manual_commands.py:135-150 | of acceptances alone, when no failed write replaced the file: a command is accepted again only after that many other distinct commands were accepted |
| ManualCommands.AcceptedIffForgotten | xauex/shared/manual_commands.py:135-150 | in a run a genuine command not seen in this life is accepted exactly when its id is not among the most recent ones kept |
| ManualCommands.PayloadsAreStamped | xauex/shared/manual_commands.py:135-150 | the payloads of any run, a broken ledger file included, are in order its accepted ledger entries, and no more than its arrivals that met a sound ledger |
| ManualCommands.FailingStretchGivesNothing | xauex/shared/manual_commands.py:135-150 | as long as every arrival meets a ledger that cannot be read, trusted or written, no payload gets out, whatever else happens |
| RateLimiter.ProcessLocalRateLimiter.Allow | xauex/app/security.py:39-48 | the pruning loop answers and updates the key's bucket and no other |
| RateLimiter.ProcessLocalRateLimiter.Clear | xauex/app/security.py:50-51 | every admission is forgotten |
| RateLimiter.AdmittedIffRoomInWindow | xauex/app/security.py:39-48 | with a clock that does not run backwards a call is admitted exactly when fewer than the limit of earlier ones were admitted in its window of the full history |
| RateLimiter.NoWindowOverfull | xauex/app/security.py:39-48 | no closed interval of window length holds more than the limit of admissions |
| RateLimiter.KeysIndependent | xauex/app/security.py:36-48 | a key's bucket depends only on the times of that key's own calls |
| RateLimiter.AnswerIndependent | xauex/app/security.py:39-48 | so does every answer |
| TradeJournal.MergeTrades | xauex/analyst/post_trade_journal.py:121-131 | the dictionary merge keeps the first trade of each non-empty id text, in order |
| TradeJournal.FindNewTrades | xauex/analyst/post_trade_journal.py:33-36 | exactly the merged trades whose raw id is not in the cursor |
| TradeJournal.JournalWriter.Run | xauex/analyst/post_trade_journal.py:212-257 | the append-then-save loop, dying at any point, leaves journal and cursor with the stated prefixes of the new ids |
| TradeJournal.MergedOncePerText | xauex/analyst/post_trade_journal.py:121-131 | merging keeps one trade per id text, all from the input, and loses no text |
| TradeJournal.MergedAreFirsts | xauex/analyst/post_trade_journal.py:121-131 | what is kept is the first trade of each id text, in input order, empty ids and the number zero left out |
| TradeJournal.JournalAheadOfCursor | xauex/analyst/post_trade_journal.py:241-257 | in every crash state cursor ids are distinct and the journal is the cursor plus one entry per crash between append and save |
| TradeJournal.CursorWithinJournal | xauex/analyst/post_trade_journal.py:241-257 | every cursor id is in the journal |
| TradeJournal.CompleteIffNothingLeft | xauex/analyst/post_trade_journal.py:212-257 | every merged trade is in the cursor exactly when the run saved its whole worklist, and then every trade seen is journalled |
| TradeJournal.TwiceIffBothForms | xauex/analyst/post_trade_journal.py:33-36 | without any crash a position is journalled twice if and only if the merged trades of the runs held its id both as text and as a number |
| TradeJournal.MixedFormsTwice | xauex/analyst/post_trade_journal.py:33-36 | a position seen as number and as text is journalled twice |
| DirectionalPersistence.MacroFlipped | xauex/signal/directional_persistence.py:54-76 | the counting loop is true exactly when some driver of the lock has the opposite non-zero sign |
| DirectionalPersistence.TurnedIff | xauex/signal/directional_persistence.py:54-76 | a flip is a driver that lock and proposal both give as a number, positive in one and negative in the other |
| DirectionalPersistence.FirstConfidentLocks | xauex/signal/directional_persistence.py:104-134 | the first confident BUY or SELL of a day takes the lock with its date, direction and drivers, and everything before it passes as proposed |
| DirectionalPersistence.DirectionIsFlipParity | xauex/signal/directional_persistence.py:79-193 | over a locked day the direction is the first one, turned once per stored flip |
| DirectionalPersistence.PassedAgainstNeedsFlip | xauex/signal/directional_persistence.py:136-193 | a verdict against the lock needs, at or before it, a proposal with flip confidence and a driver turned since the lock |
| DirectionalPersistence.SteadyMacroOneDirection | xauex/signal/directional_persistence.py:54-76 | if no driver ever turns, only HOLD and the locked direction come out all day |
| DirectionalPersistence.DayStartsFresh | xauex/signal/directional_persistence.py:104-134 | with a lock of another day in the file every decision and lock of the day is the one taken without any file |
| DirectionalPersistence.PublishedInFull | xauex/signal/signal_parser.py:458-472 | a failed flip is published as proposed, anything else as decided with the confidence clamped, the rounding changing nothing |
| DirectionalPersistence.SteadyDayPublishedIff | xauex/signal/signal_parser.py:458-472 | on a locked day with steady drivers, if and only if nothing is proposed against the locked direction |

## Left out

- Broker, quotes, pattern detector, executor, news and session filters: their answers are inputs of an iteration; nothing is claimed about how they are found. Position monitoring beyond the phase step is not modelled.
- Asynchronous scheduling, HTTP, LLM calls, e-mail, dashboards, prompts and review texts: no provable content.
- Files, JSON and HMAC: the signal file, journal, ledger and cursor are variables written atomically, signature validity is a given predicate; `safe_io` and `append_to_json_list` are not part of this model.
- Time zones and slot detection (`live_windows`, grace windows, age limit, slot start): given to each iteration as inputs, so the results hold for any of them; an iteration reads one clock time and stays inside one London day.
- A signal file that another process rewrites within one iteration, and lost journal lines.
- An exception outside the guarded part ends the poll loop; every prefix of a run is covered, a restart of the bot process is not.
- Gate order inside the guarded part follows the source, but the body of each gate (freshness, sizing, canary lots, cool-downs) is an input; the reasons they report are texts that cannot equal the built-in ones.
- `pattern_gate_block`, `continuation_*` and other journal lines: the poll loop writes none that the fold reads, and the ledger's reason chain, block evidence and archive loading are not modelled. A counter candidate without a direction cannot occur and has no branch.
- Fields of a run that no property reads (confidence, confirm texts, snapshots).
- Floats: reals with round-half-even stand in, so binary rounding of decimals is not captured; NaN and infinities do not occur.
- BooksAlways: assumes that London days and journal timestamps never decrease from poll to poll.
- ProtocolAlways: assumes that each signal published from outside has a new id and carries no deferral marks, as a confirming writer other than the loop would break the protocol by itself.
- CommittedWithinIff: assumes, as the source does not enforce it, that a close loses at most its reserve, that fills and amended stops do not widen a reserve measured from prices, and that an order risks at least a cent.
- RealisedLossBounded: assumes, as the source does not enforce it, that fills are no worse than the price the stop was measured from, stops are only tightened and positions close no worse than at their stop; the contract size is positive.
- FastEqualsSlowIff: which lines are readable and in range is given, the same for both parsers; bars are compared without their ticks, which native bars do not carry.
- Simulate: the trade opened at a bar, if any, is an input in place of gates, levels, detector and sizing; skip and halt counters and the breakdown by pattern are not modelled.
- AggregateGateEconomics: one key function stands for the two the source uses; the order in which groups are listed and the continuation summary are not modelled.
- BuildDecisionLedger: reason chains, block evidence and pattern coverage of a record are not modelled, nor how archived runs are read from disk.
- AtMostOnce: counts ledger entries, so an entry whose write reported an error after replacing the file counts as well; AcceptedAgainOnlyDisplaced speaks of acceptances alone.
- Allow: the clock is an argument; the window theorems speak of clocks that do not run backwards for a key, as the default `time.monotonic` guarantees.
- Actions other than BUY, SELL and HOLD in the direction policy: the signal parser replaces them before the policy sees them (signal_parser.py:501-503).
- The executor never answers with an empty position id (bot/execution/executor.py:308-361), so the branch that would record such an answer without counting it is in the model but carries no statement.
- Final cash risk as a function of confidence, weekly halts and regime texts: not monotone or cosmetic.
