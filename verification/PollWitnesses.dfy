/**
 Runs that show where the guarantees of the poll loop end: each is a concrete run of a few
 steps that the side conditions of the general theorems rule out.
 */
module PollWitnesses {
  import opened Trading
  import opened PollLoop
  import opened PollSafety
  import opened DecisionLedger

  const CONFIG := Config(2, 600, 300, 1.0, false, 0.58)

  /** A confirmed BUY signal, published and confirmed at time zero. */
  function BuySignal(window: Option<Slot>, time: Option<int>): Signal {
    Signal("s1", time, window, Buy, 0.7, true, false, Confirmed, PlainConfirmed, Some(0), false, 0, false)
  }

  /** A morning poll in which no gate blocks and the executor accepts the order. */
  function OpenGates(now: int, raiseBefore: int, write: WriteOutcome): Env {
    Env(now := now, stamp := now, day := 1, killSwitch := false,
        entrySlot := Some(Morning), graceWindow := None, ageLimit := 300, slotStart := 0,
        quote := Some(Quote(1.0, 1.5)), newsClear := true, newsReason := "", trend := Neutral, shadow := NoAction,
        gates := NOTHING_BLOCKS, placed := Some("p1"), persist := Written, raiseBefore := raiseBefore, write := write)
  }

  function Published(sig: Signal): Bot {
    START.(file := Some(sig))
  }

  lemma {:induction false} TwoSteps(c: Config, sig: Signal, e: Env)
    ensures After(c, [Publish(Some(sig)), Poll(e)]) == Iterate(c, Published(sig), e)
  {
    var steps := [Publish(Some(sig)), Poll(e)];
    assert steps[..1][..0] == [];
    assert After(c, steps[..1]) == Published(sig);
  }

  /** An exception between placement and marking leaves the slot open: two orders, one slot. */
  lemma {:induction false} CrashAllowsSecondOrder()
    ensures var steps := [Publish(Some(BuySignal(None, Some(0)))), Poll(OpenGates(0, MARK_STAGE, WriteOk)),
                          Poll(OpenGates(RETRY_BACKOFF, 20, WriteOk))];
            var orders := After(CONFIG, steps).orders;
            |orders| == 2 && orders[0].day == orders[1].day && orders[0].slot == orders[1].slot
  {
    var sig, e1, e2 := BuySignal(None, Some(0)), OpenGates(0, MARK_STAGE, WriteOk), OpenGates(RETRY_BACKOFF, 20, WriteOk);
    var steps := [Publish(Some(sig)), Poll(e1), Poll(e2)];
    TwoSteps(CONFIG, sig, e1);
    assert steps[..2] == [Publish(Some(sig)), Poll(e1)];
    var s1 := After(CONFIG, steps[..2]);
    FirstOrder(sig, e1);
    SecondOrder(s1, sig, e2);
  }

  /** The state left behind by the crash. */
  ghost predicate OneOrderSlotOpen(s: Bot, sig: Signal) {
    && s.file == Some(sig) && s.tradeDate == Some(1) && s.tradesTaken == 1 && |s.orders| == 1
    && s.orders[0].day == 1 && s.orders[0].slot == Morning
    && |s.runs| == 1 && s.runs[0].day == 1 && !s.runs[0].terminal
    && s.lastSeen == map[Morning := 0]
  }

  lemma {:induction false} FirstOrder(sig: Signal, e: Env)
    requires sig == BuySignal(None, Some(0)) && e == OpenGates(0, MARK_STAGE, WriteOk)
    ensures OneOrderSlotOpen(Iterate(CONFIG, Published(sig), e), sig)
  {
    var b := ClearForDay(Published(sig), 1);
    assert b.runs == [] && b.tradesTaken == 0;
    var s1 := Note(Track(b, Morning, "s1", 0), e, SignalDecision, Morning, sig, Buy, Hold);
    ClearKeeps(s1, 1);
    var pass := ConfirmStage(CONFIG, e, sig, false);
    assert pass == Pass(None, Verdict(Confirmed, PlainConfirmed), false);
    assert FirstExit(CONFIG, 0, e, pass) == Exit(MARK_STAGE, OrderPlaced, true);
    var s2 := Effects(s1, e, Morning, sig, pass, PLACE_STAGE);
    assert s2 == AfterPlacement(s1, e, Morning, sig, false);
    ClearKeeps(s2, 1);
    assert Iterate(CONFIG, Published(sig), e) == Crash(s2, e, Morning, sig, Buy);
  }

  lemma {:induction false} SecondOrder(s: Bot, sig: Signal, e: Env)
    requires OneOrderSlotOpen(s, sig) && sig == BuySignal(None, Some(0)) && e == OpenGates(RETRY_BACKOFF, 20, WriteOk)
    ensures var t := Iterate(CONFIG, s, e);
            |t.orders| == 2 && t.orders[0] == s.orders[0] && t.orders[1].day == 1 && t.orders[1].slot == Morning
  {
    ClearKeeps(s, 1);
    assert WorkSlot(s, e) == Some(Morning);
    var s1 := Note(Track(s, Morning, "s1", e.now), e, SignalDecision, Morning, sig, Buy, Hold);
    ClearKeeps(s1, 1);
    var pass := ConfirmStage(CONFIG, e, sig, false);
    assert pass == Pass(None, Verdict(Confirmed, PlainConfirmed), false);
    var exit := FirstExit(CONFIG, 1, e, pass);
    assert exit == Exit(MARK_STAGE, OrderPlaced, true);
    var s2 := Effects(s1, e, Morning, sig, pass, MARK_STAGE);
    assert s2 == AfterPlacement(s1, e, Morning, sig, false);
    ClearKeeps(s2, 1);
    assert Iterate(CONFIG, s, e) == Leave(s2, e, Morning, sig, Buy, exit, false);
  }

  /** A state write that fails with a value error while a stale signal is marked marks it twice. */
  lemma {:induction false} StaleMarkedTwice()
    ensures var steps := [Publish(Some(BuySignal(None, Some(0)))), Poll(OpenGates(301 * SECOND, 20, WriteValueError))];
            TerminalCount(After(CONFIG, steps).journal, 1, Morning) == 2
  {
    var sig, e := BuySignal(None, Some(0)), OpenGates(301 * SECOND, 20, WriteValueError);
    TwoSteps(CONFIG, sig, e);
    var evs := IterateShape(CONFIG, Published(sig), e);
    assert After(CONFIG, [Publish(Some(sig)), Poll(e)]).journal == evs;
  }

  const DECISION := Event(SignalDecision, 0, 1, Morning, Some(Midday), "s1", Hold, Buy, false, false)
  const RISK := Event(RiskResult, 0, 1, Morning, None, "s1", InvalidSignalTimestamp, Buy, true, false)
  const BLOCKED := Event(BlockedCandidate, 0, 1, Morning, Some(Midday), "s1", InvalidSignalTimestamp, Buy, true, false)

  lemma {:induction false} MislabelledPoll(sig: Signal, e: Env)
    requires sig == BuySignal(Some(Midday), None) && e == OpenGates(0, 20, WriteOk)
    ensures var t := Iterate(CONFIG, Published(sig), e);
            t.journal == [DECISION, RISK, BLOCKED] && t.runs == [RunOf(RISK)]
  {
    var b := ClearForDay(Published(sig), 1);
    assert b.runs == [];
    var s1 := Note(Track(b, Morning, "s1", 0), e, SignalDecision, Morning, sig, Buy, Hold);
    ClearKeeps(s1, 1);
    assert Iterate(CONFIG, Published(sig), e) == Mark(s1, e, Morning, sig, Buy, InvalidSignalTimestamp, true, false);
  }

  lemma {:induction false} MislabelledFold()
    ensures OutcomeOf(Filed([DECISION, RISK, BLOCKED], 0, (1, Midday))) == Finding(Blocked, Because(InvalidSignalTimestamp))
  {
    var journal := [DECISION, RISK, BLOCKED];
    assert journal[..2] == [DECISION, RISK];
    var evs := Filed(journal[..2], 0, (1, Midday));
    assert Filed(journal, 0, (1, Midday)) == evs + [BLOCKED];
    OutcomeAppend(evs, BLOCKED);
    forall i | 0 <= i < |evs| ensures !ShowsOrder(evs[i]) {
      assert evs[i] in journal[..2];
    }
    LastSayingIsNoTrade(evs);
  }

  lemma {:induction false} MiddayUntouched()
    ensures BotFinding([RunOf(RISK)], Midday) == NOTHING
  {
    BotAppend([], RunOf(RISK), Midday);
    assert [] + [RunOf(RISK)] == [RunOf(RISK)];
  }

  /** A signal labelled for another window: the ledger blocks a window the bot never worked on. */
  lemma {:induction false} MislabelledSignal()
    ensures var steps := [Publish(Some(BuySignal(Some(Midday), None))), Poll(OpenGates(0, 20, WriteOk))];
            var s := After(CONFIG, steps);
            && BotFinding(s.runs, Midday) == NOTHING
            && OutcomeOf(Filed(s.journal, 0, (1, Midday))) == Finding(Blocked, Because(InvalidSignalTimestamp))
  {
    var sig, e := BuySignal(Some(Midday), None), OpenGates(0, 20, WriteOk);
    TwoSteps(CONFIG, sig, e);
    MislabelledPoll(sig, e);
    MislabelledFold();
    MiddayUntouched();
  }
}
