/**
 What holds in every state the poll loop can reach, for any config, any signals and any
 outside answers.
 */
module PollRuns {
  import opened Trading
  import opened PollLoop
  import opened PollSafety

  function OrdersOn(orders: seq<Order>, day: int): nat {
    if orders == [] then 0
    else OrdersOn(orders[..|orders| - 1], day) + (if orders[|orders| - 1].day == day then 1 else 0)
  }

  function Cap(c: Config): int {
    if c.maxTradesPerDay < 0 then 0 else c.maxTradesPerDay
  }

  /** The record of the current London day agrees with the journal and with the orders. */
  ghost predicate DayBooks(s: Bot) {
    match s.tradeDate
    case None => s.journal == [] && s.orders == [] && s.runs == [] && s.tradesTaken == 0
    case Some(d) =>
      && (forall ev :: ev in s.journal ==> ev.day <= d)
      && (forall o :: o in s.orders ==> o.day <= d)
      && s.runs == RunsOf(s.journal, d)
      && s.tradesTaken == OrdersOn(s.orders, d)
  }

  /** No order was placed in a slot that already had a terminal run that day. */
  ghost predicate OrdersBeforeTerminal(s: Bot) {
    forall o :: o in s.orders ==>
      o.logged <= |s.journal| && TerminalCount(s.journal[..o.logged], o.day, o.slot) == 0
  }

  ghost predicate Books(c: Config, s: Bot) {
    && DayBooks(s)
    && (forall i, j :: 0 <= i < j < |s.journal| ==> s.journal[i].stamp <= s.journal[j].stamp)
    && (forall day :: OrdersOn(s.orders, day) <= Cap(c))
    && OrdersBeforeTerminal(s)
  }

  // ---------------------------------------------------------------- small facts

  lemma {:induction false} NothingYet(journal: seq<Event>, day: int)
    requires forall ev :: ev in journal ==> ev.day < day
    ensures RunsOf(journal, day) == []
    ensures forall slot :: TerminalCount(journal, day, slot) == 0
  {
    if journal != [] {
      NothingYet(journal[..|journal| - 1], day);
    }
  }

  lemma {:induction false} NoOrdersYet(orders: seq<Order>, day: int)
    requires forall o :: o in orders ==> o.day < day
    ensures OrdersOn(orders, day) == 0
  {
    if orders != [] {
      NoOrdersYet(orders[..|orders| - 1], day);
    }
  }

  lemma {:induction false} TerminalCountRuns(journal: seq<Event>, day: int, slot: Slot)
    requires forall ev :: ev in journal ==> ev.day <= day
    ensures SlotTerminal(RunsOf(journal, day), slot, day) <==> TerminalCount(journal, day, slot) > 0
  {
    if journal != [] {
      var front, last := journal[..|journal| - 1], journal[|journal| - 1];
      TerminalCountRuns(front, day, slot);
      var before, runs := RunsOf(front, day), RunsOf(journal, day);
      if TerminalEvent(last, day, slot) {
        assert runs[|runs| - 1] == RunOf(last);
      } else if SlotTerminal(before, slot, day) {
        var i :| 0 <= i < |before| && before[i].slot == slot && before[i].day == day && before[i].terminal;
        assert runs[i] == before[i];
      }
    }
  }

  lemma {:induction false} OrdersOnLast(orders: seq<Order>, o: Order, day: int)
    ensures OrdersOn(orders + [o], day) == OrdersOn(orders, day) + (if o.day == day then 1 else 0)
  {
    assert (orders + [o])[..|orders|] == orders;
  }

  /** Rolling the day over keeps the books. */
  lemma {:induction false} ClearKeepsBooks(c: Config, s: Bot, e: Env)
    requires Books(c, s) && Timely(s, e)
    ensures var b := ClearForDay(s, e.day);
            Books(c, b) && b.journal == s.journal && b.orders == s.orders && b.tradeDate == Some(e.day)
  {
    if s.tradeDate == Some(e.day) {
      ClearKeeps(s, e.day);
    } else {
      NothingYet(s.journal, e.day);
      NoOrdersYet(s.orders, e.day);
    }
  }

  lemma {:induction false} WorkedKeepsDayBooks(c: Config, b: Bot, s': Bot, e: Env, slot: Slot, window: Option<Slot>, evs: seq<Event>)
    requires DayBooks(b) && Extends(b, s', e, slot, window, evs)
    requires SameTrades(b, s') || PlacedOne(c, b, s', e, slot, evs)
    ensures DayBooks(s')
  {
    RunsOfConcat(b.journal, evs, e.day);
    if !SameTrades(b, s') {
      OrdersOnLast(b.orders, s'.orders[|s'.orders| - 1], e.day);
    }
  }

  lemma {:induction false} WorkedKeepsCap(c: Config, b: Bot, s': Bot, e: Env, slot: Slot, evs: seq<Event>)
    requires DayBooks(b) && b.tradeDate == Some(e.day)
    requires forall day :: OrdersOn(b.orders, day) <= Cap(c)
    requires SameTrades(b, s') || PlacedOne(c, b, s', e, slot, evs)
    ensures forall day :: OrdersOn(s'.orders, day) <= Cap(c)
  {
    if !SameTrades(b, s') {
      forall day ensures OrdersOn(s'.orders, day) <= Cap(c) {
        OrdersOnLast(b.orders, s'.orders[|s'.orders| - 1], day);
      }
    }
  }

  lemma {:induction false} WorkedKeepsOrder(c: Config, b: Bot, s': Bot, e: Env, slot: Slot, evs: seq<Event>)
    requires OrdersBeforeTerminal(b) && TerminalCount(b.journal, e.day, slot) == 0
    requires s'.journal == b.journal + evs
    requires SameTrades(b, s') || PlacedOne(c, b, s', e, slot, evs)
    ensures OrdersBeforeTerminal(s')
  {
    forall o | o in s'.orders
      ensures o.logged <= |s'.journal| && TerminalCount(s'.journal[..o.logged], o.day, o.slot) == 0
    {
      if o in b.orders {
        assert s'.journal[..o.logged] == b.journal[..o.logged];
      } else {
        var n := o.logged - |b.journal|;
        assert s'.journal[..o.logged] == b.journal + evs[..n];
        TerminalCountConcat(b.journal, evs[..n], e.day, slot);
      }
    }
  }

  lemma {:induction false} WorkedKeepsBooks(c: Config, b: Bot, s': Bot, e: Env, slot: Slot, window: Option<Slot>, evs: seq<Event>)
    requires Books(c, b) && b.tradeDate == Some(e.day) && (forall ev :: ev in b.journal ==> ev.stamp <= e.stamp)
    requires Extends(b, s', e, slot, window, evs) && TerminalCount(b.journal, e.day, slot) == 0
    requires SameTrades(b, s') || PlacedOne(c, b, s', e, slot, evs)
    ensures Books(c, s')
  {
    WorkedKeepsDayBooks(c, b, s', e, slot, window, evs);
    WorkedKeepsCap(c, b, s', e, slot, evs);
    WorkedKeepsOrder(c, b, s', e, slot, evs);
  }

  /** One poll keeps the books; a poll that works on a slot found that slot open. */
  lemma {:induction false} PollKeepsBooks(c: Config, s: Bot, e: Env)
    requires Books(c, s) && Timely(s, e)
    ensures Books(c, Iterate(c, s, e))
    ensures WorkSlot(s, e).Some? ==> TerminalCount(s.journal, e.day, WorkSlot(s, e).value) == 0
  {
    var evs := IterateShape(c, s, e);
    ClearKeepsBooks(c, s, e);
    if WorkSlot(s, e).Some? {
      var b, slot := ClearForDay(s, e.day), WorkSlot(s, e).value;
      TerminalCountRuns(b.journal, e.day, slot);
      WorkedKeepsBooks(c, b, Iterate(c, s, e), e, slot, s.file.value.window, evs);
    }
  }

  // ---------------------------------------------------------------- every run

  /**
   In every reachable state the day's counter is the number of orders accepted that London
   day, no day ever has more than the cap, the runs list is the journal's, and no order
   follows a terminal run of its slot: also when iterations crash and the slot is retried.
   */
  lemma {:induction false} BooksAlways(c: Config, steps: seq<Step>)
    requires ClockRuns(c, steps)
    ensures Books(c, After(c, steps))
  {
    if steps != [] {
      var front, last := steps[..|steps| - 1], steps[|steps| - 1];
      ClockPrefix(c, steps);
      BooksAlways(c, front);
      if last.Poll? {
        PollKeepsBooks(c, After(c, front), last.e);
      }
    }
  }

  /** A step never turns the date back, and adds no run to a day that is over. */
  lemma {:induction false} StepKeepsPast(c: Config, s: Bot, step: Step, day: int)
    requires Books(c, s) && (step.Poll? ==> Timely(s, step.e))
    requires s.tradeDate.Some? && (day < s.tradeDate.value || Next(c, s, step).tradeDate != s.tradeDate)
    requires day <= s.tradeDate.value
    ensures var t := Next(c, s, step);
            t.tradeDate.Some? && day < t.tradeDate.value && RunsOf(t.journal, day) == RunsOf(s.journal, day)
  {
    if step.Poll? {
      var e := step.e;
      var evs := IterateShape(c, s, e);
      ClearIsOnDay(s, e.day);
      if WorkSlot(s, e).Some? {
        RunsOfConcat(s.journal, evs, day);
        NoRunsElsewhere(evs, e, WorkSlot(s, e).value, day);
      }
    }
  }

  lemma {:induction false} NoRunsElsewhere(evs: seq<Event>, e: Env, slot: Slot, day: int)
    requires EventsOf(evs, e, slot) && day != e.day
    ensures RunsOf(evs, day) == []
  {
    if evs != [] {
      assert evs[|evs| - 1] in evs;
      NoRunsElsewhere(evs[..|evs| - 1], e, slot, day);
    }
  }

  /**
   What the journal records for a day stays what the bot's list was when the day ended: after
   step `k` is the last state of the day, the runs of that day never change again.
   */
  lemma {:induction false} DayKeepsItsRuns(c: Config, steps: seq<Step>, k: nat, day: int)
    requires ClockRuns(c, steps) && k < |steps|
    requires After(c, steps[..k]).tradeDate == Some(day) && After(c, steps[..k + 1]).tradeDate != Some(day)
    ensures var s := After(c, steps);
            s.tradeDate.Some? && day < s.tradeDate.value && RunsOf(s.journal, day) == After(c, steps[..k]).runs
  {
    var front, last := steps[..|steps| - 1], steps[|steps| - 1];
    ClockPrefix(c, steps);
    BooksAlways(c, front);
    assert front[..k] == steps[..k];
    if k < |front| {
      assert front[..k + 1] == steps[..k + 1];
      DayKeepsItsRuns(c, front, k, day);
    } else {
      assert steps[..k + 1] == steps && front[..k] == front;
    }
    StepKeepsPast(c, After(c, front), last, day);
  }

  ghost predicate UniqueTerminals(journal: seq<Event>) {
    forall day, slot :: TerminalCount(journal, day, slot) <= 1
  }

  ghost predicate NoDoubleMark(c: Config, steps: seq<Step>) {
    forall i :: 0 <= i < |steps| && steps[i].Poll? ==> !DoubleMark(After(c, steps[..i]), steps[i].e)
  }

  /** How one poll changes the terminal runs of every slot of every day. */
  lemma {:induction false} PollTerminals(c: Config, s: Bot, e: Env)
    requires Books(c, s) && Timely(s, e)
    ensures var t := Iterate(c, s, e);
            UniqueTerminals(t.journal) <==> UniqueTerminals(s.journal) && !DoubleMark(s, e)
  {
    var t := Iterate(c, s, e);
    var evs := IterateShape(c, s, e);
    ClearIsOnDay(s, e.day);
    if WorkSlot(s, e).Some? {
      PollKeepsBooks(c, s, e);
      var slot := WorkSlot(s, e).value;
      forall day, other
        ensures TerminalCount(t.journal, day, other) ==
                TerminalCount(s.journal, day, other) + (if day == e.day && other == slot then TerminalCount(evs, day, other) else 0)
      {
        TerminalCountConcat(s.journal, evs, day, other);
        if day != e.day || other != slot {
          TerminalCountElsewhere(evs, e, slot, day, other);
        }
      }
      assert TerminalCount(t.journal, e.day, slot) == TerminalCount(evs, e.day, slot);
      if UniqueTerminals(t.journal) {
        forall day, other ensures TerminalCount(s.journal, day, other) <= 1 {
          assert TerminalCount(t.journal, day, other) <= 1;
        }
        assert TerminalCount(evs, e.day, slot) <= 1;
      }
    }
  }

  /**
   Each slot of each day has at most one terminal run, if and only if no poll met a stale
   signal from inside its own window while the state write failed with a value error.
   */
  lemma {:induction false} UniqueTerminalsIff(c: Config, steps: seq<Step>)
    requires ClockRuns(c, steps)
    ensures UniqueTerminals(After(c, steps).journal) <==> NoDoubleMark(c, steps)
  {
    if steps != [] {
      var front, last := steps[..|steps| - 1], steps[|steps| - 1];
      ClockPrefix(c, steps);
      UniqueTerminalsIff(c, front);
      BooksAlways(c, front);
      NoDoubleMarkStep(c, steps);
      if last.Poll? {
        PollTerminals(c, After(c, front), last.e);
      }
    }
  }

  lemma {:induction false} NoDoubleMarkStep(c: Config, steps: seq<Step>)
    requires steps != []
    ensures var front, last := steps[..|steps| - 1], steps[|steps| - 1];
            NoDoubleMark(c, steps) <==> NoDoubleMark(c, front) && (last.Poll? ==> !DoubleMark(After(c, front), last.e))
  {
    var front := steps[..|steps| - 1];
    forall i | 0 <= i < |front| ensures front[i] == steps[i] && front[..i] == steps[..i] {}
  }

  // ---------------------------------------------------------------- one order per slot and day

  ghost predicate OneOrderPerSlot(orders: seq<Order>) {
    forall i, j :: 0 <= i < j < |orders| ==> orders[i].day != orders[j].day || orders[i].slot != orders[j].slot
  }

  /** No exception falls between an accepted placement and the run that records it. */
  predicate CleanMarking(step: Step) {
    step.Poll? ==> step.e.raiseBefore != MARK_STAGE
  }

  ghost predicate OrdersMarked(s: Bot) {
    forall o :: o in s.orders ==> TerminalCount(s.journal, o.day, o.slot) > 0
  }

  /** An accepted order closes its slot unless an exception falls before it is recorded. */
  lemma {:induction false} OrderClosesSlotIff(c: Config, s: Bot, e: Env)
    requires Books(c, s) && Timely(s, e)
    requires Iterate(c, s, e).orders != s.orders
    ensures WorkSlot(s, e).Some?
    ensures SlotTerminal(Iterate(c, s, e).runs, WorkSlot(s, e).value, e.day) <==> e.raiseBefore != MARK_STAGE
  {
    var evs := IterateShape(c, s, e);
    ClearIsOnDay(s, e.day);
    PollKeepsBooks(c, s, e);
    var t, slot := Iterate(c, s, e), WorkSlot(s, e).value;
    TerminalCountConcat(s.journal, evs, e.day, slot);
    TerminalCountRuns(t.journal, e.day, slot);
  }

  lemma {:induction false} OneOrderAlways(c: Config, steps: seq<Step>)
    requires ClockRuns(c, steps) && forall step :: step in steps ==> CleanMarking(step)
    ensures OneOrderPerSlot(After(c, steps).orders) && OrdersMarked(After(c, steps))
  {
    if steps != [] {
      var front, last := steps[..|steps| - 1], steps[|steps| - 1];
      ClockPrefix(c, steps);
      OneOrderAlways(c, front);
      BooksAlways(c, front);
      assert CleanMarking(last);
      if last.Poll? {
        OneOrderStep(c, After(c, front), last.e);
      }
    }
  }

  lemma {:induction false} OneOrderStep(c: Config, s: Bot, e: Env)
    requires Books(c, s) && Timely(s, e) && OneOrderPerSlot(s.orders) && OrdersMarked(s)
    requires e.raiseBefore != MARK_STAGE
    ensures var t := Iterate(c, s, e); OneOrderPerSlot(t.orders) && OrdersMarked(t)
  {
    var t := Iterate(c, s, e);
    var evs := IterateShape(c, s, e);
    ClearIsOnDay(s, e.day);
    PollKeepsBooks(c, s, e);
    if WorkSlot(s, e).Some? {
      var slot := WorkSlot(s, e).value;
      OldOrdersMarked(s, t.journal, evs);
      if t.orders != s.orders {
        TerminalCountConcat(s.journal, evs, e.day, slot);
        NewOrderAlone(s, t.orders, e.day, slot);
      }
    }
  }

  lemma {:induction false} OldOrdersMarked(s: Bot, journal: seq<Event>, evs: seq<Event>)
    requires OrdersMarked(s) && journal == s.journal + evs
    ensures forall o :: o in s.orders ==> TerminalCount(journal, o.day, o.slot) > 0
  {
    forall o | o in s.orders ensures TerminalCount(journal, o.day, o.slot) > 0 {
      TerminalCountConcat(s.journal, evs, o.day, o.slot);
    }
  }

  /** Orders so far are in closed slots; an order in an open slot is the slot's first. */
  lemma {:induction false} NewOrderAlone(s: Bot, orders: seq<Order>, day: int, slot: Slot)
    requires OneOrderPerSlot(s.orders) && OrdersMarked(s) && TerminalCount(s.journal, day, slot) == 0
    requires |orders| > 0 && orders == s.orders + [orders[|orders| - 1]]
    requires orders[|orders| - 1].day == day && orders[|orders| - 1].slot == slot
    ensures OneOrderPerSlot(orders)
  {
    forall i | 0 <= i < |s.orders| ensures orders[i] == s.orders[i] && (orders[i].day != day || orders[i].slot != slot) {
      assert s.orders[i] in s.orders;
    }
  }
}
