/**
 The backtest loop: trades open and close bar by bar, and the metrics are computed from the
 list of closed trades. Entry signals are given by the answers of the gates and detectors.
 */
module Backtest {
  import opened Trading
  import opened Bars

  const LOT_SIZE := 100.0
  const USD_TO_GBP := 0.80

  datatype Trade = Trade(long: bool, entry: real, stop: real, target: real, lot: real)

  datatype ClosedTrade = ClosedTrade(trade: Trade, pnl: real)

  /** One tick against one trade: the stop is checked before the target. */
  function TickHit(trade: Trade, tick: Tick): Option<real> {
    if trade.long then
      if tick.bid <= trade.stop then Some(trade.stop)
      else if tick.ask >= trade.target then Some(trade.target) else None
    else
      if tick.ask >= trade.stop then Some(trade.stop)
      else if tick.bid <= trade.target then Some(trade.target) else None
  }

  function FirstHit(trade: Trade, ticks: seq<Tick>): Option<real> {
    if ticks == [] then None
    else if TickHit(trade, ticks[0]).Some? then TickHit(trade, ticks[0])
    else FirstHit(trade, ticks[1..])
  }

  method CheckExit(trade: Trade, ticks: seq<Tick>) returns (hit: Option<real>)
    ensures hit == FirstHit(trade, ticks)
  {
    for i := 0 to |ticks|
      invariant FirstHit(trade, ticks) == FirstHit(trade, ticks[i..])
    {
      var tick := ticks[i];
      if trade.long {
        if tick.bid <= trade.stop {
          return Some(trade.stop);
        }
        if tick.ask >= trade.target {
          return Some(trade.target);
        }
      } else {
        if tick.ask >= trade.stop {
          return Some(trade.stop);
        }
        if tick.bid <= trade.target {
          return Some(trade.target);
        }
      }
      assert ticks[i..][1..] == ticks[i + 1..];
    }
    return None;
  }

  function Pnl(trade: Trade, price: real): real {
    (if trade.long then price - trade.entry else trade.entry - price) * trade.lot * LOT_SIZE * USD_TO_GBP
  }

  // ---------------------------------------------------------------- conservation

  function TotalPnl(closed: seq<ClosedTrade>): real {
    if closed == [] then 0.0 else TotalPnl(closed[..|closed| - 1]) + closed[|closed| - 1].pnl
  }

  function TradesOf(closed: seq<ClosedTrade>): multiset<Trade> {
    if closed == [] then multiset{} else TradesOf(closed[..|closed| - 1]) + multiset{closed[|closed| - 1].trade}
  }

  lemma {:induction false} CloseOne(closed: seq<ClosedTrade>, c: ClosedTrade)
    ensures TotalPnl(closed + [c]) == TotalPnl(closed) + c.pnl
    ensures TradesOf(closed + [c]) == TradesOf(closed) + multiset{c.trade}
  {
    assert (closed + [c])[..|closed|] == closed;
  }

  /** Where the money and the trades are: nothing appears, nothing is lost. */
  ghost predicate Conserved(start: real, balance: real, taken: seq<Trade>, open: seq<Trade>, closed: seq<ClosedTrade>) {
    && balance == start + TotalPnl(closed)
    && multiset(taken) == multiset(open) + TradesOf(closed)
    && |taken| == |open| + |closed|
  }

  lemma {:induction false} TotalsConcat(a: seq<ClosedTrade>, b: seq<ClosedTrade>)
    ensures TotalPnl(a + b) == TotalPnl(a) + TotalPnl(b)
    ensures TradesOf(a + b) == TradesOf(a) + TradesOf(b)
  {
    if b == [] {
      assert a + b == a;
    } else {
      assert (a + b)[..|a + b| - 1] == a + b[..|b| - 1];
      TotalsConcat(a, b[..|b| - 1]);
    }
  }

  lemma {:induction false} TotalsJoin(a: seq<ClosedTrade>, b: seq<ClosedTrade>)
    ensures TotalPnl(Join(a, b)) == TotalPnl(a) + TotalPnl(b)
    ensures TradesOf(Join(a, b)) == TradesOf(a) + TradesOf(b)
  {
    TotalsConcat(a, b);
    JoinIsConcat(a, b);
  }

  /** How a trade ends in a bar, if it does. */
  function HitOf(trade: Trade, ticks: seq<Tick>): (c: Option<ClosedTrade>)
    ensures c.Some? ==> c.value.trade == trade
    ensures c.Some? <==> FirstHit(trade, ticks).Some?
  {
    var hit := FirstHit(trade, ticks);
    if hit.Some? then Some(ClosedTrade(trade, Pnl(trade, hit.value))) else None
  }

  /** A rule that says how a trade ends over a stretch of ticks, if it does. */
  type ExitRule = (Trade, seq<Tick>) -> Option<ClosedTrade>

  /** The rule closes the trade it is asked about. */
  ghost predicate OwnTrade(rule: ExitRule) {
    forall trade, ticks :: rule(trade, ticks).Some? ==> rule(trade, ticks).value.trade == trade
  }

  /** A stretch is judged piece by piece: the first piece that ends the trade decides. */
  ghost predicate Composes(rule: ExitRule) {
    && (forall trade :: rule(trade, []).None?)
    && forall trade, a, b {:trigger rule(trade, a + b)} :: rule(trade, a + b) == if rule(trade, a).Some? then rule(trade, a) else rule(trade, b)
  }

  lemma {:induction false} FirstTouchIsRule()
    ensures OwnTrade(HitOf) && Composes(HitOf)
  {
    forall trade, a, b ensures HitOf(trade, a + b) == if HitOf(trade, a).Some? then HitOf(trade, a) else HitOf(trade, b) {
      HitConcat(trade, a, b);
    }
  }

  /** A list with one more item, if there is one. */
  function With<T>(s: seq<T>, added: Option<T>): seq<T> {
    if added.None? then s else if s == [] then [added.value] else s + [added.value]
  }

  /** One list after the other. */
  function Join<T>(a: seq<T>, b: seq<T>): (c: seq<T>)
    ensures |c| == |a| + |b|
  {
    if a == [] then b else a + b
  }

  lemma {:induction false} JoinIsConcat<T>(a: seq<T>, b: seq<T>)
    ensures Join(a, b) == a + b
  {
  }

  /** The trades a bar leaves open, and the ends of those it closes, in the order they were opened. */
  function Survivors(rule: ExitRule, open: seq<Trade>, ticks: seq<Tick>): seq<Trade> {
    if open == [] then []
    else
      var last := open[|open| - 1];
      With(Survivors(rule, open[..|open| - 1], ticks), if rule(last, ticks).None? then Some(last) else None)
  }

  function HitsIn(rule: ExitRule, open: seq<Trade>, ticks: seq<Tick>): seq<ClosedTrade> {
    if open == [] then []
    else With(HitsIn(rule, open[..|open| - 1], ticks), rule(open[|open| - 1], ticks))
  }

  /** The bar on one more open trade. */
  lemma {:induction false} OneMoreOpen(rule: ExitRule, open: seq<Trade>, t: Trade, ticks: seq<Tick>)
    ensures var end, still, hits := rule(t, ticks), Survivors(rule, open, ticks), HitsIn(rule, open, ticks);
            && Survivors(rule, open + [t], ticks) == (if end.None? then still + [t] else still)
            && HitsIn(rule, open + [t], ticks) == (if end.None? then hits else hits + [end.value])
  {
    assert (open + [t])[..|open|] == open;
  }

  function AtPrice(trade: Trade, price: real): (c: ClosedTrade)
    ensures c.trade == trade
  {
    ClosedTrade(trade, Pnl(trade, price))
  }

  function Forced(open: seq<Trade>, price: real): seq<ClosedTrade> {
    if open == [] then []
    else With(Forced(open[..|open| - 1], price), Some(AtPrice(open[|open| - 1], price)))
  }

  /** A bar moves trades from open to closed and loses none. */
  lemma {:induction false} HitsSplit(rule: ExitRule, open: seq<Trade>, ticks: seq<Tick>)
    requires OwnTrade(rule)
    ensures multiset(open) == multiset(Survivors(rule, open, ticks)) + TradesOf(HitsIn(rule, open, ticks))
    ensures |open| == |Survivors(rule, open, ticks)| + |HitsIn(rule, open, ticks)|
  {
    if open != [] {
      var front, last := open[..|open| - 1], open[|open| - 1];
      HitsSplit(rule, front, ticks);
      assert open == front + [last];
      SplitStep(last, rule(last, ticks), multiset(front), Survivors(rule, front, ticks), HitsIn(rule, front, ticks));
    }
  }

  /** One more trade goes either to the open ones or to the closed ones. */
  lemma {:induction false} SplitStep(last: Trade, end: Option<ClosedTrade>, before: multiset<Trade>, still: seq<Trade>, hits: seq<ClosedTrade>)
    requires before == multiset(still) + TradesOf(hits) && (end.Some? ==> end.value.trade == last)
    ensures before + multiset{last} ==
            multiset(With(still, if end.None? then Some(last) else None)) + TradesOf(With(hits, end))
  {
    if end.Some? {
      CloseOne(hits, end.value);
      assert With(hits, end) == hits + [end.value];
    } else {
      assert With(still, Some(last)) == still + [last];
    }
  }

  lemma {:induction false} ForcedSplit(open: seq<Trade>, price: real)
    ensures multiset(open) == TradesOf(Forced(open, price)) && |open| == |Forced(open, price)|
  {
    if open != [] {
      var front, last := open[..|open| - 1], open[|open| - 1];
      assert open == front + [last];
      ForcedSplit(front, price);
      CloseOne(Forced(front, price), AtPrice(last, price));
    }
  }

  method CloseIfHit(trade: Trade, ticks: seq<Tick>) returns (ended: Option<ClosedTrade>)
    ensures ended == HitOf(trade, ticks)
  {
    var hit := CheckExit(trade, ticks);
    if hit.Some? {
      return Some(ClosedTrade(trade, Pnl(trade, hit.value)));
    }
    return None;
  }

  lemma {:induction false} CloseStep(rule: ExitRule, open: seq<Trade>, t: Trade, ticks: seq<Tick>)
    ensures var end, still, hits := rule(t, ticks), Survivors(rule, open, ticks), HitsIn(rule, open, ticks);
            && Survivors(rule, open + [t], ticks) == (if end.None? then still + [t] else still)
            && HitsIn(rule, open + [t], ticks) == (if end.None? then hits else hits + [end.value])
            && TotalPnl(HitsIn(rule, open + [t], ticks)) == TotalPnl(hits) + (if end.None? then 0.0 else end.value.pnl)
  {
    OneMoreOpen(rule, open, t, ticks);
    if rule(t, ticks).Some? {
      CloseOne(HitsIn(rule, open, ticks), rule(t, ticks).value);
    }
  }

  method CloseHits(balance: real, open: seq<Trade>, closed: seq<ClosedTrade>, ticks: seq<Tick>)
    returns (balance': real, stillOpen: seq<Trade>, closed': seq<ClosedTrade>)
    ensures stillOpen == Survivors(HitOf, open, ticks) && closed' == Join(closed, HitsIn(HitOf, open, ticks))
    ensures balance' == balance + TotalPnl(HitsIn(HitOf, open, ticks))
  {
    balance', stillOpen, closed' := balance, [], closed;
    ghost var hits: seq<ClosedTrade> := [];
    for i := 0 to |open|
      invariant stillOpen == Survivors(HitOf, open[..i], ticks) && hits == HitsIn(HitOf, open[..i], ticks)
      invariant closed' == closed + hits && balance' == balance + TotalPnl(hits)
    {
      assert open[..i + 1] == open[..i] + [open[i]];
      CloseStep(HitOf, open[..i], open[i], ticks);
      var ended := CloseIfHit(open[i], ticks);
      if ended.Some? {
        balance' := balance' + ended.value.pnl;
        closed' := closed' + [ended.value];
        hits := hits + [ended.value];
      } else {
        stillOpen := stillOpen + [open[i]];
      }
    }
    assert open[..|open|] == open;
    JoinIsConcat(closed, hits);
  }

  method ForceClose(balance: real, open: seq<Trade>, closed: seq<ClosedTrade>, price: real)
    returns (balance': real, closed': seq<ClosedTrade>)
    ensures closed' == Join(closed, Forced(open, price)) && balance' == balance + TotalPnl(Forced(open, price))
  {
    balance', closed' := balance, closed;
    for i := 0 to |open|
      invariant closed' == closed + Forced(open[..i], price) && balance' == balance + TotalPnl(Forced(open[..i], price))
    {
      assert open[..i + 1][..i] == open[..i];
      var pnl := Pnl(open[i], price);
      CloseOne(Forced(open[..i], price), ClosedTrade(open[i], pnl));
      balance' := balance' + pnl;
      closed' := closed' + [ClosedTrade(open[i], pnl)];
    }
    assert open[..|open|] == open;
    JoinIsConcat(closed, Forced(open, price));
  }

  lemma {:induction false} EndConserves(start: real, balance: real, taken: seq<Trade>, open: seq<Trade>, closed: seq<ClosedTrade>, price: real)
    requires Conserved(start, balance, taken, open, closed)
    ensures var forced := Forced(open, price);
            Conserved(start, balance + TotalPnl(forced), taken, [], Join(closed, forced))
  {
    ForcedSplit(open, price);
    TotalsJoin(closed, Forced(open, price));
  }

  /** A trade is as often taken as it is open or closed. */
  ghost predicate Counted(taken: seq<Trade>, open: seq<Trade>, closed: seq<ClosedTrade>, t: Trade) {
    multiset(taken)[t] == multiset(open)[t] + TradesOf(closed)[t] && |taken| == |open| + |closed|
  }

  /** One bar of the simulation closes trades, then possibly opens one. */
  lemma {:induction false} StepConserves(rule: ExitRule, taken: seq<Trade>, open: seq<Trade>, closed: seq<ClosedTrade>, ticks: seq<Tick>,
                      added: Option<Trade>, t: Trade)
    requires OwnTrade(rule) && Counted(taken, open, closed, t)
    ensures Counted(With(taken, added), With(Survivors(rule, open, ticks), added), Join(closed, HitsIn(rule, open, ticks)), t)
  {
    HitsSplit(rule, open, ticks);
    TotalsJoin(closed, HitsIn(rule, open, ticks));
    CountWith(taken, added, t);
    CountWith(Survivors(rule, open, ticks), added, t);
  }

  lemma {:induction false} AllCounted(start: real, taken: seq<Trade>, open: seq<Trade>, closed: seq<ClosedTrade>)
    requires forall t :: Counted(taken, open, closed, t)
    ensures Conserved(start, start + TotalPnl(closed), taken, open, closed)
  {
    var held := multiset(open) + TradesOf(closed);
    assert Counted(taken, open, closed, Trade(true, 0.0, 0.0, 0.0, 0.0));
    forall t ensures multiset(taken)[t] == held[t] {
      assert Counted(taken, open, closed, t);
    }
  }

  lemma {:induction false} CountWith(s: seq<Trade>, added: Option<Trade>, t: Trade)
    ensures multiset(With(s, added))[t] == multiset(s)[t] + (if added == Some(t) then 1 else 0)
    ensures |With(s, added)| == |s| + (if added.Some? then 1 else 0)
  {
    if added.Some? {
      assert With(s, added) == s + [added.value];
    }
  }

  /** A profit factor of None stands for infinity: no losing trade at all. */
  datatype Metrics = Metrics(
    tradesTaken: nat, closedTrades: nat, balance: real, totalPnl: real, winRate: real, profitFactor: Option<real>,
    maxDrawdown: real, maxConsecutiveLosses: nat)

  // ---------------------------------------------------------------- the bar loop

  /**
   `entries[i]` is the trade the gates, levels, detector and sizing let through at bar `i`,
   if any. The first two bars and the last bar never open one.
   */
  function Opened(bars: seq<Bar>, entries: seq<Option<Trade>>, i: nat): Option<Trade>
    requires i < |bars| == |entries|
  {
    if 2 <= i < |bars| - 1 then entries[i] else None
  }

  function Taken(bars: seq<Bar>, entries: seq<Option<Trade>>, n: nat): seq<Trade>
    requires n <= |bars| == |entries|
  {
    if n == 0 then [] else With(Taken(bars, entries, n - 1), Opened(bars, entries, n - 1))
  }

  /** The trades on offer in a stretch of bars, in order. */
  function OnOffer(entries: seq<Option<Trade>>): seq<Trade> {
    if entries == [] then []
    else if entries[|entries| - 1].None? then OnOffer(entries[..|entries| - 1])
    else OnOffer(entries[..|entries| - 1]) + [entries[|entries| - 1].value]
  }

  /** Taken are all trades on offer from the third bar to the last but one. */
  lemma {:induction false} TakenAreOnOffer(bars: seq<Bar>, entries: seq<Option<Trade>>, n: nat)
    requires n <= |bars| == |entries|
    ensures Taken(bars, entries, n) == if n <= 2 then [] else OnOffer(entries[2..if n < |bars| then n else n - 1])
  {
    if n > 0 {
      TakenAreOnOffer(bars, entries, n - 1);
      if 2 < n < |bars| {
        assert entries[2..n][..n - 3] == entries[2..n - 1];
      } else if n == |bars| > 2 {
        assert n == 3 ==> entries[2..2] == [];
      }
    }
  }

  /** Open and closed trades after `n` bars. */
  function Playing(rule: ExitRule, bars: seq<Bar>, entries: seq<Option<Trade>>, n: nat): (seq<Trade>, seq<ClosedTrade>)
    requires n <= |bars| == |entries|
  {
    if n == 0 then ([], [])
    else
      var (open, closed) := Playing(rule, bars, entries, n - 1);
      (With(Survivors(rule, open, bars[n - 1].ticks), Opened(bars, entries, n - 1)), Join(closed, HitsIn(rule, open, bars[n - 1].ticks)))
  }

  function LastClose(bars: seq<Bar>): real {
    if bars == [] then 0.0 else bars[|bars| - 1].close
  }

  function Played(rule: ExitRule, bars: seq<Bar>, entries: seq<Option<Trade>>): seq<ClosedTrade>
    requires |bars| == |entries|
  {
    var (open, closed) := Playing(rule, bars, entries, |bars|);
    Join(closed, Forced(open, LastClose(bars)))
  }

  /** What each metric of a list of closed trades means. */
  ghost predicate IsSummary(m: Metrics, start: real, closed: seq<ClosedTrade>) {
    && m.closedTrades == |closed| && m.totalPnl == TotalPnl(closed) && m.balance == start + m.totalPnl
    && AreRatios(closed, m.winRate, m.profitFactor)
    && IsMaxDrawdown(start, closed, m.maxDrawdown) && IsLongestLosingRun(closed, m.maxConsecutiveLosses)
  }

  ghost predicate AreRatios(closed: seq<ClosedTrade>, winRate: real, profitFactor: Option<real>) {
    && winRate * (if |closed| > 1 then |closed| as real else 1.0) == Sum(closed, Win) * 100.0
    && (if Sum(closed, Loss) == 0.0 then profitFactor.None?
        else profitFactor.Some? && profitFactor.value * Sum(closed, Loss) == Sum(closed, Gain))
  }

  method Simulate(start: real, bars: seq<Bar>, entries: seq<Option<Trade>>) returns (m: Metrics, closed: seq<ClosedTrade>)
    requires |entries| == |bars|
    ensures closed == Played(HitOf, bars, entries) && IsSummary(m, start, closed)
    ensures m.tradesTaken == |closed| && multiset(Taken(bars, entries, |bars|)) == TradesOf(closed)
    ensures bars == [] ==> closed == []
    ensures bars != [] ==> forall c :: c in closed ==> SettledInPrices(c, bars[|bars| - 1].close)
  {
    var balance, tradesTaken;
    balance, tradesTaken, closed := RunBars(start, bars, entries);
    AllSettled(bars, entries);
    m := Summarise(start, balance, tradesTaken, closed);
  }

  method Summarise(start: real, balance: real, tradesTaken: nat, closed: seq<ClosedTrade>) returns (m: Metrics)
    requires balance == start + TotalPnl(closed)
    ensures IsSummary(m, start, closed) && m.tradesTaken == tradesTaken
  {
    var totalPnl := Total(closed, Profit);
    TotalIsSum(closed);
    var winRate, profitFactor := Ratios(closed);
    var maxDrawdown := MaxDrawdown(start, closed);
    var maxConsecutive := MaxConsecutiveLosses(closed);
    m := Metrics(tradesTaken, |closed|, balance, totalPnl, winRate, profitFactor, maxDrawdown, maxConsecutive);
  }

  method Ratios(closed: seq<ClosedTrade>) returns (winRate: real, profitFactor: Option<real>)
    ensures AreRatios(closed, winRate, profitFactor)
  {
    var wins := Total(closed, Win);
    var grossProfit := Total(closed, Gain);
    var grossLoss := Total(closed, Loss);
    winRate := Percent(wins, if |closed| > 1 then |closed| as real else 1.0);
    profitFactor := if grossLoss != 0.0 then Some(grossProfit / grossLoss) else None;
  }

  function Percent(part: real, whole: real): (p: real)
    requires whole >= 1.0
    ensures p * whole == part * 100.0
  {
    assert part / whole * whole == part;
    part / whole * 100.0
  }

  /** One bar: close what its ticks touch, then open the trade that is let through. */
  method PlayBar(balance: real, open: seq<Trade>, closed: seq<ClosedTrade>, ticks: seq<Tick>, added: Option<Trade>)
    returns (balance': real, open': seq<Trade>, closed': seq<ClosedTrade>)
    ensures open' == With(Survivors(HitOf, open, ticks), added) && closed' == Join(closed, HitsIn(HitOf, open, ticks))
    ensures balance' - TotalPnl(closed') == balance - TotalPnl(closed)
  {
    TotalsJoin(closed, HitsIn(HitOf, open, ticks));
    balance', open', closed' := CloseHits(balance, open, closed, ticks);
    open' := With(open', added);
  }

  /** The bar loop and the force-close at the last close. */
  method RunBars(start: real, bars: seq<Bar>, entries: seq<Option<Trade>>)
    returns (balance: real, tradesTaken: nat, closed: seq<ClosedTrade>)
    requires |entries| == |bars|
    ensures closed == Played(HitOf, bars, entries) && tradesTaken == |Taken(bars, entries, |bars|)|
    ensures Conserved(start, balance, Taken(bars, entries, |bars|), [], closed)
  {
    balance, tradesTaken, closed := start, 0, [];
    var open: seq<Trade> := [];
    for i := 0 to |bars|
      invariant open == Playing(HitOf, bars, entries, i).0 && closed == Playing(HitOf, bars, entries, i).1
      invariant tradesTaken == |Taken(bars, entries, i)| && balance == start + TotalPnl(closed)
      invariant i <= 2 ==> open == [] && closed == []
    {
      if i >= 2 {
        var added := if i + 1 < |bars| then entries[i] else None;
        balance, open, closed := PlayBar(balance, open, closed, bars[i].ticks, added);
        tradesTaken := tradesTaken + if added.Some? then 1 else 0;
      }
    }
    EndOfRun(start, bars, entries);
    if bars != [] && open != [] {
      balance, closed := ForceClose(balance, open, closed, bars[|bars| - 1].close);
    }
  }

  lemma {:induction false} EndOfRun(start: real, bars: seq<Bar>, entries: seq<Option<Trade>>)
    requires |bars| == |entries|
    ensures var (open, closed) := Playing(HitOf, bars, entries, |bars|);
            var forced := Forced(open, LastClose(bars));
            && Conserved(start, start + TotalPnl(closed) + TotalPnl(forced), Taken(bars, entries, |bars|), [], Join(closed, forced))
            && (bars == [] || open == [] ==> forced == [])
  {
    var (open, closed) := Playing(HitOf, bars, entries, |bars|);
    FirstTouchIsRule();
    forall t ensures Counted(Taken(bars, entries, |bars|), open, closed, t) {
      PlayingConserves(HitOf, bars, entries, |bars|, t);
    }
    AllCounted(start, Taken(bars, entries, |bars|), open, closed);
    EndConserves(start, start + TotalPnl(closed), Taken(bars, entries, |bars|), open, closed, LastClose(bars));
  }

  /** At every bar the open and closed trades are the taken ones. */
  lemma {:induction false} PlayingConserves(rule: ExitRule, bars: seq<Bar>, entries: seq<Option<Trade>>, n: nat, t: Trade)
    requires OwnTrade(rule) && n <= |bars| == |entries|
    ensures Counted(Taken(bars, entries, n), Playing(rule, bars, entries, n).0, Playing(rule, bars, entries, n).1, t)
  {
    if n > 0 {
      var (open, closed) := Playing(rule, bars, entries, n - 1);
      PlayingConserves(rule, bars, entries, n - 1, t);
      StepConserves(rule, Taken(bars, entries, n - 1), open, closed, bars[n - 1].ticks, Opened(bars, entries, n - 1), t);
    }
  }

  // ---------------------------------------------------------------- each trade on its own

  /** The ticks of the bars from `a` up to `n`. */
  function Span(bars: seq<Bar>, a: nat, n: nat): seq<Tick>
    requires n <= |bars|
  {
    if a >= n then [] else Span(bars, a, n - 1) + bars[n - 1].ticks
  }

  /** Any way of weighing ends: by profit, by counting one of them, and so on. */
  type Weight = ClosedTrade -> real

  function Weigh(end: Option<ClosedTrade>, w: Weight): real {
    if end.Some? then w(end.value) else 0.0
  }

  function Sum(closed: seq<ClosedTrade>, w: Weight): real {
    if closed == [] then 0.0 else Sum(closed[..|closed| - 1], w) + w(closed[|closed| - 1])
  }

  lemma {:induction false} SumConcat(a: seq<ClosedTrade>, b: seq<ClosedTrade>, w: Weight)
    ensures Sum(a + b, w) == Sum(a, w) + Sum(b, w)
  {
    if b == [] {
      assert a + b == a;
    } else {
      assert (a + b)[..|a + b| - 1] == a + b[..|b| - 1];
      SumConcat(a, b[..|b| - 1], w);
    }
  }

  lemma {:induction false} SumJoin(a: seq<ClosedTrade>, b: seq<ClosedTrade>, w: Weight)
    ensures Sum(Join(a, b), w) == Sum(a, w) + Sum(b, w)
  {
    SumConcat(a, b, w);
    JoinIsConcat(a, b);
  }

  /** The weight of the ends that a stretch of ticks brings to open trades. */
  function HitSum(rule: ExitRule, open: seq<Trade>, ticks: seq<Tick>, w: Weight): real {
    if open == [] then 0.0
    else HitSum(rule, open[..|open| - 1], ticks, w) + Weigh(rule(open[|open| - 1], ticks), w)
  }

  lemma {:induction false} HitSumIsSum(rule: ExitRule, open: seq<Trade>, ticks: seq<Tick>, w: Weight)
    ensures Sum(HitsIn(rule, open, ticks), w) == HitSum(rule, open, ticks, w)
  {
    if open != [] {
      HitSumIsSum(rule, open[..|open| - 1], ticks, w);
      var hits, end := HitsIn(rule, open[..|open| - 1], ticks), rule(open[|open| - 1], ticks);
      if end.Some? {
        assert (hits + [end.value])[..|hits|] == hits;
      } else {
        assert hits + [] == hits;
      }
    }
  }

  /** The trade of bar `i`, if any, and its end within the bars up to `n`, if they touch it. */
  function Touched(rule: ExitRule, bars: seq<Bar>, entries: seq<Option<Trade>>, i: nat, n: nat): Option<ClosedTrade>
    requires i < n <= |bars| == |entries|
  {
    if Opened(bars, entries, i).None? || n == i + 1 then None
    else
      var before := Touched(rule, bars, entries, i, n - 1);
      if before.Some? then before else rule(Opened(bars, entries, i).value, bars[n - 1].ticks)
  }

  /** Bar by bar is the same as over all their ticks at once. */
  lemma {:induction false} TouchedOverSpan(rule: ExitRule, bars: seq<Bar>, entries: seq<Option<Trade>>, i: nat, n: nat)
    requires Composes(rule) && i < n <= |bars| == |entries| && Opened(bars, entries, i).Some?
    ensures Touched(rule, bars, entries, i, n) == rule(Opened(bars, entries, i).value, Span(bars, i + 1, n))
  {
    if n > i + 1 {
      TouchedOverSpan(rule, bars, entries, i, n - 1);
    }
  }

  /** How the trade of bar `i` ends, whatever other trades do: by its first touch, else at the last close. */
  function Fate(rule: ExitRule, bars: seq<Bar>, entries: seq<Option<Trade>>, i: nat): Option<ClosedTrade>
    requires i < |bars| == |entries|
  {
    if Opened(bars, entries, i).None? then None
    else if Touched(rule, bars, entries, i, |bars|).Some? then Touched(rule, bars, entries, i, |bars|)
    else Some(AtPrice(Opened(bars, entries, i).value, LastClose(bars)))
  }

  function FateSum(rule: ExitRule, bars: seq<Bar>, entries: seq<Option<Trade>>, k: nat, w: Weight): real
    requires k <= |bars| == |entries|
  {
    if k == 0 then 0.0 else FateSum(rule, bars, entries, k - 1, w) + Weigh(Fate(rule, bars, entries, k - 1), w)
  }

  /** Of the trades opened at the first `k` bars: those that bars up to `n` leave untouched. */
  function Waiting(rule: ExitRule, bars: seq<Bar>, entries: seq<Option<Trade>>, k: nat, n: nat): seq<Trade>
    requires k <= n <= |bars| == |entries|
  {
    if k == 0 then []
    else if Touched(rule, bars, entries, k - 1, n).Some? then Waiting(rule, bars, entries, k - 1, n)
    else With(Waiting(rule, bars, entries, k - 1, n), Opened(bars, entries, k - 1))
  }

  function EndedSum(rule: ExitRule, bars: seq<Bar>, entries: seq<Option<Trade>>, k: nat, n: nat, w: Weight): real
    requires k <= n <= |bars| == |entries|
  {
    if k == 0 then 0.0
    else EndedSum(rule, bars, entries, k - 1, n, w) + Weigh(Touched(rule, bars, entries, k - 1, n), w)
  }

  lemma {:induction false} HitConcat(trade: Trade, a: seq<Tick>, b: seq<Tick>)
    ensures HitOf(trade, a + b) == if HitOf(trade, a).Some? then HitOf(trade, a) else HitOf(trade, b)
  {
    if a == [] {
      assert a + b == b;
    } else {
      assert (a + b)[1..] == a[1..] + b;
      HitConcat(trade, a[1..], b);
    }
  }

  /** What one bar does to one more open trade. */
  lemma {:induction false} BarOnOneMore(rule: ExitRule, open: seq<Trade>, t: Trade, ticks: seq<Tick>, w: Weight)
    ensures Survivors(rule, open + [t], ticks) ==
            if rule(t, ticks).Some? then Survivors(rule, open, ticks) else Survivors(rule, open, ticks) + [t]
    ensures HitSum(rule, open + [t], ticks, w) == HitSum(rule, open, ticks, w) + Weigh(rule(t, ticks), w)
  {
    assert (open + [t])[..|open|] == open;
  }

  /** One more bar moves the trades it touches from the waiting to the ended ones. */
  lemma {:induction false} OneMoreBar(rule: ExitRule, bars: seq<Bar>, entries: seq<Option<Trade>>, k: nat, n: nat, w: Weight)
    requires k <= n < |bars| == |entries|
    ensures Waiting(rule, bars, entries, k, n + 1) == Survivors(rule, Waiting(rule, bars, entries, k, n), bars[n].ticks)
    ensures EndedSum(rule, bars, entries, k, n + 1, w) ==
            EndedSum(rule, bars, entries, k, n, w) + HitSum(rule, Waiting(rule, bars, entries, k, n), bars[n].ticks, w)
  {
    if k > 0 {
      OneMoreBar(rule, bars, entries, k - 1, n, w);
      if Opened(bars, entries, k - 1).Some? {
        BarOnOneMore(rule, Waiting(rule, bars, entries, k - 1, n), Opened(bars, entries, k - 1).value, bars[n].ticks, w);
      }
    }
  }

  /** After any number of bars the open trades are the waiting ones, the closed the ended ones. */
  lemma {:induction false} PlayingIsWaiting(rule: ExitRule, bars: seq<Bar>, entries: seq<Option<Trade>>, n: nat, w: Weight)
    requires n <= |bars| == |entries|
    ensures OpenAreWaiting(rule, bars, entries, n, w)
  {
    if n > 0 {
      PlayingIsWaiting(rule, bars, entries, n - 1, w);
      OneMorePlayed(rule, bars, entries, n, w);
    }
  }

  ghost predicate OpenAreWaiting(rule: ExitRule, bars: seq<Bar>, entries: seq<Option<Trade>>, n: nat, w: Weight)
    requires n <= |bars| == |entries|
  {
    && Playing(rule, bars, entries, n).0 == Waiting(rule, bars, entries, n, n)
    && Sum(Playing(rule, bars, entries, n).1, w) == EndedSum(rule, bars, entries, n, n, w)
  }

  lemma {:induction false} OneMorePlayed(rule: ExitRule, bars: seq<Bar>, entries: seq<Option<Trade>>, n: nat, w: Weight)
    requires 0 < n <= |bars| == |entries| && OpenAreWaiting(rule, bars, entries, n - 1, w)
    ensures OpenAreWaiting(rule, bars, entries, n, w)
  {
    WaitingStep(rule, bars, entries, n, w);
    PlayingStep(rule, bars, entries, n, w);
  }

  lemma {:induction false} WaitingStep(rule: ExitRule, bars: seq<Bar>, entries: seq<Option<Trade>>, n: nat, w: Weight)
    requires 0 < n <= |bars| == |entries|
    ensures var open := Waiting(rule, bars, entries, n - 1, n - 1);
            && Waiting(rule, bars, entries, n, n) == With(Survivors(rule, open, bars[n - 1].ticks), Opened(bars, entries, n - 1))
            && EndedSum(rule, bars, entries, n, n, w) ==
               EndedSum(rule, bars, entries, n - 1, n - 1, w) + HitSum(rule, open, bars[n - 1].ticks, w)
  {
    OneMoreBar(rule, bars, entries, n - 1, n - 1, w);
    JustOpened(rule, bars, entries, n - 1, w);
  }

  lemma {:induction false} PlayingStep(rule: ExitRule, bars: seq<Bar>, entries: seq<Option<Trade>>, n: nat, w: Weight)
    requires 0 < n <= |bars| == |entries|
    ensures var (open, closed) := Playing(rule, bars, entries, n - 1);
            && Playing(rule, bars, entries, n).0 == With(Survivors(rule, open, bars[n - 1].ticks), Opened(bars, entries, n - 1))
            && Sum(Playing(rule, bars, entries, n).1, w) == Sum(closed, w) + HitSum(rule, open, bars[n - 1].ticks, w)
  {
    var (open, closed) := Playing(rule, bars, entries, n - 1);
    SumJoin(closed, HitsIn(rule, open, bars[n - 1].ticks), w);
    HitSumIsSum(rule, open, bars[n - 1].ticks, w);
  }

  /** A trade waits at the end of the bar it is opened at. */
  lemma {:induction false} JustOpened(rule: ExitRule, bars: seq<Bar>, entries: seq<Option<Trade>>, i: nat, w: Weight)
    requires i < |bars| == |entries|
    ensures Waiting(rule, bars, entries, i + 1, i + 1) == With(Waiting(rule, bars, entries, i, i + 1), Opened(bars, entries, i))
    ensures EndedSum(rule, bars, entries, i + 1, i + 1, w) == EndedSum(rule, bars, entries, i, i + 1, w)
  {
  }

  /** Closing the waiting trades at the last price completes every fate. */
  lemma {:induction false} WaitingMeetTheirFates(rule: ExitRule, bars: seq<Bar>, entries: seq<Option<Trade>>, k: nat, w: Weight)
    requires k <= |bars| == |entries|
    ensures FateSum(rule, bars, entries, k, w) ==
            EndedSum(rule, bars, entries, k, |bars|, w) + Sum(Forced(Waiting(rule, bars, entries, k, |bars|), LastClose(bars)), w)
  {
    if k > 0 {
      WaitingMeetTheirFates(rule, bars, entries, k - 1, w);
      FateStep(rule, bars, entries, k, w);
    }
  }

  /** One more trade is ended by a touch or by the last close, and that is its fate. */
  lemma {:induction false} FateStep(rule: ExitRule, bars: seq<Bar>, entries: seq<Option<Trade>>, k: nat, w: Weight)
    requires 0 < k <= |bars| == |entries|
    ensures var forced, before := Forced(Waiting(rule, bars, entries, k, |bars|), LastClose(bars)),
                                  Forced(Waiting(rule, bars, entries, k - 1, |bars|), LastClose(bars));
            Weigh(Fate(rule, bars, entries, k - 1), w) ==
            Weigh(Touched(rule, bars, entries, k - 1, |bars|), w) + Sum(forced, w) - Sum(before, w)
  {
    if Opened(bars, entries, k - 1).Some? {
      ForcedOneMore(Waiting(rule, bars, entries, k - 1, |bars|), Opened(bars, entries, k - 1).value, LastClose(bars), w);
    }
  }

  lemma {:induction false} ForcedOneMore(open: seq<Trade>, t: Trade, price: real, w: Weight)
    ensures Sum(Forced(open + [t], price), w) == Sum(Forced(open, price), w) + w(AtPrice(t, price))
  {
    var forced := Forced(open, price);
    assert (open + [t])[..|open|] == open;
    assert (forced + [AtPrice(t, price)])[..|forced|] == forced;
  }

  /**
   The simulation closes every trade exactly as it would fare alone: by its first touched
   tick after the bar it was opened at, else at the last close. However ends are weighed, the
   closed trades weigh as much as the fates of the trades taken.
   */
  lemma {:induction false} TradesMeetTheirFates(bars: seq<Bar>, entries: seq<Option<Trade>>, w: Weight)
    requires |bars| == |entries|
    ensures Sum(Played(HitOf, bars, entries), w) == FateSum(HitOf, bars, entries, |bars|, w)
  {
    var (open, closed) := Playing(HitOf, bars, entries, |bars|);
    PlayingIsWaiting(HitOf, bars, entries, |bars|, w);
    WaitingMeetTheirFates(HitOf, bars, entries, |bars|, w);
    SumJoin(closed, Forced(open, LastClose(bars)), w);
  }

  /** The fate of a trade, read off all the ticks after its bar. */
  lemma {:induction false} FateIsFirstTouch(bars: seq<Bar>, entries: seq<Option<Trade>>, i: nat)
    requires i < |bars| == |entries| && Opened(bars, entries, i).Some?
    ensures var t := Opened(bars, entries, i).value;
            var hit := HitOf(t, Span(bars, i + 1, |bars|));
            Fate(HitOf, bars, entries, i) == Some(if hit.Some? then hit.value else AtPrice(t, LastClose(bars)))
  {
    FirstTouchIsRule();
    TouchedOverSpan(HitOf, bars, entries, i, |bars|);
  }

  /** The weighings behind the metrics: profit, wins, gross profit and gross loss. */
  function Profit(c: ClosedTrade): real { c.pnl }

  function Win(c: ClosedTrade): real { if c.pnl > 0.0 then 1.0 else 0.0 }

  function Gain(c: ClosedTrade): real { if c.pnl > 0.0 then c.pnl else 0.0 }

  function Loss(c: ClosedTrade): real { if c.pnl > 0.0 then 0.0 else -c.pnl }

  lemma {:induction false} TotalIsSum(closed: seq<ClosedTrade>)
    ensures TotalPnl(closed) == Sum(closed, Profit)
  {
    if closed != [] {
      TotalIsSum(closed[..|closed| - 1]);
    }
  }

  /** What the trades taken weigh together, each by its own fate. */
  function FateTotal(bars: seq<Bar>, entries: seq<Option<Trade>>, w: Weight): real
    requires |bars| == |entries|
  {
    FateSum(HitOf, bars, entries, |bars|, w)
  }

  lemma {:induction false} MetricsFromFates(bars: seq<Bar>, entries: seq<Option<Trade>>)
    requires |bars| == |entries|
    ensures var closed := Played(HitOf, bars, entries);
            && TotalPnl(closed) == FateTotal(bars, entries, Profit) && Sum(closed, Win) == FateTotal(bars, entries, Win)
            && Sum(closed, Gain) == FateTotal(bars, entries, Gain) && Sum(closed, Loss) == FateTotal(bars, entries, Loss)
  {
    TradesMeetTheirFates(bars, entries, Profit);
    TradesMeetTheirFates(bars, entries, Win);
    TradesMeetTheirFates(bars, entries, Gain);
    TradesMeetTheirFates(bars, entries, Loss);
    TotalIsSum(Played(HitOf, bars, entries));
  }

  method Total(closed: seq<ClosedTrade>, w: Weight) returns (total: real)
    ensures total == Sum(closed, w)
  {
    total := 0.0;
    for i := 0 to |closed|
      invariant total == Sum(closed[..i], w)
    {
      assert closed[..i + 1][..i] == closed[..i];
      total := total + w(closed[i]);
    }
    assert closed[..|closed|] == closed;
  }

  /** Gross profit and gross loss split the profit; exactly the trades that earned something are wins. */
  lemma {:induction false} GrossAddsUp(closed: seq<ClosedTrade>)
    ensures Sum(closed, Gain) - Sum(closed, Loss) == TotalPnl(closed) && Sum(closed, Gain) >= 0.0 && Sum(closed, Loss) >= 0.0
    ensures Sum(closed, Win) == |Winners(closed)| as real && Sum(closed, Gain) == TotalPnl(Winners(closed))
  {
    if closed != [] {
      var front, last := closed[..|closed| - 1], closed[|closed| - 1];
      GrossAddsUp(front);
      if last.pnl > 0.0 {
        assert Winners(closed)[..|Winners(front)|] == Winners(front);
      }
    }
  }

  function Winners(closed: seq<ClosedTrade>): seq<ClosedTrade> {
    if closed == [] then []
    else if closed[|closed| - 1].pnl > 0.0 then Winners(closed[..|closed| - 1]) + [closed[|closed| - 1]]
    else Winners(closed[..|closed| - 1])
  }

  // ---------------------------------------------------------------- in prices

  /** The tick reaches the stop: a long sells at the bid, a short buys back at the ask. */
  predicate ReachesStop(t: Trade, tick: Tick) {
    if t.long then tick.bid <= t.stop else tick.ask >= t.stop
  }

  predicate ReachesTarget(t: Trade, tick: Tick) {
    if t.long then tick.ask >= t.target else tick.bid <= t.target
  }

  ghost predicate Untouched(t: Trade, ticks: seq<Tick>) {
    forall k :: 0 <= k < |ticks| ==> !ReachesStop(t, ticks[k]) && !ReachesTarget(t, ticks[k])
  }

  /** Tick `k` is the first to touch the trade, and the trade ends there, at the stop if both are reached. */
  ghost predicate EndsAt(t: Trade, ticks: seq<Tick>, k: int, price: real) {
    && 0 <= k < |ticks| && Untouched(t, ticks[..k])
    && if ReachesStop(t, ticks[k]) then price == t.stop else ReachesTarget(t, ticks[k]) && price == t.target
  }

  /** A dollar in the trade's favour is worth eighty pounds a lot: a hundred ounces at 0.80. */
  predicate Pays(c: ClosedTrade, price: real) {
    c.pnl == (if c.trade.long then price - c.trade.entry else c.trade.entry - price) * c.trade.lot * 80.0
  }

  /** The stop lies on the losing side of the entry, the target on the winning side. */
  predicate Ordinary(t: Trade) {
    t.lot > 0.0 && if t.long then t.stop < t.entry < t.target else t.target < t.entry < t.stop
  }

  lemma {:induction false} FirstHitIsFirstTouch(t: Trade, ticks: seq<Tick>)
    ensures FirstHit(t, ticks).None? <==> Untouched(t, ticks)
    ensures FirstHit(t, ticks).Some? ==> exists k :: EndsAt(t, ticks, k, FirstHit(t, ticks).value)
  {
    if ticks == [] {
    } else if ReachesStop(t, ticks[0]) || ReachesTarget(t, ticks[0]) {
      assert EndsAt(t, ticks, 0, FirstHit(t, ticks).value);
    } else {
      FirstHitIsFirstTouch(t, ticks[1..]);
      UntouchedFrom(t, ticks);
      if FirstHit(t, ticks[1..]).Some? {
        var k :| EndsAt(t, ticks[1..], k, FirstHit(t, ticks[1..]).value);
        assert ticks[..k + 1][1..] == ticks[1..][..k];
        UntouchedFrom(t, ticks[..k + 1]);
        assert EndsAt(t, ticks, k + 1, FirstHit(t, ticks).value);
      }
    }
  }

  lemma {:induction false} UntouchedFrom(t: Trade, ticks: seq<Tick>)
    requires ticks != [] && !ReachesStop(t, ticks[0]) && !ReachesTarget(t, ticks[0])
    ensures Untouched(t, ticks) <==> Untouched(t, ticks[1..])
  {
    forall k | 1 <= k < |ticks| ensures ticks[k] == ticks[1..][k - 1] {}
  }

  /** The end of a trade over a stretch of ticks: at the first that touches it, or untouched at the last close. */
  ghost predicate EndsInPrices(c: ClosedTrade, t: Trade, ticks: seq<Tick>, lastClose: real) {
    c.trade == t && if Untouched(t, ticks) then Pays(c, lastClose) else exists k, price :: EndsAt(t, ticks, k, price) && Pays(c, price)
  }

  lemma {:induction false} EndIsInPrices(t: Trade, ticks: seq<Tick>, lastClose: real)
    ensures EndsInPrices(if HitOf(t, ticks).Some? then HitOf(t, ticks).value else AtPrice(t, lastClose), t, ticks, lastClose)
  {
    FirstHitIsFirstTouch(t, ticks);
    if HitOf(t, ticks).Some? {
      var price := FirstHit(t, ticks).value;
      var k :| EndsAt(t, ticks, k, price);
      assert EndsAt(t, ticks, k, price) && Pays(HitOf(t, ticks).value, price);
    }
  }

  /**
   The fate of a trade in prices: it ends at the first of all ticks after its bar that touches
   it, stop before target, or untouched at the last close, and is paid for that price.
   */
  lemma {:induction false} FateInPrices(bars: seq<Bar>, entries: seq<Option<Trade>>, i: nat)
    requires i < |bars| == |entries| && Opened(bars, entries, i).Some?
    ensures Fate(HitOf, bars, entries, i).Some?
    ensures EndsInPrices(Fate(HitOf, bars, entries, i).value, Opened(bars, entries, i).value, Span(bars, i + 1, |bars|), bars[|bars| - 1].close)
  {
    FateIsFirstTouch(bars, entries, i);
    EndIsInPrices(Opened(bars, entries, i).value, Span(bars, i + 1, |bars|), LastClose(bars));
  }

  /** An ordinary trade that ends at its target wins, one that ends at its stop loses, long or short. */
  lemma {:induction false} TargetWinsStopLoses(c: ClosedTrade, price: real)
    requires Ordinary(c.trade) && Pays(c, price)
    ensures price == c.trade.target ==> c.pnl > 0.0
    ensures price == c.trade.stop ==> c.pnl < 0.0
  {
    var gain := if c.trade.long then price - c.trade.entry else c.trade.entry - price;
    if gain > 0.0 {
      assert gain * c.trade.lot > 0.0;
    } else if gain < 0.0 {
      assert -gain * c.trade.lot > 0.0;
    }
  }

  /** Stop, target or last close, and the profit that price gives; at the target a win, at the stop a loss. */
  ghost predicate SettledInPrices(c: ClosedTrade, lastClose: real) {
    exists price :: Settled(c, lastClose, price)
  }

  ghost predicate Settled(c: ClosedTrade, lastClose: real, price: real) {
    && Pays(c, price) && (price == c.trade.stop || price == c.trade.target || price == lastClose)
    && (Ordinary(c.trade) && price == c.trade.target ==> c.pnl > 0.0)
    && (Ordinary(c.trade) && price == c.trade.stop ==> c.pnl < 0.0)
  }

  lemma {:induction false} SettledAt(c: ClosedTrade, lastClose: real, price: real)
    requires Pays(c, price) && (price == c.trade.stop || price == c.trade.target || price == lastClose)
    ensures SettledInPrices(c, lastClose)
  {
    if Ordinary(c.trade) {
      TargetWinsStopLoses(c, price);
    }
    assert Settled(c, lastClose, price);
  }

  lemma {:induction false} HitSettled(t: Trade, ticks: seq<Tick>, lastClose: real)
    ensures HitOf(t, ticks).Some? ==> SettledInPrices(HitOf(t, ticks).value, lastClose)
  {
    FirstHitIsFirstTouch(t, ticks);
    if HitOf(t, ticks).Some? {
      var k :| EndsAt(t, ticks, k, FirstHit(t, ticks).value);
      SettledAt(HitOf(t, ticks).value, lastClose, FirstHit(t, ticks).value);
    }
  }

  ghost predicate EachSettled(closed: seq<ClosedTrade>, lastClose: real) {
    forall c :: c in closed ==> SettledInPrices(c, lastClose)
  }

  lemma {:induction false} HitsSettled(open: seq<Trade>, ticks: seq<Tick>, lastClose: real)
    ensures EachSettled(HitsIn(HitOf, open, ticks), lastClose)
  {
    if open != [] {
      HitsSettled(open[..|open| - 1], ticks, lastClose);
      HitSettled(open[|open| - 1], ticks, lastClose);
    }
  }

  lemma {:induction false} ForcedSettled(open: seq<Trade>, price: real)
    ensures EachSettled(Forced(open, price), price)
  {
    if open != [] {
      ForcedSettled(open[..|open| - 1], price);
      SettledAt(AtPrice(open[|open| - 1], price), price, price);
    }
  }

  lemma {:induction false} PlayingSettled(bars: seq<Bar>, entries: seq<Option<Trade>>, n: nat, lastClose: real)
    requires n <= |bars| == |entries|
    ensures EachSettled(Playing(HitOf, bars, entries, n).1, lastClose)
  {
    if n > 0 {
      PlayingSettled(bars, entries, n - 1, lastClose);
      HitsSettled(Playing(HitOf, bars, entries, n - 1).0, bars[n - 1].ticks, lastClose);
    }
  }

  /** Every trade the simulation closes is settled in prices. */
  lemma {:induction false} AllSettled(bars: seq<Bar>, entries: seq<Option<Trade>>)
    requires |bars| == |entries|
    ensures EachSettled(Played(HitOf, bars, entries), LastClose(bars))
  {
    PlayingSettled(bars, entries, |bars|, LastClose(bars));
    ForcedSettled(Playing(HitOf, bars, entries, |bars|).0, LastClose(bars));
  }

  /** Trade and tick seen upside down, reflected at the entry price. */
  function Mirrored(t: Trade): Trade {
    Trade(!t.long, t.entry, 2.0 * t.entry - t.stop, 2.0 * t.entry - t.target, t.lot)
  }

  function MirroredTicks(ticks: seq<Tick>, at: real): seq<Tick> {
    if ticks == [] then []
    else [ticks[0].(bid := 2.0 * at - ticks[0].ask, ask := 2.0 * at - ticks[0].bid)] + MirroredTicks(ticks[1..], at)
  }

  /** A trade and its mirror image earn the same over mirrored ticks, and at mirrored prices. */
  lemma {:induction false} MirrorEarnsTheSame(t: Trade, ticks: seq<Tick>, price: real)
    ensures var hit, mirror := HitOf(t, ticks), HitOf(Mirrored(t), MirroredTicks(ticks, t.entry));
            hit.Some? == mirror.Some? && (hit.Some? ==> hit.value.pnl == mirror.value.pnl)
    ensures AtPrice(t, price).pnl == AtPrice(Mirrored(t), 2.0 * t.entry - price).pnl
  {
    if ticks != [] && TickHit(t, ticks[0]).None? {
      MirrorEarnsTheSame(t, ticks[1..], price);
    }
  }

  // ---------------------------------------------------------------- drawdown

  /** The balance after the first `i` closed trades. */
  function BalanceAt(start: real, closed: seq<ClosedTrade>, i: nat): real
    requires i <= |closed|
  {
    start + TotalPnl(closed[..i])
  }

  /** The largest fall of the balance path from an earlier point to a later one. */
  ghost predicate IsMaxDrawdown(start: real, closed: seq<ClosedTrade>, dd: real) {
    && (forall i: nat, j: nat :: i <= j <= |closed| ==> BalanceAt(start, closed, i) - BalanceAt(start, closed, j) <= dd)
    && (exists i: nat, j: nat :: i <= j <= |closed| && BalanceAt(start, closed, i) - BalanceAt(start, closed, j) == dd)
  }

  /** The highest point among the first ones, attained at `p`. */
  ghost predicate PeakSoFar(start: real, closed: seq<ClosedTrade>, n: nat, peak: real, p: nat) {
    && p <= n <= |closed| && peak == BalanceAt(start, closed, p)
    && forall a: nat :: a <= n ==> BalanceAt(start, closed, a) <= peak
  }

  /** The deepest fall among the first points, from `i` to `j`. */
  ghost predicate FallSoFar(start: real, closed: seq<ClosedTrade>, n: nat, dd: real, i: nat, j: nat) {
    && i <= j <= n <= |closed| && dd == BalanceAt(start, closed, i) - BalanceAt(start, closed, j)
    && forall a: nat, b: nat :: a <= b <= n ==> BalanceAt(start, closed, a) - BalanceAt(start, closed, b) <= dd
  }

  /** One more point: a new fall can only end there, and starts at the peak. */
  lemma {:induction false} FallStep(start: real, closed: seq<ClosedTrade>, n: nat, peak: real, p: nat, dd: real, i: nat, j: nat)
    requires n < |closed| && FallSoFar(start, closed, n, dd, i, j) && PeakSoFar(start, closed, n + 1, peak, p)
    ensures var now := BalanceAt(start, closed, n + 1);
            if peak - now > dd then FallSoFar(start, closed, n + 1, peak - now, p, n + 1)
            else FallSoFar(start, closed, n + 1, dd, i, j)
  {
  }

  /** Peak and drawdown as the loop keeps them. */
  function PathOf(start: real, closed: seq<ClosedTrade>): (real, real) {
    if closed == [] then (start, 0.0)
    else
      var (peak, dd) := PathOf(start, closed[..|closed| - 1]);
      var now := start + TotalPnl(closed);
      var peak' := if now > peak then now else peak;
      (peak', if peak' - now > dd then peak' - now else dd)
  }

  /** They are the highest point and the deepest fall of the path. */
  lemma {:induction false} PathIsExtreme(start: real, closed: seq<ClosedTrade>, n: nat) returns (p: nat, i: nat, j: nat)
    requires n <= |closed|
    ensures PeakSoFar(start, closed, n, PathOf(start, closed[..n]).0, p)
    ensures FallSoFar(start, closed, n, PathOf(start, closed[..n]).1, i, j)
  {
    if n == 0 {
      return 0, 0, 0;
    }
    p, i, j := PathIsExtreme(start, closed, n - 1);
    assert closed[..n][..n - 1] == closed[..n - 1];
    var dd, now := PathOf(start, closed[..n - 1]).1, BalanceAt(start, closed, n);
    var peak := PathOf(start, closed[..n]).0;
    if now > PathOf(start, closed[..n - 1]).0 {
      p := n;
    }
    FallStep(start, closed, n - 1, peak, p, dd, i, j);
    if peak - now > dd {
      i, j := p, n;
    }
  }

  lemma {:induction false} DrawdownIsLargestFall(start: real, closed: seq<ClosedTrade>)
    ensures IsMaxDrawdown(start, closed, PathOf(start, closed).1)
  {
    var p, i, j := PathIsExtreme(start, closed, |closed|);
    assert closed[..|closed|] == closed;
  }

  method MaxDrawdown(start: real, closed: seq<ClosedTrade>) returns (maxDd: real)
    ensures IsMaxDrawdown(start, closed, maxDd)
  {
    var running, peak := start, start;
    maxDd := 0.0;
    for n := 0 to |closed|
      invariant running == BalanceAt(start, closed, n)
      invariant (peak, maxDd) == PathOf(start, closed[..n])
    {
      assert closed[..n + 1][..n] == closed[..n];
      running := running + closed[n].pnl;
      if running > peak {
        peak := running;
      }
      var dd := peak - running;
      if dd > maxDd {
        maxDd := dd;
      }
    }
    assert closed[..|closed|] == closed;
    DrawdownIsLargestFall(start, closed);
  }

  // ---------------------------------------------------------------- losing runs

  /** The trades from `a` up to `b` all lost or broke even. */
  ghost predicate LosingRun(closed: seq<ClosedTrade>, a: nat, b: nat) {
    a <= b <= |closed| && forall k :: a <= k < b ==> closed[k].pnl <= 0.0
  }

  ghost predicate IsLongestLosingRun(closed: seq<ClosedTrade>, n: nat) {
    && (exists a: nat, b: nat :: LosingRun(closed, a, b) && b - a == n)
    && (forall a: nat, b: nat :: LosingRun(closed, a, b) ==> b - a <= n)
  }

  /** A losing run that reaches past a winning trade starts after it. */
  lemma {:induction false} WinEndsRun(closed: seq<ClosedTrade>, a: nat, b: nat, k: nat)
    requires LosingRun(closed, a, b) && k < b && closed[k].pnl > 0.0
    ensures a > k
  {
  }

  method MaxConsecutiveLosses(closed: seq<ClosedTrade>) returns (maxConsec: nat)
    ensures IsLongestLosingRun(closed, maxConsec)
  {
    maxConsec := 0;
    var consec := 0;
    assert LosingRun(closed, 0, 0);
    for n := 0 to |closed|
      invariant consec <= n && LosingRun(closed, n - consec, n)
      invariant consec < n ==> closed[n - consec - 1].pnl > 0.0
      invariant exists a: nat, b: nat :: LosingRun(closed, a, b) && b - a == maxConsec
      invariant forall a: nat, b: nat :: LosingRun(closed, a, b) && b <= n ==> b - a <= maxConsec
      invariant consec <= maxConsec
    {
      if closed[n].pnl <= 0.0 {
        consec := consec + 1;
        assert LosingRun(closed, n + 1 - consec, n + 1);
        if maxConsec < consec {
          maxConsec := consec;
        }
      } else {
        consec := 0;
        assert LosingRun(closed, n + 1, n + 1);
      }
      forall a: nat, b: nat | LosingRun(closed, a, b) && b <= n + 1 ensures b - a <= maxConsec {
        if b == n + 1 && consec < n + 1 {
          WinEndsRun(closed, a, b, n - consec);
        }
      }
    }
  }

  // ---------------------------------------------------------------- level deduplication

  /** Neighbouring levels no more than a dollar apart are averaged into one. */
  function Deduplicated(levels: seq<real>): (kept: seq<real>)
    ensures levels == [] <==> kept == []
  {
    if levels == [] then []
    else
      var before, lvl := Deduplicated(levels[..|levels| - 1]), levels[|levels| - 1];
      if before == [] then [lvl]
      else
        var last := before[|before| - 1];
        if -1.0 <= lvl - last <= 1.0 then before[..|before| - 1] + [(last + lvl) / 2.0] else before + [lvl]
  }

  method Deduplicate(levels: seq<real>) returns (result: seq<real>)
    ensures result == Deduplicated(levels)
  {
    if levels == [] {
      return [];
    }
    result := [levels[0]];
    assert levels[..1][..0] == [];
    for i := 1 to |levels|
      invariant result != [] && result == Deduplicated(levels[..i])
    {
      assert levels[..i + 1][..i] == levels[..i];
      var last := result[|result| - 1];
      if -1.0 <= levels[i] - last <= 1.0 {
        result := result[|result| - 1 := (last + levels[i]) / 2.0];
      } else {
        result := result + [levels[i]];
      }
    }
    assert levels[..|levels|] == levels;
  }

  /** One more level: within a dollar of the last kept one it moves that one half way, else it is kept. */
  lemma {:induction false} OneMoreLevel(levels: seq<real>, level: real)
    ensures var kept, more := Deduplicated(levels), Deduplicated(levels + [level]);
            if levels != [] && kept[|kept| - 1] - 1.0 <= level <= kept[|kept| - 1] + 1.0 then
              && |more| == |kept| && more[..|kept| - 1] == kept[..|kept| - 1]
              && more[|kept| - 1] - level == kept[|kept| - 1] - more[|kept| - 1]
            else more == kept + [level]
  {
    assert (levels + [level])[..|levels|] == levels;
  }

  ghost predicate Ascending(levels: seq<real>) {
    forall i, j :: 0 <= i < j < |levels| ==> levels[i] <= levels[j]
  }

  /** Consecutive levels more than a dollar apart. */
  ghost predicate Spaced(levels: seq<real>) {
    forall i :: 0 <= i < |levels| - 1 ==> levels[i + 1] - levels[i] > 1.0
  }

  /** From ascending levels the result is spaced and stays inside their range. */
  lemma {:induction false} DeduplicatedSpaced(levels: seq<real>)
    requires Ascending(levels) && levels != []
    ensures var kept := Deduplicated(levels);
            Spaced(kept) && levels[0] <= kept[0] && kept[|kept| - 1] <= levels[|levels| - 1]
  {
    var front, lvl := levels[..|levels| - 1], levels[|levels| - 1];
    if front != [] {
      DeduplicatedSpaced(front);
      var before, kept := Deduplicated(front), Deduplicated(levels);
      assert front[|front| - 1] <= lvl;
      if kept == before + [lvl] {
      } else if |kept| > 1 {
        assert kept[..|kept| - 1] == before[..|before| - 1];
        assert before[|before| - 1] - before[|before| - 2] > 1.0;
      }
    }
  }

  /** Exactly the spaced lists are left alone, so deduplicating twice changes nothing more. */
  lemma {:induction false} SpacedUnchanged(levels: seq<real>)
    requires Spaced(levels)
    ensures Deduplicated(levels) == levels
  {
    if levels != [] {
      var front := levels[..|levels| - 1];
      SpacedUnchanged(front);
      if front != [] {
        assert levels[|front| - 1 + 1] - levels[|front| - 1] > 1.0;
      }
    }
  }

  lemma {:induction false} DeduplicateIdempotent(levels: seq<real>)
    requires Ascending(levels)
    ensures Deduplicated(Deduplicated(levels)) == Deduplicated(levels)
    ensures Deduplicated(levels) == levels <==> Spaced(levels)
  {
    if levels != [] {
      DeduplicatedSpaced(levels);
      SpacedUnchanged(Deduplicated(levels));
      if Spaced(levels) {
        SpacedUnchanged(levels);
      }
    }
  }
}
