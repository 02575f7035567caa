/**
 The bracket replay over bars: entry at the first open, first touch of stop or target, the
 stop winning when one bar touches both, else the last close.
 */
module GateEconomics {
  import opened Trading
  import opened Bars
  import opened StableSort
  import Rounding

  datatype ExitReason = Sl | SlAmbiguous | Tp | ForceFlat

  datatype Replay = Replay(entry: real, exit: real, reason: ExitReason, r: real, barsUsed: nat)

  function SessionBars(bars: seq<Bar>, start: int, flat: int): seq<Bar> {
    if bars == [] then []
    else
      var last := bars[|bars| - 1];
      SessionBars(bars[..|bars| - 1], start, flat) + (if start <= last.openTime < flat then [last] else [])
  }

  function Sign(buy: bool): real { if buy then 1.0 else -1.0 }

  /** A bracket: entry, stop and target prices of a trade in one direction. */
  datatype Bracket = Bracket(buy: bool, entry: real, stopDistance: real, targetDistance: real) {
    function Stop(): real { entry - Sign(buy) * stopDistance }

    function Target(): real { entry + Sign(buy) * targetDistance }

    predicate StopHit(low: real, high: real) { if buy then low <= Stop() else high >= Stop() }

    predicate TargetHit(low: real, high: real) { if buy then high >= Target() else low <= Target() }

    function InR(exit: real): real
      requires stopDistance > 0.0
    {
      (exit - entry) * Sign(buy) / stopDistance
    }
  }

  /** Exit price and reason of the walk over bars. */
  function BarExit(k: Bracket, bars: seq<Bar>, lastClose: real): (real, ExitReason) {
    if bars == [] then (lastClose, ForceFlat)
    else
      var b := bars[0];
      if k.StopHit(b.low, b.high) then (k.Stop(), if k.TargetHit(b.low, b.high) then SlAmbiguous else Sl)
      else if k.TargetHit(b.low, b.high) then (k.Target(), Tp)
      else BarExit(k, bars[1..], lastClose)
  }

  function ReplaySession(session: seq<Bar>, buy: bool, stopDistance: real, targetDistance: real): Replay
    requires session != [] && stopDistance > 0.0
  {
    var k := Bracket(buy, session[0].open, stopDistance, targetDistance);
    var (exit, reason) := BarExit(k, session, session[|session| - 1].close);
    Replay(session[0].open, exit, reason, k.InR(exit), |session|)
  }

  /** The replay as it is written down: prices and cash in cents, R in thousandths. */
  datatype Report = Report(entry: real, exit: real, reason: ExitReason, r: real, usd: real, barsUsed: nat)

  function Reported(p: Replay, stopDistance: real): Report {
    Report(Rounding.Round(p.entry, 100), Rounding.Round(p.exit, 100), p.reason, Rounding.Round(p.r, 1000),
           Rounding.Round(p.r * stopDistance, 100), p.barsUsed)
  }

  method ReplayBracket(bars: seq<Bar>, start: int, flat: int, buy: bool, stopDistance: real, targetDistance: real)
    returns (result: Option<Report>)
    ensures var session := SessionBars(bars, start, flat);
            result == if stopDistance <= 0.0 || targetDistance <= 0.0 || session == [] then None
                      else Some(Reported(ReplaySession(session, buy, stopDistance, targetDistance), stopDistance))
  {
    if stopDistance <= 0.0 || targetDistance <= 0.0 {
      return None;
    }
    var session := [];
    for i := 0 to |bars|
      invariant session == SessionBars(bars[..i], start, flat)
    {
      assert bars[..i + 1][..i] == bars[..i];
      if start <= bars[i].openTime < flat {
        session := session + [bars[i]];
      }
    }
    assert bars[..|bars|] == bars;
    if session == [] {
      return None;
    }
    var p := WalkBracket(session, buy, stopDistance, targetDistance);
    return Some(Reported(p, stopDistance));
  }

  /** The walk over the session: first touch, the stop first, else the last close. */
  method WalkBracket(session: seq<Bar>, buy: bool, stopDistance: real, targetDistance: real) returns (p: Replay)
    requires session != [] && stopDistance > 0.0
    ensures p == ReplaySession(session, buy, stopDistance, targetDistance)
  {
    var entry := session[0].open;
    var sign := if buy then 1.0 else -1.0;
    var stop := entry - sign * stopDistance;
    var target := entry + sign * targetDistance;
    var exit, reason := session[|session| - 1].close, ForceFlat;
    ghost var k := Bracket(buy, entry, stopDistance, targetDistance);
    ghost var flatPrice := exit;
    var i := 0;
    while i < |session|
      invariant 0 <= i <= |session|
      invariant exit == flatPrice && reason == ForceFlat
      invariant BarExit(k, session, flatPrice) == BarExit(k, session[i..], flatPrice)
    {
      var low, high := session[i].low, session[i].high;
      var hitStop := if buy then low <= stop else high >= stop;
      var hitTarget := if buy then high >= target else low <= target;
      if hitStop {
        exit, reason := stop, if hitTarget then SlAmbiguous else Sl;
        break;
      }
      if hitTarget {
        exit, reason := target, Tp;
        break;
      }
      assert session[i..][1..] == session[i + 1..];
      i := i + 1;
    }
    p := Replay(entry, exit, reason, (exit - entry) * sign / stopDistance, |session|);
  }

  // ---------------------------------------------------------------- tick by tick

  /** First touch over the ticks themselves; one price cannot touch both sides. */
  function TickExit(k: Bracket, ticks: seq<Tick>, lastPrice: real): (real, ExitReason) {
    if ticks == [] then (lastPrice, ForceFlat)
    else if k.StopHit(ticks[0].Mid(), ticks[0].Mid()) then (k.Stop(), Sl)
    else if k.TargetHit(ticks[0].Mid(), ticks[0].Mid()) then (k.Target(), Tp)
    else TickExit(k, ticks[1..], lastPrice)
  }

  ghost predicate Built(bars: seq<Bar>) {
    forall b :: b in bars ==> b.ticks != [] && b == BuildBar(b.openTime, b.ticks)
  }

  /** A bar is touched exactly when one of its ticks is. */
  lemma {:induction false} TouchedIffTick(k: Bracket, ticks: seq<Tick>)
    requires ticks != []
    ensures k.StopHit(MinMid(ticks), MaxMid(ticks)) <==> exists i :: 0 <= i < |ticks| && k.StopHit(ticks[i].Mid(), ticks[i].Mid())
    ensures k.TargetHit(MinMid(ticks), MaxMid(ticks)) <==> exists i :: 0 <= i < |ticks| && k.TargetHit(ticks[i].Mid(), ticks[i].Mid())
  {
    ExtremesBound(ticks);
    var hi :| hi in ticks && hi.Mid() == MaxMid(ticks);
    var lo :| lo in ticks && lo.Mid() == MinMid(ticks);
    var i :| 0 <= i < |ticks| && ticks[i] == hi;
    var j :| 0 <= j < |ticks| && ticks[j] == lo;
    forall n | 0 <= n < |ticks| ensures MinMid(ticks) <= ticks[n].Mid() <= MaxMid(ticks) {
      assert ticks[n] in ticks;
    }
  }

  /** Ticks that touch nothing are walked over. */
  lemma {:induction false} WalkOver(k: Bracket, a: seq<Tick>, b: seq<Tick>, lastPrice: real)
    requires forall i :: 0 <= i < |a| ==> !k.StopHit(a[i].Mid(), a[i].Mid()) && !k.TargetHit(a[i].Mid(), a[i].Mid())
    ensures TickExit(k, a + b, lastPrice) == TickExit(k, b, lastPrice)
  {
    if a == [] {
      assert a + b == b;
    } else {
      assert (a + b)[1..] == a[1..] + b;
      WalkOver(k, a[1..], b, lastPrice);
    }
  }

  /** If some tick touches a side, the walk ends there, at a stop or a target of those ticks. */
  lemma {:induction false} EndsWithin(k: Bracket, a: seq<Tick>, b: seq<Tick>, lastPrice: real)
    requires exists i :: 0 <= i < |a| && (k.StopHit(a[i].Mid(), a[i].Mid()) || k.TargetHit(a[i].Mid(), a[i].Mid()))
    ensures var x := TickExit(k, a + b, lastPrice);
            || (x == (k.Stop(), Sl) && exists i :: 0 <= i < |a| && k.StopHit(a[i].Mid(), a[i].Mid()))
            || (x == (k.Target(), Tp) && exists i :: 0 <= i < |a| && k.TargetHit(a[i].Mid(), a[i].Mid()))
  {
    assert (a + b)[0] == a[0];
    if !k.StopHit(a[0].Mid(), a[0].Mid()) && !k.TargetHit(a[0].Mid(), a[0].Mid()) {
      assert (a + b)[1..] == a[1..] + b;
      var i :| 0 <= i < |a| && (k.StopHit(a[i].Mid(), a[i].Mid()) || k.TargetHit(a[i].Mid(), a[i].Mid()));
      assert a[1..][i - 1] == a[i];
      EndsWithin(k, a[1..], b, lastPrice);
      assert forall j :: 0 <= j < |a| - 1 ==> a[1..][j] == a[j + 1];
    }
  }

  /** How the walk over bars compares with the walk over the ticks inside them. */
  ghost predicate Conservative(k: Bracket, onBars: (real, ExitReason), onTicks: (real, ExitReason)) {
    if onBars.1.SlAmbiguous?
    then onBars.0 == k.Stop() && (onTicks == (k.Stop(), Sl) || onTicks == (k.Target(), Tp))
    else onBars == onTicks
  }

  function TicksFrom(bars: seq<Bar>): seq<Tick> {
    if bars == [] then [] else bars[0].ticks + TicksFrom(bars[1..])
  }

  lemma {:induction false} BarWalkConservative(k: Bracket, bars: seq<Bar>, lastPrice: real)
    requires Built(bars)
    ensures Conservative(k, BarExit(k, bars, lastPrice), TickExit(k, TicksFrom(bars), lastPrice))
  {
    if bars != [] {
      var b, rest := bars[0], TicksFrom(bars[1..]);
      assert b in bars;
      TouchedIffTick(k, b.ticks);
      if k.StopHit(b.low, b.high) || k.TargetHit(b.low, b.high) {
        EndsWithin(k, b.ticks, rest, lastPrice);
      } else {
        WalkOver(k, b.ticks, rest, lastPrice);
        BarWalkConservative(k, bars[1..], lastPrice);
      }
    }
  }

  /** The outcome a trader watching every tick would have had, in R. */
  function TickReplayR(session: seq<Bar>, buy: bool, stopDistance: real, targetDistance: real): real
    requires session != [] && stopDistance > 0.0
  {
    var k := Bracket(buy, session[0].open, stopDistance, targetDistance);
    k.InR(TickExit(k, TicksFrom(session), session[|session| - 1].close).0)
  }

  lemma {:induction false} StopAndTargetInR(k: Bracket)
    requires k.stopDistance > 0.0
    ensures k.InR(k.Stop()) == -1.0 && k.InR(k.Target()) == k.targetDistance / k.stopDistance
  {
    assert (k.Stop() - k.entry) * Sign(k.buy) == -k.stopDistance;
    assert (k.Target() - k.entry) * Sign(k.buy) == k.targetDistance;
    assert -k.stopDistance / k.stopDistance == -1.0;
  }

  /**
   The replay on bars never reports more R than the tick-by-tick first touch, and exactly
   the same unless one bar touched both sides.
   */
  lemma {:induction false} BarReplayNeverFlatters(session: seq<Bar>, buy: bool, stopDistance: real, targetDistance: real)
    requires session != [] && Built(session) && stopDistance > 0.0 && targetDistance > 0.0
    ensures var p := ReplaySession(session, buy, stopDistance, targetDistance);
            && p.r <= TickReplayR(session, buy, stopDistance, targetDistance)
            && (!p.reason.SlAmbiguous? ==> p.r == TickReplayR(session, buy, stopDistance, targetDistance))
  {
    var k := Bracket(buy, session[0].open, stopDistance, targetDistance);
    BarWalkConservative(k, session, session[|session| - 1].close);
    StopAndTargetInR(k);
    assert targetDistance / stopDistance > 0.0;
  }

  /** Rounded to three decimals, as it is reported, the order is the same. */
  lemma {:induction false} ReportedNeverFlatters(session: seq<Bar>, buy: bool, stopDistance: real, targetDistance: real)
    requires session != [] && Built(session) && stopDistance > 0.0 && targetDistance > 0.0
    ensures Rounding.Round(ReplaySession(session, buy, stopDistance, targetDistance).r, 1000) <=
            Rounding.Round(TickReplayR(session, buy, stopDistance, targetDistance), 1000)
  {
    BarReplayNeverFlatters(session, buy, stopDistance, targetDistance);
    Rounding.RoundMonotone(ReplaySession(session, buy, stopDistance, targetDistance).r,
                           TickReplayR(session, buy, stopDistance, targetDistance), 1000);
  }

  // ---------------------------------------------------------------- bounds

  /** Either a side was touched, or no bar reaches either side. */
  lemma {:induction false} ExitCases(k: Bracket, bars: seq<Bar>, lastClose: real)
    ensures var x := BarExit(k, bars, lastClose);
            || x == (k.Stop(), Sl) || x == (k.Stop(), SlAmbiguous) || x == (k.Target(), Tp)
            || (x == (lastClose, ForceFlat) && forall b :: b in bars ==> !k.StopHit(b.low, b.high) && !k.TargetHit(b.low, b.high))
  {
    if bars != [] {
      ExitCases(k, bars[1..], lastClose);
      assert bars == [bars[0]] + bars[1..];
    }
  }

  /** The result is never below one lost R and never above target over stop. */
  lemma {:induction false} ReplayBounded(session: seq<Bar>, buy: bool, stopDistance: real, targetDistance: real)
    requires session != [] && stopDistance > 0.0 && targetDistance > 0.0
    requires forall b :: b in session ==> b.low <= b.close <= b.high
    ensures var r := ReplaySession(session, buy, stopDistance, targetDistance).r;
            -1.0 <= r <= targetDistance / stopDistance
  {
    var k := Bracket(buy, session[0].open, stopDistance, targetDistance);
    var last := session[|session| - 1];
    ExitCases(k, session, last.close);
    StopAndTargetInR(k);
    assert last in session;
    var gain := (last.close - k.entry) * Sign(buy);
    assert targetDistance / stopDistance > 0.0;
    if BarExit(k, session, last.close) == (last.close, ForceFlat) {
      if !k.StopHit(last.low, last.high) && !k.TargetHit(last.low, last.high) {
        assert -stopDistance < gain < targetDistance;
        Rounding.DivideMonotone(-stopDistance, gain, stopDistance);
        Rounding.DivideMonotone(gain, targetDistance, stopDistance);
        assert -stopDistance / stopDistance == -1.0;
      }
    }
  }

  // ---------------------------------------------------------------- reflection

  /** A bar seen with prices mirrored at a centre. */
  function Mirror(b: Bar, centre: real): Bar {
    b.(open := 2.0 * centre - b.open, high := 2.0 * centre - b.low, low := 2.0 * centre - b.high,
       close := 2.0 * centre - b.close)
  }

  function MirrorAll(bars: seq<Bar>, centre: real): (mirrored: seq<Bar>)
    ensures |mirrored| == |bars| && forall i :: 0 <= i < |bars| ==> mirrored[i] == Mirror(bars[i], centre)
  {
    seq(|bars|, i requires 0 <= i < |bars| => Mirror(bars[i], centre))
  }

  lemma {:induction false} MirrorExit(k: Bracket, bars: seq<Bar>, lastClose: real)
    ensures var x := BarExit(k, bars, lastClose);
            BarExit(k.(buy := !k.buy), MirrorAll(bars, k.entry), 2.0 * k.entry - lastClose) == (2.0 * k.entry - x.0, x.1)
  {
    if bars != [] {
      MirrorExit(k, bars[1..], lastClose);
      assert MirrorAll(bars, k.entry)[1..] == MirrorAll(bars[1..], k.entry);
      var b, m := bars[0], MirrorAll(bars, k.entry)[0];
      var other := k.(buy := !k.buy);
      assert other.Stop() == 2.0 * k.entry - k.Stop() && other.Target() == 2.0 * k.entry - k.Target();
      assert other.StopHit(m.low, m.high) <==> k.StopHit(b.low, b.high);
      assert other.TargetHit(m.low, m.high) <==> k.TargetHit(b.low, b.high);
    }
  }

  /** Mirroring prices at the entry swaps BUY and SELL: same reason, same R. */
  lemma {:induction false} MirrorSwapsDirections(session: seq<Bar>, buy: bool, stopDistance: real, targetDistance: real)
    requires session != [] && stopDistance > 0.0
    ensures var p := ReplaySession(session, buy, stopDistance, targetDistance);
            var q := ReplaySession(MirrorAll(session, session[0].open), !buy, stopDistance, targetDistance);
            p.r == q.r && p.reason == q.reason && p.entry == q.entry
  {
    var k := Bracket(buy, session[0].open, stopDistance, targetDistance);
    MirrorExit(k, session, session[|session| - 1].close);
  }

  // ---------------------------------------------------------------- in prices

  /** The session holds the bars that open in the window, in their order and as often as they occur. */
  lemma {:induction false} SessionIsWindow(bars: seq<Bar>, start: int, flat: int)
    ensures SessionBars(bars, start, flat) == Filter(bars, (b: Bar) => start <= b.openTime && b.openTime < flat)
  {
    if bars != [] {
      SessionIsWindow(bars[..|bars| - 1], start, flat);
    }
  }

  /** A bar touches the stop below a long entry or above a short one; the target on the other side. */
  predicate TouchesStop(b: Bar, buy: bool, entry: real, stopDistance: real) {
    if buy then b.low <= entry - stopDistance else b.high >= entry + stopDistance
  }

  predicate TouchesTarget(b: Bar, buy: bool, entry: real, targetDistance: real) {
    if buy then b.high >= entry + targetDistance else b.low <= entry - targetDistance
  }

  ghost predicate Untouched(bars: seq<Bar>, buy: bool, entry: real, stopDistance: real, targetDistance: real) {
    forall b :: b in bars ==> !TouchesStop(b, buy, entry, stopDistance) && !TouchesTarget(b, buy, entry, targetDistance)
  }

  /** Where the walk ends: at bar `k`, the first that touches a side, or at the last close. */
  ghost predicate WalkEnds(bars: seq<Bar>, buy: bool, entry: real, stopDistance: real, targetDistance: real, lastClose: real,
                           exit: real, reason: ExitReason) {
    match reason
    case ForceFlat => Untouched(bars, buy, entry, stopDistance, targetDistance) && exit == lastClose
    case _ =>
      exists k: nat :: k < |bars| && Untouched(bars[..k], buy, entry, stopDistance, targetDistance) &&
        EndsAtBar(bars[k], buy, entry, stopDistance, targetDistance, exit, reason)
  }

  predicate EndsAtBar(b: Bar, buy: bool, entry: real, stopDistance: real, targetDistance: real, exit: real, reason: ExitReason) {
    var stopped, reached := TouchesStop(b, buy, entry, stopDistance), TouchesTarget(b, buy, entry, targetDistance);
    match reason
    case Sl => stopped && !reached && exit == (if buy then entry - stopDistance else entry + stopDistance)
    case SlAmbiguous => stopped && reached && exit == (if buy then entry - stopDistance else entry + stopDistance)
    case Tp => !stopped && reached && exit == (if buy then entry + targetDistance else entry - targetDistance)
    case ForceFlat => false
  }

  /** A bar that touches nothing is walked past. */
  lemma {:induction false} WalkPast(bars: seq<Bar>, buy: bool, entry: real, stopDistance: real, targetDistance: real, lastClose: real,
                                    exit: real, reason: ExitReason)
    requires bars != [] && WalkEnds(bars[1..], buy, entry, stopDistance, targetDistance, lastClose, exit, reason)
    requires !TouchesStop(bars[0], buy, entry, stopDistance) && !TouchesTarget(bars[0], buy, entry, targetDistance)
    ensures WalkEnds(bars, buy, entry, stopDistance, targetDistance, lastClose, exit, reason)
  {
    var rest := bars[1..];
    if reason == ForceFlat {
      UntouchedFrom(bars, buy, entry, stopDistance, targetDistance);
    } else {
      var n: nat :| n < |rest| && Untouched(rest[..n], buy, entry, stopDistance, targetDistance) &&
        EndsAtBar(rest[n], buy, entry, stopDistance, targetDistance, exit, reason);
      assert bars[..n + 1][1..] == rest[..n];
      UntouchedFrom(bars[..n + 1], buy, entry, stopDistance, targetDistance);
      assert EndsAtBar(bars[n + 1], buy, entry, stopDistance, targetDistance, exit, reason);
    }
  }

  lemma {:induction false} UntouchedFrom(bars: seq<Bar>, buy: bool, entry: real, stopDistance: real, targetDistance: real)
    requires bars != [] && Untouched(bars[1..], buy, entry, stopDistance, targetDistance)
    requires !TouchesStop(bars[0], buy, entry, stopDistance) && !TouchesTarget(bars[0], buy, entry, targetDistance)
    ensures Untouched(bars, buy, entry, stopDistance, targetDistance)
  {
    assert bars == [bars[0]] + bars[1..];
  }

  lemma {:induction false} BarExitInPrices(k: Bracket, bars: seq<Bar>, lastClose: real)
    ensures var (exit, reason) := BarExit(k, bars, lastClose);
            WalkEnds(bars, k.buy, k.entry, k.stopDistance, k.targetDistance, lastClose, exit, reason)
  {
    if bars != [] {
      var b := bars[0];
      var (exit, reason) := BarExit(k, bars, lastClose);
      if TouchesStop(b, k.buy, k.entry, k.stopDistance) || TouchesTarget(b, k.buy, k.entry, k.targetDistance) {
        assert bars[..0] == [];
        assert EndsAtBar(bars[0], k.buy, k.entry, k.stopDistance, k.targetDistance, exit, reason);
      } else {
        BarExitInPrices(k, bars[1..], lastClose);
        WalkPast(bars, k.buy, k.entry, k.stopDistance, k.targetDistance, lastClose, exit, reason);
      }
    }
  }

  lemma {:induction false} GainIsR(buy: bool, entry: real, exit: real, stopDistance: real)
    requires stopDistance > 0.0
    ensures (exit - entry) * Sign(buy) / stopDistance * stopDistance == if buy then exit - entry else entry - exit
  {
    var gain := (exit - entry) * Sign(buy);
    assert gain / stopDistance * stopDistance == gain;
  }

  /** A value and its rounding to thousandths, both times a positive scale. */
  lemma {:induction false} RoundedTimes(x: real, scale: real, product: real)
    requires scale > 0.0 && x * scale == product
    ensures product - 0.0005 * scale <= Rounding.Round(x, 1000) * scale <= product + 0.0005 * scale
  {
    Rounding.RoundThousandths(x);
    var off := Rounding.Round(x, 1000) - x;
    assert Rounding.Round(x, 1000) * scale == product + off * scale;
    OffScaled(off, scale);
  }

  lemma {:induction false} OffScaled(off: real, scale: real)
    requires scale > 0.0 && -0.0005 <= off <= 0.0005
    ensures -0.0005 * scale <= off * scale <= 0.0005 * scale
  {
    assert (off + 0.0005) * scale >= 0.0 && (0.0005 - off) * scale >= 0.0;
  }

  lemma {:induction false} ReplayWalks(session: seq<Bar>, buy: bool, stopDistance: real, targetDistance: real)
    requires session != [] && stopDistance > 0.0
    ensures var p := ReplaySession(session, buy, stopDistance, targetDistance);
            && p.entry == session[0].open && p.barsUsed == |session|
            && WalkEnds(session, buy, p.entry, stopDistance, targetDistance, session[|session| - 1].close, p.exit, p.reason)
  {
    BarExitInPrices(Bracket(buy, session[0].open, stopDistance, targetDistance), session, session[|session| - 1].close);
  }

  lemma {:induction false} ReplayGains(session: seq<Bar>, buy: bool, stopDistance: real, targetDistance: real)
    requires session != [] && stopDistance > 0.0
    ensures var p := ReplaySession(session, buy, stopDistance, targetDistance);
            p.r * stopDistance == if buy then p.exit - p.entry else p.entry - p.exit
  {
    var p := ReplaySession(session, buy, stopDistance, targetDistance);
    GainIsR(buy, p.entry, p.exit, stopDistance);
  }

  /**
   The replay in prices: entry at the first open of the session, exit at the stop or target price
   that a bar touches first, the stop if one bar touches both, else at the last close; R times
   the stop distance is the price move in the direction of the trade.
   */
  lemma {:induction false} ReplayInPrices(session: seq<Bar>, buy: bool, stopDistance: real, targetDistance: real)
    requires session != [] && stopDistance > 0.0
    ensures var p := ReplaySession(session, buy, stopDistance, targetDistance);
            && p.entry == session[0].open && p.barsUsed == |session|
            && WalkEnds(session, buy, p.entry, stopDistance, targetDistance, session[|session| - 1].close, p.exit, p.reason)
            && p.r * stopDistance == if buy then p.exit - p.entry else p.entry - p.exit
  {
    ReplayWalks(session, buy, stopDistance, targetDistance);
    ReplayGains(session, buy, stopDistance, targetDistance);
  }

  /** What is written down: prices and cash to half a cent, R to half a thousandth, reason and bars as they are. */
  lemma {:induction false} ReportedNear(p: Replay, stopDistance: real)
    ensures var x := Reported(p, stopDistance);
            && x.reason == p.reason && x.barsUsed == p.barsUsed
            && -0.005 <= x.entry - p.entry <= 0.005 && -0.005 <= x.exit - p.exit <= 0.005
            && -0.0005 <= x.r - p.r <= 0.0005 && -0.005 <= x.usd - p.r * stopDistance <= 0.005
  {
    Rounding.RoundCents(p.entry);
    Rounding.RoundCents(p.exit);
    Rounding.RoundCents(p.r * stopDistance);
    Rounding.RoundThousandths(p.r);
  }

  // ---------------------------------------------------------------- aggregation per gate

  /** One replayed window: its London day, the gate that blocked it and its result. */
  datatype GateRun = GateRun(day: int, key: string, reason: ExitReason, r: real, usd: real)

  /** The runs of the look-back. */
  function Eligible(runs: seq<GateRun>, cutoff: int): seq<GateRun> {
    if runs == [] then []
    else
      var before, last := Eligible(runs[..|runs| - 1], cutoff), runs[|runs| - 1];
      if last.day >= cutoff then before + [last] else before
  }

  datatype Stats = Stats(n: nat, tp: nat, sl: nat, forceFlat: nat, sumR: real, sumUsd: real)

  const NO_STATS := Stats(0, 0, 0, 0, 0.0, 0.0)

  function Counted(s: Stats, run: GateRun): Stats {
    Stats(s.n + 1, s.tp + (if run.reason.Tp? then 1 else 0),
          s.sl + (if run.reason.Sl? || run.reason.SlAmbiguous? then 1 else 0),
          s.forceFlat + (if run.reason.ForceFlat? then 1 else 0), s.sumR + run.r, s.sumUsd + run.usd)
  }

  /** The statistics of one key over a list of runs. */
  function StatsOf(runs: seq<GateRun>, key: string): Stats {
    if runs == [] then NO_STATS
    else
      var before, last := StatsOf(runs[..|runs| - 1], key), runs[|runs| - 1];
      if last.key == key then Counted(before, last) else before
  }

  /** A group as it is reported: counts, average R and total cash. */
  datatype GroupReport = GroupReport(n: nat, tp: nat, sl: nat, forceFlat: nat, expectancyR: real, missedUsd: real)

  function Summed(s: Stats): GroupReport {
    GroupReport(s.n, s.tp, s.sl, s.forceFlat, Rounding.Round(s.sumR / (if s.n > 1 then s.n as real else 1.0), 1000),
                Rounding.Round(s.sumUsd, 100))
  }

  method AggregateGateEconomics(runs: seq<GateRun>, cutoff: int) returns (replayed: nat, groups: map<string, GroupReport>)
    ensures replayed == |Eligible(runs, cutoff)|
    ensures forall key :: key in groups <==> exists run :: run in runs && run.day >= cutoff && run.key == key
    ensures forall key :: key in groups ==> groups[key] == Summed(StatsOf(Eligible(runs, cutoff), key))
  {
    var eligible: seq<GateRun> := [];
    for i := 0 to |runs|
      invariant eligible == Eligible(runs[..i], cutoff)
    {
      assert runs[..i + 1][..i] == runs[..i];
      if runs[i].day >= cutoff {
        eligible := eligible + [runs[i]];
      }
    }
    assert runs[..|runs|] == runs;
    var stats := AggregateBy(eligible);
    groups := map key | key in stats :: Summed(stats[key]);
    replayed := |eligible|;
    EligibleMembers(runs, cutoff);
  }

  lemma {:induction false} EligibleMembers(runs: seq<GateRun>, cutoff: int)
    ensures forall run :: run in Eligible(runs, cutoff) <==> run in runs && run.day >= cutoff
  {
    if runs != [] {
      EligibleMembers(runs[..|runs| - 1], cutoff);
    }
  }

  /** No group's reported average loses more than one R. */
  lemma {:induction false} ExpectancyBounded(runs: seq<GateRun>, key: string)
    requires forall run :: run in runs ==> run.r >= -1.0
    ensures Summed(StatsOf(runs, key)).expectancyR >= -1.0
  {
    var s := StatsOf(runs, key);
    var n := if s.n > 1 then s.n as real else 1.0;
    StatsAddUp(runs, key);
    AverageAtLeast(s.sumR, n);
    Rounding.RoundMonotone(-1.0, s.sumR / n, 1000);
    Rounding.RoundExact(-1.0, -1000, 1000);
  }

  lemma {:induction false} AverageAtLeast(sum: real, n: real)
    requires n > 0.0 && sum >= -n
    ensures sum / n >= -1.0
  {
    Rounding.DivideMonotone(-n, sum, n);
    assert -n / n == -1.0;
  }

  method AggregateBy(runs: seq<GateRun>) returns (groups: map<string, Stats>)
    ensures forall key :: key in groups <==> exists run :: run in runs && run.key == key
    ensures forall key :: key in groups ==> groups[key] == StatsOf(runs, key)
  {
    groups := map[];
    for i := 0 to |runs|
      invariant forall key :: key in groups <==> StatsOf(runs[..i], key).n > 0
      invariant forall key :: key in groups ==> groups[key] == StatsOf(runs[..i], key)
    {
      assert runs[..i + 1][..i] == runs[..i];
      var run := runs[i];
      var stats := if run.key in groups then groups[run.key] else NO_STATS;
      if run.key !in groups {
        NoRunsNoStats(runs[..i], run.key);
      }
      stats := stats.(n := stats.n + 1);
      if run.reason.Tp? {
        stats := stats.(tp := stats.tp + 1);
      } else if run.reason.Sl? || run.reason.SlAmbiguous? {
        stats := stats.(sl := stats.sl + 1);
      } else {
        stats := stats.(forceFlat := stats.forceFlat + 1);
      }
      stats := stats.(sumR := stats.sumR + run.r, sumUsd := stats.sumUsd + run.usd);
      groups := groups[run.key := stats];
    }
    assert runs[..|runs|] == runs;
    forall key ensures key in groups <==> exists run :: run in runs && run.key == key {
      GroupedIffPresent(runs, key);
    }
  }

  lemma {:induction false} NoRunsNoStats(runs: seq<GateRun>, key: string)
    requires StatsOf(runs, key).n == 0
    ensures StatsOf(runs, key) == NO_STATS
  {
    if runs != [] {
      NoRunsNoStats(runs[..|runs| - 1], key);
    }
  }

  lemma {:induction false} GroupedIffPresent(runs: seq<GateRun>, key: string)
    ensures StatsOf(runs, key).n > 0 <==> exists run :: run in runs && run.key == key
  {
    if runs != [] {
      var front, last := runs[..|runs| - 1], runs[|runs| - 1];
      assert runs == front + [last] && last in runs;
      GroupedIffPresent(front, key);
    }
  }

  /** Each group splits into its three exits and cannot have lost more than one R per run. */
  lemma {:induction false} StatsAddUp(runs: seq<GateRun>, key: string)
    requires forall run :: run in runs ==> run.r >= -1.0
    ensures var s := StatsOf(runs, key); s.n == s.tp + s.sl + s.forceFlat && s.sumR >= -(s.n as real)
  {
    if runs != [] {
      assert runs[|runs| - 1] in runs;
      StatsAddUp(runs[..|runs| - 1], key);
    }
  }

  /** The runs of one key, and of one key with one kind of exit. */
  function OfKey(runs: seq<GateRun>, key: string): seq<GateRun> {
    Filter(runs, (run: GateRun) => run.key == key)
  }

  function SumR(runs: seq<GateRun>): real {
    if runs == [] then 0.0 else SumR(runs[..|runs| - 1]) + runs[|runs| - 1].r
  }

  function SumUsd(runs: seq<GateRun>): real {
    if runs == [] then 0.0 else SumUsd(runs[..|runs| - 1]) + runs[|runs| - 1].usd
  }

  /** The statistics of a key are counts and sums over exactly its runs. */
  lemma {:induction false} StatsOverRuns(runs: seq<GateRun>, key: string)
    ensures var s, mine := StatsOf(runs, key), OfKey(runs, key);
            && s.n == |mine| && s.sumR == SumR(mine) && s.sumUsd == SumUsd(mine)
            && s.tp == |Filter(mine, (run: GateRun) => run.reason == Tp)|
            && s.sl == |Filter(mine, (run: GateRun) => run.reason == Sl || run.reason == SlAmbiguous)|
            && s.forceFlat == |Filter(mine, (run: GateRun) => run.reason == ForceFlat)|
  {
    if runs != [] {
      var front, last := runs[..|runs| - 1], runs[|runs| - 1];
      StatsOverRuns(front, key);
      var before, mine := OfKey(front, key), OfKey(runs, key);
      if last.key == key {
        assert mine == before + [last] && mine[..|mine| - 1] == before;
      } else {
        assert mine == before;
      }
    }
  }

  /** The look-back keeps the runs from the cut-off day on, in order. */
  lemma {:induction false} EligibleIsLookBack(runs: seq<GateRun>, cutoff: int)
    ensures Eligible(runs, cutoff) == Filter(runs, (run: GateRun) => run.day >= cutoff)
  {
    if runs != [] {
      EligibleIsLookBack(runs[..|runs| - 1], cutoff);
    }
  }

  /** A group of at least one run as it is reported: the average R to half a thousandth, the cash to half a cent. */
  lemma {:induction false} SummedNear(s: Stats)
    requires s.n > 0
    ensures var g, n := Summed(s), s.n as real;
            && g.n == s.n && g.tp == s.tp && g.sl == s.sl && g.forceFlat == s.forceFlat
            && -0.005 <= g.missedUsd - s.sumUsd <= 0.005 && s.sumR - 0.0005 * n <= g.expectancyR * n <= s.sumR + 0.0005 * n
  {
    var n := s.n as real;
    Rounding.RoundCents(s.sumUsd);
    QuotientTimes(s.sumR, n);
    RoundedTimes(s.sumR / n, n, s.sumR);
  }

  lemma {:induction false} QuotientTimes(sum: real, n: real)
    requires n > 0.0
    ensures sum / n * n == sum
  {
  }

  function TotalN(runs: seq<GateRun>, keys: seq<string>): nat {
    if keys == [] then 0 else StatsOf(runs, keys[0]).n + TotalN(runs, keys[1..])
  }

  /** Over any list of distinct keys that covers the runs, the group sizes sum to the runs. */
  lemma {:induction false} GroupsCoverRuns(runs: seq<GateRun>, keys: seq<string>)
    requires forall i, j :: 0 <= i < j < |keys| ==> keys[i] != keys[j]
    requires forall run :: run in runs ==> run.key in keys
    ensures TotalN(runs, keys) == |runs|
  {
    if runs == [] {
      NothingToCount(keys);
    } else {
      var front, last := runs[..|runs| - 1], runs[|runs| - 1];
      assert last in runs;
      GroupsCoverRuns(front, keys);
      OneMore(front, last, keys);
      assert runs == front + [last];
    }
  }

  lemma {:induction false} NothingToCount(keys: seq<string>)
    ensures TotalN([], keys) == 0
  {
    if keys != [] {
      NothingToCount(keys[1..]);
    }
  }

  lemma {:induction false} OneMore(front: seq<GateRun>, last: GateRun, keys: seq<string>)
    requires forall i, j :: 0 <= i < j < |keys| ==> keys[i] != keys[j]
    ensures TotalN(front + [last], keys) == TotalN(front, keys) + (if last.key in keys then 1 else 0)
  {
    if keys != [] {
      assert (front + [last])[..|front|] == front;
      OneMore(front, last, keys[1..]);
      assert keys == [keys[0]] + keys[1..];
    }
  }
}
