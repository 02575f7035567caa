/**
 Ticks and the bars they are resampled into: consecutive ticks of one time bucket form one
 bar over their mid prices.
 */
module Bars {
  import opened Basics
  import opened StableSort

  const HOUR := 3_600_000              // times are milliseconds
  const FIVE_MINUTES := 300_000

  datatype Tick = Tick(time: int, bid: real, ask: real) {
    function Mid(): real { (bid + ask) / 2.0 }

    function Spread(): real { ask - bid }
  }

  datatype Bar = Bar(
    openTime: int, open: real, high: real, low: real, close: real, maxSpread: real, tickCount: int, ticks: seq<Tick>)

  /** The start of the hour, and of the five minutes, that a time falls in. */
  function HourOf(time: int): int { time - time % HOUR }

  function FiveMinutesOf(time: int): int { time - time % FIVE_MINUTES }

  /** A bucketing of time that never runs backwards. */
  ghost predicate Monotone(bucketOf: int -> int) {
    forall a: int, b: int :: a <= b ==> bucketOf(a) <= bucketOf(b)
  }

  lemma {:induction false} HoursMonotone()
    ensures Monotone(HourOf) && Monotone(FiveMinutesOf)
  {
    forall a: int, b: int | a <= b ensures HourOf(a) <= HourOf(b) && FiveMinutesOf(a) <= FiveMinutesOf(b) {
      assert HourOf(a) == a / HOUR * HOUR && HourOf(b) == b / HOUR * HOUR;
      assert a / HOUR <= b / HOUR;
      assert FiveMinutesOf(a) == a / FIVE_MINUTES * FIVE_MINUTES && FiveMinutesOf(b) == b / FIVE_MINUTES * FIVE_MINUTES;
      assert a / FIVE_MINUTES <= b / FIVE_MINUTES;
    }
  }

  function MaxMid(ticks: seq<Tick>): real
    requires ticks != []
  {
    if |ticks| == 1 then ticks[0].Mid() else Larger(MaxMid(ticks[..|ticks| - 1]), ticks[|ticks| - 1].Mid())
  }

  function MinMid(ticks: seq<Tick>): real
    requires ticks != []
  {
    if |ticks| == 1 then ticks[0].Mid() else Smaller(MinMid(ticks[..|ticks| - 1]), ticks[|ticks| - 1].Mid())
  }

  function MaxSpread(ticks: seq<Tick>): real
    requires ticks != []
  {
    if |ticks| == 1 then ticks[0].Spread() else Larger(MaxSpread(ticks[..|ticks| - 1]), ticks[|ticks| - 1].Spread())
  }

  function BuildBar(openTime: int, ticks: seq<Tick>): Bar
    requires ticks != []
  {
    Bar(openTime, ticks[0].Mid(), MaxMid(ticks), MinMid(ticks), ticks[|ticks| - 1].Mid(), MaxSpread(ticks), |ticks|, ticks)
  }

  // ---------------------------------------------------------------- resampling

  /** One more tick joins the last bar, or starts a new one when its bucket differs. */
  function Extend(bars: seq<Bar>, last: Tick, bucket: int): (more: seq<Bar>)
    ensures more != [] && more[|more| - 1].openTime == bucket
    ensures more[|more| - 1].close == last.Mid()
  {
    if bars != [] && bars[|bars| - 1].openTime == bucket
    then bars[..|bars| - 1] + [BuildBar(bucket, bars[|bars| - 1].ticks + [last])]
    else bars + [BuildBar(bucket, [last])]
  }

  function BarsOf(ticks: seq<Tick>, bucketOf: int -> int): (bars: seq<Bar>)
    ensures ticks == [] <==> bars == []
    ensures bars != [] ==> bars[|bars| - 1].openTime == bucketOf(ticks[|ticks| - 1].time)
  {
    if ticks == [] then []
    else Extend(BarsOf(ticks[..|ticks| - 1], bucketOf), ticks[|ticks| - 1], bucketOf(ticks[|ticks| - 1].time))
  }

  function ByTime(t: Tick): int { t.time }

  function ByOpenTime(b: Bar): int { b.openTime }

  method Resample(ticks: seq<Tick>, bucketOf: int -> int) returns (bars: seq<Bar>)
    ensures bars == BarsOf(Sort(ticks, ByTime), bucketOf)
  {
    var sorted := Sort(ticks, ByTime);
    bars := [];
    var current := 0;
    var barTicks: seq<Tick> := [];
    for i := 0 to |sorted|
      invariant i == 0 <==> barTicks == []
      invariant Pending(bars, current, barTicks) == BarsOf(sorted[..i], bucketOf)
    {
      BarsStep(sorted, i, bucketOf);
      var bucket := bucketOf(sorted[i].time);
      PendingExtends(bars, current, barTicks, sorted[i], bucket);
      if i == 0 {
        current := bucket;
      }
      if bucket != current {
        bars := bars + [BuildBar(current, barTicks)];
        barTicks := [];
        current := bucket;
      }
      barTicks := barTicks + [sorted[i]];
    }
    assert sorted[..|sorted|] == sorted;
    if barTicks != [] {
      bars := bars + [BuildBar(current, barTicks)];
    }
  }

  lemma {:induction false} BarsStep(ticks: seq<Tick>, i: nat, bucketOf: int -> int)
    requires i < |ticks|
    ensures BarsOf(ticks[..i + 1], bucketOf) == Extend(BarsOf(ticks[..i], bucketOf), ticks[i], bucketOf(ticks[i].time))
  {
    assert ticks[..i + 1][..i] == ticks[..i];
  }

  /** The finished bars, and the bar over the ticks still being collected. */
  function Pending(bars: seq<Bar>, current: int, barTicks: seq<Tick>): seq<Bar> {
    if barTicks == [] then bars else bars + [BuildBar(current, barTicks)]
  }

  lemma {:induction false} PendingExtends(bars: seq<Bar>, current: int, barTicks: seq<Tick>, t: Tick, bucket: int)
    requires barTicks == [] ==> bars == []
    ensures Extend(Pending(bars, current, barTicks), t, bucket) ==
            if barTicks == [] || bucket == current then Pending(bars, bucket, barTicks + [t])
            else Pending(Pending(bars, current, barTicks), bucket, [] + [t])
  {
    assert [] + [t] == [t];
    if barTicks != [] {
      var pending := Pending(bars, current, barTicks);
      assert pending[..|pending| - 1] == bars;
    }
  }

  // ---------------------------------------------------------------- the partition

  function TicksOf(bars: seq<Bar>): seq<Tick> {
    if bars == [] then [] else TicksOf(bars[..|bars| - 1]) + bars[|bars| - 1].ticks
  }

  function TickTotal(bars: seq<Bar>): int {
    if bars == [] then 0 else TickTotal(bars[..|bars| - 1]) + bars[|bars| - 1].tickCount
  }

  lemma {:induction false} TicksOfAppend(bars: seq<Bar>, b: Bar)
    ensures TicksOf(bars + [b]) == TicksOf(bars) + b.ticks
    ensures TickTotal(bars + [b]) == TickTotal(bars) + b.tickCount
  {
    assert (bars + [b])[..|bars|] == bars;
  }

  ghost predicate WellBuilt(b: Bar, bucketOf: int -> int) {
    && b.ticks != [] && b == BuildBar(b.openTime, b.ticks)
    && forall t :: t in b.ticks ==> bucketOf(t.time) == b.openTime
  }

  /** Bars in strict time order, each built from ticks of its own bucket only. */
  ghost predicate InBuckets(bars: seq<Bar>, bucketOf: int -> int) {
    StrictlySorted(bars, ByOpenTime) && forall b :: b in bars ==> WellBuilt(b, bucketOf)
  }

  lemma {:induction false} ExtendTicks(bars: seq<Bar>, last: Tick, bucket: int)
    requires forall b :: b in bars ==> b.tickCount == |b.ticks|
    ensures TicksOf(Extend(bars, last, bucket)) == TicksOf(bars) + [last]
    ensures TickTotal(Extend(bars, last, bucket)) == TickTotal(bars) + 1
  {
    if bars != [] && bars[|bars| - 1].openTime == bucket {
      var kept, open := bars[..|bars| - 1], bars[|bars| - 1];
      assert open in bars;
      TicksOfAppend(kept, BuildBar(bucket, open.ticks + [last]));
      assert TicksOf(kept) + (open.ticks + [last]) == TicksOf(kept) + open.ticks + [last];
    } else {
      TicksOfAppend(bars, BuildBar(bucket, [last]));
    }
  }

  lemma {:induction false} ExtendBuilt(bars: seq<Bar>, last: Tick, bucketOf: int -> int)
    requires forall b :: b in bars ==> WellBuilt(b, bucketOf)
    ensures forall b :: b in Extend(bars, last, bucketOf(last.time)) ==> WellBuilt(b, bucketOf)
  {
    var bucket := bucketOf(last.time);
    var more := Extend(bars, last, bucket);
    assert WellBuilt(more[|more| - 1], bucketOf) by {
      if bars != [] && bars[|bars| - 1].openTime == bucket {
        assert WellBuilt(bars[|bars| - 1], bucketOf);
      }
    }
    forall b | b in more ensures WellBuilt(b, bucketOf) {
      var i :| 0 <= i < |more| && more[i] == b;
      if i < |more| - 1 {
        assert bars[i] == b && bars[i] in bars;
      }
    }
  }

  /** Bars that are each built from ticks of one bucket and together are these ticks, in this order. */
  ghost predicate CutOf(bars: seq<Bar>, ticks: seq<Tick>, bucketOf: int -> int) {
    TicksOf(bars) == ticks && forall b :: b in bars ==> WellBuilt(b, bucketOf)
  }

  /** Ticks in any order are cut wherever the bucket changes; nothing is lost or moved. */
  lemma {:induction false} BarsAreCut(ticks: seq<Tick>, bucketOf: int -> int)
    ensures CutOf(BarsOf(ticks, bucketOf), ticks, bucketOf)
  {
    if ticks != [] {
      var front, last := ticks[..|ticks| - 1], ticks[|ticks| - 1];
      BarsAreCut(front, bucketOf);
      CutExtends(BarsOf(front, bucketOf), front, last, bucketOf);
      assert front + [last] == ticks;
    }
  }

  lemma {:induction false} CutExtends(bars: seq<Bar>, ticks: seq<Tick>, last: Tick, bucketOf: int -> int)
    requires CutOf(bars, ticks, bucketOf)
    ensures CutOf(Extend(bars, last, bucketOf(last.time)), ticks + [last], bucketOf)
  {
    forall b | b in bars ensures b.tickCount == |b.ticks| {
      assert WellBuilt(b, bucketOf);
    }
    ExtendTicks(bars, last, bucketOf(last.time));
    ExtendBuilt(bars, last, bucketOf);
  }

  lemma {:induction false} ExtendBuckets(bars: seq<Bar>, last: Tick, bucketOf: int -> int)
    requires InBuckets(bars, bucketOf)
    requires bars != [] ==> bars[|bars| - 1].openTime <= bucketOf(last.time)
    ensures InBuckets(Extend(bars, last, bucketOf(last.time)), bucketOf)
  {
    var more := Extend(bars, last, bucketOf(last.time));
    ExtendBuilt(bars, last, bucketOf);
    assert more[..|more| - 1] <= bars;
    forall i, j | 0 <= i < j < |more| ensures ByOpenTime(more[i]) < ByOpenTime(more[j]) {
      assert bars[i] == more[i];
      if j < |more| - 1 {
        assert bars[j] == more[j];
      } else {
        assert ByOpenTime(bars[i]) <= ByOpenTime(bars[|bars| - 1]);
      }
    }
  }

  ghost predicate Partitions(bars: seq<Bar>, ticks: seq<Tick>, bucketOf: int -> int) {
    TicksOf(bars) == ticks && TickTotal(bars) == |ticks| && InBuckets(bars, bucketOf)
  }

  /** The bars of ordered ticks partition them: nothing lost, nothing moved, nothing mixed. */
  lemma {:induction false} BarsPartition(ticks: seq<Tick>, bucketOf: int -> int)
    requires Monotone(bucketOf) && Sorted(ticks, ByTime)
    ensures Partitions(BarsOf(ticks, bucketOf), ticks, bucketOf)
  {
    if ticks != [] {
      InOrder(ticks, bucketOf);
      BarsPartition(ticks[..|ticks| - 1], bucketOf);
      PartitionStep(ticks, bucketOf);
    }
  }

  lemma {:induction false} InOrder(ticks: seq<Tick>, bucketOf: int -> int)
    requires Monotone(bucketOf) && Sorted(ticks, ByTime) && ticks != []
    ensures Sorted(ticks[..|ticks| - 1], ByTime)
    ensures |ticks| > 1 ==> bucketOf(ticks[|ticks| - 2].time) <= bucketOf(ticks[|ticks| - 1].time)
  {
    if |ticks| > 1 {
      assert ByTime(ticks[|ticks| - 2]) <= ByTime(ticks[|ticks| - 1]);
    }
  }

  lemma {:induction false} PartitionStep(ticks: seq<Tick>, bucketOf: int -> int)
    requires ticks != [] && Partitions(BarsOf(ticks[..|ticks| - 1], bucketOf), ticks[..|ticks| - 1], bucketOf)
    requires |ticks| > 1 ==> bucketOf(ticks[|ticks| - 2].time) <= bucketOf(ticks[|ticks| - 1].time)
    ensures Partitions(BarsOf(ticks, bucketOf), ticks, bucketOf)
  {
    var front, last := ticks[..|ticks| - 1], ticks[|ticks| - 1];
    ExtendPartition(BarsOf(front, bucketOf), front, last, bucketOf);
    assert front + [last] == ticks;
  }

  lemma {:induction false} ExtendPartition(bars: seq<Bar>, ticks: seq<Tick>, last: Tick, bucketOf: int -> int)
    requires Partitions(bars, ticks, bucketOf)
    requires bars != [] ==> bars[|bars| - 1].openTime <= bucketOf(last.time)
    ensures Partitions(Extend(bars, last, bucketOf(last.time)), ticks + [last], bucketOf)
  {
    forall b | b in bars ensures b.tickCount == |b.ticks| {
      assert WellBuilt(b, bucketOf);
    }
    ExtendTicks(bars, last, bucketOf(last.time));
    ExtendBuckets(bars, last, bucketOf);
  }

  /** Extremes are attained and bound every price of the bar. */
  lemma {:induction false} ExtremesBound(ticks: seq<Tick>)
    requires ticks != []
    ensures forall t :: t in ticks ==> MinMid(ticks) <= t.Mid() <= MaxMid(ticks) && t.Spread() <= MaxSpread(ticks)
    ensures exists t :: t in ticks && t.Mid() == MaxMid(ticks)
    ensures exists t :: t in ticks && t.Mid() == MinMid(ticks)
    ensures exists t :: t in ticks && t.Spread() == MaxSpread(ticks)
  {
    if |ticks| == 1 {
      assert ticks[0] in ticks;
    } else {
      var front, last := ticks[..|ticks| - 1], ticks[|ticks| - 1];
      ExtremesBound(front);
      assert ticks == front + [last] && last in ticks;
      forall t ensures t in ticks <==> t in front || t == last {}
    }
  }

  /** What one resample call promises about any tick list. */
  lemma {:induction false} ResamplePartition(ticks: seq<Tick>, bucketOf: int -> int)
    requires Monotone(bucketOf)
    ensures var sorted := Sort(ticks, ByTime);
            var bars := BarsOf(sorted, bucketOf);
            && TicksOf(bars) == sorted && multiset(TicksOf(bars)) == multiset(ticks)
            && TickTotal(bars) == |ticks| && InBuckets(bars, bucketOf)
            && forall b :: b in bars ==> b.low <= b.open <= b.high && b.low <= b.close <= b.high
  {
    var sorted := Sort(ticks, ByTime);
    SortSorted(ticks, ByTime);
    BarsPartition(sorted, bucketOf);
    assert |multiset(sorted)| == |multiset(ticks)|;
    forall b | b in BarsOf(sorted, bucketOf) ensures b.low <= b.open <= b.high && b.low <= b.close <= b.high {
      assert WellBuilt(b, bucketOf);
      ExtremesBound(b.ticks);
      assert b.ticks[0] in b.ticks && b.ticks[|b.ticks| - 1] in b.ticks;
    }
  }

  /** A bar in full: clock hour, first and last price, extremes and spread over its ticks. */
  ghost predicate BarInFull(b: Bar) {
    && b.openTime % 3_600_000 == 0 && b.ticks != [] && b.tickCount == |b.ticks|
    && (forall t :: t in b.ticks ==> b.openTime <= t.time < b.openTime + 3_600_000)
    && 2.0 * b.open == b.ticks[0].bid + b.ticks[0].ask
    && 2.0 * b.close == b.ticks[|b.ticks| - 1].bid + b.ticks[|b.ticks| - 1].ask
    && (forall t :: t in b.ticks ==> 2.0 * b.low <= t.bid + t.ask <= 2.0 * b.high && t.ask - t.bid <= b.maxSpread)
    && (exists t :: t in b.ticks && t.bid + t.ask == 2.0 * b.high)
    && (exists t :: t in b.ticks && t.bid + t.ask == 2.0 * b.low)
    && (exists t :: t in b.ticks && t.ask - t.bid == b.maxSpread)
  }

  /** The hourly bars of any ticks, in full. */
  lemma {:induction false} HourlyBarsInFull(ticks: seq<Tick>)
    ensures forall b :: b in BarsOf(Sort(ticks, ByTime), HourOf) ==> BarInFull(b)
  {
    HoursMonotone();
    ResamplePartition(ticks, HourOf);
    forall b | b in BarsOf(Sort(ticks, ByTime), HourOf) ensures BarInFull(b) {
      HourlyBarInFull(b);
    }
  }

  lemma {:induction false} HourlyBarInFull(b: Bar)
    requires WellBuilt(b, HourOf)
    ensures BarInFull(b)
  {
    ExtremesBound(b.ticks);
    var high :| high in b.ticks && high.Mid() == MaxMid(b.ticks);
    var low :| low in b.ticks && low.Mid() == MinMid(b.ticks);
    var wide :| wide in b.ticks && wide.Spread() == MaxSpread(b.ticks);
    assert high.bid + high.ask == 2.0 * b.high && low.bid + low.ask == 2.0 * b.low && wide.ask - wide.bid == b.maxSpread;
    assert b.ticks[0] in b.ticks;
    HourStart(b.ticks[0].time);
    forall t | t in b.ticks
      ensures b.openTime <= t.time < b.openTime + 3_600_000 && 2.0 * b.low <= t.bid + t.ask <= 2.0 * b.high && t.ask - t.bid <= b.maxSpread
    {
      HourStart(t.time);
    }
  }

  lemma {:induction false} HourStart(time: int)
    ensures HourOf(time) % 3_600_000 == 0 && HourOf(time) <= time < HourOf(time) + 3_600_000
  {
    assert HourOf(time) == time / HOUR * HOUR;
  }

  // ---------------------------------------------------------------- bucket by bucket

  /** The ticks of one bucket, in order. */
  function InBucket(ticks: seq<Tick>, bucketOf: int -> int, bucket: int): (own: seq<Tick>)
    ensures forall t :: t in own ==> t in ticks && bucketOf(t.time) == bucket
  {
    if ticks == [] then []
    else
      var last := ticks[|ticks| - 1];
      var before := InBucket(ticks[..|ticks| - 1], bucketOf, bucket);
      if bucketOf(last.time) == bucket then before + [last] else before
  }

  lemma {:induction false} InBucketConcat(a: seq<Tick>, b: seq<Tick>, bucketOf: int -> int, bucket: int)
    ensures InBucket(a + b, bucketOf, bucket) == InBucket(a, bucketOf, bucket) + InBucket(b, bucketOf, bucket)
  {
    if b == [] {
      assert a + b == a;
    } else {
      assert (a + b)[..|a + b| - 1] == a + b[..|b| - 1];
      InBucketConcat(a, b[..|b| - 1], bucketOf, bucket);
    }
  }

  lemma {:induction false} InBucketCount(ticks: seq<Tick>, bucketOf: int -> int, bucket: int, t: Tick)
    ensures multiset(InBucket(ticks, bucketOf, bucket))[t] == if bucketOf(t.time) == bucket then multiset(ticks)[t] else 0
  {
    if ticks != [] {
      assert ticks == ticks[..|ticks| - 1] + [ticks[|ticks| - 1]];
      InBucketCount(ticks[..|ticks| - 1], bucketOf, bucket, t);
    }
  }

  lemma {:induction false} AllInBucket(ticks: seq<Tick>, bucketOf: int -> int, own: int, bucket: int)
    requires forall t :: t in ticks ==> bucketOf(t.time) == own
    ensures InBucket(ticks, bucketOf, bucket) == if own == bucket then ticks else []
  {
    if ticks != [] {
      var front, last := ticks[..|ticks| - 1], ticks[|ticks| - 1];
      assert last in ticks && forall t :: t in front ==> t in ticks;
      AllInBucket(front, bucketOf, own, bucket);
    }
  }

  lemma {:induction false} BucketsPrefix(bars: seq<Bar>, bucketOf: int -> int)
    requires bars != [] && InBuckets(bars, bucketOf)
    ensures InBuckets(bars[..|bars| - 1], bucketOf) && WellBuilt(bars[|bars| - 1], bucketOf)
    ensures forall b :: b in bars[..|bars| - 1] ==> b.openTime < bars[|bars| - 1].openTime && b in bars
  {
    var front, last := bars[..|bars| - 1], bars[|bars| - 1];
    assert last in bars;
    forall b | b in front ensures b.openTime < last.openTime && b in bars {
      var i :| 0 <= i < |front| && front[i] == b;
      assert ByOpenTime(bars[i]) < ByOpenTime(bars[|bars| - 1]);
    }
  }

  lemma {:induction false} NoBarNoTicks(bars: seq<Bar>, bucketOf: int -> int, bucket: int)
    requires InBuckets(bars, bucketOf) && forall b :: b in bars ==> b.openTime != bucket
    ensures InBucket(TicksOf(bars), bucketOf, bucket) == []
  {
    if bars != [] {
      var front, last := bars[..|bars| - 1], bars[|bars| - 1];
      BucketsPrefix(bars, bucketOf);
      NoBarNoTicks(front, bucketOf, bucket);
      InBucketConcat(TicksOf(front), last.ticks, bucketOf, bucket);
      AllInBucket(last.ticks, bucketOf, last.openTime, bucket);
    }
  }

  /** Of bars in strict order, only the one of the bucket contributes to its ticks. */
  lemma {:induction false} OnlyOwnBar(bars: seq<Bar>, bucketOf: int -> int, b: Bar)
    requires InBuckets(bars, bucketOf) && b in bars
    ensures InBucket(TicksOf(bars), bucketOf, b.openTime) == b.ticks
  {
    var front, last := bars[..|bars| - 1], bars[|bars| - 1];
    BucketsPrefix(bars, bucketOf);
    InBucketConcat(TicksOf(front), last.ticks, bucketOf, b.openTime);
    AllInBucket(last.ticks, bucketOf, last.openTime, b.openTime);
    if b in front {
      OnlyOwnBar(front, bucketOf, b);
    } else {
      NoBarNoTicks(front, bucketOf, b.openTime);
    }
  }

  lemma {:induction false} TickHasBar(bars: seq<Bar>, t: Tick, bucketOf: int -> int)
    requires (forall b :: b in bars ==> WellBuilt(b, bucketOf)) && t in TicksOf(bars)
    ensures exists b :: b in bars && b.openTime == bucketOf(t.time)
  {
    var front, last := bars[..|bars| - 1], bars[|bars| - 1];
    assert last in bars;
    if t in last.ticks {
      assert WellBuilt(last, bucketOf);
    } else {
      TickHasBar(front, t, bucketOf);
    }
  }

  /** Every bar holds all ticks of its bucket, and every occupied bucket has its bar. */
  lemma {:induction false} BarsAreBuckets(ticks: seq<Tick>, bucketOf: int -> int)
    requires Monotone(bucketOf) && Sorted(ticks, ByTime)
    ensures forall b :: b in BarsOf(ticks, bucketOf) ==> b.ticks == InBucket(ticks, bucketOf, b.openTime)
    ensures forall t :: t in ticks ==> exists b :: b in BarsOf(ticks, bucketOf) && b.openTime == bucketOf(t.time)
  {
    var bars := BarsOf(ticks, bucketOf);
    BarsPartition(ticks, bucketOf);
    forall b | b in bars ensures b.ticks == InBucket(ticks, bucketOf, b.openTime) {
      OnlyOwnBar(bars, bucketOf, b);
    }
    forall t | t in ticks ensures exists b :: b in bars && b.openTime == bucketOf(t.time) {
      TickHasBar(bars, t, bucketOf);
    }
  }

  /** The partition leaves no freedom: bars in buckets over the same ticks are the bars. */
  lemma {:induction false} PartitionUnique(ticks: seq<Tick>, bars: seq<Bar>, bucketOf: int -> int)
    requires Monotone(bucketOf) && Sorted(ticks, ByTime)
    requires InBuckets(bars, bucketOf) && TicksOf(bars) == ticks
    ensures bars == BarsOf(ticks, bucketOf)
  {
    var mine := BarsOf(ticks, bucketOf);
    BarsPartition(ticks, bucketOf);
    forall b ensures b in bars <==> b in mine {
      SameBar(bars, mine, b, bucketOf);
      SameBar(mine, bars, b, bucketOf);
    }
    StrictlySortedUnique(bars, mine, ByOpenTime);
  }

  lemma {:induction false} SameBar(bars: seq<Bar>, others: seq<Bar>, b: Bar, bucketOf: int -> int)
    requires InBuckets(bars, bucketOf) && InBuckets(others, bucketOf) && TicksOf(bars) == TicksOf(others)
    ensures b in bars ==> b in others
  {
    if b in bars {
      assert WellBuilt(b, bucketOf);
      OnlyOwnBar(bars, bucketOf, b);
      assert b.ticks[0] in TicksOf(bars);
      TickHasBar(others, b.ticks[0], bucketOf);
      var o :| o in others && o.openTime == bucketOf(b.ticks[0].time);
      OnlyOwnBar(others, bucketOf, o);
      assert WellBuilt(o, bucketOf);
      assert o == b;
    }
  }
}
