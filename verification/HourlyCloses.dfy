/**
 The roll-up of five-minute bars to hourly closes, compared with resampling the same ticks
 to hours directly.
 */
module HourlyCloses {
  import opened Trading
  import opened StableSort
  import opened Bars

  const MIN_HOURS := 200

  /** The last close of each run of bars that share an hour. */
  function RollUp(bars: seq<Bar>): (closes: seq<real>)
    ensures bars == [] <==> closes == []
    ensures |closes| <= |bars|
  {
    if bars == [] then []
    else
      var before, last := RollUp(bars[..|bars| - 1]), bars[|bars| - 1];
      if |bars| > 1 && HourOf(bars[|bars| - 2].openTime) == HourOf(last.openTime)
      then before[..|before| - 1] + [last.close]
      else before + [last.close]
  }

  method AggregateH1ClosesFromM5(bars: seq<Bar>) returns (result: Option<seq<real>>)
    ensures result == if |RollUp(bars)| >= 200 then Some(RollUp(bars)) else None
  {
    if bars == [] {
      return None;
    }
    var closes: seq<real> := [];
    var bucket: Option<int> := None;
    var lastClose: Option<real> := None;
    for i := 0 to |bars|
      invariant i == 0 ==> closes == [] && bucket.None? && lastClose.None?
      invariant i > 0 ==> bucket == Some(HourOf(bars[i - 1].openTime)) && lastClose.Some?
      invariant i > 0 ==> closes + [lastClose.value] == RollUp(bars[..i])
    {
      assert bars[..i + 1][..i] == bars[..i];
      ghost var before := RollUp(bars[..i]);
      assert i > 0 ==> before[..|before| - 1] == closes;
      var hour := HourOf(bars[i].openTime);
      if bucket.None? {
        bucket := Some(hour);
      } else if Some(hour) != bucket {
        if lastClose.Some? {
          closes := closes + [lastClose.value];
        }
        bucket := Some(hour);
        assert closes == before;
      }
      lastClose := Some(bars[i].close);
      assert RollUp(bars[..i + 1]) == closes + [bars[i].close];
    }
    assert bars[..|bars|] == bars;
    if lastClose.Some? {
      closes := closes + [lastClose.value];
    }
    if |closes| >= MIN_HOURS {
      return Some(closes);
    }
    return None;
  }

  function Closes(bars: seq<Bar>): (closes: seq<real>)
    ensures |closes| == |bars|
  {
    if bars == [] then [] else Closes(bars[..|bars| - 1]) + [bars[|bars| - 1].close]
  }

  /** Five-minute buckets nest in hours. */
  lemma {:induction false} BucketsNest(time: int)
    ensures HourOf(FiveMinutesOf(time)) == HourOf(time)
  {
    var h, rest := time / HOUR, time % HOUR;
    var c, r := rest / FIVE_MINUTES, rest % FIVE_MINUTES;
    assert time == 3_600_000 * h + rest && rest == 300_000 * c + r;
    assert time == 300_000 * (12 * h + c) + r;
    Remainder(time, FIVE_MINUTES, 12 * h + c, r);
    Remainder(FiveMinutesOf(time), HOUR, h, 300_000 * c);
  }

  lemma {:induction false} Remainder(n: int, width: int, q: int, r: int)
    requires (width == HOUR || width == FIVE_MINUTES) && n == width * q + r && 0 <= r < width
    ensures n % width == r
  {
  }

  /** The hour of the newest five-minute bar is the hour of the newest tick. */
  lemma {:induction false} NewestHour(ticks: seq<Tick>)
    requires ticks != []
    ensures var bars := BarsOf(ticks, FiveMinutesOf);
            bars != [] && HourOf(bars[|bars| - 1].openTime) == HourOf(ticks[|ticks| - 1].time)
  {
    BucketsNest(ticks[|ticks| - 1].time);
  }

  lemma {:induction false} ExtendCloses(bars: seq<Bar>, last: Tick, bucket: int)
    ensures Closes(Extend(bars, last, bucket)) ==
            (if bars != [] && bars[|bars| - 1].openTime == bucket then Closes(bars)[..|bars| - 1] else Closes(bars)) + [last.Mid()]
  {
    var more := Extend(bars, last, bucket);
    assert more[..|more| - 1] == if bars != [] && bars[|bars| - 1].openTime == bucket then bars[..|bars| - 1] else bars;
  }

  /** One more tick: the roll-up replaces its last close within the hour, else adds one. */
  lemma {:induction false} ExtendRollUp(bars: seq<Bar>, last: Tick)
    requires bars != []
    ensures RollUp(Extend(bars, last, FiveMinutesOf(last.time))) ==
            (if HourOf(bars[|bars| - 1].openTime) == HourOf(last.time)
             then RollUp(bars)[..|RollUp(bars)| - 1] else RollUp(bars)) + [last.Mid()]
  {
    var bucket := FiveMinutesOf(last.time);
    BucketsNest(last.time);
    var kept, newest := bars[..|bars| - 1], bars[|bars| - 1];
    if newest.openTime == bucket {
      assert kept + [newest] == bars;
      RollUpAppend(kept, newest);
      RollUpAppend(kept, BuildBar(bucket, newest.ticks + [last]));
    } else {
      RollUpAppend(bars, BuildBar(bucket, [last]));
    }
  }

  /** One more bar: it replaces the newest close within the hour, else adds one. */
  lemma {:induction false} RollUpAppend(bars: seq<Bar>, b: Bar)
    ensures RollUp(bars + [b]) ==
            (if bars != [] && HourOf(bars[|bars| - 1].openTime) == HourOf(b.openTime)
             then RollUp(bars)[..|RollUp(bars)| - 1] else RollUp(bars)) + [b.close]
  {
    assert (bars + [b])[..|bars|] == bars;
  }

  /**
   Building five-minute bars and rolling them up gives the same hourly closes as building
   hourly bars from the ticks.
   */
  lemma {:induction false} RollUpMatchesHours(ticks: seq<Tick>)
    ensures RollUp(BarsOf(ticks, FiveMinutesOf)) == Closes(BarsOf(ticks, HourOf))
  {
    if ticks != [] {
      var front, last := ticks[..|ticks| - 1], ticks[|ticks| - 1];
      RollUpMatchesHours(front);
      ExtendCloses(BarsOf(front, HourOf), last, HourOf(last.time));
      if front == [] {
        var bars := BarsOf(ticks, FiveMinutesOf);
        assert bars == [BuildBar(FiveMinutesOf(last.time), [last])];
        assert bars[..0] == [];
      } else {
        NewestHour(front);
        ExtendRollUp(BarsOf(front, FiveMinutesOf), last);
      }
    }
  }

  /** For a whole tick stream: either too few hours, or exactly the closes of the hourly bars. */
  lemma {:induction false} StreamRollUp(ticks: seq<Tick>)
    ensures var sorted := Sort(ticks, ByTime);
            var rolled := RollUp(BarsOf(sorted, FiveMinutesOf));
            var hours := BarsOf(sorted, HourOf);
            && |rolled| == |hours| && rolled == Closes(hours)
            && forall i :: 0 <= i < |hours| ==> rolled[i] == hours[i].close
  {
    var sorted := Sort(ticks, ByTime);
    RollUpMatchesHours(sorted);
    ClosesAt(BarsOf(sorted, HourOf));
  }

  lemma {:induction false} ClosesAt(bars: seq<Bar>)
    ensures forall i :: 0 <= i < |bars| ==> Closes(bars)[i] == bars[i].close
  {
    if bars != [] {
      ClosesAt(bars[..|bars| - 1]);
    }
  }
}
