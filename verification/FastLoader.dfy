/**
 The fast loading path: the native parser cuts every file into bars in line order, and bars of
 equal hours are merged. It is compared with resampling all ticks together. The ticks of a file
 are its readable lines within the requested range, in line order.
 */
module FastLoader {
  import opened Trading
  import opened Basics
  import opened StableSort
  import opened Bars

  /** Bars of the fast path carry no ticks. */
  function Bare(b: Bar): Bar { b.(ticks := []) }

  function Combine(ex: Bar, b: Bar): Bar {
    ex.(high := Larger(ex.high, b.high), low := Smaller(ex.low, b.low), close := b.close,
        maxSpread := Larger(ex.maxSpread, b.maxSpread), tickCount := ex.tickCount + b.tickCount)
  }

  /** The dictionary of bars by hour, with its keys in insertion order. */
  datatype Table = Table(byTime: map<int, Bar>, order: seq<int>)

  function Put(table: Table, b: Bar): Table {
    if b.openTime in table.byTime
    then table.(byTime := table.byTime[b.openTime := Combine(table.byTime[b.openTime], b)])
    else Table(table.byTime[b.openTime := b], table.order + [b.openTime])
  }

  function PutAll(table: Table, bars: seq<Bar>): Table {
    if bars == [] then table else Put(PutAll(table, bars[..|bars| - 1]), bars[|bars| - 1])
  }

  function PutFiles(files: seq<seq<Bar>>): Table {
    if files == [] then Table(map[], []) else PutAll(PutFiles(files[..|files| - 1]), files[|files| - 1])
  }

  ghost predicate Consistent(table: Table) {
    && (forall k :: k in table.byTime ==> k in table.order)
    && (forall i :: 0 <= i < |table.order| ==> table.order[i] in table.byTime)
    && (forall i, j :: 0 <= i < j < |table.order| ==> table.order[i] != table.order[j])
    && (forall k :: k in table.byTime ==> table.byTime[k].openTime == k)
  }

  lemma {:induction false} PutAllConsistent(table: Table, bars: seq<Bar>)
    requires Consistent(table)
    ensures Consistent(PutAll(table, bars))
  {
    if bars != [] {
      PutAllConsistent(table, bars[..|bars| - 1]);
    }
  }

  lemma {:induction false} PutFilesConsistent(files: seq<seq<Bar>>)
    ensures Consistent(PutFiles(files))
  {
    if files != [] {
      PutFilesConsistent(files[..|files| - 1]);
      PutAllConsistent(PutFiles(files[..|files| - 1]), files[|files| - 1]);
    }
  }

  function Values(table: Table): seq<Bar>
    requires Consistent(table)
  {
    seq(|table.order|, i requires 0 <= i < |table.order| => table.byTime[table.order[i]])
  }

  /** Merge the bars the native parser returned for each file and order them by hour. */
  method LoadBars(files: seq<seq<Bar>>) returns (result: seq<Bar>)
    ensures Consistent(PutFiles(files))
    ensures result == Sort(Values(PutFiles(files)), ByOpenTime)
  {
    var table := Table(map[], []);
    for f := 0 to |files|
      invariant table == PutFiles(files[..f])
    {
      var before := table;
      for i := 0 to |files[f]|
        invariant table == PutAll(before, files[f][..i])
      {
        assert files[f][..i + 1][..i] == files[f][..i];
        var b := files[f][i];
        if b.openTime in table.byTime {
          var ex := table.byTime[b.openTime];
          ex := ex.(high := Larger(ex.high, b.high));
          ex := ex.(low := Smaller(ex.low, b.low));
          ex := ex.(close := b.close);
          ex := ex.(maxSpread := Larger(ex.maxSpread, b.maxSpread));
          ex := ex.(tickCount := ex.tickCount + b.tickCount);
          table := Table(table.byTime[b.openTime := ex], table.order);
        } else {
          table := Table(table.byTime[b.openTime := b], table.order + [b.openTime]);
        }
      }
      assert files[f][..|files[f]|] == files[f];
      assert files[..f + 1][..f] == files[..f];
    }
    assert files[..|files|] == files;
    PutFilesConsistent(files);
    result := Sort(Values(table), ByOpenTime);
  }

  // ---------------------------------------------------------------- merging is concatenation

  lemma {:induction false} ExtremesConcat(a: seq<Tick>, b: seq<Tick>)
    requires a != [] && b != []
    ensures MaxMid(a + b) == Larger(MaxMid(a), MaxMid(b))
    ensures MinMid(a + b) == Smaller(MinMid(a), MinMid(b))
    ensures MaxSpread(a + b) == Larger(MaxSpread(a), MaxSpread(b))
  {
    assert (a + b)[..|a + b| - 1] == a + b[..|b| - 1];
    if |b| == 1 {
      assert a + b[..0] == a;
    } else {
      ExtremesConcat(a, b[..|b| - 1]);
    }
  }

  /** Merging the bars of two tick lists of one hour is the bar of the joined list. */
  lemma {:induction false} CombineIsConcat(hour: int, a: seq<Tick>, b: seq<Tick>)
    requires a != [] && b != []
    ensures Combine(Bare(BuildBar(hour, a)), Bare(BuildBar(hour, b))) == Bare(BuildBar(hour, a + b))
  {
    ExtremesConcat(a, b);
  }

  ghost predicate HoldsHour(table: Table, ticks: seq<Tick>, hour: int) {
    var own := InBucket(ticks, HourOf, hour);
    if hour in table.byTime then own != [] && table.byTime[hour] == Bare(BuildBar(hour, own)) else own == []
  }

  /** The table holds, for exactly the occupied hours, the bar over the hour's ticks. */
  ghost predicate Holds(table: Table, ticks: seq<Tick>) {
    Consistent(table) && forall hour :: HoldsHour(table, ticks, hour)
  }

  lemma {:induction false} PutHoldsHour(table: Table, ticks: seq<Tick>, b: Bar, hour: int)
    requires HoldsHour(table, ticks, hour) && WellBuilt(b, HourOf)
    ensures HoldsHour(Put(table, Bare(b)), ticks + b.ticks, hour)
  {
    var before := InBucket(ticks, HourOf, hour);
    InBucketConcat(ticks, b.ticks, HourOf, hour);
    AllInBucket(b.ticks, HourOf, b.openTime, hour);
    if hour != b.openTime {
      assert before + [] == before;
    } else if before == [] {
      assert before + b.ticks == b.ticks;
    } else {
      CombineIsConcat(hour, before, b.ticks);
    }
  }

  lemma {:induction false} PutHolds(table: Table, ticks: seq<Tick>, b: Bar)
    requires Holds(table, ticks) && WellBuilt(b, HourOf)
    ensures Holds(Put(table, Bare(b)), ticks + b.ticks)
  {
    forall hour ensures HoldsHour(Put(table, Bare(b)), ticks + b.ticks, hour) {
      PutHoldsHour(table, ticks, b, hour);
    }
  }

  function BareAll(bars: seq<Bar>): (bare: seq<Bar>)
    ensures |bare| == |bars| && forall i :: 0 <= i < |bars| ==> bare[i] == Bare(bars[i])
  {
    seq(|bars|, i requires 0 <= i < |bars| => Bare(bars[i]))
  }

  lemma {:induction false} PutAllHolds(table: Table, ticks: seq<Tick>, bars: seq<Bar>)
    requires Holds(table, ticks) && forall b :: b in bars ==> WellBuilt(b, HourOf)
    ensures Holds(PutAll(table, BareAll(bars)), ticks + TicksOf(bars))
  {
    if bars == [] {
      assert ticks + [] == ticks;
    } else {
      var front, last := bars[..|bars| - 1], bars[|bars| - 1];
      assert last in bars;
      PutAllHolds(table, ticks, front);
      assert BareAll(bars)[..|bars| - 1] == BareAll(front);
      PutHolds(PutAll(table, BareAll(front)), ticks + TicksOf(front), last);
      assert ticks + TicksOf(front) + last.ticks == ticks + TicksOf(bars);
      assert PutAll(table, BareAll(bars)) == Put(PutAll(table, BareAll(front)), Bare(last));
    }
  }

  // ---------------------------------------------------------------- the native parser

  /** What the native parser makes of a file: a bar for every stretch of lines in one hour. */
  function ParsedFile(file: seq<Tick>): seq<Bar> {
    BareAll(BarsOf(file, HourOf))
  }

  /** The bar being built takes in one more line. */
  function Grown(b: Bar, t: Tick): Bar {
    b.(high := Larger(b.high, t.Mid()), low := Smaller(b.low, t.Mid()), close := t.Mid(),
       maxSpread := Larger(b.maxSpread, t.Spread()), tickCount := b.tickCount + 1)
  }

  function Started(hour: int, t: Tick): Bar {
    Bar(hour, t.Mid(), t.Mid(), t.Mid(), t.Mid(), t.Spread(), 1, [])
  }

  /** The finished bars, and the one being built. */
  function InProgress(bars: seq<Bar>, current: Option<Bar>): seq<Bar> {
    if current.None? then bars else bars + [current.value]
  }

  /** Line by line: the bar of the same hour grows, any other hour starts a new one. */
  method ParseFile(file: seq<Tick>) returns (bars: seq<Bar>)
    ensures bars == ParsedFile(file)
  {
    bars := [];
    var current: Option<Bar> := None;
    for i := 0 to |file|
      invariant current.None? ==> bars == []
      invariant InProgress(bars, current) == ParsedFile(file[..i])
    {
      var t, hour := file[i], HourOf(file[i].time);
      ParsedLine(file, i);
      ghost var before := InProgress(bars, current);
      assert current.Some? ==> before[..|before| - 1] == bars;
      if current.Some? && current.value.openTime == hour {
        var bar := current.value;
        if t.Mid() > bar.high {
          bar := bar.(high := t.Mid());
        }
        if t.Mid() < bar.low {
          bar := bar.(low := t.Mid());
        }
        bar := bar.(close := t.Mid());
        if t.Spread() > bar.maxSpread {
          bar := bar.(maxSpread := t.Spread());
        }
        bar := bar.(tickCount := bar.tickCount + 1);
        assert bar == Grown(current.value, t);
        current := Some(bar);
      } else {
        if current.Some? {
          bars := bars + [current.value];
        }
        current := Some(Bar(hour, t.Mid(), t.Mid(), t.Mid(), t.Mid(), t.Spread(), 1, []));
      }
    }
    assert file[..|file|] == file;
    if current.Some? {
      bars := bars + [current.value];
    }
  }

  /** One more line, in terms of the bars without ticks. */
  lemma {:induction false} ParsedLine(file: seq<Tick>, i: nat)
    requires i < |file|
    ensures var before, t, hour := ParsedFile(file[..i]), file[i], HourOf(file[i].time);
            ParsedFile(file[..i + 1]) ==
            if before != [] && before[|before| - 1].openTime == hour
            then before[..|before| - 1] + [Grown(before[|before| - 1], t)]
            else before + [Started(hour, t)]
  {
    BarsStep(file, i, HourOf);
    BarsAreCut(file[..i], HourOf);
    ExtendBare(BarsOf(file[..i], HourOf), file[i], HourOf(file[i].time));
  }

  lemma {:induction false} ExtendBare(bars: seq<Bar>, t: Tick, hour: int)
    requires forall b :: b in bars ==> WellBuilt(b, HourOf)
    ensures var before := BareAll(bars);
            BareAll(Extend(bars, t, hour)) ==
            if before != [] && before[|before| - 1].openTime == hour
            then before[..|before| - 1] + [Grown(before[|before| - 1], t)]
            else before + [Started(hour, t)]
  {
    if bars != [] && bars[|bars| - 1].openTime == hour {
      assert WellBuilt(bars[|bars| - 1], HourOf);
      GrownIsBuilt(hour, bars[|bars| - 1].ticks, t);
    }
  }

  lemma {:induction false} GrownIsBuilt(hour: int, ticks: seq<Tick>, t: Tick)
    requires ticks != []
    ensures Grown(Bare(BuildBar(hour, ticks)), t) == Bare(BuildBar(hour, ticks + [t]))
  {
    assert (ticks + [t])[..|ticks|] == ticks;
  }

  function ParsedFiles(files: seq<seq<Tick>>): (parsed: seq<seq<Bar>>)
    ensures |parsed| == |files| && forall i :: 0 <= i < |files| ==> parsed[i] == ParsedFile(files[i])
  {
    seq(|files|, i requires 0 <= i < |files| => ParsedFile(files[i]))
  }

  /** The lines of all files, one file after the other. */
  function AllTicks(files: seq<seq<Tick>>): seq<Tick> {
    if files == [] then [] else AllTicks(files[..|files| - 1]) + files[|files| - 1]
  }

  lemma {:induction false} FilesHold(files: seq<seq<Tick>>)
    ensures Holds(PutFiles(ParsedFiles(files)), AllTicks(files))
  {
    if files != [] {
      var front, last := files[..|files| - 1], files[|files| - 1];
      FilesHold(front);
      assert ParsedFiles(files)[..|files| - 1] == ParsedFiles(front);
      BarsAreCut(last, HourOf);
      PutAllHolds(PutFiles(ParsedFiles(front)), AllTicks(front), BarsOf(last, HourOf));
    }
  }

  // ---------------------------------------------------------------- the ordered result

  function FastBars(files: seq<seq<Tick>>): seq<Bar> {
    PutFilesConsistent(ParsedFiles(files));
    Sort(Values(PutFiles(ParsedFiles(files))), ByOpenTime)
  }

  /** The whole fast path: parse every file, merge, order by hour. */
  method LoadBarsRust(files: seq<seq<Tick>>) returns (result: seq<Bar>)
    ensures result == FastBars(files)
  {
    var parsed: seq<seq<Bar>> := [];
    for f := 0 to |files|
      invariant parsed == ParsedFiles(files)[..f]
    {
      var bars := ParseFile(files[f]);
      parsed := parsed + [bars];
    }
    assert ParsedFiles(files)[..|files|] == ParsedFiles(files);
    result := LoadBars(parsed);
  }

  /** The slow path gathers the same lines and resamples them. */
  method LoadBarsPython(files: seq<seq<Tick>>) returns (result: seq<Bar>)
    ensures result == SlowBars(files)
  {
    var ticks: seq<Tick> := [];
    for f := 0 to |files|
      invariant ticks == AllTicks(files[..f])
    {
      assert files[..f + 1][..f] == files[..f];
      ticks := ticks + files[f];
    }
    assert files[..|files|] == files;
    if ticks == [] {
      return [];
    }
    result := Resample(ticks, HourOf);
  }

  function SlowBars(files: seq<seq<Tick>>): seq<Bar> {
    BarsOf(Sort(AllTicks(files), ByTime), HourOf)
  }

  lemma {:induction false} ValuesSorted(table: Table)
    requires Consistent(table)
    ensures var result := Sort(Values(table), ByOpenTime);
            && StrictlySorted(result, ByOpenTime)
            && forall b :: b in result <==> b.openTime in table.byTime && b == table.byTime[b.openTime]
  {
    var values := Values(table);
    var result := Sort(values, ByOpenTime);
    SortSorted(values, ByOpenTime);
    forall i | 0 <= i < |values| ensures values[i].openTime in table.byTime && values[i] == table.byTime[values[i].openTime] {
      assert table.order[i] in table.byTime;
    }
    forall b ensures b in result <==> b.openTime in table.byTime && b == table.byTime[b.openTime] {
      assert b in result <==> b in multiset(values);
      if b.openTime in table.byTime && b == table.byTime[b.openTime] {
        var i :| 0 <= i < |table.order| && table.order[i] == b.openTime;
        assert values[i] == b;
      }
    }
    forall i, j | 0 <= i < j < |values| ensures ByOpenTime(values[i]) != ByOpenTime(values[j]) {
      assert table.order[i] in table.byTime && table.order[j] in table.byTime;
    }
    DistinctStrictlySorted(values, result, ByOpenTime);
  }

  lemma {:induction false} BareSorted(bars: seq<Bar>)
    requires StrictlySorted(bars, ByOpenTime)
    ensures StrictlySorted(BareAll(bars), ByOpenTime)
  {
    forall i, j | 0 <= i < j < |bars| ensures ByOpenTime(BareAll(bars)[i]) < ByOpenTime(BareAll(bars)[j]) {
      assert ByOpenTime(bars[i]) < ByOpenTime(bars[j]);
    }
  }

  /** The bare bar over an hour's ticks, if the hour has any. */
  ghost predicate IsHourBar(ticks: seq<Tick>, b: Bar) {
    var own := InBucket(ticks, HourOf, b.openTime);
    own != [] && b == Bare(BuildBar(b.openTime, own))
  }

  /** The bare bars of ordered ticks, as a set: one per occupied hour. */
  lemma {:induction false} SlowMembers(ticks: seq<Tick>, b: Bar)
    requires Sorted(ticks, ByTime)
    ensures b in BareAll(BarsOf(ticks, HourOf)) <==> IsHourBar(ticks, b)
  {
    var bars := BarsOf(ticks, HourOf);
    HoursMonotone();
    BarsPartition(ticks, HourOf);
    BarsAreBuckets(ticks, HourOf);
    if b in BareAll(bars) {
      var i :| 0 <= i < |bars| && Bare(bars[i]) == b;
      assert bars[i] in bars && WellBuilt(bars[i], HourOf);
    }
    if IsHourBar(ticks, b) {
      OccupiedHourHasBar(ticks, bars, b);
    }
  }

  lemma {:induction false} OccupiedHourHasBar(ticks: seq<Tick>, bars: seq<Bar>, b: Bar)
    requires IsHourBar(ticks, b)
    requires forall o :: o in bars ==> WellBuilt(o, HourOf) && o.ticks == InBucket(ticks, HourOf, o.openTime)
    requires forall t :: t in ticks ==> exists o :: o in bars && o.openTime == HourOf(t.time)
    ensures b in BareAll(bars)
  {
    var t := InBucket(ticks, HourOf, b.openTime)[0];
    assert t in ticks && HourOf(t.time) == b.openTime;
    var o :| o in bars && o.openTime == HourOf(t.time);
    var i :| 0 <= i < |bars| && bars[i] == o;
    assert BareAll(bars)[i] == Bare(o) == b;
  }

  /** The bars of the fast path, as a set: one per occupied hour of the lines. */
  lemma {:induction false} FastMembers(files: seq<seq<Tick>>, b: Bar)
    ensures StrictlySorted(FastBars(files), ByOpenTime)
    ensures b in FastBars(files) <==> IsHourBar(AllTicks(files), b)
  {
    var table := PutFiles(ParsedFiles(files));
    FilesHold(files);
    ValuesSorted(table);
    assert HoldsHour(table, AllTicks(files), b.openTime);
  }

  /** Read one file after the other, the lines are in time order. */
  ghost predicate Chronological(files: seq<seq<Tick>>) {
    Sorted(AllTicks(files), ByTime)
  }

  /** Equal in everything that does not depend on the order of the ticks. */
  predicate SameRange(a: Bar, b: Bar) {
    && a.openTime == b.openTime && a.high == b.high && a.low == b.low
    && a.maxSpread == b.maxSpread && a.tickCount == b.tickCount
  }

  lemma {:induction false} RangeOfPermutation(a: seq<Tick>, b: seq<Tick>, hour: int)
    requires multiset(a) == multiset(b) && a != []
    ensures b != [] && SameRange(Bare(BuildBar(hour, a)), Bare(BuildBar(hour, b)))
  {
    assert |multiset(a)| == |a| && |multiset(b)| == |b|;
    ExtremesBound(a);
    ExtremesBound(b);
    forall t ensures t in a <==> t in b {
      assert t in a <==> t in multiset(a);
    }
  }

  lemma {:induction false} InBucketPermutation(a: seq<Tick>, b: seq<Tick>, hour: int)
    requires multiset(a) == multiset(b)
    ensures multiset(InBucket(a, HourOf, hour)) == multiset(InBucket(b, HourOf, hour))
  {
    forall t ensures multiset(InBucket(a, HourOf, hour))[t] == multiset(InBucket(b, HourOf, hour))[t] {
      InBucketCount(a, HourOf, hour, t);
      InBucketCount(b, HourOf, hour, t);
    }
  }

  /** Two lists of one hour's ticks, both empty or opening and closing at the same prices. */
  predicate SameEnds(a: seq<Tick>, b: seq<Tick>) {
    if a == [] || b == [] then a == b else a[0].Mid() == b[0].Mid() && a[|a| - 1].Mid() == b[|b| - 1].Mid()
  }

  /** The ticks of an hour, as files and lines come and as time orders them. */
  function AsLoaded(files: seq<seq<Tick>>, hour: int): seq<Tick> {
    InBucket(AllTicks(files), HourOf, hour)
  }

  function AsTimed(files: seq<seq<Tick>>, hour: int): seq<Tick> {
    InBucket(Sort(AllTicks(files), ByTime), HourOf, hour)
  }

  lemma {:induction false} HourPermuted(files: seq<seq<Tick>>, hour: int)
    ensures multiset(AsLoaded(files, hour)) == multiset(AsTimed(files, hour))
  {
    InBucketPermutation(AllTicks(files), Sort(AllTicks(files), ByTime), hour);
  }

  lemma {:induction false} SlowIsSorted(files: seq<seq<Tick>>)
    ensures StrictlySorted(BareAll(SlowBars(files)), ByOpenTime)
    ensures forall b :: b in BareAll(SlowBars(files)) <==> IsHourBar(Sort(AllTicks(files), ByTime), b)
  {
    var ticks := Sort(AllTicks(files), ByTime);
    SortSorted(AllTicks(files), ByTime);
    HoursMonotone();
    BarsPartition(ticks, HourOf);
    BareSorted(BarsOf(ticks, HourOf));
    forall b ensures b in BareAll(SlowBars(files)) <==> IsHourBar(ticks, b) {
      SlowMembers(ticks, b);
    }
  }

  lemma {:induction false} FastIsSorted(files: seq<seq<Tick>>)
    ensures StrictlySorted(FastBars(files), ByOpenTime)
    ensures forall b :: b in FastBars(files) <==> IsHourBar(AllTicks(files), b)
  {
    forall b ensures b in FastBars(files) <==> IsHourBar(AllTicks(files), b) {
      FastMembers(files, b);
    }
    FastMembers(files, Bar(0, 0.0, 0.0, 0.0, 0.0, 0.0, 0, []));
  }

  /** The bars of one hour agree exactly when its ends do: everything else is order-free. */
  lemma {:induction false} SameHourIff(a: seq<Tick>, b: seq<Tick>, hour: int)
    requires multiset(a) == multiset(b) && a != []
    ensures b != []
    ensures Bare(BuildBar(hour, a)) == Bare(BuildBar(hour, b)) <==> SameEnds(a, b)
  {
    RangeOfPermutation(a, b, hour);
  }

  /**
   The fast path returns exactly the bars of resampling all ticks together if and only if
   every hour's first and last tick have the same mid price in line order as in time order.
   */
  lemma {:induction false} FastEqualsSlowIff(files: seq<seq<Tick>>)
    ensures FastBars(files) == BareAll(SlowBars(files)) <==>
            forall hour :: SameEnds(AsLoaded(files, hour), AsTimed(files, hour))
  {
    FastIsSorted(files);
    SlowIsSorted(files);
    if FastBars(files) == BareAll(SlowBars(files)) {
      forall hour ensures SameEnds(AsLoaded(files, hour), AsTimed(files, hour)) {
        EqualBarsSameEnds(files, hour);
      }
    }
    if forall hour :: SameEnds(AsLoaded(files, hour), AsTimed(files, hour)) {
      forall b ensures b in FastBars(files) <==> b in BareAll(SlowBars(files)) {
        SameEndsSameBar(files, b);
      }
      StrictlySortedUnique(FastBars(files), BareAll(SlowBars(files)), ByOpenTime);
    }
  }

  lemma {:induction false} EqualBarsSameEnds(files: seq<seq<Tick>>, hour: int)
    requires FastBars(files) == BareAll(SlowBars(files))
    ensures SameEnds(AsLoaded(files, hour), AsTimed(files, hour))
  {
    var a, b := AsLoaded(files, hour), AsTimed(files, hour);
    HourPermuted(files, hour);
    if a == [] {
      assert |multiset(b)| == 0;
    } else {
      SameHourIff(a, b, hour);
      FastIsSorted(files);
      SlowIsSorted(files);
      assert IsHourBar(AllTicks(files), Bare(BuildBar(hour, a)));
    }
  }

  lemma {:induction false} SameEndsSameBar(files: seq<seq<Tick>>, b: Bar)
    requires SameEnds(AsLoaded(files, b.openTime), AsTimed(files, b.openTime))
    ensures IsHourBar(AllTicks(files), b) <==> IsHourBar(Sort(AllTicks(files), ByTime), b)
  {
    HourPermuted(files, b.openTime);
    if AsLoaded(files, b.openTime) != [] {
      SameHourIff(AsLoaded(files, b.openTime), AsTimed(files, b.openTime), b.openTime);
    }
  }

  /** In particular when file and line order are time order. */
  lemma {:induction false} FastPathRefinesSlowPath(files: seq<seq<Tick>>)
    requires Chronological(files)
    ensures FastBars(files) == BareAll(SlowBars(files))
  {
    SortIdentity(AllTicks(files), ByTime);
    FastEqualsSlowIff(files);
  }

  // ---------------------------------------------------------------- files in any order

  /**
   In whatever order the files come, the two paths agree on the hours and, hour by hour, on
   high, low, widest spread and tick count.
   */
  lemma {:induction false} AnyFileOrderKeepsRanges(files: seq<seq<Tick>>, b: Bar)
    ensures b in FastBars(files) ==> exists o :: o in BareAll(SlowBars(files)) && SameRange(b, o)
    ensures b in BareAll(SlowBars(files)) ==> exists o :: o in FastBars(files) && SameRange(b, o)
  {
    var hour := b.openTime;
    var p, q := AsLoaded(files, hour), AsTimed(files, hour);
    HourPermuted(files, hour);
    FastIsSorted(files);
    SlowIsSorted(files);
    if b in FastBars(files) {
      RangeOfPermutation(p, q, hour);
      assert IsHourBar(Sort(AllTicks(files), ByTime), Bare(BuildBar(hour, q)));
    }
    if b in BareAll(SlowBars(files)) {
      RangeOfPermutation(q, p, hour);
      assert IsHourBar(AllTicks(files), Bare(BuildBar(hour, p)));
    }
  }

  /** Two ticks of one hour read in the wrong order: the hour opens and closes at the wrong ones. */
  lemma {:induction false} ReversedTicksSwapOpenAndClose(files: seq<seq<Tick>>, early: Tick, late: Tick)
    requires AllTicks(files) == [late, early]
    requires early.time < late.time && HourOf(early.time) == HourOf(late.time) && early.Mid() != late.Mid()
    ensures FastBars(files) != BareAll(SlowBars(files))
  {
    var hour := HourOf(early.time);
    SortTwo(late, early);
    InBucketOfPair(late, early, hour);
    InBucketOfPair(early, late, hour);
    FastEqualsSlowIff(files);
    assert !SameEnds(AsLoaded(files, hour), AsTimed(files, hour));
  }

  /** That happens with two files out of order, and with two lines out of order in one file. */
  lemma {:induction false} ReversedFilesSwapOpenAndClose(early: Tick, late: Tick)
    requires early.time < late.time && HourOf(early.time) == HourOf(late.time) && early.Mid() != late.Mid()
    ensures FastBars([[late], [early]]) != BareAll(SlowBars([[late], [early]]))
    ensures FastBars([[late, early]]) != BareAll(SlowBars([[late, early]]))
  {
    assert [[late], [early]][..1] == [[late]] && [[late]][..0] == [] && [[late, early]][..0] == [];
    assert AllTicks([[late]]) == [late];
    ReversedTicksSwapOpenAndClose([[late], [early]], early, late);
    ReversedTicksSwapOpenAndClose([[late, early]], early, late);
  }

  lemma {:induction false} SortOne(t: Tick)
    ensures Sort([t], ByTime) == [t]
  {
    assert [t][..0] == [];
  }

  lemma {:induction false} SortTwo(first: Tick, second: Tick)
    requires second.time < first.time
    ensures Sort([first, second], ByTime) == [second, first]
  {
    SortOne(first);
    assert [first, second][..1] == [first] && [first][..0] == [];
    assert Insert([first], second, ByTime) == Insert([], second, ByTime) + [first];
  }

  lemma {:induction false} InBucketOfPair(a: Tick, b: Tick, hour: int)
    requires HourOf(a.time) == hour == HourOf(b.time)
    ensures InBucket([a, b], HourOf, hour) == [a, b]
  {
    AllInBucket([a, b], HourOf, hour, hour);
  }
}
