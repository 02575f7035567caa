/**
 The per-key sliding-log limiter: a pruned list of admission times, compared with the full
 history of admissions.
 */
module RateLimiter {

  datatype Call = Call(key: string, now: real)

  /** Drop leading times that are before the cutoff. */
  function Pruned(bucket: seq<real>, cutoff: real): seq<real> {
    if bucket != [] && bucket[0] < cutoff then Pruned(bucket[1..], cutoff) else bucket
  }

  function BucketOf(events: map<string, seq<real>>, key: string): seq<real> {
    if key in events then events[key] else []
  }

  /** One call on its key's bucket: the answer and the bucket afterwards. */
  function Served(bucket: seq<real>, limit: nat, window: real, now: real): (bool, seq<real>) {
    var kept := Pruned(bucket, now - window);
    if |kept| >= limit then (false, kept) else (true, kept + [now])
  }

  /** One call on the buckets: the answer and the buckets afterwards. */
  function Allowed(events: map<string, seq<real>>, limit: nat, window: real, c: Call): (bool, map<string, seq<real>>) {
    var (admitted, bucket) := Served(BucketOf(events, c.key), limit, window, c.now);
    (admitted, events[c.key := bucket])
  }

  class ProcessLocalRateLimiter {
    const limit: nat
    const windowSeconds: int
    var events: map<string, seq<real>>

    constructor (limit: int, windowSeconds: int)
      ensures this.limit == (if limit < 1 then 1 else limit)
      ensures this.windowSeconds == (if windowSeconds < 1 then 1 else windowSeconds)
      ensures events == map[]
    {
      this.limit := if limit < 1 then 1 else limit;
      this.windowSeconds := if windowSeconds < 1 then 1 else windowSeconds;
      events := map[];
    }

    method Allow(key: string, now: real) returns (admitted: bool)
      modifies this
      ensures (admitted, events) == Allowed(old(events), limit, windowSeconds as real, Call(key, now))
    {
      var bucket := if key in events then events[key] else [];
      var cutoff := now - windowSeconds as real;
      while bucket != [] && bucket[0] < cutoff
        invariant Pruned(bucket, cutoff) == Pruned(BucketOf(old(events), key), cutoff)
        decreases |bucket|
      {
        bucket := bucket[1..];
      }
      if |bucket| >= limit {
        events := events[key := bucket];
        return false;
      }
      events := events[key := bucket + [now]];
      return true;
    }

    method Clear()
      modifies this
      ensures events == map[]
    {
      events := map[];
    }
  }

  // ---------------------------------------------------------------- runs

  function EventsAfter(calls: seq<Call>, limit: nat, window: real): map<string, seq<real>> {
    if calls == [] then map[]
    else Allowed(EventsAfter(calls[..|calls| - 1], limit, window), limit, window, calls[|calls| - 1]).1
  }

  /** The answer to the last of a list of calls. */
  predicate LastAnswer(calls: seq<Call>, limit: nat, window: real)
    requires calls != []
  {
    Allowed(EventsAfter(calls[..|calls| - 1], limit, window), limit, window, calls[|calls| - 1]).0
  }

  /** All admission times of a key, never pruned. */
  function History(calls: seq<Call>, limit: nat, window: real, key: string): seq<real> {
    if calls == [] then []
    else
      var last := calls[|calls| - 1];
      History(calls[..|calls| - 1], limit, window, key) +
      (if last.key == key && LastAnswer(calls, limit, window) then [last.now] else [])
  }

  function CountSince(times: seq<real>, from: real): nat {
    if times == [] then 0
    else CountSince(times[..|times| - 1], from) + (if times[|times| - 1] >= from then 1 else 0)
  }

  ghost predicate Nondecreasing(times: seq<real>) {
    forall i, j :: 0 <= i < j < |times| ==> times[i] <= times[j]
  }

  /** Earlier calls of a key come no later than a next one. */
  predicate NoneLater(calls: seq<Call>, key: string, now: real) {
    calls == [] ||
    (NoneLater(calls[..|calls| - 1], key, now) && (calls[|calls| - 1].key == key ==> calls[|calls| - 1].now <= now))
  }

  /** The clock of one key never runs backwards. */
  predicate KeyClockRuns(calls: seq<Call>, key: string) {
    calls == [] ||
    (var last := calls[|calls| - 1];
     KeyClockRuns(calls[..|calls| - 1], key) && (last.key == key ==> NoneLater(calls[..|calls| - 1], key, last.now)))
  }

  /** The bucket of a key and its history after one more call. */
  lemma {:induction false} OneMoreCall(calls: seq<Call>, c: Call, limit: nat, window: real, key: string)
    ensures var bucket := BucketOf(EventsAfter(calls, limit, window), key);
            && BucketOf(EventsAfter(calls + [c], limit, window), key) ==
               (if c.key == key then Served(bucket, limit, window, c.now).1 else bucket)
            && (c.key == key ==> LastAnswer(calls + [c], limit, window) == Served(bucket, limit, window, c.now).0)
    ensures History(calls + [c], limit, window, key) ==
            History(calls, limit, window, key) +
            (if c.key == key && LastAnswer(calls + [c], limit, window) then [c.now] else [])
  {
    assert (calls + [c])[..|calls|] == calls;
  }

  lemma {:induction false} PrunedIsSuffix(bucket: seq<real>, cutoff: real) returns (k: nat)
    ensures k <= |bucket| && Pruned(bucket, cutoff) == bucket[k..]
    ensures forall i :: 0 <= i < k ==> bucket[i] < cutoff
    ensures k < |bucket| ==> bucket[k] >= cutoff
  {
    if bucket != [] && bucket[0] < cutoff {
      var j := PrunedIsSuffix(bucket[1..], cutoff);
      k := j + 1;
      assert bucket[1..][j..] == bucket[k..];
      forall i | 0 <= i < k ensures bucket[i] < cutoff {
        assert i > 0 ==> bucket[1..][i - 1] == bucket[i];
      }
    } else {
      k := 0;
    }
  }

  lemma {:induction false} CountConcat(a: seq<real>, b: seq<real>, from: real)
    ensures CountSince(a + b, from) == CountSince(a, from) + CountSince(b, from)
  {
    if b == [] {
      assert a + b == a;
    } else {
      assert (a + b)[..|a + b| - 1] == a + b[..|b| - 1];
      CountConcat(a, b[..|b| - 1], from);
    }
  }

  lemma {:induction false} CountUniform(times: seq<real>, from: real)
    ensures (forall i :: 0 <= i < |times| ==> times[i] < from) ==> CountSince(times, from) == 0
    ensures (forall i :: 0 <= i < |times| ==> times[i] >= from) ==> CountSince(times, from) == |times|
  {
    if times != [] {
      CountUniform(times[..|times| - 1], from);
    }
  }

  /** The bucket is the history without its first `cut` times, all of which lie before the bound. */
  ghost predicate SuffixFrom(bucket: seq<real>, history: seq<real>, cut: nat, bound: real) {
    && cut <= |history| && history[cut..] == bucket
    && forall i :: 0 <= i < cut ==> history[i] < bound
  }

  /** Pruning further keeps a suffix; its length is the number of recent admissions. */
  lemma {:induction false} PruneCounts(bucket: seq<real>, history: seq<real>, cut: nat, bound: real) returns (further: nat)
    requires SuffixFrom(bucket, history, cut, bound) && Nondecreasing(history)
    ensures SuffixFrom(Pruned(bucket, bound), history, further, bound)
    ensures |Pruned(bucket, bound)| == CountSince(history, bound)
  {
    var k := PrunedIsSuffix(bucket, bound);
    further := cut + k;
    assert history[further..] == bucket[k..];
    forall i | 0 <= i < further ensures history[i] < bound {
      if i >= cut {
        assert history[i] == bucket[i - cut];
      }
    }
    forall i | further <= i < |history| ensures history[i] >= bound {
      assert history[further] == bucket[k];
      assert i > further ==> history[further] <= history[i];
    }
    SplitCounts(history, further, bound);
  }

  lemma {:induction false} SplitCounts(times: seq<real>, at: nat, bound: real)
    requires at <= |times|
    requires forall i :: 0 <= i < at ==> times[i] < bound
    requires forall i :: at <= i < |times| ==> times[i] >= bound
    ensures CountSince(times, bound) == |times| - at
  {
    assert times == times[..at] + times[at..];
    CountConcat(times[..at], times[at..], bound);
    CountUniform(times[..at], bound);
    CountUniform(times[at..], bound);
  }

  /** Admissions of a key come in order, and none is later than a next call. */
  lemma {:induction false} HistoryInOrder(calls: seq<Call>, limit: nat, window: real, key: string)
    requires KeyClockRuns(calls, key)
    ensures Nondecreasing(History(calls, limit, window, key))
  {
    if calls != [] {
      var front, last := calls[..|calls| - 1], calls[|calls| - 1];
      HistoryInOrder(front, limit, window, key);
      if last.key == key {
        HistoryNotLater(front, limit, window, key, last.now);
      }
    }
  }

  lemma {:induction false} HistoryNotLater(calls: seq<Call>, limit: nat, window: real, key: string, now: real)
    requires NoneLater(calls, key, now)
    ensures forall i :: 0 <= i < |History(calls, limit, window, key)| ==> History(calls, limit, window, key)[i] <= now
  {
    if calls != [] {
      HistoryNotLater(calls[..|calls| - 1], limit, window, key, now);
    }
  }

  ghost predicate Faithful(calls: seq<Call>, limit: nat, window: real, key: string, cut: nat, bound: real) {
    SuffixFrom(BucketOf(EventsAfter(calls, limit, window), key), History(calls, limit, window, key), cut, bound)
  }

  /** A key's bucket is its history without times that lie before the next call's window. */
  lemma {:induction false} BucketFollowsHistory(calls: seq<Call>, limit: nat, window: real, key: string, next: real)
    returns (cut: nat)
    requires KeyClockRuns(calls, key) && NoneLater(calls, key, next)
    ensures Faithful(calls, limit, window, key, cut, next - window)
  {
    if calls == [] {
      return 0;
    }
    var front, last := calls[..|calls| - 1], calls[|calls| - 1];
    OneMoreCall(front, last, limit, window, key);
    assert front + [last] == calls;
    cut := BucketFollowsHistory(front, limit, window, key, if last.key == key then last.now else next);
    if last.key == key {
      HistoryInOrder(front, limit, window, key);
      cut := ServedKeepsSuffix(BucketOf(EventsAfter(front, limit, window), key), History(front, limit, window, key),
                               cut, limit, window, last.now);
    }
  }

  lemma {:induction false} ServedKeepsSuffix(bucket: seq<real>, history: seq<real>, was: nat, limit: nat, window: real, now: real)
    returns (cut: nat)
    requires SuffixFrom(bucket, history, was, now - window) && Nondecreasing(history)
    ensures var (admitted, after) := Served(bucket, limit, window, now);
            SuffixFrom(after, history + (if admitted then [now] else []), cut, now - window)
  {
    cut := PruneCounts(bucket, history, was, now - window);
    assert (history + [now])[cut..] == history[cut..] + [now];
  }

  /**
   With a clock that never runs backwards for the key, a call is admitted exactly when fewer
   than `limit` earlier calls of the key were admitted within the window before it.
   */
  lemma {:induction false} AdmittedIffRoomInWindow(calls: seq<Call>, c: Call, limit: nat, window: real)
    requires KeyClockRuns(calls, c.key) && NoneLater(calls, c.key, c.now)
    ensures LastAnswer(calls + [c], limit, window) <==>
            CountSince(History(calls, limit, window, c.key), c.now - window) < limit
    ensures forall t :: t in History(calls, limit, window, c.key) ==> t <= c.now
  {
    var history := History(calls, limit, window, c.key);
    var bucket := BucketOf(EventsAfter(calls, limit, window), c.key);
    assert LastAnswer(calls + [c], limit, window) <==> |Pruned(bucket, c.now - window)| < limit by {
      OneMoreCall(calls, c, limit, window, c.key);
    }
    HistoryInOrder(calls, limit, window, c.key);
    HistoryNotLater(calls, limit, window, c.key, c.now);
    var cut := BucketFollowsHistory(calls, limit, window, c.key, c.now);
    cut := PruneCounts(bucket, history, cut, c.now - window);
  }

  /** Admissions in a closed interval. */
  function CountWithin(times: seq<real>, from: real, to: real): nat {
    if times == [] then 0
    else CountWithin(times[..|times| - 1], from, to) + (if from <= times[|times| - 1] <= to then 1 else 0)
  }

  lemma {:induction false} WithinAtMostSince(times: seq<real>, from: real, to: real)
    ensures CountWithin(times, from, to) <= CountSince(times, from)
  {
    if times != [] {
      WithinAtMostSince(times[..|times| - 1], from, to);
    }
  }

  lemma {:induction false} SinceGrowsBackwards(times: seq<real>, early: real, late: real)
    requires early <= late
    ensures CountSince(times, late) <= CountSince(times, early)
  {
    if times != [] {
      SinceGrowsBackwards(times[..|times| - 1], early, late);
    }
  }

  /** No closed interval as long as the window ever holds more than `limit` admissions of a key. */
  lemma {:induction false} NoWindowOverfull(calls: seq<Call>, limit: nat, window: real, key: string, from: real)
    requires KeyClockRuns(calls, key)
    ensures CountWithin(History(calls, limit, window, key), from, from + window) <= limit
  {
    if calls != [] {
      var front, last := calls[..|calls| - 1], calls[|calls| - 1];
      assert calls == front + [last];
      NoWindowOverfull(front, limit, window, key, from);
      if last.key == key && LastAnswer(calls, limit, window) {
        AdmittedIffRoomInWindow(front, last, limit, window);
        OneMoreCall(front, last, limit, window, key);
        OneMoreWithin(History(front, limit, window, key), last.now, limit, window, from);
      } else {
        assert History(calls, limit, window, key) == History(front, limit, window, key);
      }
    }
  }

  lemma {:induction false} OneMoreWithin(times: seq<real>, now: real, limit: nat, window: real, from: real)
    requires CountSince(times, now - window) < limit && CountWithin(times, from, from + window) <= limit
    ensures CountWithin(times + [now], from, from + window) <= limit
  {
    assert (times + [now])[..|times|] == times;
    WithinAtMostSince(times, from, from + window);
    if now <= from + window {
      SinceGrowsBackwards(times, now - window, from);
    }
  }

  // ---------------------------------------------------------------- independent keys

  function TimesOf(calls: seq<Call>, key: string): seq<real> {
    if calls == [] then []
    else TimesOf(calls[..|calls| - 1], key) + (if calls[|calls| - 1].key == key then [calls[|calls| - 1].now] else [])
  }

  /** The bucket left by a list of call times, all for one key. */
  function AloneAfter(times: seq<real>, limit: nat, window: real): seq<real> {
    if times == [] then []
    else Served(AloneAfter(times[..|times| - 1], limit, window), limit, window, times[|times| - 1]).1
  }

  /** A key's bucket depends on the times of that key's calls alone. */
  lemma {:induction false} KeysIndependent(calls: seq<Call>, limit: nat, window: real, key: string)
    ensures BucketOf(EventsAfter(calls, limit, window), key) == AloneAfter(TimesOf(calls, key), limit, window)
  {
    if calls != [] {
      var front, last := calls[..|calls| - 1], calls[|calls| - 1];
      KeysIndependent(front, limit, window, key);
      var times := TimesOf(front, key);
      if last.key == key {
        assert (times + [last.now])[..|times|] == times;
      } else {
        assert TimesOf(calls, key) == times;
      }
    }
  }

  /** Calls of other keys change no answer. */
  lemma {:induction false} AnswerIndependent(calls: seq<Call>, c: Call, limit: nat, window: real)
    ensures LastAnswer(calls + [c], limit, window) <==>
            Served(AloneAfter(TimesOf(calls, c.key), limit, window), limit, window, c.now).0
  {
    KeysIndependent(calls, limit, window, c.key);
    assert (calls + [c])[..|calls|] == calls;
  }
}
