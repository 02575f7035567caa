/**
 The persistent ledger of command ids: every remembered id moves to the end and only the
 last `max_entries` survive each write.
 */
module ReplayGuard {
  import opened Basics
  import opened Trading

  datatype Entry = Entry(id: string, seenAt: int)

  /** A row of the ledger file; anything without a usable id is junk. */
  datatype Row = Usable(entry: Entry) | Junk

  datatype LedgerFile = Missing | Corrupt | Rows(rows: seq<Row>)

  function LastN<T>(s: seq<T>, n: nat): (r: seq<T>)
    ensures |r| <= n && |r| <= |s|
  {
    if |s| <= n then s else s[|s| - n..]
  }

  function UsableEntries(rows: seq<Row>): seq<Entry> {
    if rows == [] then []
    else UsableEntries(rows[..|rows| - 1]) + (if rows[|rows| - 1].Usable? then [rows[|rows| - 1].entry] else [])
  }

  /** What the guard reads from the file: `None` when the file cannot be trusted. */
  function Loaded(file: LedgerFile, maxEntries: nat): Option<seq<Entry>> {
    match file
    case Missing => Some([])
    case Corrupt => None
    case Rows(rows) => Some(UsableEntries(LastN(rows, maxEntries)))
  }

  function Ids(entries: seq<Entry>): (ids: seq<string>)
    ensures |ids| == |entries| && forall i :: 0 <= i < |ids| ==> ids[i] == entries[i].id
  {
    seq(|entries|, i requires 0 <= i < |entries| => entries[i].id)
  }

  function AsRows(entries: seq<Entry>): (rows: seq<Row>)
    ensures |rows| == |entries| && forall i :: 0 <= i < |rows| ==> rows[i] == Usable(entries[i])
  {
    seq(|entries|, i requires 0 <= i < |entries| => Usable(entries[i]))
  }

  function WithoutId(entries: seq<Entry>, id: string): seq<Entry> {
    if entries == [] then []
    else
      WithoutId(entries[..|entries| - 1], id) + (if entries[|entries| - 1].id != id then [entries[|entries| - 1]] else [])
  }

  /** The entries read are those in the usable rows among the last ones, whatever else the file holds. */
  lemma {:induction false} LoadedHoldsIff(rows: seq<Row>, n: nat, e: Entry)
    ensures e in Loaded(Rows(rows), n).value <==> exists i :: 0 <= i < |rows| && i >= |rows| - n && rows[i] == Usable(e)
  {
    var tail := LastN(rows, n);
    UsableHoldsIff(tail, e);
    var skipped := |rows| - |tail|;
    if e in UsableEntries(tail) {
      var k :| 0 <= k < |tail| && tail[k] == Usable(e);
      assert rows[skipped + k] == Usable(e);
    }
    if i :| 0 <= i < |rows| && i >= |rows| - n && rows[i] == Usable(e) {
      assert tail[i - skipped] == Usable(e);
    }
  }

  lemma {:induction false} UsableHoldsIff(rows: seq<Row>, e: Entry)
    ensures e in UsableEntries(rows) <==> exists i :: 0 <= i < |rows| && rows[i] == Usable(e)
  {
    if rows != [] {
      var front := rows[..|rows| - 1];
      UsableHoldsIff(front, e);
      assert forall i :: 0 <= i < |front| ==> front[i] == rows[i];
    }
  }

  class CommandReplayGuard {
    const maxEntries: nat
    var file: LedgerFile

    constructor (file: LedgerFile, maxEntries: int)
      ensures this.file == file && this.maxEntries == if maxEntries < 1 then 1 else maxEntries
    {
      this.file := file;
      this.maxEntries := if maxEntries < 1 then 1 else maxEntries;
    }

    method LoadEntries() returns (entries: Option<seq<Entry>>)
      ensures entries == Loaded(file, maxEntries)
    {
      match file {
        case Missing => return Some([]);
        case Corrupt => return None;
        case Rows(rows) =>
          var tail := LastN(rows, maxEntries);
          var found := [];
          for i := 0 to |tail|
            invariant found == UsableEntries(tail[..i])
          {
            assert tail[..i + 1][..i] == tail[..i];
            if tail[i].Usable? {
              found := found + [tail[i].entry];
            }
          }
          assert tail[..|tail|] == tail;
          return Some(found);
      }
    }

    /** `None` stands for the ledger error. */
    method Contains(id: string) returns (known: Option<bool>)
      ensures known.None? <==> id != "" && Loaded(file, maxEntries).None?
      ensures known.Some? ==> known.value == (id != "" && exists e :: e in Loaded(file, maxEntries).value && e.id == id)
    {
      if id == "" {
        return Some(false);
      }
      var entries := LoadEntries();
      if entries.None? {
        return None;
      }
      for i := 0 to |entries.value|
        invariant forall k :: 0 <= k < i ==> entries.value[k].id != id
      {
        if entries.value[i].id == id {
          assert entries.value[i] in entries.value;
          return Some(true);
        }
      }
      return Some(false);
    }

    method Remember(id: string, now: int) returns (ok: bool)
      modifies this`file
      ensures ok <==> id != "" && old(Loaded(file, maxEntries)).Some?
      ensures !ok ==> file == old(file)
      ensures ok ==> file == Rows(AsRows(LastN(WithoutId(old(Loaded(file, maxEntries)).value, id) + [Entry(id, now)], maxEntries)))
    {
      if id == "" {
        return false;
      }
      var entries := LoadEntries();
      if entries.None? {
        return false;
      }
      var kept := [];
      for i := 0 to |entries.value|
        invariant kept == WithoutId(entries.value[..i], id)
      {
        assert entries.value[..i + 1][..i] == entries.value[..i];
        if entries.value[i].id != id {
          kept := kept + [entries.value[i]];
        }
      }
      assert entries.value[..|entries.value|] == entries.value;
      kept := kept + [Entry(id, now)];
      file := Rows(AsRows(LastN(kept, maxEntries)));
      return true;
    }
  }

  // ---------------------------------------------------------------- ids only

  function Drop(ids: seq<string>, id: string): (r: seq<string>)
    ensures id !in r && forall x :: x in r <==> x in ids && x != id
  {
    if ids == [] then []
    else
      assert ids == ids[..|ids| - 1] + [ids[|ids| - 1]];
      Drop(ids[..|ids| - 1], id) + (if ids[|ids| - 1] != id then [ids[|ids| - 1]] else [])
  }

  /** Move an id to the end of a list. */
  function Touch(ids: seq<string>, id: string): seq<string> {
    Drop(ids, id) + [id]
  }

  /** The ids the ledger keeps after a history of remembered ids, truncating at every step. */
  function Kept(history: seq<string>, n: nat): seq<string> {
    if history == [] then [] else LastN(Touch(Kept(history[..|history| - 1], n), history[|history| - 1]), n)
  }

  /** The history without all but the most recent occurrence of each id. */
  function MostRecent(history: seq<string>): (r: seq<string>)
    ensures forall x :: x in r <==> x in history
  {
    if history == [] then []
    else
      assert history == [history[0]] + history[1..];
      if history[0] in history[1..] then MostRecent(history[1..]) else [history[0]] + MostRecent(history[1..])
  }

  ghost predicate Distinct(ids: seq<string>) {
    forall i, j :: 0 <= i < j < |ids| ==> ids[i] != ids[j]
  }

  lemma {:induction false} MostRecentDistinct(history: seq<string>)
    ensures Distinct(MostRecent(history))
  {
    if history != [] {
      MostRecentDistinct(history[1..]);
    }
  }

  lemma {:induction false} DropConcat(a: seq<string>, b: seq<string>, id: string)
    ensures Drop(a + b, id) == Drop(a, id) + Drop(b, id)
  {
    if b == [] {
      assert a + b == a;
    } else {
      assert (a + b)[..|a + b| - 1] == a + b[..|b| - 1];
      DropConcat(a, b[..|b| - 1], id);
    }
  }

  lemma {:induction false} DropLength(ids: seq<string>, id: string)
    requires Distinct(ids)
    ensures |Drop(ids, id)| == |ids| - (if id in ids then 1 else 0)
  {
    if ids != [] {
      var front, last := ids[..|ids| - 1], ids[|ids| - 1];
      assert ids == front + [last];
      DropLength(front, id);
      if last == id {
        assert id !in front;
      }
    }
  }

  /** One more remembered id moves to the end of the deduplicated history. */
  lemma {:induction false} MostRecentAppend(history: seq<string>, id: string)
    ensures MostRecent(history + [id]) == Touch(MostRecent(history), id)
  {
    var all := history + [id];
    if history == [] {
      assert all == [id] && all[1..] == [];
    } else {
      var head, rest := history[0], history[1..];
      assert all[0] == head && all[1..] == rest + [id];
      MostRecentAppend(rest, id);
      if head in rest {
        assert head in all[1..];
      } else {
        HeadDropped(head, MostRecent(rest), id);
        assert head in all[1..] <==> head == id;
      }
    }
  }

  lemma {:induction false} HeadDropped(head: string, tail: seq<string>, id: string)
    ensures Drop([head] + tail, id) == (if head == id then [] else [head]) + Drop(tail, id)
  {
    DropConcat([head], tail, id);
    assert [head][..0] == [];
  }

  lemma {:induction false} LastNOfConcat<T>(a: seq<T>, b: seq<T>, n: nat)
    requires |b| >= n
    ensures LastN(a + b, n) == LastN(b, n)
  {
  }

  /** Truncating before moving an id to the end loses nothing. */
  lemma {:induction false} TouchTruncated(ids: seq<string>, id: string, n: nat)
    requires Distinct(ids) && n >= 1
    ensures LastN(Touch(LastN(ids, n), id), n) == LastN(Touch(ids, id), n)
  {
    if |ids| > n {
      var old', kept := ids[..|ids| - n], LastN(ids, n);
      assert ids == old' + kept;
      DropConcat(old', kept, id);
      DropLength(kept, id);
      assert Touch(ids, id) == Drop(old', id) + Touch(kept, id);
      LastNOfConcat(Drop(old', id), Touch(kept, id), n);
    }
  }

  /**
   After any history the truncated ledger is exactly the last `n` ids of the history
   deduplicated by most recent occurrence: truncating at every step loses nothing.
   */
  lemma {:induction false} LedgerIsRecentTail(history: seq<string>, n: nat)
    requires n >= 1
    ensures Kept(history, n) == LastN(MostRecent(history), n)
  {
    if history != [] {
      var front, last := history[..|history| - 1], history[|history| - 1];
      assert history == front + [last];
      LedgerIsRecentTail(front, n);
      MostRecentDistinct(front);
      TouchTruncated(MostRecent(front), last, n);
      MostRecentAppend(front, last);
    }
  }

  // ---------------------------------------------------------------- how an id is forgotten

  /** Everything the deduplicated history lists after an id was remembered after it. */
  lemma {:induction false} AfterLastUse(history: seq<string>, i: nat) returns (before: seq<string>, after: seq<string>)
    requires i < |history| && history[i] !in history[i + 1..]
    ensures MostRecent(history) == before + [history[i]] + after
    ensures forall x :: x in after ==> x in history[i + 1..]
  {
    var head, rest := history[0], history[1..];
    if i == 0 {
      assert history[1..] == rest;
      before, after := [], MostRecent(rest);
      assert [head] + after == [] + [head] + after;
    } else {
      assert rest[i - 1] == history[i] && rest[i..] == history[i + 1..];
      before, after := AfterLastUse(rest, i - 1);
      if head !in rest {
        before := [head] + before;
      }
    }
  }

  function LastUse(history: seq<string>, id: string): (i: nat)
    requires id in history
    ensures i < |history| && history[i] == id && id !in history[i + 1..]
    ensures forall j :: 0 <= j < |history| && history[j] == id ==> j <= i
  {
    var front, last := history[..|history| - 1], history[|history| - 1];
    assert history == front + [last];
    if last == id then |history| - 1
    else
      var i := LastUse(front, id);
      assert history[i + 1..] == front[i + 1..] + [last];
      i
  }

  lemma {:induction false} DistinctCount(ids: seq<string>)
    requires Distinct(ids)
    ensures |SetOf(ids)| == |ids|
  {
    if ids != [] {
      var front, last := ids[..|ids| - 1], ids[|ids| - 1];
      DistinctCount(front);
      assert ids == front + [last];
      assert SetOf(ids) == SetOf(front) + {last};
      assert last !in front;
    }
  }

  lemma {:induction false} SubsetCount(a: set<string>, b: set<string>)
    requires a <= b
    ensures |a| <= |b|
  {
    assert b == a + (b - a);
  }

  /** The last `n` items of a list contain an item that fewer than `n` follow. */
  lemma {:induction false} TailHolds(before: seq<string>, id: string, after: seq<string>, n: nat)
    requires |after| < n
    ensures id in LastN(before + [id] + after, n)
  {
    var all := before + [id] + after;
    var tail := LastN(all, n);
    assert all[|before|] == id;
    assert tail[|tail| - |after| - 1] == all[|all| - |after| - 1];
  }

  lemma {:induction false} MiddleDistinct(before: seq<string>, id: string, after: seq<string>)
    requires Distinct(before + [id] + after)
    ensures Distinct(after) && id !in after
  {
    var all := before + [id] + after;
    assert all[|before|] == id;
    assert forall a :: 0 <= a < |after| ==> all[|before| + 1 + a] == after[a];
  }

  lemma {:induction false} LaterWithin(history: seq<string>, i: nat, k: nat, x: string)
    requires i <= k < |history| && x in history[k + 1..]
    ensures x in history[i + 1..]
  {
    var b :| 0 <= b < |history[k + 1..]| && history[k + 1..][b] == x;
    assert history[i + 1..][k - i + b] == x;
  }

  /** An id that was remembered and then forgotten was displaced by `n` other distinct ids. */
  lemma {:induction false} ForgottenMeansDisplaced(history: seq<string>, i: nat, n: nat)
    requires i < |history| && n >= 1
    requires history[i] !in Kept(history, n)
    ensures |SetOf(history[i + 1..]) - {history[i]}| >= n
  {
    var id := history[i];
    var k := LastUse(history, id);
    var before, after := AfterLastUse(history, k);
    LedgerIsRecentTail(history, n);
    MostRecentDistinct(history);
    MiddleDistinct(before, id, after);
    DistinctCount(after);
    forall x | x in SetOf(after) ensures x in SetOf(history[i + 1..]) - {id} {
      LaterWithin(history, i, k, x);
    }
    SubsetCount(SetOf(after), SetOf(history[i + 1..]) - {id});
    assert |after| >= n by {
      if |after| < n {
        TailHolds(before, id, after, n);
      }
    }
  }
}
