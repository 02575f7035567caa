/**
 The post-trade journal: for each new trade append an entry, then save the cursor. A crash
 can fall anywhere between those writes.
 */
module TradeJournal {
  /** Position ids as they come out of JSON: text, or a bare number. */
  datatype RawId = Text(text: string) | Number(n: int)

  datatype Trade = Trade(id: RawId, source: int)

  /** The text under which trades are merged. An empty id, or the number zero, counts as none. */
  function IdText(id: RawId): string {
    match id
    case Text(t) => t
    case Number(n) => if n == 0 then "" else Decimal(n)
  }

  function Digits(n: nat): string {
    if n < 10 then ['0' + n as char] else Digits(n / 10) + ['0' + (n % 10) as char]
  }

  function Decimal(n: int): string {
    if n < 0 then "-" + Digits(-n) else Digits(n)
  }

  /** Trades by id text, the first of each text winning. */
  function Merged(trades: seq<Trade>): seq<Trade> {
    if trades == [] then []
    else
      var before, last := Merged(trades[..|trades| - 1]), trades[|trades| - 1];
      if IdText(last.id) == "" || HasText(before, IdText(last.id)) then before else before + [last]
  }

  predicate HasText(trades: seq<Trade>, text: string) {
    exists i :: 0 <= i < |trades| && IdText(trades[i].id) == text
  }

  /** The dictionary of the merge: its keys are the texts of the trades kept so far. */
  ghost predicate KeysAreTexts(byText: map<string, Trade>, trades: seq<Trade>) {
    forall text :: text in byText <==> HasText(trades, text)
  }

  lemma {:induction false} OneMoreText(byText: map<string, Trade>, trades: seq<Trade>, t: Trade)
    requires KeysAreTexts(byText, trades)
    ensures KeysAreTexts(byText[IdText(t.id) := t], trades + [t])
  {
    var more := trades + [t];
    forall text ensures HasText(more, text) <==> HasText(trades, text) || text == IdText(t.id) {
      if HasText(trades, text) {
        var k :| 0 <= k < |trades| && IdText(trades[k].id) == text;
        assert more[k] == trades[k];
      }
      assert more[|trades|] == t;
    }
  }

  /** One more trade of the input: kept when its text is neither empty nor there already. */
  lemma {:induction false} MergedStep(all: seq<Trade>, i: nat)
    requires i < |all|
    ensures Merged(all[..i + 1]) ==
            if IdText(all[i].id) == "" || HasText(Merged(all[..i]), IdText(all[i].id)) then Merged(all[..i])
            else Merged(all[..i]) + [all[i]]
  {
    assert all[..i + 1][..i] == all[..i];
  }

  method MergeTrades(fromState: seq<Trade>, fromEvents: seq<Trade>) returns (merged: seq<Trade>)
    ensures merged == Merged(fromState + fromEvents)
  {
    var all := fromState + fromEvents;
    var byText: map<string, Trade> := map[];
    merged := [];
    for i := 0 to |all|
      invariant merged == Merged(all[..i])
      invariant KeysAreTexts(byText, merged)
    {
      MergedStep(all, i);
      var text := IdText(all[i].id);
      if text != "" && text !in byText {
        OneMoreText(byText, merged, all[i]);
        merged := merged + [all[i]];
        byText := byText[text := all[i]];
      }
    }
    assert all[..|all|] == all;
  }

  /** Trades whose id is not in the cursor, compared as stored. */
  function NewTrades(trades: seq<Trade>, cursor: seq<RawId>): seq<Trade> {
    if trades == [] then []
    else
      NewTrades(trades[..|trades| - 1], cursor) +
      (if trades[|trades| - 1].id !in cursor then [trades[|trades| - 1]] else [])
  }

  /** The two files: journal entries by id, and the cursor. */
  datatype Files = Files(journal: seq<RawId>, cursor: seq<RawId>)

  /** Where a run dies, counted in new trades already finished; `Finishes` means nowhere. */
  datatype Crash = Finishes | BeforeAppend(done: nat) | BeforeCursor(done: nat)

  function Ids(trades: seq<Trade>): (ids: seq<RawId>)
    ensures |ids| == |trades| && forall i :: 0 <= i < |ids| ==> ids[i] == trades[i].id
  {
    seq(|trades|, i requires 0 <= i < |trades| => trades[i].id)
  }

  /** How many new trades are journalled, and how many reach the cursor. */
  function Appended(count: nat, crash: Crash): nat {
    match crash
    case Finishes => count
    case BeforeAppend(done) => if done < count then done else count
    case BeforeCursor(done) => if done < count then done + 1 else count
  }

  function Saved(count: nat, crash: Crash): nat {
    match crash
    case Finishes => count
    case BeforeAppend(done) => if done < count then done else count
    case BeforeCursor(done) => if done < count then done else count
  }

  function Ran(f: Files, trades: seq<Trade>, crash: Crash): Files {
    var ids := Ids(NewTrades(Merged(trades), f.cursor));
    Files(f.journal + ids[..Appended(|ids|, crash)], f.cursor + ids[..Saved(|ids|, crash)])
  }

  class JournalWriter {
    var journal: seq<RawId>
    var cursor: seq<RawId>

    function State(): Files
      reads this
    {
      Files(journal, cursor)
    }

    constructor ()
      ensures State() == Files([], [])
    {
      journal, cursor := [], [];
    }

    /** One run of the job, dying where `crash` says. */
    method Run(fromState: seq<Trade>, fromEvents: seq<Trade>, crash: Crash)
      modifies this
      ensures State() == Ran(old(State()), fromState + fromEvents, crash)
    {
      var trades := MergeTrades(fromState, fromEvents);
      var unseen := FindNewTrades(trades, cursor);
      var journalled := cursor;
      ghost var ids := Ids(unseen);
      for k := 0 to |unseen|
        invariant journal == old(journal) + ids[..k]
        invariant cursor == journalled == old(cursor) + ids[..k]
        invariant crash.BeforeAppend? || crash.BeforeCursor? ==> k <= crash.done
      {
        if crash == BeforeAppend(k) {
          return;
        }
        assert ids[..k + 1] == ids[..k] + [unseen[k].id];
        journal := journal + [unseen[k].id];
        if crash == BeforeCursor(k) {
          return;
        }
        journalled := journalled + [unseen[k].id];
        cursor := journalled;
      }
      assert ids[..|unseen|] == ids;
    }
  }

  method FindNewTrades(trades: seq<Trade>, cursor: seq<RawId>) returns (unseen: seq<Trade>)
    ensures unseen == NewTrades(trades, cursor)
  {
    unseen := [];
    for i := 0 to |trades|
      invariant unseen == NewTrades(trades[..i], cursor)
    {
      assert trades[..i + 1][..i] == trades[..i];
      if trades[i].id !in cursor {
        unseen := unseen + [trades[i]];
      }
    }
    assert trades[..|trades|] == trades;
  }

  // ---------------------------------------------------------------- merging and selecting

  predicate Distinct(ids: seq<RawId>) {
    ids == [] || (Distinct(ids[..|ids| - 1]) && ids[|ids| - 1] !in ids[..|ids| - 1])
  }

  /**
   Merging keeps one trade per id text, always a trade of the input, and drops no text.
   */
  lemma {:induction false} MergedOncePerText(trades: seq<Trade>)
    ensures forall i, j :: 0 <= i < j < |Merged(trades)| ==> IdText(Merged(trades)[i].id) != IdText(Merged(trades)[j].id)
    ensures forall i :: 0 <= i < |Merged(trades)| ==> Merged(trades)[i] in trades && IdText(Merged(trades)[i].id) != ""
    ensures forall t :: t in trades && IdText(t.id) != "" ==> HasText(Merged(trades), IdText(t.id))
  {
    if trades != [] {
      var before, last := trades[..|trades| - 1], trades[|trades| - 1];
      MergedOncePerText(before);
      forall t | t in trades && IdText(t.id) != "" ensures HasText(Merged(trades), IdText(t.id)) {
        MergedCovers(trades, t);
      }
    }
  }

  /** The trade at `k` is the first with its text, and has one: its id is neither empty nor the number zero. */
  predicate FirstOfText(trades: seq<Trade>, k: nat)
    requires k < |trades|
  {
    trades[k].id != Text("") && trades[k].id != Number(0) && forall j :: 0 <= j < k ==> IdText(trades[j].id) != IdText(trades[k].id)
  }

  /** The trades that are the first of their text, in order. */
  function Firsts(trades: seq<Trade>, n: nat): seq<Trade>
    requires n <= |trades|
  {
    if n == 0 then [] else if FirstOfText(trades, n - 1) then Firsts(trades, n - 1) + [trades[n - 1]] else Firsts(trades, n - 1)
  }

  /** A text is among the kept ones exactly when some trade of the input has it. */
  lemma {:induction false} KeptIffSeen(trades: seq<Trade>, text: string)
    requires text != ""
    ensures HasText(Merged(trades), text) <==> exists j :: 0 <= j < |trades| && IdText(trades[j].id) == text
  {
    MergedOncePerText(trades);
    if HasText(Merged(trades), text) {
      var k :| 0 <= k < |Merged(trades)| && IdText(Merged(trades)[k].id) == text;
      assert Merged(trades)[k] in trades;
      var j :| 0 <= j < |trades| && trades[j] == Merged(trades)[k];
    }
    if j :| 0 <= j < |trades| && IdText(trades[j].id) == text {
      assert trades[j] in trades;
    }
  }

  lemma {:induction false} NoTextIff(id: RawId)
    ensures IdText(id) == "" <==> id == Text("") || id == Number(0)
  {
    if id.Number? {
      DigitsShape(if id.n < 0 then -id.n else id.n);
    }
  }

  lemma {:induction false} FirstIffNotKept(trades: seq<Trade>, k: nat)
    requires k < |trades| && IdText(trades[k].id) != ""
    ensures FirstOfText(trades, k) <==> !HasText(Merged(trades[..k]), IdText(trades[k].id))
  {
    var text, before := IdText(trades[k].id), trades[..k];
    NoTextIff(trades[k].id);
    KeptIffSeen(before, text);
    forall j | 0 <= j < k ensures before[j] == trades[j] {}
    if !FirstOfText(trades, k) {
      var j :| 0 <= j < k && IdText(trades[j].id) == text;
      assert IdText(before[j].id) == text;
    }
  }

  /** Merging keeps exactly the first trade of every text, in the order of the input. */
  lemma {:induction false} MergedAreFirsts(trades: seq<Trade>, n: nat)
    requires n <= |trades|
    ensures Merged(trades[..n]) == Firsts(trades, n)
  {
    if n > 0 {
      MergedAreFirsts(trades, n - 1);
      MergedStep(trades, n - 1);
      NoTextIff(trades[n - 1].id);
      if IdText(trades[n - 1].id) != "" {
        FirstIffNotKept(trades, n - 1);
      }
    }
  }

  lemma {:induction false} MergedCovers(trades: seq<Trade>, t: Trade)
    requires t in trades && IdText(t.id) != ""
    ensures HasText(Merged(trades), IdText(t.id))
  {
    var before, last := trades[..|trades| - 1], trades[|trades| - 1];
    if t in before {
      MergedCovers(before, t);
      var k :| 0 <= k < |Merged(before)| && IdText(Merged(before)[k].id) == IdText(t.id);
      assert Merged(trades)[k] == Merged(before)[k];
    } else if !HasText(Merged(before), IdText(t.id)) {
      assert Merged(trades)[|Merged(before)|] == t;
    }
  }

  lemma {:induction false} NewTradesAreUnseen(trades: seq<Trade>, cursor: seq<RawId>)
    ensures forall t :: t in NewTrades(trades, cursor) <==> t in trades && t.id !in cursor
  {
    if trades != [] {
      NewTradesAreUnseen(trades[..|trades| - 1], cursor);
    }
  }

  /** The ids a run works through are distinct and new to the cursor. */
  lemma {:induction false} WorklistDistinct(trades: seq<Trade>, cursor: seq<RawId>)
    requires forall i, j :: 0 <= i < j < |trades| ==> trades[i].id != trades[j].id
    ensures Distinct(Ids(NewTrades(trades, cursor)))
  {
    if trades != [] {
      var before, last := trades[..|trades| - 1], trades[|trades| - 1];
      WorklistDistinct(before, cursor);
      if last.id !in cursor {
        var ids := Ids(NewTrades(before, cursor));
        assert Ids(NewTrades(trades, cursor)) == ids + [last.id];
        assert (ids + [last.id])[..|ids|] == ids;
        NewTradesAreUnseen(before, cursor);
        forall k | 0 <= k < |ids| ensures ids[k] != last.id {
          assert NewTrades(before, cursor)[k] in before;
        }
      } else {
        assert Ids(NewTrades(trades, cursor)) == Ids(NewTrades(before, cursor));
      }
    }
  }

  lemma {:induction false} DistinctPrefix(ids: seq<RawId>, k: nat)
    requires Distinct(ids) && k <= |ids|
    ensures Distinct(ids[..k])
  {
    if k < |ids| {
      DistinctPrefix(ids[..|ids| - 1], k);
      assert ids[..|ids| - 1][..k] == ids[..k];
    } else {
      assert ids[..k] == ids;
    }
  }

  lemma {:induction false} DistinctConcat(a: seq<RawId>, b: seq<RawId>)
    requires Distinct(a) && Distinct(b) && forall id :: id in b ==> id !in a
    ensures Distinct(a + b)
  {
    if b == [] {
      assert a + b == a;
    } else {
      DistinctConcat(a, b[..|b| - 1]);
      assert (a + b)[..|a + b| - 1] == a + b[..|b| - 1];
    }
  }

  // ---------------------------------------------------------------- runs of the job

  /** One start of the job: the closed trades it sees and where it dies. */
  datatype Start = Start(trades: seq<Trade>, crash: Crash)

  function After(starts: seq<Start>): Files {
    if starts == [] then Files([], [])
    else Ran(After(starts[..|starts| - 1]), starts[|starts| - 1].trades, starts[|starts| - 1].crash)
  }

  /** The ids a start finds to do. */
  function Worklist(f: Files, trades: seq<Trade>): seq<RawId> {
    Ids(NewTrades(Merged(trades), f.cursor))
  }

  /** The crash falls after an append and before the cursor is saved. */
  predicate Struck(f: Files, start: Start) {
    start.crash.BeforeCursor? && start.crash.done < |Worklist(f, start.trades)|
  }

  /** The ids appended but not saved, one for every such crash. */
  function Unsaved(starts: seq<Start>): seq<RawId> {
    if starts == [] then []
    else
      var f, last := After(starts[..|starts| - 1]), starts[|starts| - 1];
      Unsaved(starts[..|starts| - 1]) + (if Struck(f, last) then [Worklist(f, last.trades)[last.crash.done]] else [])
  }

  function StrikeCount(starts: seq<Start>): nat {
    if starts == [] then 0
    else StrikeCount(starts[..|starts| - 1]) + (if Struck(After(starts[..|starts| - 1]), starts[|starts| - 1]) then 1 else 0)
  }

  /** What one start adds to the two files. */
  lemma {:induction false} RunAdds(f: Files, start: Start)
    ensures var ids, g := Worklist(f, start.trades), Ran(f, start.trades, start.crash);
            var saved := Saved(|ids|, start.crash);
            && saved <= |ids| && g.cursor == f.cursor + ids[..saved]
            && g.journal == f.journal + ids[..saved] + (if Struck(f, start) then [ids[saved]] else [])
            && (Struck(f, start) ==> saved == start.crash.done)
  {
    var ids := Worklist(f, start.trades);
    var saved := Saved(|ids|, start.crash);
    if Struck(f, start) {
      assert ids[..saved + 1] == ids[..saved] + [ids[saved]];
    }
  }

  /** Counting what one start adds: the journal stays ahead of the cursor by the unsaved ids. */
  lemma {:induction false} AheadByOne(f: Files, start: Start, behind: seq<RawId>)
    requires multiset(f.journal) == multiset(f.cursor) + multiset(behind)
    requires |f.journal| == |f.cursor| + |behind|
    ensures var g := Ran(f, start.trades, start.crash);
            var more := behind + (if Struck(f, start) then [Worklist(f, start.trades)[start.crash.done]] else []);
            multiset(g.journal) == multiset(g.cursor) + multiset(more) && |g.journal| == |g.cursor| + |more|
  {
    RunAdds(f, start);
  }

  /** A start leaves the cursor's ids distinct. */
  lemma {:induction false} CursorStaysDistinct(f: Files, start: Start)
    requires Distinct(f.cursor)
    ensures Distinct(Ran(f, start.trades, start.crash).cursor)
  {
    var ids := Worklist(f, start.trades);
    var saved := Saved(|ids|, start.crash);
    RunAdds(f, start);
    WorklistIsNew(f, start.trades);
    DistinctPrefix(ids, saved);
    DistinctConcat(f.cursor, ids[..saved]);
  }

  /** The worklist has no repeats and nothing that is in the cursor. */
  lemma {:induction false} WorklistIsNew(f: Files, trades: seq<Trade>)
    ensures Distinct(Worklist(f, trades)) && forall id :: id in Worklist(f, trades) ==> id !in f.cursor
  {
    var work := NewTrades(Merged(trades), f.cursor);
    MergedOncePerText(trades);
    WorklistDistinct(Merged(trades), f.cursor);
    NewTradesAreUnseen(Merged(trades), f.cursor);
    forall id | id in Worklist(f, trades) ensures id !in f.cursor {
      var k :| 0 <= k < |work| && work[k].id == id;
      assert work[k] in work;
    }
  }

  /**
   After any starts and crashes the cursor's ids are distinct, and the journal holds exactly
   the cursor's ids plus one more entry for every crash between an append and its save.
   */
  lemma {:induction false} JournalAheadOfCursor(starts: seq<Start>)
    ensures var f := After(starts);
            && Distinct(f.cursor)
            && multiset(f.journal) == multiset(f.cursor) + multiset(Unsaved(starts))
            && |f.journal| == |f.cursor| + StrikeCount(starts)
            && |Unsaved(starts)| == StrikeCount(starts)
  {
    if starts != [] {
      var before, last := starts[..|starts| - 1], starts[|starts| - 1];
      JournalAheadOfCursor(before);
      CursorStaysDistinct(After(before), last);
      AheadByOne(After(before), last, Unsaved(before));
    }
  }

  /** So every id in the cursor is in the journal. */
  lemma {:induction false} CursorWithinJournal(starts: seq<Start>, id: RawId)
    requires id in After(starts).cursor
    ensures id in After(starts).journal
  {
    JournalAheadOfCursor(starts);
    assert id in multiset(After(starts).cursor);
    assert id in multiset(After(starts).journal);
  }

  /**
   A start that comes to its end leaves every trade it saw in both files, and a start that
   dies leaves at least one of its new trades out of the cursor.
   */
  lemma {:induction false} CompleteIffNothingLeft(starts: seq<Start>, start: Start)
    ensures var f := After(starts + [start]);
            var ids := Worklist(After(starts), start.trades);
            (forall t :: t in Merged(start.trades) ==> t.id in f.cursor) <==> Saved(|ids|, start.crash) == |ids|
    ensures Saved(|Worklist(After(starts), start.trades)|, start.crash) == |Worklist(After(starts), start.trades)| ==>
            forall t :: t in start.trades && IdText(t.id) != "" ==>
              exists id :: id in After(starts + [start]).journal && IdText(id) == IdText(t.id)
  {
    var f, g := After(starts), After(starts + [start]);
    assert (starts + [start])[..|starts|] == starts;
    var merged := Merged(start.trades);
    var work := NewTrades(merged, f.cursor);
    var ids := Worklist(f, start.trades);
    var saved := Saved(|ids|, start.crash);
    RunAdds(f, start);
    NewTradesAreUnseen(merged, f.cursor);
    if saved == |ids| {
      assert ids[..saved] == ids;
      forall t | t in merged ensures t.id in g.cursor {
        if t.id !in f.cursor {
          var k :| 0 <= k < |work| && work[k] == t;
          assert ids[k] == t.id;
        }
      }
      forall t | t in start.trades && IdText(t.id) != ""
        ensures exists id :: id in g.journal && IdText(id) == IdText(t.id)
      {
        MergedOncePerText(start.trades);
        var k :| 0 <= k < |merged| && IdText(merged[k].id) == IdText(t.id);
        assert merged[k] in merged;
        CursorWithinJournal(starts + [start], merged[k].id);
      }
    } else {
      LeftOut(f, start);
    }
  }

  /** The first trade a dying start did not save is missing from the cursor. */
  lemma {:induction false} LeftOut(f: Files, start: Start)
    requires Saved(|Worklist(f, start.trades)|, start.crash) < |Worklist(f, start.trades)|
    ensures exists t :: t in Merged(start.trades) && t.id !in Ran(f, start.trades, start.crash).cursor
  {
    var work := NewTrades(Merged(start.trades), f.cursor);
    var ids := Worklist(f, start.trades);
    var saved := Saved(|ids|, start.crash);
    RunAdds(f, start);
    WorklistIsNew(f, start.trades);
    NewTradesAreUnseen(Merged(start.trades), f.cursor);
    assert work[saved] in work && ids[saved] in ids;
    DistinctAt(ids, saved);
  }

  lemma {:induction false} DistinctAt(ids: seq<RawId>, k: nat)
    requires Distinct(ids) && k < |ids|
    ensures ids[k] !in ids[..k]
  {
    DistinctPrefix(ids, k + 1);
    assert ids[..k + 1][..k] == ids[..k];
  }

  // ---------------------------------------------------------------- two forms of one id

  lemma {:induction false} DigitsInjective(a: nat, b: nat)
    requires Digits(a) == Digits(b)
    ensures a == b
  {
    DigitsShape(a);
    DigitsShape(b);
    if a >= 10 && b >= 10 {
      var da, db := Digits(a), Digits(b);
      assert da[..|da| - 1] == Digits(a / 10) && db[..|db| - 1] == Digits(b / 10);
      assert da[|da| - 1] == db[|db| - 1];
      DigitsInjective(a / 10, b / 10);
    } else if a >= 10 {
      DigitsShape(a / 10);
    } else if b >= 10 {
      DigitsShape(b / 10);
    }
  }

  lemma {:induction false} DigitsShape(n: nat)
    ensures |Digits(n)| >= 1 && Digits(n)[0] != '-'
  {
    if n >= 10 {
      DigitsShape(n / 10);
    }
  }

  lemma {:induction false} DecimalInjective(a: int, b: int)
    requires Decimal(a) == Decimal(b)
    ensures a == b
  {
    if a < 0 {
      DigitsShape(-a);
    } else {
      DigitsShape(a);
    }
    if b < 0 {
      DigitsShape(-b);
    } else {
      DigitsShape(b);
    }
    if a < 0 && b < 0 {
      assert Decimal(a)[1..] == Digits(-a) && Decimal(b)[1..] == Digits(-b);
      DigitsInjective(-a, -b);
    } else if a >= 0 && b >= 0 {
      DigitsInjective(a, b);
    }
  }

  /** Two different ids with the same text are the same digits, once as text and once as a number. */
  lemma {:induction false} SameTextForms(a: RawId, b: RawId)
    requires IdText(a) == IdText(b) != "" && a != b
    ensures a.Text? != b.Text?
  {
    if a.Number? && b.Number? {
      DecimalInjective(a.n, b.n);
    }
  }

  lemma {:induction false} DistinctPositions(ids: seq<RawId>, i: nat, j: nat)
    requires Distinct(ids) && i < j < |ids|
    ensures ids[i] != ids[j]
  {
    if j < |ids| - 1 {
      DistinctPositions(ids[..|ids| - 1], i, j);
    }
  }

  predicate Seen(start: Start, id: RawId) {
    exists k :: 0 <= k < |Merged(start.trades)| && Merged(start.trades)[k].id == id
  }

  /** Some start's merged trades hold this raw id. */
  ghost predicate EverSeen(starts: seq<Start>, id: RawId) {
    exists i :: 0 <= i < |starts| && Seen(starts[i], id)
  }

  /** Without any crash both files hold exactly the raw ids that were ever seen. */
  lemma {:induction false} CrashFreeFiles(starts: seq<Start>, id: RawId)
    requires forall i :: 0 <= i < |starts| ==> starts[i].crash.Finishes?
    ensures After(starts).journal == After(starts).cursor
    ensures id in After(starts).cursor <==> EverSeen(starts, id)
  {
    if starts != [] {
      var front, last := starts[..|starts| - 1], starts[|starts| - 1];
      CrashFreeFiles(front, id);
      SeenByLast(starts, id);
      FinishedAdds(After(front), last, id);
    }
  }

  lemma {:induction false} SeenByLast(starts: seq<Start>, id: RawId)
    requires starts != []
    ensures EverSeen(starts, id) <==> EverSeen(starts[..|starts| - 1], id) || Seen(starts[|starts| - 1], id)
  {
    var front := starts[..|starts| - 1];
    if EverSeen(front, id) {
      var i :| 0 <= i < |front| && Seen(front[i], id);
      assert starts[i] == front[i];
    }
    if i :| 0 <= i < |starts| && Seen(starts[i], id) {
      assert i == |front| || front[i] == starts[i];
    }
  }

  lemma {:induction false} FinishedAdds(f: Files, start: Start, id: RawId)
    requires start.crash.Finishes? && f.journal == f.cursor
    ensures var g := Ran(f, start.trades, start.crash);
            g.journal == g.cursor && (id in g.cursor <==> id in f.cursor || Seen(start, id))
  {
    var merged := Merged(start.trades);
    var work, ids := NewTrades(merged, f.cursor), Worklist(f, start.trades);
    assert ids[..|ids|] == ids;
    NewTradesAreUnseen(merged, f.cursor);
    if id in ids {
      var k :| 0 <= k < |ids| && ids[k] == id;
      assert work[k] in work;
    }
    if Seen(start, id) && id !in f.cursor {
      var k :| 0 <= k < |merged| && merged[k].id == id;
      assert merged[k] in work;
      var j :| 0 <= j < |work| && work[j] == merged[k];
      assert ids[j] == id;
    }
  }

  ghost predicate JournalledTwice(journal: seq<RawId>, text: string) {
    exists i, j :: 0 <= i < j < |journal| && IdText(journal[i]) == text == IdText(journal[j])
  }

  /**
   Without any crash a position is journalled twice if and only if the job saw its id both as
   text and as a number.
   */
  lemma {:induction false} TwiceIffBothForms(starts: seq<Start>, text: string)
    requires text != "" && forall i :: 0 <= i < |starts| ==> starts[i].crash.Finishes?
    ensures JournalledTwice(After(starts).journal, text) <==>
            EverSeen(starts, Text(text)) && exists n: int :: IdText(Number(n)) == text && EverSeen(starts, Number(n))
  {
    if JournalledTwice(After(starts).journal, text) {
      var i, j :| 0 <= i < j < |After(starts).journal|
                  && IdText(After(starts).journal[i]) == text == IdText(After(starts).journal[j]);
      TwiceMeansBothForms(starts, i, j);
    }
    if n: int :| IdText(Number(n)) == text && EverSeen(starts, Number(n)) {
      if EverSeen(starts, Text(text)) {
        CrashFreeFiles(starts, Text(text));
        CrashFreeFiles(starts, Number(n));
        TwoPlaces(After(starts).journal, Text(text), Number(n));
      }
    }
  }

  lemma {:induction false} CursorAlwaysDistinct(starts: seq<Start>)
    ensures Distinct(After(starts).cursor)
  {
    if starts != [] {
      CursorAlwaysDistinct(starts[..|starts| - 1]);
      CursorStaysDistinct(After(starts[..|starts| - 1]), starts[|starts| - 1]);
    }
  }

  lemma {:induction false} TwiceMeansBothForms(starts: seq<Start>, i: nat, j: nat)
    requires forall k :: 0 <= k < |starts| ==> starts[k].crash.Finishes?
    requires i < j < |After(starts).journal|
    requires IdText(After(starts).journal[i]) == IdText(After(starts).journal[j]) != ""
    ensures var text := IdText(After(starts).journal[i]);
            EverSeen(starts, Text(text)) && exists n: int :: IdText(Number(n)) == text && EverSeen(starts, Number(n))
  {
    var a, b := After(starts).journal[i], After(starts).journal[j];
    CrashFreeFiles(starts, a);
    CrashFreeFiles(starts, b);
    CursorAlwaysDistinct(starts);
    DistinctPositions(After(starts).journal, i, j);
    SameTextForms(a, b);
    var number := if a.Number? then a else b;
    assert EverSeen(starts, Number(number.n));
  }

  lemma {:induction false} TwoPlaces(journal: seq<RawId>, a: RawId, b: RawId)
    requires a in journal && b in journal && a != b && IdText(a) == IdText(b)
    ensures JournalledTwice(journal, IdText(a))
  {
    var i :| 0 <= i < |journal| && journal[i] == a;
    var j :| 0 <= j < |journal| && journal[j] == b;
    if i < j {
      assert IdText(journal[i]) == IdText(a) == IdText(journal[j]);
    } else {
      assert IdText(journal[j]) == IdText(a) == IdText(journal[i]);
    }
  }

  /** One position, seen first with a number and then with text for its id, is journalled twice. */
  lemma {:induction false} MixedFormsTwice()
    ensures var starts := [Start([Trade(Number(5), 0)], Finishes), Start([Trade(Text("5"), 0)], Finishes)];
            && IdText(Number(5)) == IdText(Text("5")) == "5" && StrikeCount(starts) == 0
            && After(starts).journal == [Number(5), Text("5")]
  {
    var t, u := Trade(Number(5), 0), Trade(Text("5"), 0);
    assert Decimal(5) == Digits(5) == "5";
    OneTrade(Files([], []), t);
    OneTrade(Files([Number(5)], [Number(5)]), u);
    OneMoreStart([], Start([t], Finishes));
    OneMoreStart([Start([t], Finishes)], Start([u], Finishes));
    assert [] + [Start([t], Finishes)] == [Start([t], Finishes)];
    assert [Start([t], Finishes)] + [Start([u], Finishes)] == [Start([t], Finishes), Start([u], Finishes)];
    assert [] + [Number(5)] == [Number(5)] && [Number(5)] + [Text("5")] == [Number(5), Text("5")];
  }

  lemma {:induction false} OneMoreStart(starts: seq<Start>, start: Start)
    requires start.crash.Finishes?
    ensures After(starts + [start]) == Ran(After(starts), start.trades, Finishes)
    ensures StrikeCount(starts + [start]) == StrikeCount(starts)
  {
    assert (starts + [start])[..|starts|] == starts;
    assert (starts + [start])[|starts|] == start;
    assert !Struck(After(starts), start);
  }

  /** A finished start that sees one trade with a new id adds that id to both files. */
  lemma {:induction false} OneTrade(f: Files, t: Trade)
    requires IdText(t.id) != "" && t.id !in f.cursor
    ensures Worklist(f, [t]) == [t.id]
    ensures Ran(f, [t], Finishes) == Files(f.journal + [t.id], f.cursor + [t.id])
  {
    assert [t][..0] == [] && [t][0] == t;
    assert Merged([t]) == Merged([]) + [t] == [t];
    assert NewTrades([t], f.cursor) == NewTrades([], f.cursor) + [t] == [t];
    assert Ids([t]) == [t.id];
  }
}
