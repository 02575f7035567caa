/**
 Signed manual commands: verification, the in-process set of seen ids and the persistent
 guard together accept a command at most once per process, and again only once displaced.
 */
module ManualCommands {
  import opened Trading
  import opened Basics
  import opened ReplayGuard

  /** An envelope as the verifier sees it; the signature check is a given predicate. */
  datatype Envelope = Envelope(
    id: string, legacy: bool, schemaOk: bool, hasPayload: bool, hasSignature: bool,
    expiresAt: Option<int>, signatureValid: bool)

  datatype CommandFile = NoFile | Unreadable | NotAnObject | Content(envelope: Envelope)

  datatype Rejection =
    | SecretUnset | UnsignedLegacy | UnsupportedSchema | Malformed | Duplicate | Expired | BadSignature
    | ReadError | LedgerError

  /** `Raised` stands for an I/O error that leaves the consumer without a result. */
  datatype Outcome = Nothing | Accepted(id: string) | Rejected(why: Rejection) | Raised

  /** What the ledger file does on access; a failed write may still have replaced the file. */
  datatype LedgerIo = IoOk | ReadFails | WriteFails(replaced: bool)

  datatype Arrival = Arrival(now: int, secretSet: bool, file: CommandFile, io: LedgerIo)

  /** The verdict on an envelope before the persistent guard is asked. */
  function Verified(x: Envelope, now: int, secretSet: bool, seen: set<string>): Outcome {
    if !secretSet then Rejected(SecretUnset)
    else if x.legacy then Rejected(UnsignedLegacy)
    else if !x.schemaOk then Rejected(UnsupportedSchema)
    else if x.id == "" || !x.hasPayload || !x.hasSignature then Rejected(Malformed)
    else if x.id in seen then Rejected(Duplicate)
    else if x.expiresAt.None? then Rejected(Malformed)
    else if now > x.expiresAt.value then Rejected(Expired)
    else if !x.signatureValid then Rejected(BadSignature)
    else Accepted(x.id)
  }

  predicate Knows(file: LedgerFile, n: nat, id: string)
    requires Loaded(file, n).Some?
  {
    exists e :: e in Loaded(file, n).value && e.id == id
  }

  function Remembered(file: LedgerFile, n: nat, id: string, now: int): LedgerFile
    requires Loaded(file, n).Some?
  {
    Rows(AsRows(LastN(WithoutId(Loaded(file, n).value, id) + [Entry(id, now)], n)))
  }

  /** The guard's answer to a verified command, and the ledger file afterwards. */
  function Guarded(file: LedgerFile, n: nat, id: string, now: int, io: LedgerIo): (Outcome, LedgerFile) {
    if io.ReadFails? then (Raised, file)
    else if Loaded(file, n).None? then (Rejected(LedgerError), file)
    else if Knows(file, n, id) then (Rejected(Duplicate), file)
    else
      match io
      case WriteFails(replaced) => (Raised, if replaced then Remembered(file, n, id, now) else file)
      case _ => (Accepted(id), Remembered(file, n, id, now))
  }

  /** Process memory and the persistent ledger. */
  datatype Desk = Desk(seen: set<string>, file: LedgerFile)

  function Consumed(d: Desk, n: nat, a: Arrival): (Outcome, Desk) {
    match a.file
    case NoFile => (Nothing, d)
    case Unreadable => (Rejected(ReadError), d)
    case NotAnObject => (Rejected(Malformed), d)
    case Content(x) =>
      var v := Verified(x, a.now, a.secretSet, d.seen);
      if !v.Accepted? then (v, d)
      else
        var (outcome, file) := Guarded(d.file, n, x.id, a.now, a.io);
        (outcome, Desk(d.seen + {x.id}, file))
  }

  /** The consumer as an object: the command file is removed, ids are remembered in place. */
  class CommandDesk {
    const guard: CommandReplayGuard
    var seen: set<string>
    var commandFile: CommandFile

    constructor (guard: CommandReplayGuard)
      ensures this.guard == guard && seen == {} && commandFile == NoFile
    {
      this.guard, seen, commandFile := guard, {}, NoFile;
    }

    function State(): Desk
      reads this, guard
    {
      Desk(seen, guard.file)
    }

    method Verify(x: Envelope, now: int, secretSet: bool) returns (outcome: Outcome)
      modifies this`seen
      ensures outcome == Verified(x, now, secretSet, old(seen))
      ensures seen == if outcome.Accepted? then old(seen) + {x.id} else old(seen)
    {
      if !secretSet {
        return Rejected(SecretUnset);
      }
      if x.legacy {
        return Rejected(UnsignedLegacy);
      }
      if !x.schemaOk {
        return Rejected(UnsupportedSchema);
      }
      if x.id == "" || !x.hasPayload || !x.hasSignature {
        return Rejected(Malformed);
      }
      if x.id in seen {
        return Rejected(Duplicate);
      }
      if x.expiresAt.None? {
        return Rejected(Malformed);
      }
      if now > x.expiresAt.value {
        return Rejected(Expired);
      }
      if !x.signatureValid {
        return Rejected(BadSignature);
      }
      seen := seen + {x.id};
      return Accepted(x.id);
    }

    /** `unlinks` says whether removing the command file succeeds; the source goes on either way. */
    method ConsumeCommandFile(now: int, secretSet: bool, unlinks: bool, io: LedgerIo) returns (outcome: Outcome)
      modifies this, guard`file
      ensures (outcome, State()) == Consumed(old(State()), guard.maxEntries, Arrival(now, secretSet, old(commandFile), io))
      ensures commandFile == if old(commandFile).Unreadable? || !unlinks then old(commandFile) else NoFile
    {
      var content := commandFile;
      if content.NoFile? {
        return Nothing;
      }
      if content.Unreadable? {
        return Rejected(ReadError);
      }
      if unlinks {
        commandFile := NoFile;
      }
      if content.NotAnObject? {
        return Rejected(Malformed);
      }
      var x := content.envelope;
      outcome := Verify(x, now, secretSet);
      if outcome.Accepted? {
        if io.ReadFails? {
          return Raised;
        }
        var known := guard.Contains(x.id);
        if known.None? {
          return Rejected(LedgerError);
        }
        if known.value {
          return Rejected(Duplicate);
        }
        if io == WriteFails(false) {
          return Raised;
        }
        var ok := guard.Remember(x.id, now);
        if io.WriteFails? {
          return Raised;
        }
      }
    }
  }

  // ---------------------------------------------------------------- runs with restarts

  /** `Replace` stands for anything else that happens to the ledger file, corruption included. */
  datatype Step = Consume(arrival: Arrival) | Restart | Replace(file: LedgerFile)

  /** One id written to the ledger, in which process life, and whether its payload got out. */
  datatype Stamp = Stamp(id: string, life: nat, accepted: bool)

  datatype System = System(desk: Desk, life: nat, stamps: seq<Stamp>)

  function StampOf(before: Desk, n: nat, a: Arrival, life: nat): seq<Stamp> {
    var (outcome, after) := Consumed(before, n, a);
    if outcome.Accepted? then [Stamp(outcome.id, life, true)]
    else if after.file != before.file && a.file.Content? then [Stamp(a.file.envelope.id, life, false)]
    else []
  }

  function Next(s: System, n: nat, step: Step): System {
    match step
    case Restart => System(Desk({}, s.desk.file), s.life + 1, s.stamps)
    case Replace(file) => s.(desk := s.desk.(file := file))
    case Consume(a) => System(Consumed(s.desk, n, a).1, s.life, s.stamps + StampOf(s.desk, n, a, s.life))
  }

  function After(n: nat, steps: seq<Step>): System {
    if steps == [] then System(Desk({}, Missing), 0, []) else Next(After(n, steps[..|steps| - 1]), n, steps[|steps| - 1])
  }

  function StampIds(stamps: seq<Stamp>): (ids: seq<string>)
    ensures |ids| == |stamps| && forall i :: 0 <= i < |ids| ==> ids[i] == stamps[i].id
  {
    seq(|stamps|, i requires 0 <= i < |stamps| => stamps[i].id)
  }

  // ---------------------------------------------------------------- the file follows the history

  lemma {:induction false} RowsReadBack(entries: seq<Entry>)
    ensures UsableEntries(AsRows(entries)) == entries
  {
    if entries != [] {
      assert AsRows(entries)[..|entries| - 1] == AsRows(entries[..|entries| - 1]);
      RowsReadBack(entries[..|entries| - 1]);
    }
  }

  lemma {:induction false} IdsWithout(entries: seq<Entry>, id: string)
    ensures Ids(WithoutId(entries, id)) == Drop(Ids(entries), id)
  {
    if entries != [] {
      IdsWithout(entries[..|entries| - 1], id);
      assert Ids(entries)[..|entries| - 1] == Ids(entries[..|entries| - 1]);
    }
  }

  /** The ledger file holds exactly the ids kept from a history. */
  ghost predicate Holds(file: LedgerFile, n: nat, history: seq<string>) {
    Loaded(file, n).Some? && Ids(Loaded(file, n).value) == Kept(history, n)
  }

  lemma {:induction false} IdsOfLastN(entries: seq<Entry>, n: nat)
    ensures Ids(LastN(entries, n)) == LastN(Ids(entries), n)
  {
  }

  lemma {:induction false} ReadBackKept(entries: seq<Entry>, n: nat)
    requires |entries| <= n
    ensures Loaded(Rows(AsRows(entries)), n) == Some(entries)
  {
    RowsReadBack(entries);
  }

  lemma {:induction false} RememberHolds(file: LedgerFile, n: nat, history: seq<string>, id: string, now: int)
    requires Holds(file, n, history)
    ensures Holds(Remembered(file, n, id, now), n, history + [id])
  {
    var entries := Loaded(file, n).value;
    var others := WithoutId(entries, id);
    var kept := LastN(others + [Entry(id, now)], n);
    ReadBackKept(kept, n);
    IdsWithout(entries, id);
    IdsOfLastN(others + [Entry(id, now)], n);
    assert Ids(others + [Entry(id, now)]) == Ids(others) + [id];
    assert (history + [id])[..|history|] == history;
  }

  lemma {:induction false} KnowsIffKept(file: LedgerFile, n: nat, history: seq<string>, id: string)
    requires Holds(file, n, history)
    ensures Knows(file, n, id) <==> id in Kept(history, n)
  {
    var entries := Loaded(file, n).value;
    if Knows(file, n, id) {
      var e :| e in entries && e.id == id;
      var i :| 0 <= i < |entries| && entries[i] == e;
      assert Ids(entries)[i] == id;
    }
    if id in Kept(history, n) {
      var i :| 0 <= i < |entries| && Ids(entries)[i] == id;
      assert entries[i] in entries;
    }
  }

  /** The ledger follows the stamps, and the process has seen every id it stamped itself. */
  ghost predicate InStep(s: System, n: nat) {
    Holds(s.desk.file, n, StampIds(s.stamps)) && SeenInLife(s)
  }

  ghost predicate SeenInLife(s: System) {
    forall i :: 0 <= i < |s.stamps| ==> s.stamps[i].life <= s.life && (s.stamps[i].life == s.life ==> s.stamps[i].id in s.desk.seen)
  }

  /** A stamp is of an id this life has not seen before and has seen from then on. */
  lemma {:induction false} NewStampIsUnseen(s: System, n: nat, a: Arrival)
    ensures var more := StampOf(s.desk, n, a, s.life);
            && |more| <= 1 && s.desk.seen <= Consumed(s.desk, n, a).1.seen
            && (more != [] ==> more[0].life == s.life && more[0].id !in s.desk.seen && more[0].id in Consumed(s.desk, n, a).1.seen)
  {
  }

  /** What the guard does decides the stamp. */
  lemma {:induction false} StampOfGuarded(d: Desk, n: nat, a: Arrival, life: nat)
    ensures if a.file.Content? && Verified(a.file.envelope, a.now, a.secretSet, d.seen).Accepted? then
              var id := a.file.envelope.id;
              var (outcome, file) := Guarded(d.file, n, id, a.now, a.io);
              && Consumed(d, n, a).1.file == file
              && StampOf(d, n, a, life) ==
                 if outcome.Accepted? then [Stamp(outcome.id, life, true)] else if file != d.file then [Stamp(id, life, false)] else []
            else Consumed(d, n, a).1.file == d.file && StampOf(d, n, a, life) == []
  {
  }

  lemma {:induction false} NewStamp(s: System, n: nat, a: Arrival)
    requires InStep(s, n)
    ensures var more := StampOf(s.desk, n, a, s.life);
            && (more != [] ==> more[0].id !in Kept(StampIds(s.stamps), n))
            && Holds(Consumed(s.desk, n, a).1.file, n, StampIds(s.stamps) + StampIds(more))
  {
    var history := StampIds(s.stamps);
    assert StampIds([]) == [] && history + [] == history;
    StampOfGuarded(s.desk, n, a, s.life);
    if a.file.Content? && Verified(a.file.envelope, a.now, a.secretSet, s.desk.seen).Accepted? {
      var id := a.file.envelope.id;
      GuardedFollows(s.desk.file, n, history, id, a.now, a.io);
      assert StampIds([Stamp(id, s.life, true)]) == [id] == StampIds([Stamp(id, s.life, false)]);
    }
  }

  /** The guard either leaves the ledger alone or adds an id that was not kept in it. */
  lemma {:induction false} GuardedFollows(file: LedgerFile, n: nat, history: seq<string>, id: string, now: int, io: LedgerIo)
    requires Holds(file, n, history)
    ensures var (outcome, after) := Guarded(file, n, id, now, io);
            && (outcome.Accepted? ==> outcome.id == id)
            && (outcome.Accepted? || after != file ==> id !in Kept(history, n) && Holds(after, n, history + [id]))
  {
    KnowsIffKept(file, n, history, id);
    RememberHolds(file, n, history, id, now);
  }

  /** Nothing but the guard touches the ledger file. */
  ghost predicate Undisturbed(steps: seq<Step>) {
    forall i :: 0 <= i < |steps| ==> !steps[i].Replace?
  }

  lemma {:induction false} AlwaysInStep(n: nat, steps: seq<Step>)
    requires Undisturbed(steps)
    ensures InStep(After(n, steps), n)
  {
    if steps != [] {
      var s, last := After(n, steps[..|steps| - 1]), steps[|steps| - 1];
      AlwaysInStep(n, steps[..|steps| - 1]);
      if last.Consume? {
        ConsumeKeepsStep(s, n, last.arrival);
      }
    }
  }

  /** Whatever happens to the ledger file, a life has seen every id it stamped. */
  lemma {:induction false} AlwaysSeenInLife(n: nat, steps: seq<Step>)
    ensures SeenInLife(After(n, steps))
  {
    if steps != [] {
      var s, last := After(n, steps[..|steps| - 1]), steps[|steps| - 1];
      AlwaysSeenInLife(n, steps[..|steps| - 1]);
      if last.Consume? {
        NewStampIsUnseen(s, n, last.arrival);
        SeenMore(s, After(n, steps), StampOf(s.desk, n, last.arrival, s.life));
      }
    }
  }

  /** A life's new stamp is remembered by that life. */
  lemma {:induction false} SeenMore(s: System, t: System, more: seq<Stamp>)
    requires SeenInLife(s) && t.life == s.life && t.stamps == s.stamps + more && |more| <= 1
    requires s.desk.seen <= t.desk.seen && (more != [] ==> more[0].life == s.life && more[0].id in t.desk.seen)
    ensures SeenInLife(t)
  {
  }

  lemma {:induction false} ConsumeKeepsStep(s: System, n: nat, a: Arrival)
    requires InStep(s, n)
    ensures InStep(Next(s, n, Consume(a)), n)
  {
    NewStamp(s, n, a);
    NewStampIsUnseen(s, n, a);
    var more := StampOf(s.desk, n, a, s.life);
    assert StampIds(s.stamps + more) == StampIds(s.stamps) + StampIds(more);
    SeenMore(s, System(Consumed(s.desk, n, a).1, s.life, s.stamps + more), more);
  }

  /** Two stamps of one id: different process lives, and `n` other ids stamped in between. */
  ghost predicate Displaced(stamps: seq<Stamp>, i: nat, j: nat, n: nat)
    requires i < j < |stamps|
  {
    && stamps[i].life < stamps[j].life
    && OthersBetween(stamps, i, j) >= n
  }

  ghost function OthersBetween(stamps: seq<Stamp>, i: nat, j: nat): nat
    requires i < j < |stamps|
  {
    |SetOf(StampIds(stamps)[i + 1..j]) - {stamps[i].id}|
  }

  lemma {:induction false} SliceOfOlder(stamps: seq<Stamp>, st: Stamp, i: nat)
    requires i < |stamps|
    ensures StampIds(stamps + [st])[i + 1..|stamps|] == StampIds(stamps)[i + 1..]
  {
    var a, b := StampIds(stamps + [st]), StampIds(stamps);
    assert a[..|stamps|] == b;
  }

  /** A stamp that is just being added, of an id not seen in this life, is a displaced id. */
  lemma {:induction false} NewStampDisplaced(stamps: seq<Stamp>, n: nat, st: Stamp, i: nat)
    requires n >= 1 && i < |stamps| && stamps[i].id == st.id && stamps[i].life < st.life
    requires st.id !in Kept(StampIds(stamps), n)
    ensures Displaced(stamps + [st], i, |stamps|, n)
  {
    ForgottenMeansDisplaced(StampIds(stamps), i, n);
    SliceOfOlder(stamps, st, i);
  }

  lemma {:induction false} OlderStampsDisplaced(stamps: seq<Stamp>, more: seq<Stamp>, i: nat, j: nat, n: nat)
    requires i < j < |stamps| && Displaced(stamps, i, j, n)
    ensures Displaced(stamps + more, i, j, n)
  {
    assert StampIds(stamps + more)[i + 1..j] == StampIds(stamps)[i + 1..j];
  }

  /**
   In every run, restarts and a replaced or broken ledger file included, an id gets into the
   ledger, and so its command is accepted, at most once per process life.
   */
  lemma {:induction false} OncePerLife(n: nat, steps: seq<Step>, i: nat, j: nat)
    requires var stamps := After(n, steps).stamps; i < j < |stamps| && stamps[i].id == stamps[j].id
    ensures After(n, steps).stamps[i].life < After(n, steps).stamps[j].life
  {
    var front, last := steps[..|steps| - 1], steps[|steps| - 1];
    var s := After(n, front);
    if last.Consume? {
      AlwaysSeenInLife(n, front);
      NewStampIsUnseen(s, n, last.arrival);
    }
    if j < |s.stamps| {
      OncePerLife(n, front, i, j);
    }
  }

  /**
   As long as nothing else touches the ledger file, an id gets in a second time only after at
   least `max_entries` other distinct ids have been remembered in between.
   */
  lemma {:induction false} AtMostOnce(n: nat, steps: seq<Step>, i: nat, j: nat)
    requires n >= 1 && Undisturbed(steps)
    requires var stamps := After(n, steps).stamps; i < j < |stamps| && stamps[i].id == stamps[j].id
    ensures Displaced(After(n, steps).stamps, i, j, n)
  {
    var front, last := steps[..|steps| - 1], steps[|steps| - 1];
    var s := After(n, front);
    match last
    case Restart => AtMostOnce(n, front, i, j);
    case Consume(a) =>
      AlwaysInStep(n, front);
      NewStamp(s, n, a);
      NewStampIsUnseen(s, n, a);
      if j < |s.stamps| {
        AtMostOnce(n, front, i, j);
      }
      StampsDisplaced(s, n, StampOf(s.desk, n, a, s.life), i, j);
  }

  lemma {:induction false} StampsDisplaced(s: System, n: nat, more: seq<Stamp>, i: nat, j: nat)
    requires n >= 1 && SeenInLife(s) && i < j < |s.stamps| + |more| && |more| <= 1
    requires (s.stamps + more)[i].id == (s.stamps + more)[j].id
    requires j < |s.stamps| ==> Displaced(s.stamps, i, j, n)
    requires more != [] ==>
               more[0].life == s.life && more[0].id !in s.desk.seen && more[0].id !in Kept(StampIds(s.stamps), n)
    ensures Displaced(s.stamps + more, i, j, n)
  {
    if j < |s.stamps| {
      OlderStampsDisplaced(s.stamps, more, i, j, n);
    } else {
      var all := s.stamps + more;
      assert all[i] == s.stamps[i] && all[j] == more[0] && j == |s.stamps|;
      NewestDisplaced(s, n, more, i);
    }
  }

  lemma {:induction false} NewestDisplaced(s: System, n: nat, more: seq<Stamp>, i: nat)
    requires n >= 1 && SeenInLife(s) && |more| == 1 && i < |s.stamps| && s.stamps[i].id == more[0].id
    requires more[0].life == s.life && more[0].id !in s.desk.seen && more[0].id !in Kept(StampIds(s.stamps), n)
    ensures Displaced(s.stamps + more, i, |s.stamps|, n)
  {
    NewStampDisplaced(s.stamps, n, more[0], i);
    assert more == [more[0]];
  }

  /** The ids whose payloads a run gave out, in order. */
  function Payloads(n: nat, steps: seq<Step>): seq<string> {
    if steps == [] then []
    else
      var before, last := Payloads(n, steps[..|steps| - 1]), steps[|steps| - 1];
      if !last.Consume? then before
      else
        var outcome := Consumed(After(n, steps[..|steps| - 1]).desk, n, last.arrival).0;
        if outcome.Accepted? then before + [outcome.id] else before
  }

  function AcceptedIds(stamps: seq<Stamp>): seq<string> {
    if stamps == [] then []
    else
      var before, last := AcceptedIds(stamps[..|stamps| - 1]), stamps[|stamps| - 1];
      if last.accepted then before + [last.id] else before
  }

  /** The ledger can be read, trusted and written when this arrival is handled. */
  predicate LedgerSound(file: LedgerFile, n: nat, a: Arrival) {
    Loaded(file, n).Some? && a.io.IoOk?
  }

  /** The arrivals of a run that met a sound ledger. */
  function SoundArrivals(n: nat, steps: seq<Step>): nat {
    if steps == [] then 0
    else
      var s, last := After(n, steps[..|steps| - 1]), steps[|steps| - 1];
      SoundArrivals(n, steps[..|steps| - 1]) + (if last.Consume? && LedgerSound(s.desk.file, n, last.arrival) then 1 else 0)
  }

  /**
   In every run, a broken ledger file included, every payload has its own accepted entry in the
   ledger history, in the same order, and its own arrival that met a sound ledger.
   */
  lemma {:induction false} PayloadsAreStamped(n: nat, steps: seq<Step>)
    ensures Payloads(n, steps) == AcceptedIds(After(n, steps).stamps)
    ensures |Payloads(n, steps)| <= SoundArrivals(n, steps)
  {
    if steps != [] {
      var s, last := After(n, steps[..|steps| - 1]), steps[|steps| - 1];
      PayloadsAreStamped(n, steps[..|steps| - 1]);
      if last.Consume? {
        NewStampIsUnseen(s, n, last.arrival);
        OneMoreStamped(s.stamps, StampOf(s.desk, n, last.arrival, s.life));
        if !LedgerSound(s.desk.file, n, last.arrival) {
          FailingLedgerGivesNothing(s.desk, n, last.arrival);
        }
      }
    }
  }

  /** Every arrival from step `i` on met a ledger that could not be read, trusted or written. */
  ghost predicate FailingFrom(n: nat, steps: seq<Step>, i: nat) {
    forall k :: i <= k < |steps| && steps[k].Consume? ==> !LedgerSound(After(n, steps[..k]).desk.file, n, steps[k].arrival)
  }

  /** As long as the ledger fails, restarts and replacements included, no payload gets out. */
  lemma {:induction false} FailingStretchGivesNothing(n: nat, steps: seq<Step>, i: nat)
    requires i <= |steps| && FailingFrom(n, steps, i)
    ensures Payloads(n, steps) == Payloads(n, steps[..i])
  {
    if i == |steps| {
      assert steps[..i] == steps;
    } else {
      var front, last := steps[..|steps| - 1], steps[|steps| - 1];
      forall k | i <= k < |front| ensures front[k] == steps[k] && front[..k] == steps[..k] {}
      FailingStretchGivesNothing(n, front, i);
      assert front[..i] == steps[..i];
      if last.Consume? {
        FailingLedgerGivesNothing(After(n, front).desk, n, last.arrival);
      }
    }
  }

  /** No failed write ever replaced the file. */
  ghost predicate CleanWrites(steps: seq<Step>) {
    forall i :: 0 <= i < |steps| && steps[i].Consume? ==> steps[i].arrival.io != WriteFails(true)
  }

  /** Then the ledger history is the list of payloads. */
  lemma {:induction false} StampsArePayloads(n: nat, steps: seq<Step>)
    requires CleanWrites(steps)
    ensures StampIds(After(n, steps).stamps) == Payloads(n, steps)
  {
    if steps == [] {
      assert StampIds([]) == [];
    } else {
      var s, last := After(n, steps[..|steps| - 1]), steps[|steps| - 1];
      StampsArePayloads(n, steps[..|steps| - 1]);
      if last.Consume? {
        NewStampIsUnseen(s, n, last.arrival);
        StampIsPayload(s, n, last.arrival);
      }
    }
  }

  lemma {:induction false} StampIsPayload(s: System, n: nat, a: Arrival)
    requires a.io != WriteFails(true)
    ensures var outcome, more := Consumed(s.desk, n, a).0, StampOf(s.desk, n, a, s.life);
            StampIds(s.stamps + more) ==
            if outcome.Accepted? then StampIds(s.stamps) + [outcome.id] else StampIds(s.stamps)
  {
    if !Consumed(s.desk, n, a).0.Accepted? {
      assert s.stamps + [] == s.stamps;
    }
  }

  /**
   Of acceptances alone: a command is accepted a second time only after at least `max_entries`
   other distinct commands have been accepted in between.
   */
  lemma {:induction false} AcceptedAgainOnlyDisplaced(n: nat, steps: seq<Step>, i: nat, j: nat)
    requires n >= 1 && Undisturbed(steps) && CleanWrites(steps)
    requires i < j < |Payloads(n, steps)| && Payloads(n, steps)[i] == Payloads(n, steps)[j]
    ensures |SetOf(Payloads(n, steps)[i + 1..j]) - {Payloads(n, steps)[i]}| >= n
  {
    StampsArePayloads(n, steps);
    AtMostOnce(n, steps, i, j);
  }

  lemma {:induction false} OneMoreStamped(stamps: seq<Stamp>, more: seq<Stamp>)
    requires |more| <= 1
    ensures AcceptedIds(stamps + more) ==
            if more != [] && more[0].accepted then AcceptedIds(stamps) + [more[0].id] else AcceptedIds(stamps)
  {
    if more == [] {
      assert stamps + more == stamps;
    } else {
      assert (stamps + more)[..|stamps|] == stamps;
    }
  }

  /** A ledger that cannot be read or written lets no payload out. */
  lemma {:induction false} FailingLedgerGivesNothing(d: Desk, n: nat, a: Arrival)
    requires Loaded(d.file, n).None? || !a.io.IoOk?
    ensures !Consumed(d, n, a).0.Accepted?
  {
  }

  // ---------------------------------------------------------------- exactly which commands get out

  /** The envelope has the parts that are asked for, in the supported form, and a secret is set. */
  predicate WellFormed(x: Envelope, a: Arrival) {
    a.secretSet && !x.legacy && x.schemaOk && x.id != "" && x.hasPayload && x.hasSignature
  }

  /** It has not expired, and it is signed with the secret. */
  predicate Genuine(x: Envelope, a: Arrival) {
    WellFormed(x, a) && x.expiresAt.Some? && a.now <= x.expiresAt.value && x.signatureValid
  }

  /** The ids of the genuine envelopes that have arrived since the last restart. */
  function SeenThisLife(steps: seq<Step>): set<string> {
    if steps == [] then {}
    else
      var before := SeenThisLife(steps[..|steps| - 1]);
      match steps[|steps| - 1]
      case Restart => {}
      case Replace(_) => before
      case Consume(a) =>
        if a.file.Content? && Genuine(a.file.envelope, a) then before + {a.file.envelope.id} else before
  }

  lemma {:induction false} SeenIsThisLife(n: nat, steps: seq<Step>)
    ensures After(n, steps).desk.seen == SeenThisLife(steps)
  {
    if steps != [] {
      SeenIsThisLife(n, steps[..|steps| - 1]);
    }
  }

  /** The ids in the ledger that is in the file. */
  function KeptIn(file: LedgerFile, n: nat): seq<string>
    requires Loaded(file, n).Some?
  {
    Ids(Loaded(file, n).value)
  }

  lemma {:induction false} KnowsIffInLedger(file: LedgerFile, n: nat, id: string)
    requires Loaded(file, n).Some?
    ensures Knows(file, n, id) <==> id in KeptIn(file, n)
  {
    var entries := Loaded(file, n).value;
    forall i | 0 <= i < |entries| ensures Ids(entries)[i] == entries[i].id {}
    if Knows(file, n, id) {
      var i :| 0 <= i < |entries| && entries[i].id == id;
      assert Ids(entries)[i] == id;
    }
    if id in Ids(entries) {
      var i :| 0 <= i < |entries| && Ids(entries)[i] == id;
      assert entries[i] in entries;
    }
  }

  /** The arrival meets every condition of acceptance in the state after these steps. */
  predicate Qualified(n: nat, steps: seq<Step>, a: Arrival) {
    && a.file.Content? && Genuine(a.file.envelope, a)
    && a.file.envelope.id !in SeenThisLife(steps)
    && var file := After(n, steps).desk.file;
       LedgerSound(file, n, a) && a.file.envelope.id !in KeptIn(file, n)
  }

  function QualifiedIds(n: nat, steps: seq<Step>): seq<string> {
    if steps == [] then []
    else
      var front, last := steps[..|steps| - 1], steps[|steps| - 1];
      if last.Consume? && Qualified(n, front, last.arrival) then QualifiedIds(n, front) + [last.arrival.file.envelope.id]
      else QualifiedIds(n, front)
  }

  /** What each outcome says about the arrival, the ids seen so far and the ledger. */
  predicate OutcomeMeans(outcome: Outcome, a: Arrival, seen: set<string>, file: LedgerFile, n: nat) {
    if !a.file.Content? then
      outcome == (if a.file.NoFile? then Nothing else if a.file.Unreadable? then Rejected(ReadError) else Rejected(Malformed))
    else
      var x := a.file.envelope;
      var unseen := Genuine(x, a) && x.id !in seen;
      match outcome
      case Nothing => false
      case Accepted(id) => unseen && LedgerSound(file, n, a) && x.id !in KeptIn(file, n) && id == x.id
      case Raised => unseen && (a.io.ReadFails? || (Loaded(file, n).Some? && x.id !in KeptIn(file, n) && a.io.WriteFails?))
      case Rejected(why) =>
        match why
        case SecretUnset => !a.secretSet
        case UnsignedLegacy => a.secretSet && x.legacy
        case UnsupportedSchema => a.secretSet && !x.legacy && !x.schemaOk
        case Malformed =>
          && a.secretSet && !x.legacy && x.schemaOk
          && (!WellFormed(x, a) || (x.id !in seen && x.expiresAt == None))
        case Duplicate =>
          || (WellFormed(x, a) && x.id in seen)
          || (unseen && !a.io.ReadFails? && Loaded(file, n).Some? && x.id in KeptIn(file, n))
        case Expired => WellFormed(x, a) && x.id !in seen && x.expiresAt.Some? && a.now > x.expiresAt.value
        case BadSignature =>
          WellFormed(x, a) && x.id !in seen && x.expiresAt.Some? && a.now <= x.expiresAt.value && !x.signatureValid
        case LedgerError => unseen && !a.io.ReadFails? && Loaded(file, n).None?
        case ReadError => false
  }

  lemma {:induction false} ConsumedMeans(d: Desk, n: nat, a: Arrival)
    ensures OutcomeMeans(Consumed(d, n, a).0, a, d.seen, d.file, n)
  {
    if a.file.Content? && Loaded(d.file, n).Some? {
      KnowsIffInLedger(d.file, n, a.file.envelope.id);
    }
  }

  /** In every run each arrival comes out as these conditions say, rejections by their first failing one. */
  lemma {:induction false} OutcomesMeanWhatTheySay(n: nat, steps: seq<Step>, a: Arrival)
    ensures var d := After(n, steps).desk; OutcomeMeans(Consumed(d, n, a).0, a, SeenThisLife(steps), d.file, n)
  {
    SeenIsThisLife(n, steps);
    ConsumedMeans(After(n, steps).desk, n, a);
  }

  /**
   The payloads of a run are, in order, the ids of exactly those arrivals that meet every
   condition: secret set, envelope well-formed, unexpired and signed, id not seen in this
   process life and not in the ledger, which is sound.
   */
  lemma {:induction false} PayloadsAreQualified(n: nat, steps: seq<Step>)
    ensures Payloads(n, steps) == QualifiedIds(n, steps)
  {
    if steps != [] {
      var front, last := steps[..|steps| - 1], steps[|steps| - 1];
      PayloadsAreQualified(n, front);
      if last.Consume? {
        OutcomesMeanWhatTheySay(n, front, last.arrival);
      }
    }
  }

  /** In a run, a genuine command not seen in this life is accepted exactly when its id is not kept. */
  lemma {:induction false} AcceptedIffForgotten(n: nat, steps: seq<Step>, a: Arrival)
    requires n >= 1 && a.io.IoOk? && a.file.Content? && Undisturbed(steps)
    requires Genuine(a.file.envelope, a) && a.file.envelope.id !in SeenThisLife(steps)
    ensures Consumed(After(n, steps).desk, n, a).0.Accepted? <==>
            a.file.envelope.id !in LastN(MostRecent(StampIds(After(n, steps).stamps)), n)
  {
    var s := After(n, steps);
    var history := StampIds(s.stamps);
    AlwaysInStep(n, steps);
    OutcomesMeanWhatTheySay(n, steps, a);
    LedgerIsRecentTail(history, n);
  }
}
