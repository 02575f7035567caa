/**
 The daily loss budget: realised loss plus the risk reserved by open positions, against a
 share of the day-start balance.
 */
module RiskBudget {
  import opened Basics
  import opened Rounding

  /** Lot sizes are never negative. */
  type Lot = x: real | x >= 0.0

  datatype Position = Position(id: string, xauex: bool, long: bool, actualCashRisk: real, entry: real, stop: real, lot: Lot)

  function Abs(x: real): real { if x < 0.0 then -x else x }

  /** The cash a position can still lose, as the budget counts it. */
  function Reserved(p: Position, contractSize: real): (r: real)
    ensures r >= 0.0
  {
    if !p.xauex then 0.0
    else if p.actualCashRisk > 0.0 then p.actualCashRisk
    else if contractSize <= 0.0 then 0.0
    else Abs(p.entry - p.stop) * p.lot * contractSize
  }

  function TotalReserved(positions: seq<Position>, contractSize: real): real {
    if positions == [] then 0.0
    else TotalReserved(positions[..|positions| - 1], contractSize) + Reserved(positions[|positions| - 1], contractSize)
  }

  function DailyLimit(dayStartBalance: real, dailyStopPct: real): real {
    Larger(0.0, dayStartBalance) * (Larger(0.0, dailyStopPct) / 100.0)
  }

  function RemainingBudget(dayStartBalance: real, dailyStopPct: real, dailyPnl: real, reserved: real): real {
    Round(Larger(0.0, DailyLimit(dayStartBalance, dailyStopPct) - Larger(0.0, -dailyPnl) - Larger(0.0, reserved)), 100)
  }

  // ---------------------------------------------------------------- one trading day

  datatype Day = Day(dayStartBalance: real, dailyStopPct: real, contractSize: real)

  /** Realised profit, tracked positions, and accepted orders that still wait for their fill. */
  datatype Book = Book(dailyPnl: real, positions: seq<Position>, pending: seq<Position>)

  function Remaining(d: Day, b: Book): real {
    RemainingBudget(d.dayStartBalance, d.dailyStopPct, b.dailyPnl, Round(TotalReserved(b.positions, d.contractSize), 100))
  }

  /** Realised loss plus what the open positions may still lose. */
  function Exposure(d: Day, b: Book): real {
    Larger(0.0, -b.dailyPnl) + TotalReserved(b.positions, d.contractSize)
  }

  /** The exposure, and the reserves of orders waiting for their fill, which the check does not see. */
  function Committed(d: Day, b: Book): real {
    Exposure(d, b) + TotalReserved(b.pending, d.contractSize)
  }

  datatype Order = Order(id: string, long: bool, lot: Lot, slDistance: real, entry: real, stop: real)

  /**
   `Place` puts an order to the broker; `filled` says whether the broker answers with a
   position or with an order that waits. `Fill` and `Drop` end the wait.
   */
  datatype Move =
    | Place(order: Order, filled: bool)
    | Fill(index: nat, price: real)
    | Drop(index: nat)
    | Close(index: nat, pnl: real)
    | AmendStop(index: nat, stop: real)

  function CashRisk(d: Day, lot: Lot, slDistance: real): real {
    Round(lot * d.contractSize * slDistance, 100)
  }

  function Without<T>(s: seq<T>, i: nat): seq<T>
    requires i < |s|
  {
    s[..i] + s[i + 1..]
  }

  function Tracked(d: Day, o: Order): Position {
    Position(o.id, true, o.long, CashRisk(d, o.lot, o.slDistance), o.entry, o.stop, o.lot)
  }

  function Moved(d: Day, b: Book, m: Move): Book {
    match m
    case Place(o, filled) =>
      if CashRisk(d, o.lot, o.slDistance) > Remaining(d, b) then b
      else if filled then b.(positions := b.positions + [Tracked(d, o)])
      else b.(pending := b.pending + [Tracked(d, o)])
    case Fill(i, price) =>
      if i >= |b.pending| then b
      else b.(positions := b.positions + [b.pending[i].(entry := price)], pending := Without(b.pending, i))
    case Drop(i) =>
      if i >= |b.pending| then b else b.(pending := Without(b.pending, i))
    case Close(i, pnl) =>
      if i >= |b.positions| then b else b.(dailyPnl := b.dailyPnl + pnl, positions := Without(b.positions, i))
    case AmendStop(i, stop) =>
      if i >= |b.positions| then b
      else b.(positions := b.positions[i := b.positions[i].(stop := stop)])
  }

  /**
   What the day's moves are taken to obey: an order risks at least one cent, a close loses at
   most its reserve, and neither a fill price nor an amended stop widens the reserve of a
   position whose reserve is measured from its prices.
   */
  ghost predicate Bounded(d: Day, b: Book, m: Move) {
    match m
    case Place(o, _) => CashRisk(d, o.lot, o.slDistance) > 0.0
    case Fill(i, price) =>
      i < |b.pending| ==>
        Reserved(b.pending[i].(entry := price), d.contractSize) <= Reserved(b.pending[i], d.contractSize)
    case Drop(_) => true
    case Close(i, pnl) => i < |b.positions| ==> pnl >= -Reserved(b.positions[i], d.contractSize)
    case AmendStop(i, stop) =>
      i < |b.positions| ==>
        Reserved(b.positions[i].(stop := stop), d.contractSize) <= Reserved(b.positions[i], d.contractSize)
  }

  function After(d: Day, start: Book, moves: seq<Move>): Book {
    if moves == [] then start else Moved(d, After(d, start, moves[..|moves| - 1]), moves[|moves| - 1])
  }

  /** Every move of a run obeys that, in the state it finds. */
  ghost predicate AllBounded(d: Day, start: Book, moves: seq<Move>) {
    moves == [] ||
    (var front := moves[..|moves| - 1];
     AllBounded(d, start, front) && Bounded(d, After(d, start, front), moves[|moves| - 1]))
  }

  // ---------------------------------------------------------------- the book as it is updated

  class RiskBook {
    const day: Day
    var dailyPnl: real
    var positions: seq<Position>
    var pending: seq<Position>

    function State(): Book
      reads this
    {
      Book(dailyPnl, positions, pending)
    }

    constructor (day: Day, dailyPnl: real, positions: seq<Position>, pending: seq<Position>)
      ensures this.day == day && State() == Book(dailyPnl, positions, pending)
    {
      this.day, this.dailyPnl, this.positions, this.pending := day, dailyPnl, positions, pending;
    }

    method OpenReservedRisk() returns (total: real)
      ensures total == Round(TotalReserved(positions, day.contractSize), 100)
    {
      total := 0.0;
      for i := 0 to |positions|
        invariant total == TotalReserved(positions[..i], day.contractSize)
      {
        assert positions[..i + 1][..i] == positions[..i];
        if positions[i].xauex {
          if positions[i].actualCashRisk > 0.0 {
            total := total + positions[i].actualCashRisk;
          } else if day.contractSize > 0.0 {
            total := total + Abs(positions[i].entry - positions[i].stop) * positions[i].lot * day.contractSize;
          }
        }
      }
      assert positions[..|positions|] == positions;
      total := Round(total, 100);
    }

    method PlaceWithinBudget(o: Order, filled: bool) returns (accepted: bool)
      modifies this`positions, this`pending
      ensures State() == Moved(day, old(State()), Place(o, filled))
      ensures accepted <==> CashRisk(day, o.lot, o.slDistance) <= Remaining(day, old(State()))
    {
      var risk := CashRisk(day, o.lot, o.slDistance);
      var reserved := OpenReservedRisk();
      var remaining := RemainingBudget(day.dayStartBalance, day.dailyStopPct, dailyPnl, reserved);
      if risk > remaining {
        return false;
      }
      if filled {
        positions := positions + [Position(o.id, true, o.long, risk, o.entry, o.stop, o.lot)];
      } else {
        pending := pending + [Position(o.id, true, o.long, risk, o.entry, o.stop, o.lot)];
      }
      return true;
    }

    /** The fill of a waiting order turns it into a tracked position at the fill price. */
    method OrderFilled(index: nat, price: real)
      requires index < |pending|
      modifies this`positions, this`pending
      ensures State() == Moved(day, old(State()), Fill(index, price))
      ensures positions == old(positions) + [old(pending[index]).(entry := price)]
      ensures pending == old(pending[..index] + pending[index + 1..])
    {
      var filled := pending[index];
      pending := pending[..index] + pending[index + 1..];
      positions := positions + [filled.(entry := price)];
    }

    /** A waiting order the broker no longer knows is forgotten. */
    method OrderDropped(index: nat)
      requires index < |pending|
      modifies this`pending
      ensures State() == Moved(day, old(State()), Drop(index))
      ensures pending == old(pending[..index] + pending[index + 1..])
    {
      pending := pending[..index] + pending[index + 1..];
    }

    method StopAmended(index: nat, stop: real)
      requires index < |positions|
      modifies this`positions
      ensures State() == Moved(day, old(State()), AmendStop(index, stop))
      ensures |positions| == |old(positions)| && positions[index] == old(positions[index]).(stop := stop)
      ensures forall k :: 0 <= k < |positions| && k != index ==> positions[k] == old(positions[k])
    {
      positions := positions[index := positions[index].(stop := stop)];
    }

    method PositionClosed(index: nat, pnl: real)
      requires index < |positions|
      modifies this`dailyPnl, this`positions
      ensures State() == Moved(day, old(State()), Close(index, pnl))
      ensures dailyPnl == old(dailyPnl) + pnl && positions == old(positions[..index] + positions[index + 1..])
    {
      dailyPnl := dailyPnl + pnl;
      positions := positions[..index] + positions[index + 1..];
    }
  }

  // ---------------------------------------------------------------- the budget holds

  lemma {:induction false} TotalConcat(a: seq<Position>, b: seq<Position>, contractSize: real)
    ensures TotalReserved(a + b, contractSize) == TotalReserved(a, contractSize) + TotalReserved(b, contractSize)
  {
    if b == [] {
      assert a + b == a;
    } else {
      assert (a + b)[..|a + b| - 1] == a + b[..|b| - 1];
      TotalConcat(a, b[..|b| - 1], contractSize);
    }
  }

  lemma {:induction false} TotalSplit(positions: seq<Position>, i: nat, contractSize: real)
    requires i < |positions|
    ensures TotalReserved(positions, contractSize) ==
            TotalReserved(Without(positions, i), contractSize) + Reserved(positions[i], contractSize)
  {
    var a, p, b := positions[..i], positions[i], positions[i + 1..];
    assert positions == a + ([p] + b);
    TotalConcat(a, [p] + b, contractSize);
    TotalConcat([p], b, contractSize);
    TotalConcat(a, b, contractSize);
    assert [p][..0] == [];
  }

  /** A placement that fits the remaining budget keeps the exposure within the limit and a cent. */
  lemma {:induction false} PlacementFits(d: Day, b: Book, risk: real)
    requires 0.0 < risk <= Remaining(d, b)
    ensures Exposure(d, b) + risk <= DailyLimit(d.dayStartBalance, d.dailyStopPct) + 0.01
  {
    var total := TotalReserved(b.positions, d.contractSize);
    var counted := Round(total, 100);
    var room := DailyLimit(d.dayStartBalance, d.dailyStopPct) - Larger(0.0, -b.dailyPnl) - Larger(0.0, counted);
    RoundError(total, 100);
    RoundError(Larger(0.0, room), 100);
    assert 0.5 / 100.0 == 0.005;
    if room <= 0.0 {
      RoundExact(0.0, 0, 100);
    }
  }

  lemma {:induction false} TotalWith(positions: seq<Position>, p: Position, contractSize: real)
    ensures TotalReserved(positions + [p], contractSize) == TotalReserved(positions, contractSize) + Reserved(p, contractSize)
  {
    assert (positions + [p])[..|positions|] == positions;
  }

  lemma {:induction false} TotalNotNegative(positions: seq<Position>, contractSize: real)
    ensures TotalReserved(positions, contractSize) >= 0.0
  {
    if positions != [] {
      TotalNotNegative(positions[..|positions| - 1], contractSize);
    }
  }

  lemma {:induction false} TotalMoved(b: Book, i: nat, p: Position, contractSize: real)
    requires i < |b.pending|
    ensures TotalReserved(b.positions + [p], contractSize) + TotalReserved(Without(b.pending, i), contractSize) ==
            TotalReserved(b.positions, contractSize) + TotalReserved(b.pending, contractSize)
            + Reserved(p, contractSize) - Reserved(b.pending[i], contractSize)
  {
    TotalSplit(b.pending, i, contractSize);
    TotalWith(b.positions, p, contractSize);
  }

  /** The limit with the two half-cent roundings of the check. */
  function Bound(d: Day): real {
    DailyLimit(d.dayStartBalance, d.dailyStopPct) + 0.01
  }

  /** The check lets the order through. */
  predicate Takes(d: Day, b: Book, m: Move) {
    m.Place? && CashRisk(d, m.order.lot, m.order.slDistance) <= Remaining(d, b)
  }

  /** The order fits beside the ones still waiting, which the check does not look at. */
  predicate FitsBesidePending(d: Day, b: Book, m: Move)
    requires m.Place?
  {
    TotalReserved(b.pending, d.contractSize) + CashRisk(d, m.order.lot, m.order.slDistance) <= Bound(d) - Exposure(d, b)
  }

  /** A taken order adds its risk to the commitment; every other move adds nothing. */
  lemma {:induction false} MoveCommits(d: Day, b: Book, m: Move)
    requires Bounded(d, b, m)
    ensures Takes(d, b, m) ==>
            Committed(d, Moved(d, b, m)) == Committed(d, b) + CashRisk(d, m.order.lot, m.order.slDistance)
    ensures !Takes(d, b, m) ==> Committed(d, Moved(d, b, m)) <= Committed(d, b)
  {
    var t := Moved(d, b, m);
    match m
    case Place(o, filled) =>
      TotalWith(if filled then b.positions else b.pending, Tracked(d, o), d.contractSize);
    case Fill(i, price) =>
      if i < |b.pending| {
        TotalMoved(b, i, b.pending[i].(entry := price), d.contractSize);
      }
    case Drop(i) =>
      if i < |b.pending| {
        TotalSplit(b.pending, i, d.contractSize);
      }
    case Close(i, pnl) =>
      if i < |b.positions| {
        TotalSplit(b.positions, i, d.contractSize);
      }
    case AmendStop(i, stop) =>
      if i < |b.positions| {
        TotalSplit(b.positions, i, d.contractSize);
        TotalSplit(t.positions, i, d.contractSize);
        assert Without(t.positions, i) == Without(b.positions, i);
        assert t.positions[i] == b.positions[i].(stop := stop);
      }
  }

  /** The commitment is within the bound at the start and after every move. */
  predicate AlwaysWithin(d: Day, start: Book, moves: seq<Move>) {
    Committed(d, After(d, start, moves)) <= Bound(d) && (moves == [] || AlwaysWithin(d, start, moves[..|moves| - 1]))
  }

  /** Every order that the check let through also fitted beside the orders waiting then. */
  predicate AllFit(d: Day, start: Book, moves: seq<Move>) {
    moves == [] ||
    (var b, last := After(d, start, moves[..|moves| - 1]), moves[|moves| - 1];
     AllFit(d, start, moves[..|moves| - 1]) && (Takes(d, b, last) ==> FitsBesidePending(d, b, last)))
  }

  /** No order was let through while another one waited. */
  predicate OneAtATime(d: Day, start: Book, moves: seq<Move>) {
    moves == [] ||
    (var b, last := After(d, start, moves[..|moves| - 1]), moves[|moves| - 1];
     OneAtATime(d, start, moves[..|moves| - 1]) && (Takes(d, b, last) ==> b.pending == []))
  }

  /**
   Along every run of one day realised loss plus reserved risk, waiting orders included, stays
   within the daily limit and two half cents if and only if every order that was let through
   also fitted beside the orders waiting at that moment.
   */
  lemma {:induction false} CommittedWithinIff(d: Day, start: Book, moves: seq<Move>)
    requires AllBounded(d, start, moves) && Committed(d, start) <= Bound(d)
    ensures AlwaysWithin(d, start, moves) <==> AllFit(d, start, moves)
  {
    if moves != [] {
      var front := moves[..|moves| - 1];
      CommittedWithinIff(d, start, front);
      MoveCommits(d, After(d, start, front), moves[|moves| - 1]);
    }
  }

  /** With nothing waiting the check's own view of the budget is all there is. */
  lemma {:induction false} OneAtATimeFits(d: Day, start: Book, moves: seq<Move>)
    requires AllBounded(d, start, moves) && OneAtATime(d, start, moves)
    ensures AllFit(d, start, moves)
  {
    if moves != [] {
      var b, last := After(d, start, moves[..|moves| - 1]), moves[|moves| - 1];
      OneAtATimeFits(d, start, moves[..|moves| - 1]);
      if Takes(d, b, last) {
        PlacementFits(d, b, CashRisk(d, last.order.lot, last.order.slDistance));
      }
    }
  }

  /** The remaining budget as it would be with the waiting orders counted in. */
  function RemainingBesidePending(d: Day, b: Book): real {
    RemainingBudget(d.dayStartBalance, d.dailyStopPct, b.dailyPnl,
                    Round(TotalReserved(b.positions, d.contractSize) + TotalReserved(b.pending, d.contractSize), 100))
  }

  /**
   In the check's own terms: an order within the remaining budget that counts the waiting
   orders in fits beside them, and one that fits with two cents to spare is within that budget.
   */
  lemma {:induction false} CountingPendingFits(d: Day, b: Book, m: Move)
    requires m.Place? && CashRisk(d, m.order.lot, m.order.slDistance) > 0.0
    ensures CashRisk(d, m.order.lot, m.order.slDistance) <= RemainingBesidePending(d, b) ==> FitsBesidePending(d, b, m)
    ensures Committed(d, b) + CashRisk(d, m.order.lot, m.order.slDistance) <= Bound(d) - 0.02 ==>
              CashRisk(d, m.order.lot, m.order.slDistance) <= RemainingBesidePending(d, b)
  {
    var all := Book(b.dailyPnl, b.positions + b.pending, []);
    var risk := CashRisk(d, m.order.lot, m.order.slDistance);
    TotalConcat(b.positions, b.pending, d.contractSize);
    if risk <= RemainingBesidePending(d, b) {
      PlacementFits(d, all, risk);
    }
    if Committed(d, b) + risk <= Bound(d) - 0.02 {
      RoomLeft(d, all, risk);
    }
  }

  /** A risk that leaves a cent of the limit unused is within the remaining budget. */
  lemma {:induction false} RoomLeft(d: Day, b: Book, risk: real)
    requires risk > 0.0 && Exposure(d, b) + risk <= DailyLimit(d.dayStartBalance, d.dailyStopPct) - 0.01
    ensures risk <= Remaining(d, b)
  {
    var total := TotalReserved(b.positions, d.contractSize);
    var room := DailyLimit(d.dayStartBalance, d.dailyStopPct) - Larger(0.0, -b.dailyPnl) - Larger(0.0, Round(total, 100));
    TotalNotNegative(b.positions, d.contractSize);
    RoundError(total, 100);
    RoundError(Larger(0.0, room), 100);
    assert 0.5 / 100.0 == 0.005;
  }

  /** Every order that was let through was also within the budget that counts the waiting ones in. */
  predicate AllCounted(d: Day, start: Book, moves: seq<Move>) {
    moves == [] ||
    (var b, last := After(d, start, moves[..|moves| - 1]), moves[|moves| - 1];
     && AllCounted(d, start, moves[..|moves| - 1])
     && (Takes(d, b, last) ==> CashRisk(d, last.order.lot, last.order.slDistance) <= RemainingBesidePending(d, b)))
  }

  /** A check that counted the waiting orders in would keep the bound along every run. */
  lemma {:induction false} CountingPendingSuffices(d: Day, start: Book, moves: seq<Move>)
    requires AllBounded(d, start, moves) && Committed(d, start) <= Bound(d) && AllCounted(d, start, moves)
    ensures AlwaysWithin(d, start, moves)
  {
    CountedFit(d, start, moves);
    CommittedWithinIff(d, start, moves);
  }

  lemma {:induction false} CountedFit(d: Day, start: Book, moves: seq<Move>)
    requires AllBounded(d, start, moves) && AllCounted(d, start, moves)
    ensures AllFit(d, start, moves)
  {
    if moves != [] {
      var b, last := After(d, start, moves[..|moves| - 1]), moves[|moves| - 1];
      CountedFit(d, start, moves[..|moves| - 1]);
      if Takes(d, b, last) {
        CountingPendingFits(d, b, last);
      }
    }
  }

  /** So the daily loss is bounded when no order is let through while another one waits. */
  lemma {:induction false} DailyLossBounded(d: Day, start: Book, moves: seq<Move>)
    requires AllBounded(d, start, moves) && OneAtATime(d, start, moves) && Committed(d, start) <= Bound(d)
    ensures Exposure(d, After(d, start, moves)) <= Committed(d, After(d, start, moves)) <= Bound(d)
  {
    OneAtATimeFits(d, start, moves);
    CommittedWithinIff(d, start, moves);
    TotalNotNegative(After(d, start, moves).pending, d.contractSize);
  }

  /** When every reserve is a whole number of cents one of the two roundings disappears. */
  lemma {:induction false} PlacementFitsCents(d: Day, b: Book, risk: real, cents: int)
    requires 0.0 < risk <= Remaining(d, b)
    requires TotalReserved(b.positions, d.contractSize) * 100.0 == cents as real
    ensures Exposure(d, b) + risk <= DailyLimit(d.dayStartBalance, d.dailyStopPct) + 0.005
  {
    var total := TotalReserved(b.positions, d.contractSize);
    RoundExact(total, cents, 100);
    var room := DailyLimit(d.dayStartBalance, d.dailyStopPct) - Larger(0.0, -b.dailyPnl) - Larger(0.0, total);
    RoundError(Larger(0.0, room), 100);
    assert 0.5 / 100.0 == 0.005;
    if room <= 0.0 {
      RoundExact(0.0, 0, 100);
    }
  }

  // ---------------------------------------------------------------- in prices

  /** What the position loses when it is closed at a price; a gain is a negative loss. */
  function LossAt(p: Position, price: real, contractSize: real): real {
    (if p.long then p.entry - price else price - p.entry) * p.lot * contractSize
  }

  /** The stop lies the stop distance away from the entry, on the losing side. */
  predicate StopAtDistance(o: Order) {
    o.slDistance == if o.long then o.entry - o.stop else o.stop - o.entry
  }

  /** The account's share for the day. */
  function ShareOfBalance(d: Day): real {
    if d.dayStartBalance > 0.0 && d.dailyStopPct > 0.0 then d.dayStartBalance * d.dailyStopPct / 100.0 else 0.0
  }

  lemma {:induction false} LimitIsShare(d: Day)
    ensures DailyLimit(d.dayStartBalance, d.dailyStopPct) == ShareOfBalance(d)
  {
  }

  /**
   How much each open position reserves: nothing if it is not an xauex one, else what it was
   accepted with, or, without such a figure, what closing it at its stop would change.
   */
  lemma {:induction false} ReservedInPrices(p: Position, contractSize: real)
    requires contractSize > 0.0
    ensures !p.xauex ==> Reserved(p, contractSize) == 0.0
    ensures p.xauex && p.actualCashRisk > 0.0 ==> Reserved(p, contractSize) == p.actualCashRisk
    ensures p.xauex && p.actualCashRisk <= 0.0 ==>
              Reserved(p, contractSize) == (var loss := LossAt(p, p.stop, contractSize); if loss < 0.0 then -loss else loss)
  {
    var gap := if p.long then p.entry - p.stop else p.stop - p.entry;
    assert p.lot * contractSize >= 0.0;
    assert gap * p.lot * contractSize == gap * (p.lot * contractSize);
    assert (-gap) * p.lot * contractSize == -(gap * p.lot * contractSize);
    if gap >= 0.0 {
      assert gap * (p.lot * contractSize) >= 0.0;
    } else {
      assert -gap * (p.lot * contractSize) >= 0.0;
    }
  }

  /** The figure stored for a position covers the loss at its stop, up to half a cent. */
  predicate Covered(p: Position, contractSize: real) {
    p.xauex && p.actualCashRisk > 0.0 && LossAt(p, p.stop, contractSize) <= p.actualCashRisk + 0.005
  }

  /** The position that an order turns into. */
  predicate MadeFrom(p: Position, o: Order) {
    p.id == o.id && p.xauex && p.long == o.long && p.entry == o.entry && p.stop == o.stop && p.lot == o.lot
  }

  /** The cash risk is the loss at the stop, to half a cent. */
  lemma {:induction false} CashRiskIsStopLoss(d: Day, o: Order)
    requires StopAtDistance(o)
    ensures var loss := LossAt(Tracked(d, o), o.stop, d.contractSize);
            loss - 0.005 <= CashRisk(d, o.lot, o.slDistance) <= loss + 0.005
  {
    Reordered(o.lot, d.contractSize, o.slDistance);
    RoundCents(o.slDistance * o.lot * d.contractSize);
  }

  lemma {:induction false} Reordered(lot: real, contractSize: real, distance: real)
    ensures lot * contractSize * distance == distance * lot * contractSize
  {
  }

  /** A risk within half a cent of a loss is within the remaining budget when the loss fits, up to the roundings. */
  lemma {:induction false} RiskFits(d: Day, b: Book, risk: real, loss: real)
    requires loss > 0.005 && loss - 0.005 <= risk <= loss + 0.005
    ensures var used := (if b.dailyPnl < 0.0 then -b.dailyPnl else 0.0) + TotalReserved(b.positions, d.contractSize);
            && (risk <= Remaining(d, b) ==> used + loss <= ShareOfBalance(d) + 0.015)
            && (used + loss <= ShareOfBalance(d) - 0.015 ==> risk <= Remaining(d, b))
  {
    var used := (if b.dailyPnl < 0.0 then -b.dailyPnl else 0.0) + TotalReserved(b.positions, d.contractSize);
    LimitIsShare(d);
    assert Exposure(d, b) == used;
    if risk <= Remaining(d, b) {
      PlacementFits(d, b, risk);
    }
    if used + loss <= ShareOfBalance(d) - 0.015 {
      RoomLeft(d, b, risk);
    }
  }

  /**
   An order put to the broker: if it is let through, the reserve kept for it is the loss at its
   stop to half a cent, and realised loss, reserves and that loss together fit the day's share up
   to the roundings; and with two cents to spare it is let through.
   */
  lemma {:induction false} PlacementInPrices(d: Day, b: Book, o: Order, filled: bool)
    requires StopAtDistance(o)
    ensures var t := Moved(d, b, Place(o, filled));
            var kept := if filled then t.positions else t.pending;
            var before := if filled then b.positions else b.pending;
            var loss := (if o.long then o.entry - o.stop else o.stop - o.entry) * o.lot * d.contractSize;
            var used := (if b.dailyPnl < 0.0 then -b.dailyPnl else 0.0) + TotalReserved(b.positions, d.contractSize);
            && (t == b || (&& |kept| == |before| + 1 && kept[..|before|] == before
                           && (if filled then t.pending == b.pending else t.positions == b.positions) && t.dailyPnl == b.dailyPnl
                           && MadeFrom(kept[|before|], o)
                           && loss - 0.005 <= kept[|before|].actualCashRisk <= loss + 0.005))
            && (loss > 0.005 && t != b ==> used + loss <= ShareOfBalance(d) + 0.015)
            && (loss > 0.005 && used + loss <= ShareOfBalance(d) - 0.015 ==> t != b)
  {
    var loss := (if o.long then o.entry - o.stop else o.stop - o.entry) * o.lot * d.contractSize;
    CashRiskIsStopLoss(d, o);
    assert LossAt(Tracked(d, o), o.stop, d.contractSize) == loss;
    if loss > 0.005 {
      RiskFits(d, b, CashRisk(d, o.lot, o.slDistance), loss);
    }
  }

  // ---------------------------------------------------------------- realised loss in prices

  /** For a long no lower, for a short no higher. */
  predicate NoWorseThan(long: bool, price: real, than: real) {
    if long then price >= than else price <= than
  }

  /** Closed at a price no worse than the stop, with the profit that price gives. */
  ghost predicate ClosedAtOrAbove(p: Position, pnl: real, contractSize: real) {
    exists price :: NoWorseThan(p.long, price, p.stop) && pnl == -LossAt(p, price, contractSize)
  }

  /**
   A day in prices: orders have their stop at the stop distance and risk at least a cent, fills
   are no worse than quoted, stops are only tightened, positions close no worse than at the stop.
   */
  ghost predicate Priced(d: Day, b: Book, m: Move) {
    match m
    case Place(o, _) => StopAtDistance(o) && o.slDistance * o.lot * d.contractSize >= 0.01
    case Fill(i, price) => i < |b.pending| ==> NoWorseThan(!b.pending[i].long, price, b.pending[i].entry)
    case Drop(_) => true
    case Close(i, pnl) => i < |b.positions| ==> ClosedAtOrAbove(b.positions[i], pnl, d.contractSize)
    case AmendStop(i, stop) => i < |b.positions| ==> NoWorseThan(b.positions[i].long, stop, b.positions[i].stop)
  }

  ghost predicate AllPriced(d: Day, start: Book, moves: seq<Move>) {
    moves == [] ||
    (var front := moves[..|moves| - 1];
     AllPriced(d, start, front) && Priced(d, After(d, start, front), moves[|moves| - 1]))
  }

  /** No order gets past the check while another one waits for its fill. */
  predicate NoneBesideWaiting(d: Day, start: Book, moves: seq<Move>) {
    moves == [] ||
    (var b, last := After(d, start, moves[..|moves| - 1]), moves[|moves| - 1];
     NoneBesideWaiting(d, start, moves[..|moves| - 1]) && (last.Place? && b.pending != [] ==> Moved(d, b, last) == b))
  }

  function Closes(moves: seq<Move>): nat {
    if moves == [] then 0 else Closes(moves[..|moves| - 1]) + (if moves[|moves| - 1].Close? then 1 else 0)
  }

  ghost predicate AllCovered(b: Book, contractSize: real) {
    && (forall i :: 0 <= i < |b.positions| ==> Covered(b.positions[i], contractSize))
    && (forall i :: 0 <= i < |b.pending| ==> Covered(b.pending[i], contractSize))
  }

  /** A better price loses no more. */
  lemma {:induction false} BetterLosesLess(p: Position, price: real, than: real, contractSize: real)
    requires contractSize > 0.0 && NoWorseThan(p.long, price, than)
    ensures LossAt(p, price, contractSize) <= LossAt(p, than, contractSize)
  {
    var size := p.lot * contractSize;
    assert size >= 0.0;
    ScaleKeepsOrder(if p.long then p.entry - price else price - p.entry, if p.long then p.entry - than else than - p.entry, size);
    SizedLoss(p, price, contractSize);
    SizedLoss(p, than, contractSize);
  }

  lemma {:induction false} SizedLoss(p: Position, price: real, contractSize: real)
    ensures LossAt(p, price, contractSize) == (if p.long then p.entry - price else price - p.entry) * (p.lot * contractSize)
  {
  }

  lemma {:induction false} ScaleKeepsOrder(a: real, b: real, size: real)
    requires size >= 0.0 && a <= b
    ensures a * size <= b * size
  {
    assert (b - a) * size >= 0.0;
  }

  /** A better entry loses no more at the same stop. */
  lemma {:induction false} BetterEntryLosesLess(p: Position, price: real, contractSize: real)
    requires contractSize > 0.0 && NoWorseThan(!p.long, price, p.entry)
    ensures LossAt(p.(entry := price), p.stop, contractSize) <= LossAt(p, p.stop, contractSize)
  {
    var size := p.lot * contractSize;
    assert size >= 0.0;
    ScaleKeepsOrder(if p.long then price - p.stop else p.stop - price, if p.long then p.entry - p.stop else p.stop - p.entry, size);
    SizedLoss(p, p.stop, contractSize);
    SizedLoss(p.(entry := price), p.stop, contractSize);
  }

  lemma {:induction false} PlacedIsCovered(d: Day, o: Order)
    requires StopAtDistance(o) && o.slDistance * o.lot * d.contractSize >= 0.01
    ensures Covered(Tracked(d, o), d.contractSize)
  {
    CashRiskIsStopLoss(d, o);
  }

  lemma {:induction false} MoveKeepsCovered(d: Day, b: Book, m: Move)
    requires d.contractSize > 0.0 && Priced(d, b, m) && AllCovered(b, d.contractSize)
    ensures AllCovered(Moved(d, b, m), d.contractSize)
  {
    match m
    case Place(o, filled) => PlacedIsCovered(d, o);
    case Fill(i, price) =>
      if i < |b.pending| {
        BetterEntryLosesLess(b.pending[i], price, d.contractSize);
      }
    case Drop(i) =>
    case Close(i, pnl) =>
    case AmendStop(i, stop) =>
      if i < |b.positions| {
        BetterLosesLess(b.positions[i], stop, b.positions[i].stop, d.contractSize);
        assert LossAt(b.positions[i].(stop := stop), stop, d.contractSize) == LossAt(b.positions[i], stop, d.contractSize);
      }
  }

  /** A close costs at most the reserve and half a cent. */
  lemma {:induction false} CloseWithinReserve(p: Position, pnl: real, contractSize: real)
    requires contractSize > 0.0 && Covered(p, contractSize) && ClosedAtOrAbove(p, pnl, contractSize)
    ensures pnl >= -Reserved(p, contractSize) - 0.005
  {
    var price :| NoWorseThan(p.long, price, p.stop) && pnl == -LossAt(p, price, contractSize);
    BetterLosesLess(p, price, p.stop, contractSize);
  }

  /** Only placements and closes can add to the commitment, a close half a cent at most. */
  lemma {:induction false} PricedMoveCommits(d: Day, b: Book, m: Move)
    requires d.contractSize > 0.0 && Priced(d, b, m) && AllCovered(b, d.contractSize)
    ensures !m.Place? ==> Committed(d, Moved(d, b, m)) <= Committed(d, b) + (if m.Close? then 0.005 else 0.0)
  {
    match m
    case Place(_, _) =>
    case Fill(i, price) =>
      if i < |b.pending| {
        TotalMoved(b, i, b.pending[i].(entry := price), d.contractSize);
      }
    case Drop(i) =>
      if i < |b.pending| {
        TotalSplit(b.pending, i, d.contractSize);
      }
    case Close(i, pnl) =>
      if i < |b.positions| {
        TotalSplit(b.positions, i, d.contractSize);
        CloseWithinReserve(b.positions[i], pnl, d.contractSize);
      }
    case AmendStop(i, stop) =>
      if i < |b.positions| {
        var t := Moved(d, b, m);
        TotalSplit(b.positions, i, d.contractSize);
        TotalSplit(t.positions, i, d.contractSize);
        assert Without(t.positions, i) == Without(b.positions, i);
      }
  }

  lemma {:induction false} PlacementCommits(d: Day, b: Book, o: Order, filled: bool)
    requires StopAtDistance(o) && o.slDistance * o.lot * d.contractSize >= 0.01
    requires b.pending == [] || Moved(d, b, Place(o, filled)) == b
    ensures var t := Moved(d, b, Place(o, filled)); t == b || Committed(d, t) <= ShareOfBalance(d) + 0.01
  {
    LimitIsShare(d);
    CashRiskIsStopLoss(d, o);
    var risk := CashRisk(d, o.lot, o.slDistance);
    if risk <= Remaining(d, b) && b.pending == [] {
      PlacementFits(d, b, risk);
      TotalWith(if filled then b.positions else b.pending, Tracked(d, o), d.contractSize);
    }
  }

  lemma {:induction false} OneMoveCommits(d: Day, b: Book, m: Move, slack: real)
    requires d.contractSize > 0.0 && Priced(d, b, m) && AllCovered(b, d.contractSize)
    requires m.Place? && b.pending != [] ==> Moved(d, b, m) == b
    requires slack >= 0.0 && Committed(d, b) <= ShareOfBalance(d) + 0.01 + slack
    ensures Committed(d, Moved(d, b, m)) <= ShareOfBalance(d) + 0.01 + slack + if m.Close? then 0.005 else 0.0
  {
    PricedMoveCommits(d, b, m);
    if m.Place? {
      PlacementCommits(d, b, m.order, m.filled);
    }
  }

  lemma {:induction false} CommittedInPrices(d: Day, start: Book, moves: seq<Move>)
    requires d.contractSize > 0.0 && AllCovered(start, d.contractSize) && Committed(d, start) <= ShareOfBalance(d) + 0.01
    requires AllPriced(d, start, moves) && NoneBesideWaiting(d, start, moves)
    ensures AllCovered(After(d, start, moves), d.contractSize)
    ensures Committed(d, After(d, start, moves)) <= ShareOfBalance(d) + 0.01 + 0.005 * Closes(moves) as real
  {
    if moves != [] {
      var front, last := moves[..|moves| - 1], moves[|moves| - 1];
      var b := After(d, start, front);
      CommittedInPrices(d, start, front);
      MoveKeepsCovered(d, b, last);
      OneMoveCommits(d, b, last, 0.005 * Closes(front) as real);
    }
  }

  /**
   The loss of a day in prices: when positions close no worse than at their stops and no order
   gets past the check while another one waits, what has been lost never exceeds the day's share
   of the balance by more than a cent and half a cent a close.
   */
  lemma {:induction false} RealisedLossBounded(d: Day, start: Book, moves: seq<Move>)
    requires d.contractSize > 0.0 && AllCovered(start, d.contractSize) && Committed(d, start) <= ShareOfBalance(d) + 0.01
    requires AllPriced(d, start, moves) && NoneBesideWaiting(d, start, moves)
    ensures -After(d, start, moves).dailyPnl <= ShareOfBalance(d) + 0.01 + 0.005 * Closes(moves) as real
  {
    CommittedInPrices(d, start, moves);
    TotalNotNegative(After(d, start, moves).positions, d.contractSize);
    TotalNotNegative(After(d, start, moves).pending, d.contractSize);
  }

  /** One lot unit of an order that risks 20 on a day that may lose 20. */
  const DAY := Day(1000.0, 2.0, 100.0)
  const ORDER := Order("o", true, 1.0, 0.2, 2000.0, 1999.8)

  /**
   A run that overruns: two orders that each use the whole budget are accepted one after the
   other, and both fill. The second was let through beside the waiting first.
   */
  lemma {:induction false} UntrackedOrdersOverrun()
    ensures var moves := [Place(ORDER, false), Place(ORDER, false), Fill(0, 2000.0), Fill(0, 2000.0)];
            && AllBounded(DAY, Book(0.0, [], []), moves)
            && Exposure(DAY, After(DAY, Book(0.0, [], []), moves)) == 40.0 && Bound(DAY) == 20.01
  {
    BothAccepted();
    var accept, fill := Place(ORDER, false), Fill(0, 2000.0);
    var start, three, four := Book(0.0, [], []), [accept, accept, fill], [accept, accept, fill, fill];
    assert three[..2] == [accept, accept] && three[2] == fill && four[..3] == three && four[3] == fill;
    assert Without([WAITING, WAITING], 0) == [WAITING] && Without([WAITING], 0) == [];
    assert After(DAY, start, three) == Book(0.0, [WAITING], [WAITING]) && AllBounded(DAY, start, three);
    assert After(DAY, start, four) == Book(0.0, [WAITING, WAITING], []);
    TwoReserved(After(DAY, start, four).positions);
  }

  /** The order as the executor keeps it while it waits; its entry is the price it fills at. */
  const WAITING := Position("o", true, true, 20.0, 2000.0, 1999.8, 1.0)

  lemma {:induction false} OrderIsTaken(pending: seq<Position>)
    ensures CashRisk(DAY, ORDER.lot, ORDER.slDistance) == 20.0
    ensures Moved(DAY, Book(0.0, [], pending), Place(ORDER, false)) ==
            Book(0.0, [], if pending == [] then [WAITING] else pending + [WAITING])
  {
    RoundExact(0.0, 0, 100);
    RoundExact(20.0, 2000, 100);
    assert ORDER.lot * DAY.contractSize * ORDER.slDistance == 20.0;
    assert DailyLimit(1000.0, 2.0) == 20.0;
  }

  lemma {:induction false} BothAccepted()
    ensures var two := [Place(ORDER, false), Place(ORDER, false)];
            After(DAY, Book(0.0, [], []), two) == Book(0.0, [], [WAITING, WAITING]) && AllBounded(DAY, Book(0.0, [], []), two)
  {
    OrderIsTaken([]);
    OrderIsTaken([WAITING]);
    var accept := Place(ORDER, false);
    var start, one, two := Book(0.0, [], []), [accept], [accept, accept];
    assert one[..0] == [] && two[..1] == one && two[1] == accept;
    assert After(DAY, start, one) == Book(0.0, [], [WAITING]) && AllBounded(DAY, start, one);
  }

  lemma {:induction false} TwoReserved(positions: seq<Position>)
    requires |positions| == 2 && forall i :: 0 <= i < 2 ==> Reserved(positions[i], 100.0) == 20.0
    ensures TotalReserved(positions, 100.0) == 40.0
  {
    assert positions[..1][..0] == [];
    assert TotalReserved(positions[..1], 100.0) == 20.0;
  }
}
