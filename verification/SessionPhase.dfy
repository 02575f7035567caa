/**
 The management phase of an open position: OBSERVE, then PROTECT, then TRAIL, advanced by
 price progress in R and confirmed by the broker's profit figure.
 */
module SessionPhase {
  import Rounding

  datatype Phase = Observe | Protect | Trail {
    function Rank(): nat {
      match this
      case Observe => 0
      case Protect => 1
      case Trail => 2
    }
  }

  datatype Session = Session(
    phase: Phase, long: bool, entry: real, riskDistance: real, protectR: real, trailR: real, progressR: real)

  /** One look at the position: its price and the broker's unrealised profit. */
  datatype Look = Look(price: real, pnl: real)

  function Progress(s: Session, price: real): real {
    if s.long then price - s.entry else s.entry - price
  }

  function Advance(s: Session, price: real): Session {
    if s.riskDistance <= 0.0 then s
    else
      var r := Progress(s, price) / s.riskDistance;
      var phase1 := if s.phase.Observe? && r >= s.protectR then Protect else s.phase;
      var phase2 := if phase1.Protect? && r >= s.trailR then Trail else phase1;
      s.(phase := phase2, progressR := Rounding.Round(r, 10_000))
  }

  /** A zero threshold in the stored session falls back to the built-in default. */
  function ConfirmR(previous: Session, candidate: Phase): real {
    var protectR := if previous.protectR == 0.0 then 1.0 else previous.protectR;
    if candidate.Protect? then protectR
    else if previous.trailR == 0.0 then (if protectR + 0.2 > 1.2 then protectR + 0.2 else 1.2)
    else previous.trailR
  }

  function Confirmed(previous: Session, candidate: Session, pnl: real, lot: real, contract: real): Session {
    if candidate.phase == previous.phase then candidate
    else if previous.riskDistance <= 0.0 || lot <= 0.0 || contract <= 0.0 then candidate.(phase := previous.phase)
    else if candidate.phase.Observe? then candidate
    else if pnl < previous.riskDistance * lot * contract * ConfirmR(previous, candidate.phase)
    then candidate.(phase := previous.phase)
    else candidate
  }

  function Monitored(s: Session, look: Look, lot: real, contract: real): Session {
    Confirmed(s, Advance(s, look.price), look.pnl, lot, contract)
  }

  function After(s: Session, looks: seq<Look>, lot: real, contract: real): Session {
    if looks == [] then s else Monitored(After(s, looks[..|looks| - 1], lot, contract), looks[|looks| - 1], lot, contract)
  }

  /** Everything but phase and progress stays as it was when the position was opened. */
  lemma {:induction false} TermsFixed(s: Session, looks: seq<Look>, lot: real, contract: real)
    ensures var t := After(s, looks, lot, contract);
            && t.long == s.long && t.entry == s.entry && t.riskDistance == s.riskDistance
            && t.protectR == s.protectR && t.trailR == s.trailR
  {
    if looks != [] {
      TermsFixed(s, looks[..|looks| - 1], lot, contract);
    }
  }

  /** The phase never moves back, whatever prices and profit figures arrive. */
  lemma {:induction false} PhaseNeverMovesBack(s: Session, looks: seq<Look>, more: seq<Look>, lot: real, contract: real)
    ensures After(s, looks, lot, contract).phase.Rank() <= After(s, looks + more, lot, contract).phase.Rank()
  {
    if more == [] {
      assert looks + more == looks;
    } else {
      var all := looks + more;
      assert all[..|all| - 1] == looks + more[..|more| - 1];
      PhaseNeverMovesBack(s, looks, more[..|more| - 1], lot, contract);
    }
  }

  // ---------------------------------------------------------------- the threshold law

  /** Dollars in the position's favour per dollar risked. */
  function ProgressR(s: Session, price: real): real
    requires s.riskDistance > 0.0
  {
    (if s.long then price - s.entry else s.entry - price) / s.riskDistance
  }

  /** The largest progress seen so far; zero looks count as no progress at all. */
  function MaxProgress(s: Session, looks: seq<Look>): real
    requires s.riskDistance > 0.0 && looks != []
  {
    var last := ProgressR(s, looks[|looks| - 1].price);
    if |looks| == 1 then last
    else
      var before := MaxProgress(s, looks[..|looks| - 1]);
      if before < last then last else before
  }

  function PhaseFor(s: Session, progress: real): Phase {
    if progress >= s.trailR then Trail else if progress >= s.protectR then Protect else Observe
  }

  ghost predicate OrdinaryTerms(s: Session, lot: real, contract: real) {
    s.riskDistance > 0.0 && 0.0 < s.protectR < s.trailR && lot > 0.0 && contract > 0.0
  }

  /** The broker's profit is price progress times lot times contract. */
  ghost predicate PnlMatches(s: Session, look: Look, lot: real, contract: real) {
    look.pnl == (if s.long then look.price - s.entry else s.entry - look.price) * lot * contract
  }

  /** With a matching profit figure the profit test is the progress test. */
  lemma {:induction false} PnlTestIsProgressTest(s: Session, look: Look, lot: real, contract: real, r: real)
    requires s.riskDistance > 0.0 && lot > 0.0 && contract > 0.0 && PnlMatches(s, look, lot, contract)
    ensures look.pnl >= s.riskDistance * lot * contract * r <==> ProgressR(s, look.price) >= r
  {
    var p := ProgressR(s, look.price);
    var unit := s.riskDistance * lot * contract;
    assert lot * contract > 0.0;
    assert s.riskDistance * (lot * contract) > 0.0;
    assert unit == s.riskDistance * (lot * contract);
    var gain := if s.long then look.price - s.entry else s.entry - look.price;
    assert gain == p * s.riskDistance;
    assert look.pnl == p * unit by {
      assert look.pnl == gain * (lot * contract);
      assert p * s.riskDistance * (lot * contract) == p * (s.riskDistance * (lot * contract));
    }
    Scaled(p, r, unit);
    assert unit * r == r * unit;
  }

  lemma {:induction false} Scaled(a: real, b: real, unit: real)
    requires unit > 0.0
    ensures a * unit >= b * unit <==> a >= b
  {
    if a >= b {
      assert (a - b) * unit >= 0.0;
    } else {
      assert (b - a) * unit > 0.0;
    }
  }

  /** One look with a matching profit: the profit check vetoes nothing. */
  lemma {:induction false} MatchedLook(s: Session, look: Look, lot: real, contract: real)
    requires OrdinaryTerms(s, lot, contract) && PnlMatches(s, look, lot, contract)
    ensures Monitored(s, look, lot, contract) == Advance(s, look.price)
  {
    PnlTestIsProgressTest(s, look, lot, contract, s.protectR);
    PnlTestIsProgressTest(s, look, lot, contract, s.trailR);
  }

  /** Also for a session that has only moved on since. */
  lemma {:induction false} MatchedLater(s: Session, t: Session, look: Look, lot: real, contract: real)
    requires t == s.(phase := t.phase, progressR := t.progressR)
    requires OrdinaryTerms(s, lot, contract) && PnlMatches(s, look, lot, contract)
    ensures Monitored(t, look, lot, contract) == Advance(t, look.price)
  {
    MatchedLook(t, look, lot, contract);
  }

  /**
   With matching profit figures the phase after any sequence of looks is the threshold
   function of the running maximum of progress.
   */
  lemma {:induction false} PhaseIsThresholdOfMax(s: Session, looks: seq<Look>, lot: real, contract: real)
    requires s.phase.Observe? && OrdinaryTerms(s, lot, contract) && looks != []
    requires forall look :: look in looks ==> PnlMatches(s, look, lot, contract)
    ensures After(s, looks, lot, contract).phase == PhaseFor(s, MaxProgress(s, looks))
  {
    var front, last := looks[..|looks| - 1], looks[|looks| - 1];
    var t := After(s, front, lot, contract);
    TermsFixed(s, front, lot, contract);
    if front != [] {
      PhaseIsThresholdOfMax(s, front, lot, contract);
    }
    assert PnlMatches(s, last, lot, contract);
    MatchedLater(s, t, last, lot, contract);
    if front == [] {
      AdvanceToThreshold(s, t, last.price);
    } else {
      AdvanceToMax(s, t, MaxProgress(s, front), last.price);
    }
  }

  /** A phase that is the threshold of some progress moves to that of the larger progress. */
  lemma {:induction false} AdvanceToMax(s: Session, t: Session, before: real, price: real)
    requires s.riskDistance > 0.0 && s.protectR < s.trailR
    requires t == s.(phase := t.phase, progressR := t.progressR) && t.phase == PhaseFor(s, before)
    ensures var now := ProgressR(s, price);
            Advance(t, price).phase == PhaseFor(s, if before < now then now else before)
  {
    AdvanceToThreshold(s, t, price);
    HigherPhase(s, before, ProgressR(s, price));
  }

  /** The phase of the larger progress is the later of the two phases. */
  lemma {:induction false} HigherPhase(s: Session, a: real, b: real)
    requires s.protectR < s.trailR
    ensures var p, q := PhaseFor(s, a), PhaseFor(s, b);
            PhaseFor(s, if a < b then b else a) == if q.Rank() > p.Rank() then q else p
  {
  }

  /** A look moves the phase to its own threshold if that lies further on. */
  lemma {:induction false} AdvanceToThreshold(s: Session, t: Session, price: real)
    requires s.riskDistance > 0.0 && s.protectR < s.trailR
    requires t == s.(phase := t.phase, progressR := t.progressR)
    ensures var reached := PhaseFor(s, ProgressR(s, price));
            Advance(t, price).phase == if reached.Rank() > t.phase.Rank() then reached else t.phase
  {
  }

  /** Whatever the profit figures say, they can only hold the phase below that threshold. */
  lemma {:induction false} PhaseBelowThreshold(s: Session, looks: seq<Look>, lot: real, contract: real)
    requires s.phase.Observe? && s.riskDistance > 0.0 && s.protectR < s.trailR && looks != []
    ensures After(s, looks, lot, contract).phase.Rank() <= PhaseFor(s, MaxProgress(s, looks)).Rank()
  {
    var front, last := looks[..|looks| - 1], looks[|looks| - 1];
    TermsFixed(s, front, lot, contract);
    if front != [] {
      PhaseBelowThreshold(s, front, lot, contract);
    }
  }

  /** How far one look alone carries: the furthest threshold its price reaches, if its profit confirms it. */
  function Carries(s: Session, look: Look, lot: real, contract: real): Phase
    requires s.riskDistance > 0.0
  {
    var reached := PhaseFor(s, ProgressR(s, look.price));
    if reached.Observe? then Observe
    else if look.pnl >= s.riskDistance * lot * contract * (if reached.Trail? then s.trailR else s.protectR) then reached
    else Observe
  }

  function Further(p: Phase, q: Phase): Phase {
    if q.Rank() > p.Rank() then q else p
  }

  /** The furthest phase any look carries to. */
  function FurthestCarried(s: Session, looks: seq<Look>, lot: real, contract: real): Phase
    requires s.riskDistance > 0.0
  {
    if looks == [] then Observe
    else Further(FurthestCarried(s, looks[..|looks| - 1], lot, contract), Carries(s, looks[|looks| - 1], lot, contract))
  }

  /**
   Whatever prices and profit figures arrive, matching or not, the phase after any sequence of
   looks is the furthest phase that one look reached and confirmed. A price beyond the trail
   threshold whose profit only suffices for protection carries nowhere.
   */
  lemma {:induction false} PhaseIsFurthestConfirmed(s: Session, looks: seq<Look>, lot: real, contract: real)
    requires s.phase.Observe? && OrdinaryTerms(s, lot, contract)
    ensures After(s, looks, lot, contract).phase == FurthestCarried(s, looks, lot, contract)
  {
    if looks != [] {
      var front, last := looks[..|looks| - 1], looks[|looks| - 1];
      TermsFixed(s, front, lot, contract);
      PhaseIsFurthestConfirmed(s, front, lot, contract);
      OneLookCarries(s, After(s, front, lot, contract), last, lot, contract);
    }
  }

  lemma {:induction false} OneLookCarries(s: Session, t: Session, look: Look, lot: real, contract: real)
    requires OrdinaryTerms(s, lot, contract) && t == s.(phase := t.phase, progressR := t.progressR)
    ensures Monitored(t, look, lot, contract).phase == Further(t.phase, Carries(s, look, lot, contract))
  {
    AdvanceToThreshold(s, t, look.price);
    assert Advance(t, look.price).riskDistance == t.riskDistance;
  }

  // ---------------------------------------------------------------- in prices

  /** The price has moved `r` times the risk distance in the position's favour. */
  predicate Gained(s: Session, price: real, r: real) {
    if s.long then price >= s.entry + r * s.riskDistance else price <= s.entry - r * s.riskDistance
  }

  /** The broker's profit is at least that of `r` times the risk distance. */
  predicate Earned(s: Session, pnl: real, lot: real, contract: real, r: real) {
    pnl >= s.riskDistance * lot * contract * r
  }

  lemma {:induction false} GainedIffProgress(s: Session, price: real, r: real)
    requires s.riskDistance > 0.0
    ensures Gained(s, price, r) <==> ProgressR(s, price) >= r
  {
    var gain := if s.long then price - s.entry else s.entry - price;
    assert gain == ProgressR(s, price) * s.riskDistance;
    Scaled(ProgressR(s, price), r, s.riskDistance);
  }

  /** Stored thresholds of zero count as 1.0, and as 1.2 or 0.2 above protection, when profit is checked. */
  function ProtectAt(s: Session): real { if s.protectR == 0.0 then 1.0 else s.protectR }

  function TrailAt(s: Session): real {
    if s.trailR != 0.0 then s.trailR else if ProtectAt(s) > 1.0 then ProtectAt(s) + 0.2 else 1.2
  }

  /** What the price alone proposes. */
  lemma {:induction false} AdvanceMoves(s: Session, price: real)
    ensures var t := Advance(s, price);
            && t == s.(phase := t.phase, progressR := t.progressR)
            && (s.riskDistance <= 0.0 ==> t.phase == s.phase)
            && (s.riskDistance > 0.0 ==>
                  t.phase == if s.phase == Observe && !Gained(s, price, s.protectR) then Observe
                             else if s.phase == Trail || Gained(s, price, s.trailR) then Trail else Protect)
  {
    if s.riskDistance > 0.0 {
      GainedIffProgress(s, price, s.protectR);
      GainedIffProgress(s, price, s.trailR);
    }
  }

  /** What the profit lets through of a proposal. */
  lemma {:induction false} ConfirmMoves(s: Session, candidate: Session, pnl: real, lot: real, contract: real)
    requires candidate.phase == s.phase || candidate.phase != Observe
    ensures var sized := s.riskDistance > 0.0 && lot > 0.0 && contract > 0.0;
            Confirmed(s, candidate, pnl, lot, contract).phase ==
            if candidate.phase == s.phase then s.phase
            else if sized && Earned(s, pnl, lot, contract, if candidate.phase == Trail then TrailAt(s) else ProtectAt(s)) then candidate.phase
            else s.phase
  {
    assert ConfirmR(s, Trail) == TrailAt(s);
    assert ConfirmR(s, Protect) == ProtectAt(s);
  }

  /** One look at any session: to which phase it moves, in prices and profit. */
  lemma {:induction false} LookMoves(s: Session, look: Look, lot: real, contract: real)
    ensures var t := Monitored(s, look, lot, contract);
            var sized := s.riskDistance > 0.0 && lot > 0.0 && contract > 0.0;
            var trails := (s.phase == Protect || (s.phase == Observe && Gained(s, look.price, s.protectR))) && Gained(s, look.price, s.trailR);
            && (t.phase == Trail <==> s.phase == Trail || (sized && trails && Earned(s, look.pnl, lot, contract, TrailAt(s))))
            && (t.phase == Protect && s.phase == Observe <==>
                  && sized && s.phase == Observe && Gained(s, look.price, s.protectR) && !Gained(s, look.price, s.trailR)
                  && Earned(s, look.pnl, lot, contract, ProtectAt(s)))
            && (t.phase == Observe ==> s.phase == Observe)
  {
    AdvanceMoves(s, look.price);
    ConfirmMoves(s, Advance(s, look.price), look.pnl, lot, contract);
  }

  /** A look at a price on the losing side of the entry moves no session to another phase. */
  lemma {:induction false} LosingSideNeverAdvances(s: Session, look: Look, lot: real, contract: real)
    requires s.protectR > 0.0 && s.trailR > 0.0
    requires if s.long then look.price <= s.entry else look.price >= s.entry
    ensures Monitored(s, look, lot, contract).phase == s.phase
  {
    LookMoves(s, look, lot, contract);
    if s.riskDistance > 0.0 {
      assert s.protectR * s.riskDistance > 0.0 && s.trailR * s.riskDistance > 0.0;
    }
  }

  /** The progress kept in the session is the gain in risk distances, to four places. */
  lemma {:induction false} ProgressKept(s: Session, look: Look, lot: real, contract: real)
    requires s.riskDistance > 0.0
    ensures var kept := Monitored(s, look, lot, contract).progressR;
            ProgressR(s, look.price) - 0.00005 <= kept <= ProgressR(s, look.price) + 0.00005
  {
    Rounding.RoundError(ProgressR(s, look.price), 10_000);
    assert 0.5 / 10_000.0 == 0.00005;
  }

  /** The look carries to the trail phase, or as far as protection. */
  predicate TrailLook(s: Session, look: Look, lot: real, contract: real) {
    Gained(s, look.price, s.trailR) && Earned(s, look.pnl, lot, contract, s.trailR)
  }

  predicate ProtectLook(s: Session, look: Look, lot: real, contract: real) {
    Gained(s, look.price, s.protectR) && !Gained(s, look.price, s.trailR) && Earned(s, look.pnl, lot, contract, s.protectR)
  }

  /**
   A long position has left OBSERVE exactly when some look showed a price of entry plus
   `protectR` risk distances, confirmed by the profit, and is in TRAIL exactly when some look
   showed entry plus `trailR` risk distances, confirmed likewise; a short one at the mirrored
   prices. A look beyond the trail price counts only if the profit confirms that much.
   */
  lemma {:induction false} PhaseInPrices(s: Session, looks: seq<Look>, lot: real, contract: real)
    requires s.phase.Observe? && OrdinaryTerms(s, lot, contract)
    ensures var phase := After(s, looks, lot, contract).phase;
            && (phase == Trail <==> exists look :: look in looks && TrailLook(s, look, lot, contract))
            && (phase != Observe <==>
                  exists look :: look in looks && (TrailLook(s, look, lot, contract) || ProtectLook(s, look, lot, contract)))
  {
    if looks != [] {
      var front, last := looks[..|looks| - 1], looks[|looks| - 1];
      var t := After(s, front, lot, contract);
      PhaseInPrices(s, front, lot, contract);
      TermsFixed(s, front, lot, contract);
      LookInPrices(t, last, lot, contract);
      SameLooks(s, t, last, lot, contract);
      LastOrBefore(looks, look => TrailLook(s, look, lot, contract));
      LastOrBefore(looks, look => TrailLook(s, look, lot, contract) || ProtectLook(s, look, lot, contract));
    }
  }

  lemma {:induction false} LastOrBefore(looks: seq<Look>, p: Look -> bool)
    requires looks != []
    ensures (exists look :: look in looks && p(look)) <==>
            p(looks[|looks| - 1]) || exists look :: look in looks[..|looks| - 1] && p(look)
  {
    assert looks == looks[..|looks| - 1] + [looks[|looks| - 1]];
  }

  lemma {:induction false} SameLooks(s: Session, t: Session, look: Look, lot: real, contract: real)
    requires t == s.(phase := t.phase, progressR := t.progressR)
    ensures TrailLook(t, look, lot, contract) == TrailLook(s, look, lot, contract)
    ensures ProtectLook(t, look, lot, contract) == ProtectLook(s, look, lot, contract)
  {
  }

  lemma {:induction false} LookInPrices(s: Session, look: Look, lot: real, contract: real)
    requires OrdinaryTerms(s, lot, contract)
    ensures var after := Monitored(s, look, lot, contract).phase;
            && (after == Trail <==> s.phase == Trail || TrailLook(s, look, lot, contract))
            && (after != Observe <==> s.phase != Observe || TrailLook(s, look, lot, contract) || ProtectLook(s, look, lot, contract))
  {
    LookMoves(s, look, lot, contract);
    ProtectBelowTrail(s, look.price);
  }

  lemma {:induction false} ProtectBelowTrail(s: Session, price: real)
    requires s.riskDistance > 0.0 && s.protectR < s.trailR
    ensures Gained(s, price, s.trailR) ==> Gained(s, price, s.protectR)
  {
    Scaled(s.trailR, s.protectR, s.riskDistance);
    assert s.protectR * s.riskDistance <= s.trailR * s.riskDistance;
  }
}
