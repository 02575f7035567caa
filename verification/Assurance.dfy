/**
 The assurance profile: signal confidence, consensus, validation and freshness turned into a
 bucket, a target reward-to-risk ratio, a risk multiplier and the session thresholds.
 */
module Assurance {
  import opened Basics
  import opened Rounding

  datatype Consensus = Aligned | Disagreed | BlockedConsensus | OtherConsensus
  datatype Validator = Rejected | Unavailable | OtherValidator

  /** `weakSummary` holds whenever the summary contradicts the signal: it is one of the weak markers. */
  datatype Summary = PlainSummary | WellSupported | WeakSummary | Contradiction {
    predicate Weak() { WeakSummary? || Contradiction? }
  }

  datatype Signal = Signal(
    directional: bool, confidence: real, consensus: Consensus, validator: Validator, summary: Summary,
    stale: bool, inputHardBlocker: bool, validatorHardBlocker: bool, confirmed: bool,
    netPnl: real, tradeCount: int)

  datatype Config = Config(
    protectR: real, highProtectR: real, lowProtectR: real, trailR: real,
    lockR: real, highLockR: real, lowLockR: real, lowMultiplier: real, memoryLossThresholdR: real)

  datatype Bucket = Blocked | Low | Medium | High {
    function Rank(): nat {
      match this
      case Blocked => 0
      case Low => 1
      case Medium => 2
      case High => 3
    }
  }

  datatype Profile = Profile(
    bucket: Bucket, score: real, allowTrade: bool, riskMultiplier: real, targetRr: real,
    protectR: real, trailR: real, protectLockR: real)

  function Clamp(x: real, lo: real, hi: real): real {
    if x < lo then lo else if x > hi then hi else x
  }

  function BlockedProfile(score: real): Profile {
    Profile(Blocked, Round(Clamp(score, 0.0, 1.0), 1000), false, 0.0, 0.0, 0.0, 0.0, 0.0)
  }

  predicate Disagreeing(c: Consensus) {
    c.Disagreed? || c.BlockedConsensus?
  }

  /** What consensus, validation and freshness add to the confidence. */
  function Adjustment(s: Signal): real {
    (match s.consensus { case Aligned => 0.08 case Disagreed => -0.16 case BlockedConsensus => -0.35 case OtherConsensus => 0.0 }) +
    (match s.validator { case Rejected => -0.25 case Unavailable => -0.05 case OtherValidator => 0.0 }) +
    (if s.summary.Weak() then -0.10 else if s.summary.WellSupported? then 0.05 else 0.0) +
    (if s.stale then -0.05 else 0.0)
  }

  function Confidence(s: Signal): real {
    Clamp(s.confidence, 0.0, 1.0)
  }

  function Score(s: Signal): real {
    Round(Clamp(Confidence(s) + Adjustment(s), 0.0, 1.0), 1000)
  }

  /** Combinations of low confidence and opposition that block outright. */
  predicate OpposedAndWeak(s: Signal) {
    var c := Confidence(s);
    || (c < 0.55 && Disagreeing(s.consensus) && s.summary.Contradiction?)
    || ((c < 0.30 || !s.confirmed) && c < 0.45 && (Disagreeing(s.consensus) || s.summary.Weak()))
  }

  predicate LossMemory(s: Signal, k: Config) {
    s.netPnl < k.memoryLossThresholdR * 50.0 && s.tradeCount >= 4
  }

  function TargetRr(s: Signal, k: Config, base: real): real {
    Round(if LossMemory(s, k) then base * 0.5 else base, 100)
  }

  function LowMultiplier(k: Config): real {
    Round(Clamp(k.lowMultiplier, 0.1, 1.0), 100)
  }

  function BuildProfile(s: Signal, k: Config): Profile {
    var score := Score(s);
    if !s.directional then BlockedProfile(0.0)
    else if s.inputHardBlocker || s.validatorHardBlocker then BlockedProfile(Confidence(s))
    else if OpposedAndWeak(s) then BlockedProfile(score)
    else if score >= 0.70 && !s.stale then
      Profile(High, score, true, 1.5, TargetRr(s, k, 2.5), Round(k.highProtectR, 100),
              Round(Larger(k.trailR + 0.15, k.highProtectR + 0.2), 100), Round(k.highLockR, 100))
    else if score >= 0.55 then
      Profile(Medium, score, true, if s.stale then 0.5 else 1.0, TargetRr(s, k, if s.stale then 1.5 else 2.0),
              Round(k.protectR, 100), Round(Larger(k.trailR, k.protectR + 0.2), 100), Round(k.lockR, 100))
    else if s.confirmed && score >= 0.30 && Confidence(s) >= 0.35 &&
            !s.consensus.BlockedConsensus? && !s.validator.Rejected? then
      Profile(Low, score, true, LowMultiplier(k), TargetRr(s, k, 1.5), Round(k.lowProtectR, 100),
              Round(Larger(k.trailR - 0.15, k.lowProtectR + 0.2), 100), Round(k.lowLockR, 100))
    else BlockedProfile(score)
  }

  // ---------------------------------------------------------------- monotone in confidence

  lemma {:induction false} ScoreMonotone(s: Signal, t: Signal)
    requires t == s.(confidence := t.confidence) && s.confidence <= t.confidence
    ensures Confidence(s) <= Confidence(t) && Score(s) <= Score(t)
  {
    var a := Adjustment(s);
    assert Adjustment(t) == a;
    RoundMonotone(Clamp(Confidence(s) + a, 0.0, 1.0), Clamp(Confidence(t) + a, 0.0, 1.0), 1000);
  }

  /** Target ratios grow with the base ratio, with or without the loss-memory halving. */
  lemma {:induction false} TargetRrMonotone(s: Signal, t: Signal, k: Config, a: real, b: real)
    requires t == s.(confidence := t.confidence) && a <= b
    ensures TargetRr(s, k, a) <= TargetRr(t, k, b)
  {
    if LossMemory(s, k) {
      RoundMonotone(a * 0.5, b * 0.5, 100);
    } else {
      RoundMonotone(a, b, 100);
    }
  }

  lemma {:induction false} TargetRrPositive(s: Signal, k: Config, base: real)
    requires base >= 1.5
    ensures TargetRr(s, k, base) >= 0.0
  {
    var x := if LossMemory(s, k) then base * 0.5 else base;
    RoundMonotone(0.0, x, 100);
    RoundExact(0.0, 0, 100);
  }

  /** The base ratio behind each bucket. */
  function BaseRr(s: Signal, bucket: Bucket): real {
    match bucket
    case Blocked => 0.0
    case Low => 1.5
    case Medium => if s.stale then 1.5 else 2.0
    case High => 2.5
  }

  lemma {:induction false} BucketRr(s: Signal, k: Config)
    ensures var p := BuildProfile(s, k);
            p.targetRr == if p.bucket.Blocked? then 0.0 else TargetRr(s, k, BaseRr(s, p.bucket))
  {
  }

  /** More confidence never lowers the bucket or the target ratio, and never blocks a trade. */
  lemma {:induction false} MoreConfidenceNeverDemotes(s: Signal, t: Signal, k: Config)
    requires t == s.(confidence := t.confidence) && s.confidence <= t.confidence
    ensures BuildProfile(s, k).bucket.Rank() <= BuildProfile(t, k).bucket.Rank()
    ensures BuildProfile(s, k).targetRr <= BuildProfile(t, k).targetRr
    ensures BuildProfile(s, k).allowTrade ==> BuildProfile(t, k).allowTrade && BuildProfile(t, k).riskMultiplier > 0.0
  {
    AllowedIffNotBlocked(s, k);
    AllowedIffNotBlocked(t, k);
    ScoreMonotone(s, t);
    var p, q := BuildProfile(s, k), BuildProfile(t, k);
    assert p.bucket.Rank() <= q.bucket.Rank();
    BucketRr(s, k);
    BucketRr(t, k);
    if !q.bucket.Blocked? {
      TargetRrPositive(t, k, BaseRr(t, q.bucket));
      if !p.bucket.Blocked? {
        TargetRrMonotone(s, t, k, BaseRr(s, p.bucket), BaseRr(t, q.bucket));
      }
    }
  }

  lemma {:induction false} LowMultiplierRange(k: Config)
    ensures 0.0 <= LowMultiplier(k) <= 1.0
  {
    RoundMonotone(0.0, Clamp(k.lowMultiplier, 0.1, 1.0), 100);
    RoundMonotone(Clamp(k.lowMultiplier, 0.1, 1.0), 1.0, 100);
    RoundExact(0.0, 0, 100);
    RoundExact(1.0, 100, 100);
  }

  ghost predicate RiskMonotone(k: Config) {
    forall s: Signal, t: Signal | t == s.(confidence := t.confidence) && s.confidence <= t.confidence ::
      BuildProfile(s, k).riskMultiplier <= BuildProfile(t, k).riskMultiplier
  }

  /** A configured low multiplier of at most one half rounds to at most one half. */
  lemma {:induction false} HalfSuffices(k: Config)
    requires k.lowMultiplier <= 0.5
    ensures LowMultiplier(k) <= 0.5
  {
    RoundMonotone(Clamp(k.lowMultiplier, 0.1, 1.0), 0.5, 100);
    RoundExact(0.5, 50, 100);
  }

  lemma {:induction false} RiskMonotoneIfHalf(s: Signal, t: Signal, k: Config)
    requires t == s.(confidence := t.confidence) && s.confidence <= t.confidence
    requires LowMultiplier(k) <= 0.5
    ensures BuildProfile(s, k).riskMultiplier <= BuildProfile(t, k).riskMultiplier
  {
    ScoreMonotone(s, t);
    LowMultiplierRange(k);
    MoreConfidenceNeverDemotes(s, t, k);
  }

  /** A stale signal whose risk falls from the low to the medium bucket. */
  lemma {:induction false} StaleCrossing(k: Config) returns (s: Signal, t: Signal)
    ensures t == s.(confidence := t.confidence) && s.confidence <= t.confidence
    ensures BuildProfile(s, k).riskMultiplier == LowMultiplier(k)
    ensures BuildProfile(t, k).riskMultiplier == 0.5
  {
    s := Signal(true, 0.5, OtherConsensus, OtherValidator, PlainSummary, true, false, false, true, 0.0, 0);
    t := s.(confidence := 0.7);
    RoundExact(0.45, 450, 1000);
    RoundExact(0.65, 650, 1000);
    assert Score(s) == 0.45 && Score(t) == 0.65;
  }

  /**
   More confidence never lowers the risk multiplier, for all signals, if and only if the low
   multiplier in force is at most one half.
   */
  lemma {:induction false} RiskMonotoneIff(k: Config)
    ensures RiskMonotone(k) <==> LowMultiplier(k) <= 0.5
  {
    if LowMultiplier(k) <= 0.5 {
      forall s: Signal, t: Signal | t == s.(confidence := t.confidence) && s.confidence <= t.confidence
        ensures BuildProfile(s, k).riskMultiplier <= BuildProfile(t, k).riskMultiplier
      {
        RiskMonotoneIfHalf(s, t, k);
      }
    } else {
      var s, t := StaleCrossing(k);
      assert BuildProfile(s, k).riskMultiplier > BuildProfile(t, k).riskMultiplier;
    }
  }

  // ---------------------------------------------------------------- thresholds

  lemma {:induction false} RoundedGap(protect: real, trail: real)
    requires trail >= protect + 0.2
    ensures Round(trail, 100) >= Round(protect, 100) + 0.2
  {
    RoundMonotone(protect + 0.2, trail, 100);
    HalfEvenShift(protect * 100.0, 20);
    assert (protect + 0.2) * 100.0 == protect * 100.0 + 20.0;
    var n := HalfEven(protect * 100.0);
    assert HalfEven((protect + 0.2) * 100.0) == n + 20;
    assert Round(protect + 0.2, 100) == (n + 20) as real / 100.0;
    assert (n + 20) as real / 100.0 == n as real / 100.0 + 0.2;
  }

  /** Every profile that allows a trade trails strictly later than it protects. */
  lemma {:induction false} TrailAfterProtect(s: Signal, k: Config)
    ensures var p := BuildProfile(s, k); p.allowTrade ==> p.trailR >= p.protectR + 0.2
  {
    RoundedGap(k.highProtectR, Larger(k.trailR + 0.15, k.highProtectR + 0.2));
    RoundedGap(k.protectR, Larger(k.trailR, k.protectR + 0.2));
    RoundedGap(k.lowProtectR, Larger(k.trailR - 0.15, k.lowProtectR + 0.2));
  }

  /** A profile allows the trade exactly when it is not in the blocked bucket. */
  lemma {:induction false} AllowedIffNotBlocked(s: Signal, k: Config)
    ensures BuildProfile(s, k).allowTrade <==> !BuildProfile(s, k).bucket.Blocked?
    ensures BuildProfile(s, k).allowTrade ==> s.directional && BuildProfile(s, k).riskMultiplier > 0.0
  {
    var x := Clamp(k.lowMultiplier, 0.1, 1.0);
    RoundMonotone(0.1, x, 100);
    RoundExact(0.1, 10, 100);
  }

  // ---------------------------------------------------------------- in points

  /** Confidence in thousandths, at least 0 and at most 1000, and what the evidence adds or takes away. */
  function Points(s: Signal): real {
    (if s.confidence < 0.0 then 0.0 else if s.confidence > 1.0 then 1000.0 else s.confidence * 1000.0) + Evidence(s) as real
  }

  function Evidence(s: Signal): int {
    (match s.consensus { case Aligned => 80 case Disagreed => -160 case BlockedConsensus => -350 case OtherConsensus => 0 }) +
    (match s.validator { case Rejected => -250 case Unavailable => -50 case OtherValidator => 0 }) +
    (match s.summary { case WellSupported => 50 case PlainSummary => 0 case WeakSummary => -100 case Contradiction => -100 }) +
    (if s.stale then -50 else 0)
  }

  /** Outright refusals: no direction, a hard blocker, or low confidence with opposition. */
  predicate Refused(s: Signal) {
    var opposing := s.consensus == Disagreed || s.consensus == BlockedConsensus;
    || !s.directional || s.inputHardBlocker || s.validatorHardBlocker
    || (s.confidence < 0.55 && opposing && s.summary == Contradiction)
    || (s.confidence < 0.45 && (s.confidence < 0.30 || !s.confirmed) && (opposing || s.summary == WeakSummary || s.summary == Contradiction))
  }

  /** The bucket that points, staleness and confirmation give. */
  function BucketFor(s: Signal): Bucket {
    if Refused(s) then Blocked
    else if Points(s) >= 699.5 && !s.stale then High
    else if Points(s) >= 549.5 then Medium
    else if Points(s) >= 299.5 && s.confirmed && s.confidence >= 0.35 && s.consensus != BlockedConsensus && s.validator != Rejected then Low
    else Blocked
  }

  lemma {:induction false} AdjustmentIsEvidence(s: Signal)
    ensures Adjustment(s) == Evidence(s) as real / 1000.0
  {
  }

  lemma {:induction false} PointsAreScore(s: Signal)
    ensures (Confidence(s) + Adjustment(s)) * 1000.0 == Points(s)
  {
    AdjustmentIsEvidence(s);
  }

  /** Rounding lets a score reach an even threshold half a point early. */
  lemma {:induction false} ScoreReaches(s: Signal, n: int)
    requires 0 < n < 1000 && n % 2 == 0
    ensures Score(s) >= n as real / 1000.0 <==> Points(s) >= n as real - 0.5
  {
    var y := Clamp(Confidence(s) + Adjustment(s), 0.0, 1.0) * 1000.0;
    PointsAreScore(s);
    ReachesEven(y, n);
    assert Score(s) == HalfEven(y) as real / 1000.0;
  }

  lemma {:induction false} ReachesEven(y: real, n: int)
    requires n % 2 == 0
    ensures HalfEven(y) >= n <==> y >= n as real - 0.5
  {
    if y >= n as real - 0.5 {
      assert y.Floor >= n - 1;
    }
  }

  /** The bucket of every signal, in points. */
  lemma {:induction false} BucketInPoints(s: Signal, k: Config)
    ensures BuildProfile(s, k).bucket == BucketFor(s)
  {
    ScoreReaches(s, 700);
    ScoreReaches(s, 550);
    ScoreReaches(s, 300);
  }

  /** The day has lost more than the threshold over at least four trades. */
  predicate Tightened(s: Signal, k: Config) {
    s.tradeCount >= 4 && s.netPnl < 50.0 * k.memoryLossThresholdR
  }

  /** Multiplier and target ratio of each bucket, and session thresholds as configured, to half a hundredth. */
  predicate TermsFit(s: Signal, k: Config, p: Profile) {
    var base := if p.bucket == High then 2.5 else if p.bucket == Medium && !s.stale then 2.0 else 1.5;
    match p.bucket
    case Blocked => !p.allowTrade && p.riskMultiplier == 0.0 && p.targetRr == 0.0
    case High =>
      && p.allowTrade && p.riskMultiplier == 1.5 && p.targetRr == (if Tightened(s, k) then base / 2.0 else base)
      && Near(p.protectR, k.highProtectR) && Near(p.protectLockR, k.highLockR)
      && Near(p.trailR, if k.trailR + 0.15 >= k.highProtectR + 0.2 then k.trailR + 0.15 else k.highProtectR + 0.2)
    case Medium =>
      && p.allowTrade && p.riskMultiplier == (if s.stale then 0.5 else 1.0) && p.targetRr == (if Tightened(s, k) then base / 2.0 else base)
      && Near(p.protectR, k.protectR) && Near(p.protectLockR, k.lockR)
      && Near(p.trailR, if k.trailR >= k.protectR + 0.2 then k.trailR else k.protectR + 0.2)
    case Low =>
      && p.allowTrade && p.targetRr == (if Tightened(s, k) then base / 2.0 else base)
      && Near(p.riskMultiplier, if k.lowMultiplier < 0.1 then 0.1 else if k.lowMultiplier > 1.0 then 1.0 else k.lowMultiplier)
      && Near(p.protectR, k.lowProtectR) && Near(p.protectLockR, k.lowLockR)
      && Near(p.trailR, if k.trailR - 0.15 >= k.lowProtectR + 0.2 then k.trailR - 0.15 else k.lowProtectR + 0.2)
  }

  predicate Near(x: real, y: real) { y - 0.005 <= x <= y + 0.005 }

  lemma {:induction false} RoundIsNear(x: real)
    ensures Near(Round(x, 100), x)
  {
    RoundCents(x);
  }

  lemma {:induction false} BaseRatiosExact()
    ensures Round(2.5, 100) == 2.5 && Round(2.0, 100) == 2.0 && Round(1.5, 100) == 1.5
    ensures Round(1.25, 100) == 1.25 && Round(1.0, 100) == 1.0 && Round(0.75, 100) == 0.75
  {
    RoundExact(2.5, 250, 100);
    RoundExact(2.0, 200, 100);
    RoundExact(1.5, 150, 100);
    RoundExact(1.25, 125, 100);
    RoundExact(1.0, 100, 100);
    RoundExact(0.75, 75, 100);
  }

  /** What each bucket carries. */
  lemma {:induction false} BucketTerms(s: Signal, k: Config)
    ensures TermsFit(s, k, BuildProfile(s, k))
  {
    BaseRatiosExact();
    match BuildProfile(s, k).bucket
    case Blocked =>
    case High =>
      RoundIsNear(k.highProtectR);
      RoundIsNear(k.highLockR);
      RoundIsNear(Larger(k.trailR + 0.15, k.highProtectR + 0.2));
    case Medium =>
      RoundIsNear(k.protectR);
      RoundIsNear(k.lockR);
      RoundIsNear(Larger(k.trailR, k.protectR + 0.2));
    case Low =>
      RoundIsNear(k.lowProtectR);
      RoundIsNear(k.lowLockR);
      RoundIsNear(Larger(k.trailR - 0.15, k.lowProtectR + 0.2));
      RoundIsNear(Clamp(k.lowMultiplier, 0.1, 1.0));
  }

  function Within(x: real): real { if x < 0.0 then 0.0 else if x > 1000.0 then 1000.0 else x }

  lemma {:induction false} ScoreTwice(s: Signal)
    ensures Round(Clamp(Score(s), 0.0, 1.0), 1000) == Score(s)
  {
    var x := Clamp(Confidence(s) + Adjustment(s), 0.0, 1.0);
    RoundMonotone(0.0, x, 1000);
    RoundMonotone(x, 1.0, 1000);
    RoundExact(0.0, 0, 1000);
    RoundExact(1.0, 1000, 1000);
    RoundExact(Score(s), HalfEven(x * 1000.0), 1000);
  }

  lemma {:induction false} ProfileScore(s: Signal, k: Config)
    ensures BuildProfile(s, k).score ==
            if !s.directional then 0.0
            else if s.inputHardBlocker || s.validatorHardBlocker then Round(Confidence(s), 1000)
            else Score(s)
  {
    ScoreTwice(s);
    RoundExact(0.0, 0, 1000);
  }

  /** The score that is reported: the points, or the bare confidence of a hard-blocked signal, to half a thousandth. */
  lemma {:induction false} ScoreInPoints(s: Signal, k: Config)
    ensures var thousandths := BuildProfile(s, k).score * 1000.0;
            if !s.directional then thousandths == 0.0
            else
              var points := Within(if s.inputHardBlocker || s.validatorHardBlocker then Points(s) - Evidence(s) as real else Points(s));
              points - 0.5 <= thousandths <= points + 0.5
  {
    ProfileScore(s, k);
    AdjustmentIsEvidence(s);
    ScoredNear(Confidence(s));
    ScoredNear(Clamp(Confidence(s) + Adjustment(s), 0.0, 1.0));
  }

  lemma {:induction false} ScoredNear(x: real)
    ensures x * 1000.0 - 0.5 <= Round(x, 1000) * 1000.0 <= x * 1000.0 + 0.5
  {
    assert Round(x, 1000) * 1000.0 == HalfEven(x * 1000.0) as real;
  }
}
