/** The review scorer: the quarterly review (a banded score, clamped, with rating
    overrides) and the year-end review (trajectory and consistency bonuses, a
    random calibration modifier with floors, and a five-tier rating). */
module Review {
  import opened Types
  import opened Random
  import P = Pulse

  datatype Rating = Strong | Solid | Mixed | BelowExpectations

  /** The optional context of `computeQuarterlyReview`; a missing field counts as 0. */
  datatype ReviewContext = ReviewContext(lowTeamSprints: Option<int>, alignmentRatio: Option<real>)

  /** The factor breakdown the review reports next to its score. */
  datatype Factors = Factors(
    ceoAlignment: int,
    growth: int,
    stability: int,
    pulse: int,
    alignmentBonus: int,
    moralePenalty: int,
    alignmentRatio: real,
    techDebtBonus: int,
    teamBonus: int,
    ctoBonus: int,
    salesBonus: int,
    crisisPenalty: int)

  datatype QuarterlyReview = QuarterlyReview(quarter: int, rawScore: int, rating: Rating, factors: Factors)

  function CeoAlignmentTier(ceo: int): int {
    if ceo > 70 then 38 else if ceo >= 50 then 27 else if ceo >= 30 then 14 else 6
  }

  function GrowthTier(selfServe: int, enterprise: int): int {
    if selfServe > 55 && enterprise > 55 then 18
    else if selfServe > 55 || enterprise > 55 then 13
    else if selfServe < 35 || enterprise < 35 then 3
    else 8
  }

  function StabilityTier(catastrophes: int): int {
    if catastrophes == 0 then 18 else if catastrophes == 1 then 12 else 5
  }

  function PulseTier(p: P.ProductPulse): int {
    if p.churn == P.Positive && p.supportLoad == P.Positive && p.customerSentiment == P.Positive then 19
    else if p.churn == P.Concerning || p.supportLoad == P.Concerning || p.customerSentiment == P.Concerning then 5
    else 10
  }

  function AlignmentBonus(ratio: real): int {
    if ratio >= 0.6 then 5 else if ratio >= 0.45 then 3 else if ratio >= 0.3 then 1 else 0
  }

  function MoralePenalty(lowTeamSprints: int): int {
    if lowTeamSprints >= 2 then -5 else 0
  }

  function TechDebtBonus(debt: int): int {
    if debt < 30 then 5 else if debt > 75 then -8 else if debt > 65 then -5 else if debt > 50 then -2 else 0
  }

  function TeamBonus(team: int): int {
    if team > 70 then 5 else if team > 60 then 3 else if team < 35 then -5 else if team < 45 then -3 else 0
  }

  /** The CTO and the sales bonus share one banding. */
  function StakeholderBonus(sentiment: int): int {
    if sentiment > 70 then 4 else if sentiment > 60 then 2 else if sentiment < 35 then -6 else if sentiment < 45 then -3 else 0
  }

  /** The four sentiments the crisis check looks at. */
  const Stakeholders: seq<MetricKey> := [TeamSentiment, CeoSentiment, SalesSentiment, CtoSentiment]

  /** The keys of `ks` whose value in `m` is below 40, in order. */
  function Unhappy(ks: seq<MetricKey>, m: Metrics): (r: seq<MetricKey>)
    ensures forall k :: k in r <==> k in ks && m.Get(k) < 40
  {
    if ks == [] then []
    else (if m.Get(ks[0]) < 40 then [ks[0]] else []) + Unhappy(ks[1..], m)
  }

  /** How many of team, CEO, sales and CTO sentiment are below 40. */
  function UnhappyStakeholders(m: Metrics): (n: nat)
    ensures n == |Unhappy(Stakeholders, m)|
  {
    assert [CeoSentiment, SalesSentiment, CtoSentiment][1..] == [SalesSentiment, CtoSentiment];
    assert [SalesSentiment, CtoSentiment][1..] == [CtoSentiment];
    assert |Unhappy([CtoSentiment], m)| == (if m.ctoSentiment < 40 then 1 else 0);
    assert |Unhappy([SalesSentiment, CtoSentiment], m)|
        == (if m.salesSentiment < 40 then 1 else 0) + (if m.ctoSentiment < 40 then 1 else 0);
    assert Stakeholders[1..] == [CeoSentiment, SalesSentiment, CtoSentiment];
    (if m.teamSentiment < 40 then 1 else 0) + (if m.ceoSentiment < 40 then 1 else 0)
    + (if m.salesSentiment < 40 then 1 else 0) + (if m.ctoSentiment < 40 then 1 else 0)
  }

  function CrisisPenalty(unhappy: int): int {
    if unhappy >= 3 then -15 else if unhappy >= 2 then -10 else 0
  }

  function FactorTotal(f: Factors): int {
    f.ceoAlignment + f.growth + f.stability + f.pulse + f.alignmentBonus + f.moralePenalty
    + f.techDebtBonus + f.teamBonus + f.ctoBonus + f.salesBonus + f.crisisPenalty
  }

  /** Score thresholds: 80 strong, 65 solid, 45 mixed. */
  function BaseRating(score: int): Rating {
    if score >= 80 then Strong else if score >= 65 then Solid else if score >= 45 then Mixed else BelowExpectations
  }

  /** 3 for strong down to 0 for below expectations. */
  function Rank(r: Rating): nat {
    match r
    case Strong => 3
    case Solid => 2
    case Mixed => 1
    case BelowExpectations => 0
  }

  /** A higher score never earns a lower base rating. */
  lemma BaseRatingMonotone(a: int, b: int)
    requires a <= b
    ensures Rank(BaseRating(a)) <= Rank(BaseRating(b))
  {
  }

  /** The factor breakdown of a quarter: one band per metric or context value,
      a missing context field counting as 0. */
  function FactorsOf(m: Metrics, pulse: P.ProductPulse, catastropheCount: int, context: ReviewContext): Factors {
    var lowTeamSprints := match context.lowTeamSprints case Some(n) => n case None => 0;
    var alignmentRatio := match context.alignmentRatio case Some(x) => x case None => 0.0;
    Factors(
      CeoAlignmentTier(m.ceoSentiment),
      GrowthTier(m.selfServeGrowth, m.enterpriseGrowth),
      StabilityTier(catastropheCount),
      PulseTier(pulse),
      AlignmentBonus(alignmentRatio),
      MoralePenalty(lowTeamSprints),
      alignmentRatio,
      TechDebtBonus(m.techDebt),
      TeamBonus(m.teamSentiment),
      StakeholderBonus(m.ctoSentiment),
      StakeholderBonus(m.salesSentiment),
      CrisisPenalty(UnhappyStakeholders(m)))
  }

  /** `computeQuarterlyReview`, without the narrative sentence. */
  method ComputeQuarterlyReview(quarter: int, m: Metrics, pulse: P.ProductPulse, catastropheCount: int,
                                context: ReviewContext)
    returns (r: QuarterlyReview)
    ensures r.quarter == quarter
    ensures 0 <= r.rawScore <= 100
    ensures r.rawScore == ClampMetric(FactorTotal(r.factors))
    // two or more unhappy stakeholders override any score
    ensures UnhappyStakeholders(m) >= 2 ==> r.rating == BelowExpectations
    // critical debt with low morale caps the rating at mixed
    ensures UnhappyStakeholders(m) < 2 && m.techDebt > 75 && m.teamSentiment < 40
            ==> r.rating == (if Rank(BaseRating(r.rawScore)) >= 2 then Mixed else BaseRating(r.rawScore))
    // otherwise the rating is the score's band
    ensures UnhappyStakeholders(m) < 2 && !(m.techDebt > 75 && m.teamSentiment < 40)
            ==> r.rating == BaseRating(r.rawScore)
    // the rating never exceeds the score's band
    ensures Rank(r.rating) <= Rank(BaseRating(r.rawScore))
    ensures r.factors == FactorsOf(m, pulse, catastropheCount, context)
    ensures r.factors.crisisPenalty == CrisisPenalty(UnhappyStakeholders(m))
  {
    var unhappy := UnhappyStakeholders(m);
    var factors := FactorsOf(m, pulse, catastropheCount, context);
    var rawScore := ClampMetric(FactorTotal(factors));

    var rating := BaseRating(rawScore);
    if unhappy >= 3 {
      rating := BelowExpectations;
    } else if unhappy >= 2 {
      rating := BelowExpectations;
    } else if m.techDebt > 75 && m.teamSentiment < 40 {
      if rating == Strong || rating == Solid {
        rating := Mixed;
      }
    }
    r := QuarterlyReview(quarter, rawScore, rating, factors);
  }

  // ---------------------------------------------------------------- year end

  datatype FinalRating =
    | ExceedsExpectations | MeetsExpectationsStrong | MeetsExpectations
    | NeedsImprovement | DoesNotMeetExpectations

  datatype YearEndReview = YearEndReview(
    quarterlyScores: seq<int>,
    rawComposite: int,
    calibrationModifier: int,
    finalScore: int,
    finalRating: FinalRating)

  /** The first four scores, padded with 50 up to four. */
  function Padded(qs: seq<int>, i: nat): int {
    if i < |qs| then qs[i] else 50
  }

  /** `scores = quarterlyScores.slice(0, 4); while (scores.length < 4) scores.push(50)`. */
  method PadScores(qs: seq<int>) returns (scores: seq<int>)
    ensures |scores| == 4
    ensures forall i :: 0 <= i < 4 ==> scores[i] == Padded(qs, i)
  {
    scores := if |qs| <= 4 then qs else qs[..4];
    while |scores| < 4
      invariant |scores| <= 4
      invariant forall i :: 0 <= i < |scores| ==> scores[i] == Padded(qs, i)
      invariant |qs| <= 4 ==> |qs| <= |scores|
      decreases 4 - |scores|
    {
      scores := scores + [50];
    }
  }

  function MaxOf(s: seq<int>): int
    requires |s| == 4
  {
    var a := if s[0] >= s[1] then s[0] else s[1];
    var b := if s[2] >= s[3] then s[2] else s[3];
    if a >= b then a else b
  }

  function MinOf(s: seq<int>): int
    requires |s| == 4
  {
    var a := if s[0] <= s[1] then s[0] else s[1];
    var b := if s[2] <= s[3] then s[2] else s[3];
    if a <= b then a else b
  }

  /** The spread between the best and the worst quarter. */
  function Spread(s: seq<int>): (d: int)
    requires |s| == 4
    ensures d >= 0
    ensures forall i, j :: 0 <= i < 4 && 0 <= j < 4 ==> s[i] - s[j] <= d
  {
    MaxOf(s) - MinOf(s)
  }

  predicate StrictlyImproving(s: seq<int>)
    requires |s| == 4
  {
    s[0] < s[1] < s[2] < s[3]
  }

  predicate StrictlyDeclining(s: seq<int>)
    requires |s| == 4
  {
    s[0] > s[1] > s[2] > s[3]
  }

  /** The trajectory bonus: 90 improving, 10 declining, else by spread and first-vs-last. */
  function Trajectory(s: seq<int>): int
    requires |s| == 4
  {
    if StrictlyImproving(s) then 90
    else if StrictlyDeclining(s) then 10
    else if Spread(s) <= 10 then 50
    else if s[3] > s[0] then 70
    else if s[3] < s[0] then 30
    else 50
  }

  /** The consistency bonus: 85 for a spread up to 15, 20 above 25, else 55. */
  function Consistency(s: seq<int>): int
    requires |s| == 4
  {
    if Spread(s) <= 15 then 85 else if Spread(s) > 25 then 20 else 55
  }

  /** Half the average score plus a quarter of each bonus. */
  function Composite(s: seq<int>): real
    requires |s| == 4
  {
    var avg := (s[0] + s[1] + s[2] + s[3]) as real / 4.0;
    avg * 0.5 + Trajectory(s) as real * 0.25 + Consistency(s) as real * 0.25
  }

  function CalibrationMin(d: Difficulty): int {
    match d case Easy => -5 case Hard => -12 case Normal => -10
  }

  function CalibrationMax(d: Difficulty): int {
    match d case Easy => 8 case Hard => 8 case Normal => 10
  }

  /** The drawn modifier, raised to -3 at a composite of 90 and to -6 at 80. */
  function Raise(composite: real, drawn: int): (k: int)
    ensures k >= drawn
    ensures composite >= 90.0 ==> k >= -3
    ensures composite >= 80.0 ==> k >= -6
    ensures composite < 80.0 ==> k == drawn
  {
    if composite >= 90.0 then (if drawn >= -3 then drawn else -3)
    else if composite >= 80.0 then (if drawn >= -6 then drawn else -6)
    else drawn
  }

  /** The calibration modifier for draw `u`: uniform over the difficulty's band, then raised. */
  function Modifier(d: Difficulty, composite: real, u: bv32): (k: int)
    ensures CalibrationMin(d) <= k <= CalibrationMax(d)
    ensures composite >= 90.0 ==> k >= -3
    ensures composite >= 80.0 ==> k >= -6
  {
    Raise(composite, Scale(u, CalibrationMin(d), CalibrationMax(d)))
  }

  /** Adding a whole number before or after rounding is the same. */
  lemma RoundShift(x: real, k: int)
    ensures Round(x + k as real) == Round(x) + k
  {
    assert x + k as real + 0.5 == (x + 0.5) + k as real;
  }

  function RateFinal(score: int): FinalRating {
    if score >= 85 then ExceedsExpectations
    else if score >= 70 then MeetsExpectationsStrong
    else if score >= 45 then MeetsExpectations
    else if score >= 25 then NeedsImprovement
    else DoesNotMeetExpectations
  }

  /** The year-end review for four padded scores and the calibration draw `u`. */
  function YearEndFor(d: Difficulty, s: seq<int>, u: bv32): (r: YearEndReview)
    requires |s| == 4
    ensures r.quarterlyScores == s && r.rawComposite == Round(Composite(s))
    ensures CalibrationMin(d) <= r.calibrationModifier <= CalibrationMax(d)
    // the final score is the reported composite moved by the modifier, clamped
    ensures r.finalScore == ClampMetric(r.rawComposite + r.calibrationModifier)
    ensures 0 <= r.finalScore <= 100 && r.finalRating == RateFinal(r.finalScore)
  {
    RoundShift(Composite(s), Modifier(d, Composite(s), u));
    var composite := Composite(s);
    var modifier := Modifier(d, composite, u);
    var finalScore := ClampMetric(Round(composite + modifier as real));
    YearEndReview(s, Round(composite), modifier, finalScore, RateFinal(finalScore))
  }

  /** A composite of 90 or more always ends in the top tier, whatever the draw. */
  lemma HighCompositeExceeds(d: Difficulty, s: seq<int>, u: bv32)
    requires |s| == 4 && Composite(s) >= 90.0
    ensures YearEndFor(d, s, u).finalRating == ExceedsExpectations
  {
    var c := Composite(s);
    var k := Modifier(d, c, u);
    assert c + k as real >= 87.0;
    assert Round(c + k as real) >= 87;
  }

  /** Four quarters of 90 on any difficulty: trajectory 50, consistency 85,
      composite 78.75, reported as 79, and a final score of at least 67, the
      hard calibration's lowest. */
  lemma FlatNinetiesComposite(d: Difficulty, u: bv32)
    ensures Trajectory([90, 90, 90, 90]) == 50
    ensures Consistency([90, 90, 90, 90]) == 85
    ensures Composite([90, 90, 90, 90]) == 78.75
    ensures YearEndFor(d, [90, 90, 90, 90], u).rawComposite == 79
    ensures YearEndFor(d, [90, 90, 90, 90], u).finalScore >= 67
  {
  }

  /** The trajectory and consistency bonuses of `computeYearEndReview`. */
  method YearBonuses(scores: seq<int>) returns (trajectoryBonus: int, consistencyBonus: int)
    requires |scores| == 4
    ensures trajectoryBonus == Trajectory(scores)
    ensures consistencyBonus == Consistency(scores)
  {
    var range := MaxOf(scores) - MinOf(scores);

    trajectoryBonus := 50;
    if StrictlyImproving(scores) {
      trajectoryBonus := 90;
    } else if StrictlyDeclining(scores) {
      trajectoryBonus := 10;
    } else if range <= 10 {
      trajectoryBonus := 50;
    } else if scores[3] > scores[0] {
      trajectoryBonus := 70;
    } else if scores[3] < scores[0] {
      trajectoryBonus := 30;
    }

    consistencyBonus := 55;
    if range <= 15 {
      consistencyBonus := 85;
    } else if range > 25 {
      consistencyBonus := 20;
    }

    assert range == Spread(scores);
  }

  /** `computeYearEndReview`, without the narrative sentence. */
  method ComputeYearEndReview(d: Difficulty, quarterlyScores: seq<int>, rng: Rng) returns (r: YearEndReview)
    requires rng.Valid()
    modifies rng
    ensures rng.Valid() && rng.origin == old(rng.origin) && rng.drawn == old(rng.drawn) + 1
    ensures rng.t == Advance(old(rng.t))
    ensures |r.quarterlyScores| == 4
    ensures forall i :: 0 <= i < 4 ==> r.quarterlyScores[i] == Padded(quarterlyScores, i)
    ensures r == YearEndFor(d, r.quarterlyScores, Mix(rng.t))
    ensures 0 <= r.finalScore <= 100
    ensures CalibrationMin(d) <= r.calibrationModifier <= CalibrationMax(d)
  {
    var scores := PadScores(quarterlyScores);
    var avg := (scores[0] + scores[1] + scores[2] + scores[3]) as real / 4.0;
    var trajectoryBonus, consistencyBonus := YearBonuses(scores);
    var rawComposite := avg * 0.5 + trajectoryBonus as real * 0.25 + consistencyBonus as real * 0.25;
    assert rawComposite == Composite(scores);
    var drawn := rng.Int(CalibrationMin(d), CalibrationMax(d));
    var calibrationModifier := Calibrate(rawComposite, drawn);
    var finalScore := ClampMetric(Round(rawComposite + calibrationModifier as real));
    r := YearEndReview(scores, Round(rawComposite), calibrationModifier, finalScore, RateFinal(finalScore));
    YearEndParts(d, scores, Mix(rng.t), rawComposite, calibrationModifier);
  }

  /** The raising of the calibration modifier in `computeYearEndReview`. */
  method Calibrate(rawComposite: real, drawn: int) returns (calibrationModifier: int)
    ensures calibrationModifier == Raise(rawComposite, drawn)
  {
    calibrationModifier := drawn;
    if rawComposite >= 90.0 {
      calibrationModifier := if calibrationModifier >= -3 then calibrationModifier else -3;
    } else if rawComposite >= 80.0 {
      calibrationModifier := if calibrationModifier >= -6 then calibrationModifier else -6;
    }
  }

  /** The year-end review assembled from its composite and its modifier. */
  lemma YearEndParts(d: Difficulty, s: seq<int>, u: bv32, composite: real, modifier: int)
    requires |s| == 4 && composite == Composite(s) && modifier == Modifier(d, composite, u)
    ensures YearEndFor(d, s, u)
         == YearEndReview(s, Round(composite), modifier, ClampMetric(Round(composite + modifier as real)),
                          RateFinal(ClampMetric(Round(composite + modifier as real))))
  {
  }
}
