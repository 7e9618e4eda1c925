/** The CEO focus controller: the weighted choice of the quarter's focus, the
    map from focus to aligned ticket categories, and the mid-quarter drift check. */
module Focus {
  import opened Types
  import opened Random
  import opened Roulette

  /** The focuses in the order the source's weight record lists them. */
  const Focuses: seq<CeoFocus> := [SelfServe, Enterprise, TechDebtFocus]

  /** Weights 35 / 35 / 30, each raised by 20 while its metric needs attention. */
  function FocusWeights(m: Metrics): (ws: seq<real>)
    ensures |ws| == 3
    ensures forall i :: 0 <= i < 3 ==> ws[i] >= 30.0
    ensures Sum(ws) == ws[0] + ws[1] + ws[2] >= 100.0
  {
    var ws := [ (if m.selfServeGrowth < 35 then 55.0 else 35.0),
      (if m.enterpriseGrowth < 35 then 55.0 else 35.0),
      (if m.techDebt > 65 then 50.0 else 30.0) ];
    SumOfThree(ws);
    ws
  }

  /** The focus the roulette gives for output `u`. */
  function FocusFor(m: Metrics, u: bv32): (f: CeoFocus)
  {
    var ws := FocusWeights(m);
    var i := Select(ws, Roll(Fraction(u), Sum(ws)));
    if i < 3 then Focuses[i] else SelfServe
  }

  /** A focus whose metric needs attention wins whenever the roll lands in its
      slice, and the fallback after the loop is never taken. */
  lemma FocusForInRange(m: Metrics, u: bv32)
    ensures Select(FocusWeights(m), Roll(Fraction(u), Sum(FocusWeights(m)))) < 3
  {
    var ws := FocusWeights(m);
    SelectInRange(ws, Roll(Fraction(u), Sum(ws)));
  }

  /** `selectCeoFocus`: one draw, then the roulette over the three weights. */
  method SelectCeoFocus(m: Metrics, rng: Rng) returns (f: CeoFocus)
    requires rng.Valid()
    modifies rng
    ensures rng.Valid() && rng.origin == old(rng.origin) && rng.drawn == old(rng.drawn) + 1
    ensures rng.t == Advance(old(rng.t))
    ensures f == FocusFor(m, Mix(rng.t))
    ensures f in Focuses
  {
    var weights := FocusWeights(m);
    var total := weights[0] + weights[1] + weights[2];
    var u := rng.Next();
    var i := Spin(weights, Roll(Fraction(u), total));
    FocusForInRange(m, u);
    if i < 3 {
      f := Focuses[i];
    } else {
      f := SelfServe;
    }
  }

  /** `focusToCategory`. */
  function FocusToCategory(f: CeoFocus): (c: Category)
    ensures c in AlignedWith(f)
  {
    match f
    case Enterprise => EnterpriseFeature
    case TechDebtFocus => TechDebtReduction
    case SelfServe => SelfServeFeature
  }

  /** The categories each focus accepts as aligned. */
  function AlignedWith(f: CeoFocus): set<Category> {
    match f
    case SelfServe => {SelfServeFeature}
    case Enterprise => {EnterpriseFeature, SalesRequest}
    case TechDebtFocus => {TechDebtReduction, Infrastructure}
  }

  /** `isCeoAlignedCategory`: the focus's own category, plus sales requests under
      the enterprise focus and infrastructure under the tech-debt focus. */
  function IsCeoAlignedCategory(f: CeoFocus, c: Category): (aligned: bool)
    ensures aligned <==> c in AlignedWith(f)
  {
    if f == Enterprise && c == SalesRequest then true
    else if f == TechDebtFocus && c == Infrastructure then true
    else c == FocusToCategory(f)
  }

  /** Every focus counts its own category as aligned. */
  lemma FocusAlignsWithOwnCategory(f: CeoFocus)
    ensures IsCeoAlignedCategory(f, FocusToCategory(f))
  {
  }

  /** Distinct focuses map to distinct categories. */
  lemma FocusToCategoryInjective(f: CeoFocus, g: CeoFocus)
    requires FocusToCategory(f) == FocusToCategory(g)
    ensures f == g
  {
  }

  /** Sales requests align only under the enterprise focus, infrastructure only
      under the tech-debt focus, and UX, monetization and moonshot tickets never. */
  lemma CrossAlignments(f: CeoFocus)
    ensures IsCeoAlignedCategory(f, SalesRequest) <==> f == Enterprise
    ensures IsCeoAlignedCategory(f, Infrastructure) <==> f == TechDebtFocus
    ensures !IsCeoAlignedCategory(f, UxImprovement)
    ensures !IsCeoAlignedCategory(f, Monetization)
    ensures !IsCeoAlignedCategory(f, Moonshot)
  {
  }

  /** The per-sprint chance that the focus drifts: 5%, 10% or 15%. */
  function ShiftChance(d: Difficulty): (p: real)
    ensures 0.0 < p < 1.0
  {
    match d
    case Easy => 0.05
    case Hard => 0.15
    case Normal => 0.1
  }

  /** Harder games drift more often. */
  lemma ShiftChanceOrdered()
    ensures ShiftChance(Easy) < ShiftChance(Normal) < ShiftChance(Hard)
  {
  }

  /** `shouldShiftFocus`: one draw compared against the difficulty's chance. */
  method ShouldShiftFocus(rng: Rng, d: Difficulty) returns (shift: bool)
    requires rng.Valid()
    modifies rng
    ensures rng.Valid() && rng.origin == old(rng.origin) && rng.drawn == old(rng.drawn) + 1
    ensures rng.t == Advance(old(rng.t))
    ensures shift <==> Fraction(Mix(rng.t)) < ShiftChance(d)
  {
    var u := rng.Next();
    shift := Fraction(u) < ShiftChance(d);
  }
}
