/** Shared vocabulary of the simulation engine: the metrics record, difficulty
    tiers, ticket catalog entries, outcomes and the rounding and clamping
    arithmetic every component uses. */
module Types {

  datatype Option<+T> = None | Some(value: T)

  datatype Difficulty = Easy | Normal | Hard

  /** The nine gauges of the metrics record, in the order the record declares them. */
  datatype MetricKey =
    | TeamSentiment | CeoSentiment | SalesSentiment | CtoSentiment
    | SelfServeGrowth | EnterpriseGrowth | TechDebt | Nps | Velocity

  /** The metrics record. Every value the engine produces is an integer: initial
      values are drawn integers and every delta goes through a rounding step. */
  datatype Metrics = Metrics(
    teamSentiment: int,
    ceoSentiment: int,
    salesSentiment: int,
    ctoSentiment: int,
    selfServeGrowth: int,
    enterpriseGrowth: int,
    techDebt: int,
    nps: int,
    velocity: int)
  {
    function Get(k: MetricKey): int {
      match k
      case TeamSentiment => teamSentiment
      case CeoSentiment => ceoSentiment
      case SalesSentiment => salesSentiment
      case CtoSentiment => ctoSentiment
      case SelfServeGrowth => selfServeGrowth
      case EnterpriseGrowth => enterpriseGrowth
      case TechDebt => techDebt
      case Nps => nps
      case Velocity => velocity
    }

    /** `record[k] = v` on a copy of the record. */
    function Set(k: MetricKey, v: int): (r: Metrics)
      ensures r.Get(k) == v
      ensures forall j :: j != k ==> r.Get(j) == Get(j)
    {
      match k
      case TeamSentiment => this.(teamSentiment := v)
      case CeoSentiment => this.(ceoSentiment := v)
      case SalesSentiment => this.(salesSentiment := v)
      case CtoSentiment => this.(ctoSentiment := v)
      case SelfServeGrowth => this.(selfServeGrowth := v)
      case EnterpriseGrowth => this.(enterpriseGrowth := v)
      case TechDebt => this.(techDebt := v)
      case Nps => this.(nps := v)
      case Velocity => this.(velocity := v)
    }
  }

  /** The eight gauges that are kept in [0, 100]; velocity is not among them. */
  predicate BoundedGauge(k: MetricKey) { k != Velocity }

  /** Every gauge except velocity lies in [0, 100]. */
  predicate GaugesInRange(m: Metrics) {
    forall k :: BoundedGauge(k) ==> 0 <= m.Get(k) <= 100
  }

  /** `GaugesInRange`, field by field. */
  lemma GaugeFields(m: Metrics)
    ensures GaugesInRange(m) <==>
      0 <= m.teamSentiment <= 100 && 0 <= m.ceoSentiment <= 100
      && 0 <= m.salesSentiment <= 100 && 0 <= m.ctoSentiment <= 100
      && 0 <= m.selfServeGrowth <= 100 && 0 <= m.enterpriseGrowth <= 100
      && 0 <= m.techDebt <= 100 && 0 <= m.nps <= 100
  {
    assert m.Get(TeamSentiment) == m.teamSentiment && m.Get(CeoSentiment) == m.ceoSentiment;
    assert m.Get(SalesSentiment) == m.salesSentiment && m.Get(CtoSentiment) == m.ctoSentiment;
    assert m.Get(SelfServeGrowth) == m.selfServeGrowth && m.Get(EnterpriseGrowth) == m.enterpriseGrowth;
    assert m.Get(TechDebt) == m.techDebt && m.Get(Nps) == m.nps;
  }

  /** Every one of the nine values lies in [0, 100]. */
  predicate AllInRange(m: Metrics) {
    forall k :: 0 <= m.Get(k) <= 100
  }

  /** Ticket categories. `Other` stands for any label outside the eight known ones. */
  datatype Category =
    | SelfServeFeature | EnterpriseFeature | SalesRequest | TechDebtReduction
    | Infrastructure | UxImprovement | Monetization | Moonshot
    | Other(name: string)

  /** An inclusive `[min, max]` pair from the catalog. */
  datatype Range = Range(lo: int, hi: int)

  /** The impact ranges of one metric, for a clear and for a partial success. */
  datatype Impact = Impact(success: Range, partial: Range)

  /** A ticket template of the catalog, without its display strings. */
  datatype Template = Template(
    id: string,
    category: Category,
    effort: int,
    primaryMetric: MetricKey,
    primaryImpact: Option<Impact>,
    secondaryMetric: Option<MetricKey>,
    secondaryImpact: Option<Impact>,
    tradeoffMetric: Option<MetricKey>,
    tradeoffImpact: Option<Impact>)

  datatype Outcome = ClearSuccess | PartialSuccess | UnexpectedImpact | SoftFailure | Catastrophe

  /** The outcomes that count as a ticket landing. */
  predicate IsSuccessLike(o: Outcome) {
    o == ClearSuccess || o == PartialSuccess || o == UnexpectedImpact
  }

  predicate IsFailure(o: Outcome) {
    o == SoftFailure || o == Catastrophe
  }

  datatype CeoFocus = SelfServe | Enterprise | TechDebtFocus

  /** `Math.round`: rounds to the nearest integer, halves towards +infinity. */
  function Round(x: real): (r: int)
    ensures x - 0.5 < r as real <= x + 0.5
  {
    (x + 0.5).Floor
  }

  /** `Math.max(0, Math.min(100, v))`. */
  function ClampMetric(v: int): (r: int)
    ensures 0 <= r <= 100
    ensures 0 <= v <= 100 ==> r == v
    ensures v < 0 ==> r == 0
    ensures v > 100 ==> r == 100
  {
    if v < 0 then 0 else if v > 100 then 100 else v
  }

  function MaxR(a: real, b: real): real { if a >= b then a else b }
  function MinR(a: real, b: real): real { if a <= b then a else b }
}
