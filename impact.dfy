/** Applying a resolved outcome to the metrics (`applyOutcome`). Every change
    goes through one step, `ApplyDelta`, which skips a zero delta, clamps the
    metric to [0, 100] and adds the delta to the running per-metric total. The
    method records the requests it makes; `Replay` of that log is its result,
    and the lemmas about `Replay` are what the metrics can and cannot do. */
module Impacts {
  import opened Types
  import opened Random

  /** One `applyDelta(metric, delta)` call. */
  datatype Request = Request(metric: MetricKey, delta: int)

  /** The pair the source returns: the updated metrics and the per-metric deltas. */
  datatype Effect = Effect(updated: Metrics, deltas: map<MetricKey, int>)

  function DeltaOf(deltas: map<MetricKey, int>, k: MetricKey): int {
    if k in deltas then deltas[k] else 0
  }

  /** `applyDelta`: nothing for a zero delta, otherwise clamp and accumulate. */
  function ApplyDelta(e: Effect, r: Request): (e': Effect)
    ensures r.delta == 0 ==> e' == e
    ensures r.delta != 0 ==> 0 <= e'.updated.Get(r.metric) <= 100
    ensures DeltaOf(e'.deltas, r.metric) == DeltaOf(e.deltas, r.metric) + r.delta
    ensures forall k :: k != r.metric ==> e'.updated.Get(k) == e.updated.Get(k) && DeltaOf(e'.deltas, k) == DeltaOf(e.deltas, k)
  {
    if r.delta == 0 then e
    else Effect(e.updated.Set(r.metric, ClampMetric(e.updated.Get(r.metric) + r.delta)),
                e.deltas[r.metric := DeltaOf(e.deltas, r.metric) + r.delta])
  }

  /** The effect of a log of requests on `m`, starting from no deltas. */
  function Replay(m: Metrics, rs: seq<Request>): Effect
    decreases |rs|
  {
    if rs == [] then Effect(m, map[])
    else ApplyDelta(Replay(m, rs[..|rs| - 1]), rs[|rs| - 1])
  }

  /** The sum of the requested deltas for metric `k`. */
  function Total(rs: seq<Request>, k: MetricKey): int
    decreases |rs|
  {
    if rs == [] then 0
    else Total(rs[..|rs| - 1], k) + (if rs[|rs| - 1].metric == k then rs[|rs| - 1].delta else 0)
  }

  /** Whether some request asks for a non-zero change of `k`. */
  predicate Touches(rs: seq<Request>, k: MetricKey) {
    exists i :: 0 <= i < |rs| && rs[i].metric == k && rs[i].delta != 0
  }

  lemma ReplaySnoc(m: Metrics, rs: seq<Request>, r: Request)
    ensures Replay(m, rs + [r]) == ApplyDelta(Replay(m, rs), r)
  {
    assert (rs + [r])[..|rs|] == rs;
  }

  /** The recorded delta of every metric is the sum of what was requested for it. */
  lemma {:induction false} ReplayDeltas(m: Metrics, rs: seq<Request>, k: MetricKey)
    ensures DeltaOf(Replay(m, rs).deltas, k) == Total(rs, k)
    decreases |rs|
  {
    if rs != [] {
      ReplayDeltas(m, rs[..|rs| - 1], k);
    }
  }

  /** A metric carries a delta exactly when some request touched it. */
  lemma {:induction false} ReplayKeys(m: Metrics, rs: seq<Request>, k: MetricKey)
    ensures k in Replay(m, rs).deltas <==> Touches(rs, k)
    decreases |rs|
  {
    if rs != [] {
      var init := rs[..|rs| - 1];
      ReplayKeys(m, init, k);
      if Touches(rs, k) && !Touches(init, k) {
        assert rs[|rs| - 1].metric == k && rs[|rs| - 1].delta != 0;
      }
      if Touches(init, k) {
        var i :| 0 <= i < |init| && init[i].metric == k && init[i].delta != 0;
        assert rs[i] == init[i];
      }
    }
  }

  /** A metric no request touched keeps its value. */
  lemma {:induction false} ReplayUntouched(m: Metrics, rs: seq<Request>, k: MetricKey)
    requires !Touches(rs, k)
    ensures Replay(m, rs).updated.Get(k) == m.Get(k)
    decreases |rs|
  {
    if rs != [] {
      var init := rs[..|rs| - 1];
      assert forall i :: 0 <= i < |init| ==> init[i] == rs[i];
      ReplayUntouched(m, init, k);
    }
  }

  /** `ReplayDeltas` and `ReplayKeys` for every metric at once. */
  lemma ReplayRecords(m: Metrics, rs: seq<Request>)
    ensures forall k :: k in Replay(m, rs).deltas <==> Touches(rs, k)
    ensures forall k :: DeltaOf(Replay(m, rs).deltas, k) == Total(rs, k)
  {
    forall k
      ensures k in Replay(m, rs).deltas <==> Touches(rs, k)
      ensures DeltaOf(Replay(m, rs).deltas, k) == Total(rs, k)
    {
      ReplayKeys(m, rs, k);
      ReplayDeltas(m, rs, k);
    }
  }

  /** Every touched metric ends in [0, 100], so gauges that started in range stay there. */
  lemma {:induction false} ReplayKeepsRange(m: Metrics, rs: seq<Request>, k: MetricKey)
    requires Touches(rs, k) || 0 <= m.Get(k) <= 100
    ensures 0 <= Replay(m, rs).updated.Get(k) <= 100
    decreases |rs|
  {
    if rs != [] {
      var init := rs[..|rs| - 1];
      var last := rs[|rs| - 1];
      if !(last.metric == k && last.delta != 0) {
        if Touches(rs, k) {
          var i :| 0 <= i < |rs| && rs[i].metric == k && rs[i].delta != 0;
          assert init[i] == rs[i];
        }
        ReplayKeepsRange(m, init, k);
      }
    }
  }

  /** The gauges stay in [0, 100] whatever is requested. */
  lemma ReplayKeepsGauges(m: Metrics, rs: seq<Request>)
    requires GaugesInRange(m)
    ensures GaugesInRange(Replay(m, rs).updated)
  {
    forall k | BoundedGauge(k)
      ensures 0 <= Replay(m, rs).updated.Get(k) <= 100
    {
      ReplayKeepsRange(m, rs, k);
    }
  }

  /** When every request for `k` is negative, `k` never rises and its recorded
      delta, if any, is negative. */
  lemma {:induction false} ReplayOnlyLowers(m: Metrics, rs: seq<Request>, k: MetricKey)
    requires 0 <= m.Get(k)
    requires forall i :: 0 <= i < |rs| && rs[i].metric == k ==> rs[i].delta < 0
    ensures 0 <= Replay(m, rs).updated.Get(k) <= m.Get(k)
    ensures k in Replay(m, rs).deltas ==> Replay(m, rs).deltas[k] < 0
    decreases |rs|
  {
    if rs != [] {
      var init := rs[..|rs| - 1];
      assert forall i :: 0 <= i < |init| ==> init[i] == rs[i];
      ReplayOnlyLowers(m, init, k);
    }
  }

  /** Which stakeholder's sentiment a category's success or failure moves;
      unknown categories fall back to the CEO. */
  function Stakeholder(c: Category): (k: MetricKey)
    ensures k == CeoSentiment || k == SalesSentiment || k == CtoSentiment || k == TeamSentiment
    ensures k == TeamSentiment <==> c == UxImprovement
  {
    match c
    case SelfServeFeature => CeoSentiment
    case EnterpriseFeature => SalesSentiment
    case TechDebtReduction => CtoSentiment
    case UxImprovement => TeamSentiment
    case Infrastructure => CtoSentiment
    case Monetization => CeoSentiment
    case SalesRequest => SalesSentiment
    case Moonshot => CeoSentiment
    case Other(_) => CeoSentiment
  }

  /** `1 + (next() * 0.6 - 0.3)`, clamped to [0.7, 1.5]. */
  function ImpactScale(u: bv32): (s: real)
    ensures 0.7 <= s < 1.3
    ensures s == 0.7 + Fraction(u) * 0.6
  {
    MaxR(0.7, MinR(1.5, 1.0 + (Fraction(u) * 0.6 - 0.3)))
  }

  /** `Math.round(delta * scale)`. */
  function ScaleDelta(d: int, s: real): int {
    Round(d as real * s)
  }

  /** With a scale of at least 0.8, a delta of size at least 2 keeps its sign
      and a size of at least 2 after rounding. */
  lemma ScaleKeepsSign(d: int, s: real)
    requires s >= 0.8
    ensures d >= 2 ==> ScaleDelta(d, s) >= 2
    ensures d <= -2 ==> ScaleDelta(d, s) <= -2
  {
    if d >= 2 {
      assert (d as real - 2.0) * s >= 0.0;
    } else if d <= -2 {
      assert (d as real + 2.0) * s <= 0.0;
    }
  }

  /** The success or partial range of an optional impact. */
  function RangeOf(impact: Option<Impact>, isSuccess: bool): Option<Range> {
    match impact
    case None => None
    case Some(i) => Some(if isSuccess then i.success else i.partial)
  }

  /** A value `applyRange` can give for `range`: 0 without a range, a value
      between the bounds of a well-formed one. */
  predicate InRange(range: Option<Range>, v: int) {
    match range
    case None => v == 0
    case Some(r) => r.lo <= r.hi ==> r.lo <= v <= r.hi
  }

  /** `d` is some value of `range` scaled by `s`. */
  ghost predicate ScaledFrom(range: Option<Range>, d: int, s: real) {
    exists v :: InRange(range, v) && d == ScaleDelta(v, s)
  }

  /** `d` is `scaleDelta(rng.int(lo, hi), s)` for some draw. */
  ghost predicate Scaled(d: int, lo: int, hi: int, s: real) {
    exists v :: lo <= v <= hi && d == ScaleDelta(v, s)
  }

  /** `Math.round(tradeoff * (1 + effort / 10) * scale)`. */
  function TradeoffDelta(tradeoff: int, effort: int, s: real): int {
    Round(tradeoff as real * (1.0 + effort as real / 10.0) * s)
  }

  /** `d` is some value of `range` scaled up by the effort and by `s`. */
  ghost predicate TradeoffFrom(range: Option<Range>, d: int, effort: int, s: real) {
    exists v :: InRange(range, v) && d == TradeoffDelta(v, effort, s)
  }

  /** The metric of every request, in order. */
  function MetricsOf(rs: seq<Request>): (ks: seq<MetricKey>)
    ensures |ks| == |rs| && forall i :: 0 <= i < |rs| ==> ks[i] == rs[i].metric
    decreases |rs|
  {
    if rs == [] then [] else MetricsOf(rs[..|rs| - 1]) + [rs[|rs| - 1].metric]
  }

  /** The metrics of two logs one after the other. */
  lemma MetricsOfAppend(a: seq<Request>, b: seq<Request>)
    ensures MetricsOf(a + b) == MetricsOf(a) + MetricsOf(b)
  {
  }

  function IfSome(k: Option<MetricKey>): seq<MetricKey> {
    if k.Some? then [k.value] else []
  }

  /** The metrics a success moves: primary, secondary and trade-off when the
      ticket names them, then the stakeholder. */
  function SuccessMetrics(ticket: Template): seq<MetricKey> {
    [ticket.primaryMetric] + IfSome(ticket.secondaryMetric) + IfSome(ticket.tradeoffMetric)
    + [Stakeholder(ticket.category)]
  }

  /** The metrics an unexpected impact moves: primary, the drawn gauge, then the trade-off. */
  function UnexpectedMetrics(ticket: Template, other: MetricKey): seq<MetricKey> {
    [ticket.primaryMetric, other] + IfSome(ticket.tradeoffMetric)
  }

  /** The metrics a soft failure moves: primary, team, tech debt, then the
      stakeholder unless it is the team. */
  function SoftFailureMetrics(ticket: Template): seq<MetricKey> {
    var stakeholder := Stakeholder(ticket.category);
    [ticket.primaryMetric, TeamSentiment, TechDebt]
    + (if stakeholder != TeamSentiment then [stakeholder] else [])
  }

  /** The metrics a catastrophe moves: primary, team, CEO, tech debt, the drawn
      collateral gauge, then the stakeholder unless it is the team or the CEO. */
  function CatastropheMetrics(ticket: Template, other: MetricKey): seq<MetricKey> {
    var stakeholder := Stakeholder(ticket.category);
    [ticket.primaryMetric, TeamSentiment, CeoSentiment, TechDebt, other]
    + (if stakeholder != TeamSentiment && stakeholder != CeoSentiment then [stakeholder] else [])
  }

  /** The metrics `outcome` moves, in the order it moves them; `other` is the
      gauge an unexpected impact or a catastrophe draws. */
  function Moved(outcome: Outcome, ticket: Template, other: MetricKey): seq<MetricKey> {
    match outcome
    case ClearSuccess => SuccessMetrics(ticket)
    case PartialSuccess => SuccessMetrics(ticket)
    case UnexpectedImpact => UnexpectedMetrics(ticket, other)
    case SoftFailure => SoftFailureMetrics(ticket)
    case Catastrophe => CatastropheMetrics(ticket, other)
  }

  /** The gauges an unexpected impact may swing. */
  const Gauges: seq<MetricKey> :=
    [TeamSentiment, CeoSentiment, SalesSentiment, CtoSentiment, SelfServeGrowth, EnterpriseGrowth, TechDebt, Nps]

  /** The gauges a catastrophe may hit besides the fixed ones. */
  const CollateralGauges: seq<MetricKey> := [SalesSentiment, CtoSentiment, SelfServeGrowth, EnterpriseGrowth, Nps]

  /** `list.filter((m) => m !== k)`. */
  function Without(ks: seq<MetricKey>, k: MetricKey): (r: seq<MetricKey>)
    ensures forall x :: x in r <==> x in ks && x != k
    decreases |ks|
  {
    if ks == [] then []
    else if ks[0] == k then Without(ks[1..], k)
    else [ks[0]] + Without(ks[1..], k)
  }

  /** Whatever the ticket's own metric, another gauge is left to swing. */
  lemma OtherGaugesExist(k: MetricKey)
    ensures |Without(Gauges, k)| > 0
  {
    assert TeamSentiment in Without(Gauges, k) || CeoSentiment in Without(Gauges, k);
  }

  /** The draws `applyRange` takes: one for a range whose bounds differ, none otherwise. */
  function RangeDraws(range: Option<Range>): nat {
    if range.Some? && range.value.lo != range.value.hi then 1 else 0
  }

  /** `applyRange`: 0 without a range, its bound when both bounds agree, else a draw. */
  method ApplyRange(rng: Rng, range: Option<Range>) returns (v: int)
    requires rng.Valid()
    modifies rng
    ensures rng.Valid() && rng.origin == old(rng.origin) && rng.drawn == old(rng.drawn) + RangeDraws(range)
    ensures range.None? ==> v == 0
    ensures range.Some? && range.value.lo == range.value.hi ==> v == range.value.lo
    ensures RangeDraws(range) == 1 ==> rng.t == Advance(old(rng.t)) && v == Scale(Mix(rng.t), range.value.lo, range.value.hi)
    ensures range.Some? && range.value.lo <= range.value.hi ==> range.value.lo <= v <= range.value.hi
    ensures InRange(range, v)
  {
    if range.None? {
      return 0;
    }
    var r := range.value;
    if r.lo == r.hi {
      return r.lo;
    }
    v := rng.Int(r.lo, r.hi);
  }

  /** The draws a success takes after the impact scale: one per range of the
      primary, secondary and trade-off metrics whose bounds differ, then the
      stakeholder bonus. */
  function SuccessDraws(ticket: Template, isSuccess: bool): nat {
    RangeDraws(RangeOf(ticket.primaryImpact, isSuccess))
    + (if ticket.secondaryMetric.Some? then RangeDraws(RangeOf(ticket.secondaryImpact, isSuccess)) else 0)
    + (if ticket.tradeoffMetric.Some? then RangeDraws(RangeOf(ticket.tradeoffImpact, isSuccess)) else 0)
    + 1
  }

  /** The draws `outcome` takes after the impact scale, fixed by the outcome
      and the ticket. */
  function ImpactDraws(outcome: Outcome, ticket: Template): (n: nat)
    ensures 1 <= n <= 7
    ensures outcome == ClearSuccess || outcome == PartialSuccess ==> n <= 4
  {
    var stakeholder := Stakeholder(ticket.category);
    match outcome
    case ClearSuccess => SuccessDraws(ticket, true)
    case PartialSuccess => SuccessDraws(ticket, false)
    case UnexpectedImpact => if ticket.tradeoffMetric.Some? then 5 else 4
    case SoftFailure => if stakeholder != TeamSentiment then 4 else 3
    case Catastrophe => if stakeholder != TeamSentiment && stakeholder != CeoSentiment then 7 else 6
  }

  /** A success's requests at scale `s`: primary, optional secondary and
      trade-off, each drawn from its range, then the stakeholder bonus. */
  ghost predicate SuccessShape(ticket: Template, isSuccess: bool, rs: seq<Request>, s: real) {
    && |rs| >= 2
    && MetricsOf(rs) == SuccessMetrics(ticket)
    && ScaledFrom(RangeOf(ticket.primaryImpact, isSuccess), rs[0].delta, s)
    && (ticket.secondaryMetric.Some? ==> ScaledFrom(RangeOf(ticket.secondaryImpact, isSuccess), rs[1].delta, s))
    && (ticket.tradeoffMetric.Some? ==>
          TradeoffFrom(RangeOf(ticket.tradeoffImpact, isSuccess), rs[|rs| - 2].delta, ticket.effort, s))
    && (if isSuccess then Scaled(rs[|rs| - 1].delta, 4, 8, MaxR(1.0, s - 0.05))
        else Scaled(rs[|rs| - 1].delta, 2, 4, MaxR(1.0, s - 0.05)))
  }

  /** An unexpected impact's requests at scale `s`: primary -4..6, a swing of
      6..14 either way on another gauge, then the trade-off dip -5..-2. */
  ghost predicate UnexpectedShape(ticket: Template, rs: seq<Request>, s: real) {
    && |rs| >= 2 && rs[1].metric in Gauges && rs[1].metric != ticket.primaryMetric
    && MetricsOf(rs) == UnexpectedMetrics(ticket, rs[1].metric)
    && Scaled(rs[0].delta, -4, 6, s)
    && (Scaled(rs[1].delta, 6, 14, s) || Scaled(rs[1].delta, -14, -6, s))
    && (|rs| == 3 ==> Scaled(rs[2].delta, -5, -2, s))
  }

  /** A soft failure's requests at scale `s`: primary -6..-2, team -9..-5,
      tech debt 2..5, then the stakeholder -4..-2. */
  ghost predicate SoftFailureShape(ticket: Template, rs: seq<Request>, s: real) {
    && |rs| >= 3
    && MetricsOf(rs) == SoftFailureMetrics(ticket)
    && Scaled(rs[0].delta, -6, -2, s) && Scaled(rs[1].delta, -9, -5, s) && Scaled(rs[2].delta, 2, 5, s)
    && (|rs| == 4 ==> Scaled(rs[3].delta, -4, -2, s))
  }

  /** A catastrophe's requests at scale `s`: primary -18..-10, team -16..-8,
      CEO -12..-6, tech debt 5..10, a collateral gauge -10..-5, then the
      stakeholder -8..-4. */
  ghost predicate CatastropheShape(ticket: Template, rs: seq<Request>, s: real) {
    && |rs| >= 5 && rs[4].metric in CollateralGauges
    && MetricsOf(rs) == CatastropheMetrics(ticket, rs[4].metric)
    && Scaled(rs[0].delta, -18, -10, s) && Scaled(rs[1].delta, -16, -8, s)
    && Scaled(rs[2].delta, -12, -6, s) && Scaled(rs[3].delta, 5, 10, s)
    && Scaled(rs[4].delta, -10, -5, s)
    && (|rs| == 6 ==> Scaled(rs[5].delta, -8, -4, s))
  }

  /** The requests of `outcome` drawn at impact scale `impactScale`: successes
      at that scale, an unexpected impact at +0.1, failures at +0.2; `other` is
      the gauge an unexpected impact or a catastrophe drew. */
  ghost predicate Drawn(outcome: Outcome, ticket: Template, requests: seq<Request>, other: MetricKey, impactScale: real) {
    match outcome
    case ClearSuccess => SuccessShape(ticket, true, requests, impactScale)
    case PartialSuccess => SuccessShape(ticket, false, requests, impactScale)
    case UnexpectedImpact => UnexpectedShape(ticket, requests, impactScale + 0.1) && other == requests[1].metric
    case SoftFailure => SoftFailureShape(ticket, requests, impactScale + 0.2)
    case Catastrophe => CatastropheShape(ticket, requests, impactScale + 0.2) && other == requests[4].metric
  }

  /** `applyOutcome`: one draw for the hidden impact scale, then the changes of
      the outcome. `other` is the gauge an unexpected impact or a catastrophe
      draws; for the other outcomes it plays no part. */
  method ApplyOutcome(rng: Rng, metrics: Metrics, ticket: Template, outcome: Outcome)
    returns (updated: Metrics, deltas: map<MetricKey, int>, ghost requests: seq<Request>, ghost other: MetricKey)
    requires rng.Valid()
    modifies rng
    ensures rng.Valid() && rng.origin == old(rng.origin)
    // the impact scale's draw, then the outcome's own draws
    ensures rng.drawn == old(rng.drawn) + 1 + ImpactDraws(outcome, ticket)
    ensures Effect(updated, deltas) == Replay(metrics, requests)
    // which metrics move, and in which order
    ensures MetricsOf(requests) == Moved(outcome, ticket, other)
    ensures outcome == UnexpectedImpact ==> other in Gauges && other != ticket.primaryMetric
    ensures outcome == Catastrophe ==> other in CollateralGauges
    // a landed ticket always ends by pleasing its stakeholder by at least 2
    ensures outcome == ClearSuccess || outcome == PartialSuccess ==>
      |requests| > 0 && requests[|requests| - 1].delta >= 2
    // a failure lowers everything it touches except tech debt, which it raises
    ensures IsFailure(outcome) ==>
      forall i :: 0 <= i < |requests| && requests[i].metric != TechDebt ==> requests[i].delta <= -2
    ensures IsFailure(outcome) ==>
      exists i :: 0 <= i < |requests| && requests[i].metric == TechDebt && requests[i].delta >= 2
    ensures Planned(outcome, ticket, requests, other)
    // every change is drawn from its range at the scale of the stream's next draw
    ensures Drawn(outcome, ticket, requests, other, ImpactScale(Mix(AdvanceN(rng.origin, old(rng.drawn) + 1))))
  {
    var u := rng.Next();
    var impactScale := ImpactScale(u);
    var planned;
    planned, other := PlanOutcome(rng, ticket, outcome, impactScale);
    requests := planned;
    var e := ApplyAll(metrics, planned);
    updated, deltas := e.updated, e.deltas;
  }

  /** What the requests of `outcome` promise: the metrics they move, the gauge
      drawn, and the signs of the changes. */
  ghost predicate Planned(outcome: Outcome, ticket: Template, requests: seq<Request>, other: MetricKey) {
    && MetricsOf(requests) == Moved(outcome, ticket, other)
    && (outcome == UnexpectedImpact ==> other in Gauges && other != ticket.primaryMetric)
    && (outcome == Catastrophe ==> other in CollateralGauges)
    && (outcome == ClearSuccess || outcome == PartialSuccess ==>
          |requests| > 0 && requests[|requests| - 1].delta >= 2)
    && (IsFailure(outcome) ==>
          forall i :: 0 <= i < |requests| && requests[i].metric != TechDebt ==> requests[i].delta <= -2)
    && (IsFailure(outcome) ==>
          exists i :: 0 <= i < |requests| && requests[i].metric == TechDebt && requests[i].delta >= 2)
  }

  /** The requests of `outcome` at impact scale `impactScale`: the success
      builders at that scale, the unexpected one at +0.1, the failures at +0.2. */
  method PlanOutcome(rng: Rng, ticket: Template, outcome: Outcome, impactScale: real)
    returns (planned: seq<Request>, ghost other: MetricKey)
    requires rng.Valid() && 0.7 <= impactScale
    modifies rng
    ensures rng.Valid() && rng.origin == old(rng.origin) && rng.drawn == old(rng.drawn) + ImpactDraws(outcome, ticket)
    ensures Planned(outcome, ticket, planned, other)
    ensures Drawn(outcome, ticket, planned, other, impactScale)
  {
    other := TeamSentiment;
    match outcome {
      case ClearSuccess =>
        planned := SuccessRequests(rng, ticket, true, impactScale);
      case PartialSuccess =>
        planned := SuccessRequests(rng, ticket, false, impactScale);
      case UnexpectedImpact =>
        planned := UnexpectedRequests(rng, ticket, impactScale + 0.1);
        other := planned[1].metric;
      case SoftFailure =>
        planned := SoftFailureRequests(rng, ticket, impactScale + 0.2);
        assert planned[2].metric == TechDebt && planned[2].delta >= 2;
      case Catastrophe =>
        planned := CatastropheRequests(rng, ticket, impactScale + 0.2);
        other := planned[4].metric;
        assert planned[3].metric == TechDebt && planned[3].delta >= 2;
    }
  }

  /** The `applyDelta` calls of one outcome, made in order. */
  method ApplyAll(metrics: Metrics, requests: seq<Request>) returns (e: Effect)
    ensures e == Replay(metrics, requests)
  {
    e := Effect(metrics, map[]);
    for i := 0 to |requests|
      invariant e == Replay(metrics, requests[..i])
    {
      assert requests[..i + 1] == requests[..i] + [requests[i]];
      ReplaySnoc(metrics, requests[..i], requests[i]);
      e := ApplyDelta(e, requests[i]);
    }
    assert requests[..|requests|] == requests;
  }

  /** `scaleDelta(rng.int(lo, hi), scale)`: a scaled draw, which keeps the sign
      of a range that stays at least 2 away from zero. */
  method ScaledDraw(rng: Rng, lo: int, hi: int, scale: real) returns (d: int)
    requires rng.Valid() && lo <= hi
    modifies rng
    ensures rng.Valid() && rng.origin == old(rng.origin) && rng.drawn == old(rng.drawn) + 1
    ensures Scaled(d, lo, hi, scale)
    ensures scale >= 0.8 && lo >= 2 ==> d >= 2
    ensures scale >= 0.8 && hi <= -2 ==> d <= -2
  {
    var raw := rng.Int(lo, hi);
    if scale >= 0.8 {
      ScaleKeepsSign(raw, scale);
    }
    d := ScaleDelta(raw, scale);
  }

  /** Clear or partial success: the primary, secondary and trade-off ranges, the
      trade-off scaled up by effort, then the stakeholder bonus (4 to 8 for a
      clear success, 2 to 4 for a partial one). */
  method SuccessRequests(rng: Rng, ticket: Template, isSuccess: bool, impactScale: real)
    returns (rs: seq<Request>)
    requires rng.Valid() && 0.7 <= impactScale
    modifies rng
    ensures rng.Valid() && rng.origin == old(rng.origin) && rng.drawn == old(rng.drawn) + SuccessDraws(ticket, isSuccess)
    ensures SuccessShape(ticket, isSuccess, rs, impactScale)
    ensures rs[|rs| - 1].delta >= 2
  {
    var primary := ApplyRange(rng, RangeOf(ticket.primaryImpact, isSuccess));
    var head := Request(ticket.primaryMetric, ScaleDelta(primary, impactScale));
    var middle := SuccessMiddle(rng, ticket, isSuccess, impactScale);
    var bonus := BonusDraw(rng, isSuccess, impactScale);
    rs := [head] + middle + [Request(Stakeholder(ticket.category), bonus)];
    SuccessAssembled(ticket, isSuccess, head, middle, Request(Stakeholder(ticket.category), bonus), impactScale);
  }

  /** The primary request, the middle ones and the bonus make a success's requests. */
  lemma {:induction false} SuccessAssembled(ticket: Template, isSuccess: bool, head: Request, middle: seq<Request>, last: Request, s: real)
    requires head.metric == ticket.primaryMetric && ScaledFrom(RangeOf(ticket.primaryImpact, isSuccess), head.delta, s)
    requires MetricsOf(middle) == IfSome(ticket.secondaryMetric) + IfSome(ticket.tradeoffMetric)
    requires ticket.secondaryMetric.Some? ==>
      ScaledFrom(RangeOf(ticket.secondaryImpact, isSuccess), middle[0].delta, s)
    requires ticket.tradeoffMetric.Some? ==>
      TradeoffFrom(RangeOf(ticket.tradeoffImpact, isSuccess), middle[|middle| - 1].delta, ticket.effort, s)
    requires last.metric == Stakeholder(ticket.category)
    requires if isSuccess then Scaled(last.delta, 4, 8, MaxR(1.0, s - 0.05)) else Scaled(last.delta, 2, 4, MaxR(1.0, s - 0.05))
    ensures SuccessShape(ticket, isSuccess, [head] + middle + [last], s)
  {
    var rs := [head] + middle + [last];
    MetricsOfAppend([head], middle);
    MetricsOfAppend([head] + middle, [last]);
    assert forall i :: 0 <= i < |middle| ==> rs[i + 1] == middle[i];
  }

  /** The secondary and trade-off requests of a success, for the metrics the ticket names. */
  method SuccessMiddle(rng: Rng, ticket: Template, isSuccess: bool, impactScale: real)
    returns (middle: seq<Request>)
    requires rng.Valid()
    modifies rng
    ensures rng.Valid() && rng.origin == old(rng.origin)
    ensures rng.drawn == old(rng.drawn)
      + (if ticket.secondaryMetric.Some? then RangeDraws(RangeOf(ticket.secondaryImpact, isSuccess)) else 0)
      + (if ticket.tradeoffMetric.Some? then RangeDraws(RangeOf(ticket.tradeoffImpact, isSuccess)) else 0)
    ensures MetricsOf(middle) == IfSome(ticket.secondaryMetric) + IfSome(ticket.tradeoffMetric)
    ensures ticket.secondaryMetric.Some? ==>
      ScaledFrom(RangeOf(ticket.secondaryImpact, isSuccess), middle[0].delta, impactScale)
    ensures ticket.tradeoffMetric.Some? ==>
      TradeoffFrom(RangeOf(ticket.tradeoffImpact, isSuccess), middle[|middle| - 1].delta, ticket.effort, impactScale)
  {
    middle := [];
    if ticket.secondaryMetric.Some? {
      var secondary := ApplyRange(rng, RangeOf(ticket.secondaryImpact, isSuccess));
      middle := [Request(ticket.secondaryMetric.value, ScaleDelta(secondary, impactScale))];
    }
    if ticket.tradeoffMetric.Some? {
      var tradeoff := ApplyRange(rng, RangeOf(ticket.tradeoffImpact, isSuccess));
      middle := middle + [Request(ticket.tradeoffMetric.value, TradeoffDelta(tradeoff, ticket.effort, impactScale))];
    }
  }

  /** The stakeholder bonus: 4 to 8 for a clear success, 2 to 4 for a partial
      one, scaled by at least 1, so at least 2. */
  method BonusDraw(rng: Rng, isSuccess: bool, impactScale: real) returns (d: int)
    requires rng.Valid()
    modifies rng
    ensures rng.Valid() && rng.origin == old(rng.origin) && rng.drawn == old(rng.drawn) + 1
    ensures (if isSuccess then Scaled(d, 4, 8, MaxR(1.0, impactScale - 0.05))
             else Scaled(d, 2, 4, MaxR(1.0, impactScale - 0.05)))
    ensures d >= 2
  {
    var bonus: int;
    if isSuccess {
      bonus := rng.Int(4, 8);
    } else {
      bonus := rng.Int(2, 4);
    }
    var bonusScale := MaxR(1.0, impactScale - 0.05);
    ScaleKeepsSign(bonus, bonusScale);
    d := ScaleDelta(bonus, bonusScale);
  }

  /** Unexpected impact: a small swing of the primary metric, a large swing of
      another gauge in a random direction, and a dip of the trade-off metric. */
  method UnexpectedRequests(rng: Rng, ticket: Template, wildScale: real)
    returns (rs: seq<Request>)
    requires rng.Valid() && wildScale >= 0.8
    modifies rng
    ensures rng.Valid() && rng.origin == old(rng.origin)
    ensures rng.drawn == old(rng.drawn) + (if ticket.tradeoffMetric.Some? then 5 else 4)
    ensures UnexpectedShape(ticket, rs, wildScale)
    ensures rs[1].delta >= 2 || rs[1].delta <= -2
    ensures |rs| == 3 ==> rs[2].delta <= -2
  {
    var primary := ScaledDraw(rng, -4, 6, wildScale);
    var other := OtherGauge(rng, ticket.primaryMetric);
    var swing := SwingDraw(rng, wildScale);
    if ticket.tradeoffMetric.Some? {
      var dip := ScaledDraw(rng, -5, -2, wildScale);
      rs := [Request(ticket.primaryMetric, primary), Request(other, swing), Request(ticket.tradeoffMetric.value, dip)];
    } else {
      rs := [Request(ticket.primaryMetric, primary), Request(other, swing)];
    }
  }

  /** The gauge an unexpected impact swings: a pick among the gauges other than `primary`. */
  method OtherGauge(rng: Rng, primary: MetricKey) returns (other: MetricKey)
    requires rng.Valid()
    modifies rng
    ensures rng.Valid() && rng.origin == old(rng.origin) && rng.drawn == old(rng.drawn) + 1
    ensures other in Gauges && other != primary
  {
    var candidates := Without(Gauges, primary);
    OtherGaugesExist(primary);
    other := rng.Pick(candidates);
  }

  /** The swing of an unexpected impact: a coin, then a rise of 6 to 14 or a
      drop of 6 to 14, scaled. */
  method SwingDraw(rng: Rng, wildScale: real) returns (swing: int)
    requires rng.Valid() && wildScale >= 0.8
    modifies rng
    ensures rng.Valid() && rng.origin == old(rng.origin) && rng.drawn == old(rng.drawn) + 2
    ensures Scaled(swing, 6, 14, wildScale) || Scaled(swing, -14, -6, wildScale)
    ensures swing >= 2 || swing <= -2
  {
    var coin := rng.Next();
    if Fraction(coin) < 0.5 {
      swing := ScaledDraw(rng, 6, 14, wildScale);
    } else {
      swing := ScaledDraw(rng, -14, -6, wildScale);
    }
  }

  /** Soft failure: the primary metric and the team drop, tech debt grows, and
      the stakeholder (unless it is the team) sours. */
  method SoftFailureRequests(rng: Rng, ticket: Template, failureScale: real)
    returns (rs: seq<Request>)
    requires rng.Valid() && failureScale >= 0.9
    modifies rng
    ensures rng.Valid() && rng.origin == old(rng.origin)
    ensures rng.drawn == old(rng.drawn) + (if Stakeholder(ticket.category) != TeamSentiment then 4 else 3)
    ensures SoftFailureShape(ticket, rs, failureScale)
    ensures forall i :: 0 <= i < |rs| && rs[i].metric != TechDebt ==> rs[i].delta <= -2
    ensures |rs| >= 3 && rs[2].metric == TechDebt && rs[2].delta >= 2
  {
    var primary := ScaledDraw(rng, -6, -2, failureScale);
    var team := ScaledDraw(rng, -9, -5, failureScale);
    var debt := ScaledDraw(rng, 2, 5, failureScale);
    rs := [Request(ticket.primaryMetric, primary), Request(TeamSentiment, team), Request(TechDebt, debt)];
    var stakeholder := Stakeholder(ticket.category);
    if stakeholder != TeamSentiment {
      var sour := ScaledDraw(rng, -4, -2, failureScale);
      rs := rs + [Request(stakeholder, sour)];
    }
  }

  /** The five draws every catastrophe makes, in order: the primary, team and CEO
      drops, the tech-debt jump, the collateral gauge and its drop. */
  method CatastropheDraws(rng: Rng, failureScale: real)
    returns (primary: int, team: int, ceo: int, debt: int, other: MetricKey, hit: int)
    requires rng.Valid() && failureScale >= 0.9
    modifies rng
    ensures rng.Valid() && rng.origin == old(rng.origin) && rng.drawn == old(rng.drawn) + 6
    ensures Scaled(primary, -18, -10, failureScale) && Scaled(team, -16, -8, failureScale)
    ensures Scaled(ceo, -12, -6, failureScale) && Scaled(debt, 5, 10, failureScale)
    ensures other in CollateralGauges && Scaled(hit, -10, -5, failureScale)
    ensures primary <= -2 && team <= -2 && ceo <= -2 && debt >= 2 && hit <= -2
  {
    primary := ScaledDraw(rng, -18, -10, failureScale);
    team := ScaledDraw(rng, -16, -8, failureScale);
    ceo := ScaledDraw(rng, -12, -6, failureScale);
    debt := ScaledDraw(rng, 5, 10, failureScale);
    other := rng.Pick(CollateralGauges);
    hit := ScaledDraw(rng, -10, -5, failureScale);
  }

  /** Catastrophe: heavy drops of the primary metric, the team and the CEO, a
      jump in tech debt, a hit on one collateral gauge and on the stakeholder
      (unless it is the team or the CEO). */
  method CatastropheRequests(rng: Rng, ticket: Template, failureScale: real)
    returns (rs: seq<Request>)
    requires rng.Valid() && failureScale >= 0.9
    modifies rng
    ensures rng.Valid() && rng.origin == old(rng.origin)
    ensures rng.drawn == old(rng.drawn)
      + (if Stakeholder(ticket.category) != TeamSentiment && Stakeholder(ticket.category) != CeoSentiment then 7 else 6)
    ensures CatastropheShape(ticket, rs, failureScale)
    ensures forall i :: 0 <= i < |rs| && rs[i].metric != TechDebt ==> rs[i].delta <= -2
    ensures rs[3].metric == TechDebt && rs[3].delta >= 2
  {
    var primary, team, ceo, debt, other, hit := CatastropheDraws(rng, failureScale);
    var stakeholder := Stakeholder(ticket.category);
    rs := [Request(ticket.primaryMetric, primary), Request(TeamSentiment, team), Request(CeoSentiment, ceo),
           Request(TechDebt, debt), Request(other, hit)];
    if stakeholder != TeamSentiment && stakeholder != CeoSentiment {
      var sour := ScaledDraw(rng, -8, -4, failureScale);
      MetricsOfAppend(rs, [Request(stakeholder, sour)]);
      rs := rs + [Request(stakeholder, sour)];
    }
  }

  /** A failure never raises any metric other than tech debt, and every such
      metric it touches records a negative delta. */
  lemma FailureOnlyLowers(metrics: Metrics, requests: seq<Request>, k: MetricKey)
    requires k != TechDebt && 0 <= metrics.Get(k)
    requires forall i :: 0 <= i < |requests| && requests[i].metric != TechDebt ==> requests[i].delta <= -2
    ensures Replay(metrics, requests).updated.Get(k) <= metrics.Get(k)
    ensures k in Replay(metrics, requests).deltas ==> Replay(metrics, requests).deltas[k] < 0
  {
    ReplayOnlyLowers(metrics, requests, k);
  }
}
