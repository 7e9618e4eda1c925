/** New-game setup: the per-difficulty starting metrics with their randomised
    retry loop, the target tables and the new game record. `Math.random` is an
    input here: a sequence of draws in [0, 1), consumed in call order. */
module Initial {
  import opened Types
  import Roulette

  /** The starting metrics of each difficulty before randomisation. */
  function BaseMetrics(d: Difficulty): (m: Metrics)
    ensures m.velocity == 20
    ensures forall k :: 0 <= m.Get(k) <= 70
  {
    match d
    case Easy => Metrics(70, 60, 60, 60, 50, 50, 25, 60, 20)
    case Normal => Metrics(60, 50, 50, 50, 40, 40, 35, 55, 20)
    case Hard => Metrics(55, 45, 45, 48, 32, 32, 45, 48, 20)
  }

  /** `Math.ceil`. */
  function Ceil(x: real): (r: int)
    ensures x <= r as real < x + 1.0
  {
    -((-x).Floor)
  }

  /** The lowest and highest value `randomize(v)` can give: `floor(0.75 v)`
      and `ceil(1.25 v)`. */
  function RandomizeLow(v: int): int { (v as real * 0.75).Floor }

  function RandomizeHigh(v: int): int { Ceil(v as real * 1.25) }

  /** `randomize(v)` for the draw `f`: a uniform integer between the bounds. */
  function Randomize(v: int, f: real): (r: int)
    requires 0.0 <= f < 1.0
    ensures v >= 0 ==> RandomizeLow(v) <= r <= RandomizeHigh(v)
  {
    var lo := RandomizeLow(v);
    var hi := RandomizeHigh(v);
    if v >= 0 then
      DrawBelow(f, hi - lo + 1);
      (f * (hi - lo + 1) as real).Floor + lo
    else
      (f * (hi - lo + 1) as real).Floor + lo
  }

  /** `floor(f * n)` lies in `[0, n - 1]` for a draw `f` in [0, 1). */
  lemma DrawBelow(f: real, n: int)
    requires 0.0 <= f < 1.0 && n >= 1
    ensures 0 <= (f * n as real).Floor < n
  {
    Roulette.FractionOfTotal(f, n as real);
  }

  /** A base value of at most 80 randomises into [0, 100], so the final clamp
      of `createInitialMetrics` never changes a bounded gauge. */
  lemma RandomizeStaysInGauge(v: int, f: real)
    requires 0 <= v <= 80 && 0.0 <= f < 1.0
    ensures 0 <= Randomize(v, f) <= 100
  {
    assert RandomizeLow(v) >= 0;
    assert RandomizeHigh(v) <= 100;
  }

  /** `calculateScore`: the sum of the nine values with tech debt inverted. */
  function CalculateScore(m: Metrics): int {
    m.teamSentiment + m.ceoSentiment + m.salesSentiment + m.ctoSentiment
      + m.selfServeGrowth + m.enterpriseGrowth + (100 - m.techDebt) + m.nps + m.velocity
  }

  /** The retry loop's acceptance test: the score is within 25% of the base score. */
  predicate WithinTolerance(d: Difficulty, m: Metrics) {
    var target := CalculateScore(BaseMetrics(d));
    var diff := (CalculateScore(m) - target) as real;
    var tolerance := target as real * 0.25;
    -tolerance <= diff <= tolerance
  }

  /** Whether every draw of the oracle lies in [0, 1). */
  predicate Draws(rand: seq<real>) {
    forall i :: 0 <= i < |rand| ==> 0.0 <= rand[i] < 1.0
  }

  /** The record of attempt `k`: eight draws from `rand[8k..]`, velocity kept. */
  function AttemptAt(d: Difficulty, rand: seq<real>, k: nat): (m: Metrics)
    requires Draws(rand) && 8 * k + 8 <= |rand|
    ensures m.velocity == BaseMetrics(d).velocity
  {
    var base := BaseMetrics(d);
    var i := 8 * k;
    Metrics(
      Randomize(base.teamSentiment, rand[i]),
      Randomize(base.ceoSentiment, rand[i + 1]),
      Randomize(base.salesSentiment, rand[i + 2]),
      Randomize(base.ctoSentiment, rand[i + 3]),
      Randomize(base.selfServeGrowth, rand[i + 4]),
      Randomize(base.enterpriseGrowth, rand[i + 5]),
      Randomize(base.techDebt, rand[i + 6]),
      Randomize(base.nps, rand[i + 7]),
      base.velocity)
  }

  /** Each gauge of an attempt lies between the `randomize` bounds of its base value. */
  lemma AttemptBounds(d: Difficulty, rand: seq<real>, k: nat, key: MetricKey)
    requires Draws(rand) && 8 * k + 8 <= |rand| && key != Velocity
    ensures RandomizeLow(BaseMetrics(d).Get(key)) <= AttemptAt(d, rand, k).Get(key)
            <= RandomizeHigh(BaseMetrics(d).Get(key))
  {
    var base := BaseMetrics(d);
    var i := 8 * k;
    match key
    case TeamSentiment => assert 0 <= base.teamSentiment;
    case CeoSentiment => assert 0 <= base.ceoSentiment;
    case SalesSentiment => assert 0 <= base.salesSentiment;
    case CtoSentiment => assert 0 <= base.ctoSentiment;
    case SelfServeGrowth => assert 0 <= base.selfServeGrowth;
    case EnterpriseGrowth => assert 0 <= base.enterpriseGrowth;
    case TechDebt => assert 0 <= base.techDebt;
    case Nps => assert 0 <= base.nps;
  }

  /** The final clamp: each bounded gauge to [0, 100], velocity as it is. */
  function ClampGauges(m: Metrics): (r: Metrics)
    ensures GaugesInRange(r) && r.velocity == m.velocity
    ensures GaugesInRange(m) ==> r == m
  {
    var r := Metrics(ClampMetric(m.teamSentiment), ClampMetric(m.ceoSentiment), ClampMetric(m.salesSentiment),
      ClampMetric(m.ctoSentiment), ClampMetric(m.selfServeGrowth), ClampMetric(m.enterpriseGrowth),
      ClampMetric(m.techDebt), ClampMetric(m.nps), m.velocity);
    GaugeFields(m);
    GaugeFields(r);
    r
  }

  /** Every attempt already has its gauges in [0, 100]. */
  lemma AttemptInGauges(d: Difficulty, rand: seq<real>, k: nat)
    requires Draws(rand) && 8 * k + 8 <= |rand|
    ensures GaugesInRange(AttemptAt(d, rand, k))
    ensures ClampGauges(AttemptAt(d, rand, k)) == AttemptAt(d, rand, k)
  {
    var base := BaseMetrics(d);
    var i := 8 * k;
    RandomizeStaysInGauge(base.teamSentiment, rand[i]);
    RandomizeStaysInGauge(base.ceoSentiment, rand[i + 1]);
    RandomizeStaysInGauge(base.salesSentiment, rand[i + 2]);
    RandomizeStaysInGauge(base.ctoSentiment, rand[i + 3]);
    RandomizeStaysInGauge(base.selfServeGrowth, rand[i + 4]);
    RandomizeStaysInGauge(base.enterpriseGrowth, rand[i + 5]);
    RandomizeStaysInGauge(base.techDebt, rand[i + 6]);
    RandomizeStaysInGauge(base.nps, rand[i + 7]);
  }

  /** Attempts `0 .. n - 1` were all rejected by the tolerance test. */
  ghost predicate Rejected(d: Difficulty, rand: seq<real>, n: nat)
    requires Draws(rand) && 8 * n <= |rand|
  {
    forall k :: 0 <= k < n ==> !WithinTolerance(d, AttemptAt(d, rand, k))
  }

  /** The highest and lowest score an attempt can reach: every gauge at the
      favourable, respectively unfavourable, end of its `randomize` bounds. */
  function HighestScore(d: Difficulty): int {
    var b := BaseMetrics(d);
    RandomizeHigh(b.teamSentiment) + RandomizeHigh(b.ceoSentiment) + RandomizeHigh(b.salesSentiment)
      + RandomizeHigh(b.ctoSentiment) + RandomizeHigh(b.selfServeGrowth) + RandomizeHigh(b.enterpriseGrowth)
      + (100 - RandomizeLow(b.techDebt)) + RandomizeHigh(b.nps) + b.velocity
  }

  function LowestScore(d: Difficulty): int {
    var b := BaseMetrics(d);
    RandomizeLow(b.teamSentiment) + RandomizeLow(b.ceoSentiment) + RandomizeLow(b.salesSentiment)
      + RandomizeLow(b.ctoSentiment) + RandomizeLow(b.selfServeGrowth) + RandomizeLow(b.enterpriseGrowth)
      + (100 - RandomizeHigh(b.techDebt)) + RandomizeLow(b.nps) + b.velocity
  }

  /** At each difficulty the widest swing of the score (111, 97 and 90 points for
      easy, normal and hard) is inside a quarter of the base score (126.25, 107.5
      and 95). */
  lemma SwingWithinQuarter(d: Difficulty)
    ensures 4 * (HighestScore(d) - CalculateScore(BaseMetrics(d))) <= CalculateScore(BaseMetrics(d))
    ensures 4 * (CalculateScore(BaseMetrics(d)) - LowestScore(d)) <= CalculateScore(BaseMetrics(d))
  {
    match d
    case Easy =>
      assert RandomizeHigh(70) == 88 && RandomizeHigh(60) == 75 && RandomizeHigh(50) == 63;
      assert RandomizeLow(70) == 52 && RandomizeLow(60) == 45 && RandomizeLow(50) == 37;
      assert RandomizeLow(25) == 18 && RandomizeHigh(25) == 32;
    case Normal =>
      assert RandomizeHigh(60) == 75 && RandomizeHigh(50) == 63 && RandomizeHigh(40) == 50 && RandomizeHigh(55) == 69;
      assert RandomizeLow(60) == 45 && RandomizeLow(50) == 37 && RandomizeLow(40) == 30 && RandomizeLow(55) == 41;
      assert RandomizeLow(35) == 26 && RandomizeHigh(35) == 44;
    case Hard =>
      assert RandomizeHigh(55) == 69 && RandomizeHigh(45) == 57 && RandomizeHigh(48) == 60 && RandomizeHigh(32) == 40;
      assert RandomizeLow(55) == 41 && RandomizeLow(45) == 33 && RandomizeLow(48) == 36 && RandomizeLow(32) == 24;
  }

  /** Every attempt passes the tolerance test, so the retry loop never retries. */
  lemma AlwaysWithinTolerance(d: Difficulty, rand: seq<real>, k: nat)
    requires Draws(rand) && 8 * k + 8 <= |rand|
    ensures WithinTolerance(d, AttemptAt(d, rand, k))
  {
    ScoreBetween(d, rand, k);
    SwingWithinQuarter(d);
  }

  /** Every attempt scores between the lowest and the highest score `randomize` allows. */
  lemma ScoreBetween(d: Difficulty, rand: seq<real>, k: nat)
    requires Draws(rand) && 8 * k + 8 <= |rand|
    ensures LowestScore(d) <= CalculateScore(AttemptAt(d, rand, k)) <= HighestScore(d)
  {
    AttemptBounds(d, rand, k, TeamSentiment);
    AttemptBounds(d, rand, k, CeoSentiment);
    AttemptBounds(d, rand, k, SalesSentiment);
    AttemptBounds(d, rand, k, CtoSentiment);
    AttemptBounds(d, rand, k, SelfServeGrowth);
    AttemptBounds(d, rand, k, EnterpriseGrowth);
    AttemptBounds(d, rand, k, TechDebt);
    AttemptBounds(d, rand, k, Nps);
  }

  /** The rejected prefix grows by one exactly when the next attempt fails the test. */
  lemma RejectedExtend(d: Difficulty, rand: seq<real>, n: nat)
    requires Draws(rand) && 8 * n + 8 <= |rand| && Rejected(d, rand, n)
    ensures Rejected(d, rand, n + 1) <==> !WithinTolerance(d, AttemptAt(d, rand, n))
  {
  }

  /** Hence no attempt is ever rejected: a rejected prefix is empty. */
  lemma NeverRejected(d: Difficulty, rand: seq<real>, n: nat)
    requires Draws(rand) && 8 * n + 8 <= |rand|
    requires Rejected(d, rand, n)
    ensures n == 0
  {
    if n > 0 {
      AlwaysWithinTolerance(d, rand, 0);
    }
  }

  /** The most attempts the retry loop makes. */
  const MaxAttempts := 100

  /** What the retry loop's exit gives: attempt `n` is the last one, all before
      it were rejected, and an exit before the last allowed attempt accepted it. */
  lemma Settled(d: Difficulty, rand: seq<real>, n: nat, m: Metrics, used: nat)
    requires Draws(rand) && |rand| >= 8 * MaxAttempts && n < MaxAttempts
    requires Rejected(d, rand, n)
    requires n + 1 < MaxAttempts ==> WithinTolerance(d, AttemptAt(d, rand, n))
    requires used == 8 * (n + 1) && m == ClampGauges(AttemptAt(d, rand, n))
    ensures used % 8 == 0 && 8 <= used <= 8 * MaxAttempts
    ensures forall k :: 0 <= k < used / 8 - 1 ==> !WithinTolerance(d, AttemptAt(d, rand, k))
    ensures used < 8 * MaxAttempts ==> WithinTolerance(d, AttemptAt(d, rand, used / 8 - 1))
    ensures m == ClampGauges(AttemptAt(d, rand, used / 8 - 1))
    ensures AllInRange(m) && m.velocity == BaseMetrics(d).velocity == 20
  {
    assert used / 8 - 1 == n;
    AttemptInGauges(d, rand, n);
  }

  /** The retry loop of `createInitialMetrics`: draws attempts until one is within
      tolerance or the last allowed one was drawn, and returns the last attempt. */
  method Retry(d: Difficulty, rand: seq<real>) returns (attempts: nat, randomized: Metrics)
    requires Draws(rand) && |rand| >= 8 * MaxAttempts
    ensures attempts < MaxAttempts && randomized == AttemptAt(d, rand, attempts)
    ensures Rejected(d, rand, attempts)
    ensures attempts + 1 < MaxAttempts ==> WithinTolerance(d, randomized)
  {
    attempts := 0;
    while true
      invariant attempts < MaxAttempts
      invariant Rejected(d, rand, attempts)
      decreases MaxAttempts - attempts
    {
      randomized := AttemptAt(d, rand, attempts);
      RejectedExtend(d, rand, attempts);
      if WithinTolerance(d, randomized) {
        return;
      }
      if attempts + 1 >= MaxAttempts {
        return;
      }
      attempts := attempts + 1;
    }
  }

  /** `createInitialMetrics`: attempts until one is within tolerance or 100 were
      made, then the last attempt clamped. `used` is how many draws it took. */
  method CreateInitialMetrics(d: Difficulty, rand: seq<real>) returns (m: Metrics, used: nat)
    requires Draws(rand) && |rand| >= 8 * MaxAttempts
    ensures used % 8 == 0 && 8 <= used <= 8 * MaxAttempts
    // every attempt before the last was rejected
    ensures forall k :: 0 <= k < used / 8 - 1 ==> !WithinTolerance(d, AttemptAt(d, rand, k))
    // the loop stops early only on an accepted attempt
    ensures used < 8 * MaxAttempts ==> WithinTolerance(d, AttemptAt(d, rand, used / 8 - 1))
    ensures m == ClampGauges(AttemptAt(d, rand, used / 8 - 1))
    ensures AllInRange(m) && m.velocity == BaseMetrics(d).velocity == 20
    // in fact the first attempt is always accepted, and the clamp changes nothing
    ensures used == 8 && m == AttemptAt(d, rand, 0)
  {
    var attempts, randomized := Retry(d, rand);
    used := 8 * (attempts + 1);
    m := ClampGauges(randomized);
    Settled(d, rand, attempts, m, used);
    NeverRejected(d, rand, attempts);
    AttemptInGauges(d, rand, 0);
  }

  /** The eight bounded gauges a target table sets. */
  datatype Targets = Targets(
    teamSentiment: int, ceoSentiment: int, salesSentiment: int, ctoSentiment: int,
    selfServeGrowth: int, enterpriseGrowth: int, techDebt: int, nps: int)
  {
    function Get(k: MetricKey): int
      requires BoundedGauge(k)
    {
      match k
      case TeamSentiment => teamSentiment
      case CeoSentiment => ceoSentiment
      case SalesSentiment => salesSentiment
      case CtoSentiment => ctoSentiment
      case SelfServeGrowth => selfServeGrowth
      case EnterpriseGrowth => enterpriseGrowth
      case TechDebt => techDebt
      case Nps => nps
    }
  }

  /** The difficulty order easy, normal, hard, as a rank. */
  function Level(d: Difficulty): int {
    match d
    case Easy => 0
    case Normal => 1
    case Hard => 2
  }

  /** `generateMetricTargets`. */
  function MetricTargets(d: Difficulty): (t: Targets)
    // tech debt is the one gauge to keep low, below every other target; team
    // and CEO ask the most
    ensures forall k :: BoundedGauge(k) && k != TechDebt ==>
      t.techDebt < t.Get(k) <= t.teamSentiment == t.ceoSentiment
  {
    match d
    case Easy => Targets(65, 65, 60, 60, 60, 60, 35, 60)
    case Normal => Targets(60, 60, 55, 55, 55, 55, 40, 55)
    case Hard => Targets(55, 55, 50, 50, 50, 50, 45, 50)
  }

  /** `generateStretchTargets`: at least the meets target on every gauge but
      tech debt, where the stretch goal is strictly lower. */
  function StretchTargets(d: Difficulty): (t: Targets)
    ensures forall k :: BoundedGauge(k) && k != TechDebt ==> t.Get(k) >= MetricTargets(d).Get(k)
    ensures t.techDebt < MetricTargets(d).techDebt
  {
    match d
    case Easy => Targets(75, 75, 75, 75, 70, 70, 25, 70)
    case Normal => Targets(70, 70, 70, 70, 65, 65, 30, 65)
    case Hard => Targets(65, 65, 65, 65, 60, 60, 35, 60)
  }

  /** Harder games ask less of every gauge and tolerate more tech debt, in both tables. */
  lemma TargetsByDifficulty(d: Difficulty, e: Difficulty, k: MetricKey)
    requires Level(d) <= Level(e) && BoundedGauge(k)
    ensures k != TechDebt ==> MetricTargets(d).Get(k) >= MetricTargets(e).Get(k)
    ensures k != TechDebt ==> StretchTargets(d).Get(k) >= StretchTargets(e).Get(k)
    ensures k == TechDebt ==> MetricTargets(d).Get(k) <= MetricTargets(e).Get(k)
    ensures k == TechDebt ==> StretchTargets(d).Get(k) <= StretchTargets(e).Get(k)
  {
  }

  datatype GameState = InProgress | Completed

  /** An entry of the events log; the engine only ever creates the log empty. */
  datatype LoggedEvent = LoggedEvent(payload: string)

  /** The record `createNewGameRecord` builds, without the database id. */
  datatype GameRecord = GameRecord(
    sessionId: string,
    difficulty: Difficulty,
    currentQuarter: int,
    currentSprint: int,
    state: GameState,
    metrics: Metrics,
    eventsLog: seq<LoggedEvent>,
    rngSeed: int,
    targets: Targets)

  /** `Math.floor(f * 1_000_000)`. */
  function SeedFrom(f: real): (seed: int)
    requires 0.0 <= f < 1.0
    ensures 0 <= seed <= 999999
  {
    DrawBelow(f, 1000000);
    (f * 1000000 as real).Floor
  }

  /** `createNewGameRecord`: quarter 1, sprint 1, in progress, no events, fresh
      metrics, the seed drawn after the metrics, and the meets targets. */
  method CreateNewGameRecord(sessionId: string, d: Difficulty, rand: seq<real>) returns (r: GameRecord)
    requires Draws(rand) && |rand| >= 8 * MaxAttempts + 1
    ensures r.sessionId == sessionId && r.difficulty == d
    ensures r.currentQuarter == 1 && r.currentSprint == 1 && r.state == InProgress && r.eventsLog == []
    ensures AllInRange(r.metrics) && r.metrics.velocity == 20
    ensures 0 <= r.rngSeed <= 999999
    ensures r.targets == MetricTargets(d)
    // the first attempt is always kept, so the seed comes from the ninth draw
    ensures r.metrics == AttemptAt(d, rand, 0) && r.rngSeed == SeedFrom(rand[8])
  {
    var metrics, used := CreateInitialMetrics(d, rand);
    var seed := SeedFrom(rand[used]);
    r := GameRecord(sessionId, d, 1, 1, InProgress, metrics, [], seed, MetricTargets(d));
  }
}
