/** The capacity model: a sprint's effort budget from the current metrics. */
module Capacity {
  import opened Types

  /** Team-sentiment band: +4 above 75, +1 from 50, -2 from 25, else -5. */
  function TeamAdjustment(team: int): int {
    if team > 75 then 4
    else if team >= 50 then 1
    else if team >= 25 then -2
    else -5
  }

  /** Tech-debt band: +2 below 25, 0 up to 50, -3 up to 75, else -6. */
  function DebtAdjustment(debt: int): int {
    if debt < 25 then 2
    else if debt <= 50 then 0
    else if debt <= 75 then -3
    else -6
  }

  /** +4 when CTO sentiment exceeds 80. */
  function CtoAdjustment(cto: int): int {
    if cto > 80 then 4 else 0
  }

  /** `computeEffectiveCapacity`: base 20 plus the three adjustments, never below 8. */
  function EffectiveCapacity(m: Metrics): (c: int)
    ensures 8 <= c <= 30
  {
    var capacity := 20 + TeamAdjustment(m.teamSentiment)
                       + DebtAdjustment(m.techDebt)
                       + CtoAdjustment(m.ctoSentiment);
    if capacity < 8 then 8 else capacity
  }

  /** Capacity never falls when team or CTO sentiment rises or tech debt falls. */
  lemma CapacityMonotone(a: Metrics, b: Metrics)
    requires a.teamSentiment <= b.teamSentiment
    requires a.ctoSentiment <= b.ctoSentiment
    requires a.techDebt >= b.techDebt
    ensures EffectiveCapacity(a) <= EffectiveCapacity(b)
  {
  }

  /** The capacity depends on team sentiment, tech debt and CTO sentiment only. */
  lemma CapacityDependsOnThree(a: Metrics, b: Metrics)
    requires a.teamSentiment == b.teamSentiment
    requires a.ctoSentiment == b.ctoSentiment
    requires a.techDebt == b.techDebt
    ensures EffectiveCapacity(a) == EffectiveCapacity(b)
  {
  }

  /** Team 60, debt 35 and CTO 50 give 20 + 1 + 0 + 0. */
  lemma CapacityOfNormalDefaults(m: Metrics)
    requires m.teamSentiment == 60 && m.techDebt == 35 && m.ctoSentiment == 50
    ensures EffectiveCapacity(m) == 21
  {
  }

  /** Team 80, debt 10 and CTO 85 reach the maximum 20 + 4 + 2 + 4. */
  lemma CapacityAtBest(m: Metrics)
    requires m.teamSentiment == 80 && m.techDebt == 10 && m.ctoSentiment == 85
    ensures EffectiveCapacity(m) == 30
  {
  }
}
