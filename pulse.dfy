/** The product pulse: three coarse health signals read off the metrics. */
module Pulse {
  import opened Types

  datatype Signal = Positive | Mixed | Concerning

  datatype ProductPulse = ProductPulse(churn: Signal, supportLoad: Signal, customerSentiment: Signal)

  /** `deriveProductPulse`, without the narrative sentence. */
  function DeriveProductPulse(m: Metrics, hasCatastrophe: bool, hasUxSuccess: bool): (p: ProductPulse)
    // churn is positive exactly when NPS is high and one growth line is healthy
    ensures p.churn == Positive <==> m.nps > 60 && (m.selfServeGrowth > 50 || m.enterpriseGrowth > 50)
    // and concerning exactly when NPS is low or both growth lines are weak
    ensures p.churn == Concerning <==> m.nps < 35 || (m.selfServeGrowth < 30 && m.enterpriseGrowth < 30)
    // a catastrophe always makes support load concerning, whatever the debt
    ensures hasCatastrophe ==> p.supportLoad == Concerning
    ensures p.supportLoad == Positive <==> m.techDebt < 40 && !hasCatastrophe
    ensures p.supportLoad == Concerning <==> m.techDebt > 65 || hasCatastrophe
    // customer sentiment is positive only after a UX success with NPS above 60
    ensures p.customerSentiment == Positive <==> m.nps > 60 && hasUxSuccess
    ensures p.customerSentiment == Concerning <==> m.nps < 35
  {
    var churn :=
      if m.nps > 60 && (m.selfServeGrowth > 50 || m.enterpriseGrowth > 50) then Positive
      else if m.nps < 35 || (m.selfServeGrowth < 30 && m.enterpriseGrowth < 30) then Concerning
      else Mixed;
    var supportLoad :=
      if m.techDebt < 40 && !hasCatastrophe then Positive
      else if m.techDebt > 65 || hasCatastrophe then Concerning
      else Mixed;
    var customerSentiment :=
      if m.nps > 60 && hasUxSuccess then Positive
      else if m.nps < 35 then Concerning
      else Mixed;
    ProductPulse(churn, supportLoad, customerSentiment)
  }
}
