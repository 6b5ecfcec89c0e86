/** The risk assessor: two threshold penalties, clamped above at 1. */
module Risk {
  import opened Customers

  /** The penalties before the clamp. */
  function RiskPenalties(c: Customer): real {
    (if c.sentiment < -0.5 then 0.3 else 0.0) + (if c.engagement < 30.0 then 0.2 else 0.0)
  }

  function AssessRisk(c: Customer): (risk: real)
    ensures 0.0 <= risk <= 0.5
    ensures risk == 0.0 <==> c.sentiment >= -0.5 && c.engagement >= 30.0
  {
    var raw := RiskPenalties(c);
    if raw <= 1.0 then raw else 1.0
  }

  /** The exact value in each of the four cases. */
  lemma AssessRiskCases(c: Customer)
    ensures c.sentiment >= -0.5 && c.engagement >= 30.0 ==> AssessRisk(c) == 0.0
    ensures c.sentiment < -0.5 && c.engagement >= 30.0 ==> AssessRisk(c) == 0.3
    ensures c.sentiment >= -0.5 && c.engagement < 30.0 ==> AssessRisk(c) == 0.2
    ensures c.sentiment < -0.5 && c.engagement < 30.0 ==> AssessRisk(c) == 0.5
  {
  }

  /** The clamp at 1.0 never changes the result: the penalties sum to at most 0.5. */
  lemma RiskClampNeverBinds(c: Customer)
    ensures RiskPenalties(c) <= 0.5
    ensures AssessRisk(c) == RiskPenalties(c)
  {
  }
}
