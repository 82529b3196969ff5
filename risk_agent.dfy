/** The rule-based risk score (`assess_risk`): a penalised base score cut into three bands. */
module RiskAgent {
  import opened Optional
  import opened Text

  /** The dictionary `assess_risk` returns; `interest_rate` and `reason` are keys only some bands have. */
  datatype RiskAssessment = RiskAssessment(
    riskLevel: string,
    creditScore: int,
    decision: string,
    interestRate: Option<string>,
    reason: Option<string>)

  const LowCreditworthiness := "Low creditworthiness based on risk assessment"

  /** `existing_emi / income` */
  function EmiRatio(income: int, existingEmi: int): real
    requires income != 0
  {
    existingEmi as real / income as real
  }

  /**
   * `assess_risk(income, employment_type, existing_emi)`. Python raises
   * ZeroDivisionError for a zero income, so the caller must not pass one.
   */
  function AssessRisk(income: int, employmentType: string, existingEmi: int): (r: RiskAssessment)
    requires income != 0
    ensures r.creditScore in {750, 700, 670, 620, 600, 550}
    ensures r.creditScore ==
              750
              - (if EmiRatio(income, existingEmi) > 0.5 then 150
                 else if EmiRatio(income, existingEmi) > 0.35 then 80 else 0)
              - (if Lower(employmentType) == "self employed" then 50 else 0)
    ensures r.creditScore >= 720 ==>
              r == RiskAssessment("Low", r.creditScore, "approved", Some("10.5%"), None)
    ensures 650 <= r.creditScore < 720 ==>
              r == RiskAssessment("Medium", r.creditScore, "approved", Some("14.5%"), None)
    ensures r.creditScore < 650 ==>
              r == RiskAssessment("High", r.creditScore, "rejected", None, Some(LowCreditworthiness))
    ensures r.decision == "approved" <==> r.creditScore >= 650
    ensures r.interestRate.Some? <==> r.decision == "approved"
    ensures r.reason.Some? <==> r.decision != "approved"
  {
    var emiRatio := existingEmi as real / income as real;
    var base := 750;
    var afterBurden :=
      if emiRatio > 0.5 then base - 150
      else if emiRatio > 0.35 then base - 80
      else base;
    var score := if Lower(employmentType) == "self employed" then afterBurden - 50 else afterBurden;
    if score >= 720 then
      RiskAssessment("Low", score, "approved", Some("10.5%"), None)
    else if score >= 650 then
      RiskAssessment("Medium", score, "approved", Some("14.5%"), None)
    else
      RiskAssessment("High", score, "rejected", None, Some(LowCreditworthiness))
  }

  /** For a positive income, a larger existing EMI never gives a better score. */
  lemma {:induction false} HeavierEmiNeverScoresHigher(income: int, employmentType: string, emi1: int, emi2: int)
    requires income > 0 && emi1 <= emi2
    ensures AssessRisk(income, employmentType, emi2).creditScore <= AssessRisk(income, employmentType, emi1).creditScore
  {
    var d := income as real;
    assert EmiRatio(income, emi1) * d == emi1 as real;
    assert EmiRatio(income, emi2) * d == emi2 as real;
    assert EmiRatio(income, emi1) <= EmiRatio(income, emi2);
  }

  /** Only the exact (case-insensitive) text "self employed" costs the 50 points; the score is otherwise unaffected by the employment type. */
  lemma SelfEmploymentPenalty(income: int, employmentType: string, existingEmi: int)
    requires income != 0
    ensures AssessRisk(income, "salaried", existingEmi).creditScore
            - AssessRisk(income, employmentType, existingEmi).creditScore
            == (if Lower(employmentType) == "self employed" then 50 else 0)
  {
    assert Lower("salaried") != "self employed";
  }

  /** A 40% EMI burden for a salaried borrower lands in the Medium band at 14.5%. */
  lemma MediumBandExample()
    ensures AssessRisk(100000, "salaried", 40000)
            == RiskAssessment("Medium", 670, "approved", Some("14.5%"), None)
  {
    assert Lower("salaried") != "self employed";
  }
}
