/** The rule-based fraud screen (`assess_fraud`) run before risk scoring. */
module FraudAgent {
  import opened Optional
  import opened Text

  const LowScore := "Low credit score"
  const HighRequest := "Requested amount unusually high"
  const EmiBurden := "High existing EMI burden"
  const ReasonSeparator := "; "

  datatype FraudResult = FraudResult(isFraud: bool, reason: string)

  // The three rules, over the session fields read with `memory.get(key, default)`.

  predicate LowScoreFires(creditScore: Option<int>)
  {
    creditScore.GetOr(0) < 650
  }

  predicate HighRequestFires(requestedAmount: Option<int>, preapprovedLimit: Option<int>)
  {
    requestedAmount.GetOr(0) > 3 * preapprovedLimit.GetOr(1)
  }

  predicate EmiBurdenFires(currentLoanEmi: Option<int>, preapprovedLimit: Option<int>)
  {
    currentLoanEmi.GetOr(0) as real > 0.6 * preapprovedLimit.GetOr(1) as real
  }

  /** The position of a rule in the order the rules are checked. */
  function RuleRank(reason: string): nat
  {
    if reason == LowScore then 0 else if reason == HighRequest then 1 else 2
  }

  /** The `reasons` list: the name of every rule that fired, in rule order. */
  function FraudReasons(
    creditScore: Option<int>, requestedAmount: Option<int>,
    preapprovedLimit: Option<int>, currentLoanEmi: Option<int>): (reasons: seq<string>)
    ensures LowScore in reasons <==> LowScoreFires(creditScore)
    ensures HighRequest in reasons <==> HighRequestFires(requestedAmount, preapprovedLimit)
    ensures EmiBurden in reasons <==> EmiBurdenFires(currentLoanEmi, preapprovedLimit)
    ensures |reasons| ==
              (if LowScoreFires(creditScore) then 1 else 0)
              + (if HighRequestFires(requestedAmount, preapprovedLimit) then 1 else 0)
              + (if EmiBurdenFires(currentLoanEmi, preapprovedLimit) then 1 else 0)
    ensures forall i, j :: 0 <= i < j < |reasons| ==> RuleRank(reasons[i]) < RuleRank(reasons[j])
    ensures forall i :: 0 <= i < |reasons| ==> reasons[i] != [] && ';' !in reasons[i]
  {
    var afterRule1 := if LowScoreFires(creditScore) then [LowScore] else [];
    var afterRule2 :=
      if HighRequestFires(requestedAmount, preapprovedLimit) then afterRule1 + [HighRequest] else afterRule1;
    if EmiBurdenFires(currentLoanEmi, preapprovedLimit) then afterRule2 + [EmiBurden] else afterRule2
  }

  /** `assess_fraud(memory)` */
  function AssessFraud(
    creditScore: Option<int>, requestedAmount: Option<int>,
    preapprovedLimit: Option<int>, currentLoanEmi: Option<int>): (r: FraudResult)
    ensures r.isFraud <==>
              LowScoreFires(creditScore)
              || HighRequestFires(requestedAmount, preapprovedLimit)
              || EmiBurdenFires(currentLoanEmi, preapprovedLimit)
    ensures r.reason == "" <==> !r.isFraud
    ensures r.isFraud ==>
              Split(r.reason, ReasonSeparator) == FraudReasons(creditScore, requestedAmount, preapprovedLimit, currentLoanEmi)
  {
    var reasons := FraudReasons(creditScore, requestedAmount, preapprovedLimit, currentLoanEmi);
    if |reasons| == 0 then
      FraudResult(false, Join(reasons, ReasonSeparator))
    else
      JoinThenSplit(reasons, ReasonSeparator);
      FraudResult(true, Join(reasons, ReasonSeparator))
  }

  /** The scenario of a customer who trips every rule: all three reasons, in rule order. */
  lemma EveryRuleFires()
    ensures var r := AssessFraud(Some(600), Some(400), Some(100), Some(70));
            r.isFraud && Split(r.reason, ReasonSeparator) == [LowScore, HighRequest, EmiBurden]
  {
    var reasons := FraudReasons(Some(600), Some(400), Some(100), Some(70));
    assert LowScoreFires(Some(600)) && HighRequestFires(Some(400), Some(100)) && EmiBurdenFires(Some(70), Some(100));
    assert reasons == [LowScore, HighRequest, EmiBurden];
  }

  /** A customer who trips no rule is not flagged and gets an empty reason. */
  lemma NoRuleFires()
    ensures AssessFraud(Some(750), Some(100000), Some(200000), Some(5000)) == FraudResult(false, "")
  {
  }
}
