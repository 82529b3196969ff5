/** The 40%-of-income EMI rule and the income multiplier (`check_eligibility`). */
module EligibilityAgent {
  import opened Text
  import opened Numbers

  datatype Eligibility =
    | Approved(eligibleAmount: int, availableEmi: int)
    | Rejected(reason: string)

  const HighEmiBurden := "High existing EMI burden"

  /** The monthly EMI headroom: 40% of income less the EMIs already being paid. */
  function Headroom(income: int, existingEmi: int): real
  {
    0.4 * income as real - existingEmi as real
  }

  /** `check_eligibility(income, employment_type, existing_emi)` */
  function CheckEligibility(income: int, employmentType: string, existingEmi: int): (r: Eligibility)
    ensures r.Rejected? <==> Headroom(income, existingEmi) <= 0.0
    ensures r.Rejected? ==> r.reason == HighEmiBurden
    ensures r.Approved? && Lower(employmentType) == "salaried" ==> r.eligibleAmount == 15 * income
    ensures r.Approved? && Lower(employmentType) != "salaried" ==> r.eligibleAmount == 10 * income
    ensures r.Approved? ==>
              0 <= r.availableEmi
              && r.availableEmi as real <= Headroom(income, existingEmi) < r.availableEmi as real + 1.0
  {
    var maxEmiAllowed := 0.4 * income as real;
    var availableEmi := maxEmiAllowed - existingEmi as real;
    if availableEmi <= 0.0 then
      Rejected(HighEmiBurden)
    else
      var multiplier := if Lower(employmentType) == "salaried" then 15 else 10;
      Approved(Trunc(income as real * multiplier as real), Trunc(availableEmi))
  }

  /**
   * Paying more in existing EMIs never turns a rejection into an approval,
   * and never leaves more headroom.
   */
  lemma HeavierEmiNeverHelps(income: int, employmentType: string, emi1: int, emi2: int)
    requires emi1 <= emi2
    requires CheckEligibility(income, employmentType, emi2).Approved?
    ensures CheckEligibility(income, employmentType, emi1).Approved?
    ensures CheckEligibility(income, employmentType, emi1).eligibleAmount
            == CheckEligibility(income, employmentType, emi2).eligibleAmount
    ensures CheckEligibility(income, employmentType, emi1).availableEmi
            >= CheckEligibility(income, employmentType, emi2).availableEmi
  {
    var h1, h2 := Headroom(income, emi1), Headroom(income, emi2);
    assert h1 >= h2;
    var a1, a2 := CheckEligibility(income, employmentType, emi1).availableEmi, CheckEligibility(income, employmentType, emi2).availableEmi;
    assert a2 as real <= h2 <= h1 < a1 as real + 1.0;
  }

  /** A salaried customer earning 100000 and paying 10000 may borrow fifteen months' income. */
  lemma SalariedExample()
    ensures CheckEligibility(100000, "Salaried", 10000) == Approved(1500000, 30000)
  {
    assert Lower("Salaried") == "salaried";
  }

  /** Existing EMIs above 40% of income are rejected outright. */
  lemma OverburdenedExample()
    ensures CheckEligibility(50000, "salaried", 40000) == Rejected(HighEmiBurden)
  {
  }
}
