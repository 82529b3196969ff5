/**
 * The figures of the sanction letter (`generate_sanction`): loan id, EMI,
 * tenure and the letter's file path. The random loan-id suffix is a parameter.
 */
module SanctionAgent {
  import opened Optional
  import opened Text
  import opened Numbers

  datatype Sanction = Sanction(
    loanId: string,
    loanAmount: int,
    interestRate: real,
    tenure: string,
    emi: int,
    filePath: string)

  const OutputDir := "sanction_letters"
  const TenureMonths := 36
  const LoanIdPrefix := "TCPL-"

  /** `f"TCPL-{hex[:8].upper()}"` for the hexadecimal form of a fresh UUID. */
  function LoanId(uuidHex: string): (id: string)
    ensures |id| == |LoanIdPrefix| + (if |uuidHex| < 8 then |uuidHex| else 8)
    ensures StartsWith(id, LoanIdPrefix)
    ensures forall i :: |LoanIdPrefix| <= i < |id| ==> id[i] == UpperChar(uuidHex[i - |LoanIdPrefix|])
  {
    LoanIdPrefix + Upper(uuidHex[..if |uuidHex| < 8 then |uuidHex| else 8])
  }

  /** Principal plus one year's flat interest at the given percentage. */
  function TotalRepayable(loanAmount: int, interestRate: real): real
  {
    loanAmount as real * (1.0 + interestRate / 100.0)
  }

  /**
   * The total repayable spread over the tenure and truncated toward zero, as
   * Python's `int` does: rounded down for a non-negative total, up for a
   * negative one.
   */
  function MonthlyEmi(loanAmount: int, interestRate: real): (emi: int)
    ensures var total := TotalRepayable(loanAmount, interestRate);
            total >= 0.0 ==> 0 <= emi && emi as real * 36.0 <= total < (emi as real + 1.0) * 36.0
    ensures var total := TotalRepayable(loanAmount, interestRate);
            total < 0.0 ==> emi <= 0 && (emi as real - 1.0) * 36.0 < total <= emi as real * 36.0
  {
    var total := TotalRepayable(loanAmount, interestRate);
    TruncPerMonth(total);
    Trunc(total / TenureMonths as real)
  }

  /** The bounds of truncation toward zero, scaled back up by the tenure. */
  lemma TruncPerMonth(total: real)
    ensures var n := Trunc(total / 36.0);
            && (total >= 0.0 ==> 0 <= n && n as real * 36.0 <= total < (n as real + 1.0) * 36.0)
            && (total < 0.0 ==> n <= 0 && (n as real - 1.0) * 36.0 < total <= n as real * 36.0)
  {
    var x := total / 36.0;
    assert total == x * 36.0;
  }

  /** `generate_sanction(customer_name, loan_amount, interest_rate)`; the name only appears in the letter. */
  function GenerateSanction(customerName: Option<string>, loanAmount: int, interestRate: real, uuidHex: string): (s: Sanction)
    ensures s.loanAmount == loanAmount && s.interestRate == interestRate
    ensures s.loanId == LoanId(uuidHex)
    ensures s.tenure == "36 months"
    ensures s.emi == MonthlyEmi(loanAmount, interestRate)
    ensures s.filePath == "sanction_letters/Loan_Sanction_" + s.loanId + ".pdf"
  {
    var loanId := LoanId(uuidHex);
    var emi := MonthlyEmi(loanAmount, interestRate);
    var filePath := OutputDir + "/" + "Loan_Sanction_" + loanId + ".pdf";
    TenureText();
    Sanction(loanId, loanAmount, interestRate, ShowInt(TenureMonths) + " months", emi, filePath)
  }

  /** `f"{36} months"` */
  lemma TenureText()
    ensures ShowInt(TenureMonths) + " months" == "36 months"
  {
    assert ShowInt(TenureMonths) == "36";
  }

  /** Five lakh at the Low-band rate of 10.5% costs 15347 a month for 36 months. */
  lemma LowBandEmiExample()
    ensures MonthlyEmi(500000, 10.5) == 15347
  {
    var total := 500000.0 * (1.0 + 10.5 / 100.0);
    assert total == 552500.0;
    assert 15347.0 * 36.0 <= total < 15348.0 * 36.0;
  }

  /** `int("-500000")` is accepted as an amount; its EMI is truncated toward zero, to -15347 and not -15348. */
  lemma NegativeEmiExample()
    ensures MonthlyEmi(-500000, 10.5) == -15347
  {
    var total := -500000.0 * (1.0 + 10.5 / 100.0);
    assert total == -552500.0;
    assert -15348.0 * 36.0 < total <= -15347.0 * 36.0;
  }

  /** A higher rate never lowers the EMI on a non-negative amount. */
  lemma {:induction false} EmiMonotoneInRate(loanAmount: int, rate1: real, rate2: real)
    requires loanAmount >= 0 && -100.0 <= rate1 <= rate2
    ensures MonthlyEmi(loanAmount, rate1) <= MonthlyEmi(loanAmount, rate2)
  {
    var t1 := loanAmount as real * (1.0 + rate1 / 100.0);
    var t2 := loanAmount as real * (1.0 + rate2 / 100.0);
    assert 0.0 <= t1 <= t2 by {
      assert 0.0 <= 1.0 + rate1 / 100.0 <= 1.0 + rate2 / 100.0;
    }
    var e1, e2 := MonthlyEmi(loanAmount, rate1), MonthlyEmi(loanAmount, rate2);
    assert e1 as real * 36.0 <= t1 <= t2 < (e2 as real + 1.0) * 36.0;
  }
}
