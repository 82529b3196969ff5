/**
 * The per-conversation session record (the `memory` dictionary) and its
 * initial value, as created by `init_memory` and `reset_memory`.
 */
module SessionMemory {
  import opened Optional

  /** The closed set of conversation stages. */
  datatype Stage =
    | Start | AwaitingKyc | KycPending | SalesDiscovery | SalesAmount | Underwriting
    | SalarySlipRequired | Risk | SanctionPrompt | Completed | Rejected | InternalReview

  /** A risk assessment as stored in the session, with its rate already turned into a number. */
  datatype StoredRisk = StoredRisk(
    riskLevel: string,
    creditScore: int,
    decision: string,
    interestRate: real,
    reason: Option<string>)

  /**
   * The value of the session dictionary. A key that is absent and a key that
   * holds `None` are both `None` here; `sanction_file` and `lang` are absent
   * until first written.
   */
  datatype Record = Record(
    stage: Stage,
    name: Option<string>,
    city: Option<string>,
    pan: Option<string>,
    phone: Option<string>,
    creditScore: Option<int>,
    preapprovedLimit: Option<int>,
    employmentType: Option<string>,
    currentLoanEmi: Option<int>,
    loanPurpose: Option<string>,
    requestedAmount: Option<int>,
    eligibleAmount: Option<int>,
    riskResult: Option<StoredRisk>,
    riskCompleted: bool,
    sanctionFile: Option<string>,
    lang: Option<string>)

  /** No customer, KYC, bureau, sales or underwriting field holds a value. */
  predicate NoCustomerData(r: Record)
  {
    && r.name.None? && r.city.None? && r.pan.None? && r.phone.None?
    && r.creditScore.None? && r.preapprovedLimit.None? && r.employmentType.None? && r.currentLoanEmi.None?
    && r.loanPurpose.None? && r.requestedAmount.None?
    && r.eligibleAmount.None? && r.riskResult.None?
  }

  /** `init_memory()` */
  function InitMemory(): (r: Record)
    ensures r.stage == Start && !r.riskCompleted
    ensures NoCustomerData(r)
    ensures r.sanctionFile.None? && r.lang.None?
  {
    Record(Start, None, None, None, None, None, None, None, None, None, None, None, None, false, None, None)
  }

  /** `reset_memory()`: a fresh record for a new application. */
  function ResetMemory(): (r: Record)
    ensures r.stage == Start && !r.riskCompleted
    ensures NoCustomerData(r)
    ensures r.sanctionFile.None? && r.lang.None?
  {
    InitMemory()
  }

  /** The stages reached only after a successful KYC lookup. */
  predicate Profiled(s: Stage)
  {
    s in {SalesDiscovery, SalesAmount, Underwriting, SalarySlipRequired, Risk, SanctionPrompt}
  }

  /** The stages that come before risk scoring has run. */
  predicate BeforeScoring(s: Stage)
  {
    s in {Start, AwaitingKyc, KycPending, SalesDiscovery, SalesAmount, Underwriting,
          SalarySlipRequired, Risk, InternalReview}
  }

  /**
   * What holds of every record the conversation can reach from `init_memory()`:
   * each stage finds the fields its handler reads, a risk result is present
   * exactly when risk scoring has completed, and the sanction prompt is reached
   * only with an approved decision.
   */
  predicate WellFormed(r: Record)
  {
    && (r.stage != Start ==> r.name.Some?)
    && (r.stage == KycPending ==> r.pan.Some? && r.phone.Some?)
    && (Profiled(r.stage) ==>
          r.creditScore.Some? && r.preapprovedLimit.Some? && r.employmentType.Some? && r.currentLoanEmi.Some?)
    && (r.stage in {Underwriting, SalarySlipRequired} ==> r.requestedAmount.Some?)
    && (r.stage in {Risk, SanctionPrompt} ==> r.eligibleAmount.Some?)
    && (r.riskCompleted <==> r.riskResult.Some?)
    && (r.stage == SanctionPrompt ==> r.riskCompleted && r.riskResult.Some? && r.riskResult.value.decision == "approved")
    && (BeforeScoring(r.stage) ==> !r.riskCompleted)
  }

  lemma InitWellFormed()
    ensures WellFormed(InitMemory())
  {
  }

  /** The session dictionary, updated in place by the conversation handlers. */
  class Memory {
    var stage: Stage
    var name: Option<string>
    var city: Option<string>
    var pan: Option<string>
    var phone: Option<string>
    var creditScore: Option<int>
    var preapprovedLimit: Option<int>
    var employmentType: Option<string>
    var currentLoanEmi: Option<int>
    var loanPurpose: Option<string>
    var requestedAmount: Option<int>
    var eligibleAmount: Option<int>
    var riskResult: Option<StoredRisk>
    var riskCompleted: bool
    var sanctionFile: Option<string>
    var lang: Option<string>

    /** The dictionary's current contents. */
    function Snapshot(): Record
      reads this
    {
      Record(stage, name, city, pan, phone, creditScore, preapprovedLimit, employmentType,
             currentLoanEmi, loanPurpose, requestedAmount, eligibleAmount, riskResult,
             riskCompleted, sanctionFile, lang)
    }

    /** A session holding `r`, as `st.session_state.memory = init_memory()` creates one. */
    constructor (r: Record)
      ensures Snapshot() == r
    {
      stage, name, city, pan, phone := r.stage, r.name, r.city, r.pan, r.phone;
      creditScore, preapprovedLimit, employmentType, currentLoanEmi :=
        r.creditScore, r.preapprovedLimit, r.employmentType, r.currentLoanEmi;
      loanPurpose, requestedAmount, eligibleAmount := r.loanPurpose, r.requestedAmount, r.eligibleAmount;
      riskResult, riskCompleted, sanctionFile, lang := r.riskResult, r.riskCompleted, r.sanctionFile, r.lang;
    }

    /** `memory.clear()`: every key dropped, which reads back as the initial record. */
    method Clear()
      modifies this
      ensures Snapshot() == InitMemory()
    {
      stage, name, city, pan, phone := Start, None, None, None, None;
      creditScore, preapprovedLimit, employmentType, currentLoanEmi := None, None, None, None;
      loanPurpose, requestedAmount, eligibleAmount := None, None, None;
      riskResult, riskCompleted, sanctionFile, lang := None, false, None, None;
    }
  }
}
