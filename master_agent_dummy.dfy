/**
 * The multilingual variant of the conversation (`master_agent_response` in
 * agents/masteragentdummy.py). The first language detected is latched in the
 * session; every message is translated into English before the guards run, and
 * every reply is translated back into the latched language. Underwriting has a
 * salary-slip band and no fraud screen, and a completed application gets a
 * closing message instead of the chat model.
 */
module DummyAgent {
  import opened Optional
  import opened Text
  import opened SessionMemory
  import opened Conversation
  import L = LanguageSupport
  import M = MasterAgent
  import R = RiskAgent
  import V = VerificationAgent

  // ---------------------------------------------------------------------
  // Language
  // ---------------------------------------------------------------------

  /** The session's language: the one already latched, else the one this message is written in. */
  function UserLanguage(r: Record, input: string): string
  {
    if r.lang.Some? then r.lang.value else L.DetectedLanguage(input)
  }

  /** Every reply goes through `from_english`; an exception replies nothing. */
  function Localize(o: Outcome, lang: string): Outcome
  {
    if o.reply.Say? then o.(translateTo := Some(lang)) else o
  }

  // ---------------------------------------------------------------------
  // The handlers, as functions of the record
  // ---------------------------------------------------------------------

  /** The sales pitch: the first of medical, education and travel the purpose mentions. */
  function ChoosePitch(purpose: string): Pitch
  {
    var low := Lower(purpose);
    if Contains(low, "medical") then MedicalPitch
    else if Contains(low, "education") then EducationPitch
    else if Contains(low, "travel") then TravelPitch
    else GeneralPitch
  }

  /** Sales discovery: the stripped message is the purpose, answered with a pitch. */
  function Discover(r: Record, text: string): (o: Outcome)
    ensures o.fraudCase.None? && o.translateTo.None?
  {
    var purpose := Strip(text);
    Plain(r.(loanPurpose := Some(purpose), stage := SalesAmount), Say(PitchAndAskAmount(ChoosePitch(purpose))))
  }

  /**
   * Underwriting without a fraud screen: below a 700 score the loan is
   * rejected; up to the pre-approved limit it goes to risk; up to twice the
   * limit a salary slip is asked for; beyond that it is rejected.
   */
  function Underwrite(r: Record): (o: Outcome)
    ensures o.fraudCase.None? && o.translateTo.None?
    ensures o.reply.Fault? ==> o.record == r
    ensures o.reply.Say? ==> o.record.stage in {Rejected, Risk, SalarySlipRequired}
    ensures r.creditScore.Some? && r.creditScore.value < 700 ==>
              o == Plain(r.(stage := Rejected), Say(LowCreditScore(r.creditScore)))
    ensures r.creditScore.Some? && r.creditScore.value >= 700 && r.requestedAmount.Some? && r.preapprovedLimit.Some? ==>
              var requested, limit := r.requestedAmount.value, r.preapprovedLimit.value;
              && o.reply.Say?
              && (requested <= limit ==>
                    o == Plain(r.(eligibleAmount := r.requestedAmount, stage := Risk, riskCompleted := false),
                               Say(PreapprovedOffer(requested, limit))))
              && (limit < requested <= 2 * limit ==>
                    o == Plain(r.(stage := SalarySlipRequired), Say(SalarySlipRequest)))
              && (requested > limit && requested > 2 * limit ==>
                    o == Plain(r.(stage := Rejected), Say(OverLimit(Some(2 * limit)))))
    ensures o.reply.Say? && o.record.stage in {Risk, SalarySlipRequired} ==>
              r.requestedAmount.Some? && r.preapprovedLimit.Some?
    ensures o.reply.Fault? <==>
              r.creditScore.None? || (r.creditScore.value >= 700 && (r.requestedAmount.None? || r.preapprovedLimit.None?))
  {
    if r.creditScore.None? then Plain(r, Fault(MissingField("credit_score")))
    else if r.creditScore.value < 700 then Plain(r.(stage := Rejected), Say(LowCreditScore(r.creditScore)))
    else if r.requestedAmount.None? then Plain(r, Fault(MissingField("requested_amount")))
    else if r.preapprovedLimit.None? then Plain(r, Fault(MissingField("preapproved_limit")))
    else
      var requested, limit := r.requestedAmount.value, r.preapprovedLimit.value;
      if requested <= limit then
        Plain(r.(eligibleAmount := r.requestedAmount, stage := Risk, riskCompleted := false),
              Say(PreapprovedOffer(requested, limit)))
      else if requested <= 2 * limit then Plain(r.(stage := SalarySlipRequired), Say(SalarySlipRequest))
      else Plain(r.(stage := Rejected), Say(OverLimit(Some(2 * limit))))
  }

  /** The simulated salary-slip check: whatever the message, the requested amount becomes eligible. */
  function VerifySalarySlip(r: Record): Outcome
  {
    Plain(r.(eligibleAmount := r.requestedAmount, stage := Risk, riskCompleted := false), Say(SalarySlipVerified))
  }

  /**
   * Risk scoring. `result["interest_rate"]` is read without a default, so a
   * High-risk result, which has no rate, raises before anything is stored.
   */
  function ScoreRisk(r: Record): (o: Outcome)
    ensures o.fraudCase.None? && o.translateTo.None?
    ensures o.reply.Fault? ==> o.record == r
    ensures o.reply.Say? ==>
              && r.eligibleAmount.Some? && r.eligibleAmount.value != 0
              && r.currentLoanEmi.Some? && r.employmentType.Some?
              && var a := R.AssessRisk(r.eligibleAmount.value, r.employmentType.value, r.currentLoanEmi.value);
                 && a.interestRate.Some? && RateValue(a.interestRate.value).Some?
                 && var rate := RateValue(a.interestRate.value).value;
                    && o.record.riskResult == Some(StoredRisk(a.riskLevel, a.creditScore, a.decision, rate, a.reason))
                    && (a.decision == "approved" ==>
                          o.record.stage == SanctionPrompt && o.reply == Say(CreditAssessed(r.creditScore, a.riskLevel, rate)))
                    && (a.decision != "approved" ==> o.record.stage == Rejected && o.reply == Say(RiskRejected(a.reason)))
                    && o.record == r.(riskResult := o.record.riskResult, riskCompleted := true, stage := o.record.stage)
  {
    if r.eligibleAmount.None? then Plain(r, Fault(MissingField("eligible_amount")))
    else if r.currentLoanEmi.None? then Plain(r, Fault(MissingField("current_loan_emi")))
    else if r.eligibleAmount.value == 0 then Plain(r, Fault(DivisionByZero))
    else if r.employmentType.None? then Plain(r, Fault(MissingField("employment_type")))
    else
      var a := R.AssessRisk(r.eligibleAmount.value, r.employmentType.value, r.currentLoanEmi.value);
      match a.interestRate
      case None => Plain(r, Fault(MissingField("interest_rate")))
      case Some(text) =>
        match RateValue(text)
        case None => Plain(r, Fault(NotANumber(text)))
        case Some(rate) => StoreRisk(r, a, rate)
  }

  /** The scored result stored with its numeric rate, and the decision it leads to. */
  function StoreRisk(r: Record, a: R.RiskAssessment, rate: real): Outcome
  {
    var scored := r.(riskResult := Some(StoredRisk(a.riskLevel, a.creditScore, a.decision, rate, a.reason)),
                     riskCompleted := true);
    if a.decision != "approved" then Plain(scored.(stage := Rejected), Say(RiskRejected(a.reason)))
    else Plain(scored.(stage := SanctionPrompt), Say(CreditAssessed(r.creditScore, a.riskLevel, rate)))
  }

  // ---------------------------------------------------------------------
  // One turn
  // ---------------------------------------------------------------------

  /**
   * One turn: latch the language, translate the message into English, route
   * it, and translate the reply back.
   */
  function Transition(r: Record, input: string, history: seq<ChatMessage>, env: Env): (o: Outcome)
    ensures o.fraudCase.None?
    ensures o.reply.Say? <==> o.translateTo.Some?
    ensures o.reply.Say? ==> o.translateTo == Some(UserLanguage(r, input))
  {
    var lang := UserLanguage(r, input);
    Localize(Route(r.(lang := Some(lang)), L.ToEnglish(input, lang, env.translate), history, env), lang)
  }

  /** The guarded branches on the English message: reset, name, KYC capture, then the stage. */
  function Route(r: Record, text: string, history: seq<ChatMessage>, env: Env): (o: Outcome)
    ensures o.fraudCase.None? && o.translateTo.None?
    ensures IsResetRequest(Strip(Lower(text))) ==> o == Plain(InitMemory(), Say(StartFresh))
  {
    var low := Strip(Lower(text));
    if IsResetRequest(low) then Plain(InitMemory(), Say(StartFresh))
    else if IntroducesName(r, low) then
      var name := NameFrom(text);
      Plain(r.(name := Some(name), stage := AwaitingKyc), Say(Welcome(name)))
    else if OffersKyc(r, low) then CaptureKyc(r, text)
    else StageTurn(r, text, history, env)
  }

  /** The stage branches up to underwriting; an accepted amount falls through into underwriting. */
  function StageTurn(r: Record, text: string, history: seq<ChatMessage>, env: Env): (o: Outcome)
    ensures o.fraudCase.None? && o.translateTo.None?
  {
    if r.stage == KycPending then CheckKyc(r, env.kycTable)
    else if r.stage == SalesDiscovery then Discover(r, text)
    else if r.stage == SalesAmount then UnderwriteAmount(r, ParseAmount(text))
    else PipelineTurn(r, text, history, env)
  }

  /** The parsed amount, if any, stored and underwritten. */
  function UnderwriteAmount(r: Record, amount: Option<int>): (o: Outcome)
    ensures o.fraudCase.None? && o.translateTo.None?
  {
    match amount
    case None => Plain(r, Say(InvalidAmount))
    case Some(a) => Underwrite(r.(requestedAmount := Some(a), stage := Underwriting))
  }

  /** Underwriting, salary slip, risk, sanction, completion, and the chat-model fallback. */
  function PipelineTurn(r: Record, text: string, history: seq<ChatMessage>, env: Env): (o: Outcome)
    ensures o.fraudCase.None? && o.translateTo.None?
  {
    if r.stage == Underwriting then Underwrite(r)
    else if r.stage == SalarySlipRequired then VerifySalarySlip(r)
    else if r.stage == Risk && !r.riskCompleted then ScoreRisk(r)
    else if r.stage == SanctionPrompt then M.ConfirmSanction(r, Strip(Lower(text)), env.uuidHex)
    else if r.stage == Completed then Plain(r, Say(ThankYou))
    else Plain(r, Say(Chat(env.llm(M.Prompt(env, history, text)))))
  }

  // ---------------------------------------------------------------------
  // The turn, on the session in place
  // ---------------------------------------------------------------------

  method UnderwriteInto(memory: Memory) returns (reply: Reply)
    modifies memory
    ensures Plain(memory.Snapshot(), reply) == Underwrite(old(memory.Snapshot()))
  {
    var requested, limit, creditScore := memory.requestedAmount, memory.preapprovedLimit, memory.creditScore;
    if creditScore.None? {
      return Fault(MissingField("credit_score"));
    }
    if creditScore.value < 700 {
      memory.stage := Rejected;
      return Say(LowCreditScore(creditScore));
    }
    if requested.None? {
      return Fault(MissingField("requested_amount"));
    }
    if limit.None? {
      return Fault(MissingField("preapproved_limit"));
    }
    if requested.value <= limit.value {
      memory.eligibleAmount := requested;
      memory.stage := Risk;
      memory.riskCompleted := false;
      return Say(PreapprovedOffer(requested.value, limit.value));
    }
    if requested.value <= 2 * limit.value {
      memory.stage := SalarySlipRequired;
      return Say(SalarySlipRequest);
    }
    memory.stage := Rejected;
    return Say(OverLimit(Some(2 * limit.value)));
  }

  method VerifySalarySlipInto(memory: Memory) returns (reply: Reply)
    modifies memory
    ensures Plain(memory.Snapshot(), reply) == VerifySalarySlip(old(memory.Snapshot()))
  {
    memory.eligibleAmount := memory.requestedAmount;
    memory.stage := Risk;
    memory.riskCompleted := false;
    return Say(SalarySlipVerified);
  }

  method ScoreRiskInto(memory: Memory) returns (reply: Reply)
    modifies memory
    ensures Plain(memory.Snapshot(), reply) == ScoreRisk(old(memory.Snapshot()))
  {
    if memory.eligibleAmount.None? {
      return Fault(MissingField("eligible_amount"));
    }
    if memory.currentLoanEmi.None? {
      return Fault(MissingField("current_loan_emi"));
    }
    if memory.eligibleAmount.value == 0 {
      return Fault(DivisionByZero);
    }
    if memory.employmentType.None? {
      return Fault(MissingField("employment_type"));
    }
    var a := R.AssessRisk(memory.eligibleAmount.value, memory.employmentType.value, memory.currentLoanEmi.value);
    if a.interestRate.None? {
      return Fault(MissingField("interest_rate"));
    }
    var rate := RateValue(a.interestRate.value);
    if rate.None? {
      return Fault(NotANumber(a.interestRate.value));
    }
    reply := StoreRiskInto(memory, a, rate.value);
  }

  method StoreRiskInto(memory: Memory, a: R.RiskAssessment, rate: real) returns (reply: Reply)
    modifies memory
    ensures Plain(memory.Snapshot(), reply) == StoreRisk(old(memory.Snapshot()), a, rate)
  {
    memory.riskResult := Some(StoredRisk(a.riskLevel, a.creditScore, a.decision, rate, a.reason));
    memory.riskCompleted := true;
    if a.decision != "approved" {
      memory.stage := Rejected;
      return Say(RiskRejected(a.reason));
    }
    memory.stage := SanctionPrompt;
    return Say(CreditAssessed(memory.creditScore, a.riskLevel, rate));
  }

  method DiscoverInto(memory: Memory, text: string) returns (reply: Reply)
    modifies memory
    ensures Plain(memory.Snapshot(), reply) == Discover(old(memory.Snapshot()), text)
  {
    memory.loanPurpose := Some(Strip(text));
    memory.stage := SalesAmount;
    var pitch := ChoosePitch(memory.loanPurpose.value);
    return Say(PitchAndAskAmount(pitch));
  }

  method UnderwriteAmountInto(memory: Memory, amount: Option<int>) returns (reply: Reply)
    modifies memory
    ensures Plain(memory.Snapshot(), reply) == UnderwriteAmount(old(memory.Snapshot()), amount)
  {
    ghost var before := memory.Snapshot();
    if amount.None? {
      return Say(InvalidAmount);
    }
    memory.requestedAmount := amount;
    memory.stage := Underwriting;
    assert memory.Snapshot() == before.(requestedAmount := amount, stage := Underwriting);
    reply := UnderwriteInto(memory);
  }

  method PipelineTurnInto(memory: Memory, text: string, history: seq<ChatMessage>, env: Env) returns (reply: Reply)
    modifies memory
    ensures Plain(memory.Snapshot(), reply) == PipelineTurn(old(memory.Snapshot()), text, history, env)
  {
    if memory.stage == Underwriting {
      reply := UnderwriteInto(memory);
    } else if memory.stage == SalarySlipRequired {
      reply := VerifySalarySlipInto(memory);
    } else if memory.stage == Risk && !memory.riskCompleted {
      reply := ScoreRiskInto(memory);
    } else if memory.stage == SanctionPrompt {
      reply := M.ConfirmSanctionInto(memory, Strip(Lower(text)), env.uuidHex);
    } else if memory.stage == Completed {
      reply := Say(ThankYou);
    } else {
      reply := Say(Chat(env.llm(M.Prompt(env, history, text))));
    }
  }

  method StageTurnInto(memory: Memory, text: string, history: seq<ChatMessage>, env: Env) returns (reply: Reply)
    modifies memory
    ensures Plain(memory.Snapshot(), reply) == StageTurn(old(memory.Snapshot()), text, history, env)
  {
    if memory.stage == KycPending {
      reply := CheckKycInto(memory, env.kycTable);
    } else if memory.stage == SalesDiscovery {
      reply := DiscoverInto(memory, text);
    } else if memory.stage == SalesAmount {
      var amount := ParseAmount(text);
      reply := UnderwriteAmountInto(memory, amount);
    } else {
      reply := PipelineTurnInto(memory, text, history, env);
    }
  }

  method RouteInto(memory: Memory, text: string, history: seq<ChatMessage>, env: Env) returns (reply: Reply)
    modifies memory
    ensures Plain(memory.Snapshot(), reply) == Route(old(memory.Snapshot()), text, history, env)
  {
    var before := memory.Snapshot();
    var low := Strip(Lower(text));
    if IsResetRequest(low) {
      memory.Clear();
      reply := Say(StartFresh);
    } else if IntroducesName(before, low) {
      var name := NameFrom(text);
      memory.name := Some(name);
      memory.stage := AwaitingKyc;
      reply := Say(Welcome(name));
      assert memory.Snapshot() == before.(name := Some(name), stage := AwaitingKyc);
    } else if OffersKyc(before, low) {
      assert Route(before, text, history, env) == CaptureKyc(before, text);
      reply := CaptureKycInto(memory, text);
    } else {
      assert Route(before, text, history, env) == StageTurn(before, text, history, env);
      reply := StageTurnInto(memory, text, history, env);
    }
  }

  /**
   * `master_agent_response(user_input, chat_history, memory)`: the reply, and
   * the language it is translated into when it is not an exception.
   */
  method Respond(memory: Memory, input: string, history: seq<ChatMessage>, env: Env)
    returns (reply: Reply, translateTo: Option<string>)
    modifies memory
    ensures Outcome(memory.Snapshot(), reply, None, translateTo) == Transition(old(memory.Snapshot()), input, history, env)
  {
    ghost var before := memory.Snapshot();
    var detected := L.DetectLanguage(input);
    if memory.lang.None? {
      memory.lang := Some(detected);
    }
    var lang := memory.lang.value;
    assert lang == UserLanguage(before, input);
    assert memory.Snapshot() == before.(lang := Some(lang));
    var text := L.ToEnglish(input, lang, env.translate);
    reply := RouteInto(memory, text, history, env);
    translateTo := if reply.Say? then Some(lang) else None;
  }

  // ---------------------------------------------------------------------
  // Language across turns
  // ---------------------------------------------------------------------

  /** The message as the guards see it: translated from the session's language, lower-cased and stripped. */
  function EnglishCommand(r: Record, input: string, env: Env): string
  {
    Strip(Lower(L.ToEnglish(input, UserLanguage(r, input), env.translate)))
  }

  /**
   * The language is written only while absent: short of a reset, a turn leaves
   * the session in the language it already had, or else in the language of
   * this message, whatever language the message is written in.
   */
  lemma LanguageLatched(r: Record, input: string, history: seq<ChatMessage>, env: Env)
    requires !IsResetRequest(EnglishCommand(r, input, env))
    ensures Transition(r, input, history, env).record.lang == Some(UserLanguage(r, input))
    ensures r.lang.Some? ==> Transition(r, input, history, env).record.lang == r.lang
  {
    var lang := UserLanguage(r, input);
    RouteKeepsLanguage(r.(lang := Some(lang)), L.ToEnglish(input, lang, env.translate), history, env);
  }

  lemma RouteKeepsLanguage(r: Record, text: string, history: seq<ChatMessage>, env: Env)
    requires !IsResetRequest(Strip(Lower(text)))
    ensures Route(r, text, history, env).record.lang == r.lang
  {
    var low := Strip(Lower(text));
    if IntroducesName(r, low) {
    } else if OffersKyc(r, low) {
      assert Route(r, text, history, env) == CaptureKyc(r, text);
    } else {
      assert Route(r, text, history, env) == StageTurn(r, text, history, env);
      StageTurnKeepsLanguage(r, text, history, env);
    }
  }

  lemma StageTurnKeepsLanguage(r: Record, text: string, history: seq<ChatMessage>, env: Env)
    ensures StageTurn(r, text, history, env).record.lang == r.lang
  {
    var o := StageTurn(r, text, history, env);
    if r.stage == KycPending {
      assert o.record.lang == r.lang by {
        assert o == CheckKyc(r, env.kycTable);
        CheckKycKeepsLanguage(r, env.kycTable);
      }
    } else if r.stage == SalesAmount {
      assert o.record.lang == r.lang by {
        var amount := ParseAmount(text);
        assert o == UnderwriteAmount(r, amount);
        if amount.Some? {
          UnderwriteKeepsLanguage(r.(requestedAmount := amount, stage := Underwriting));
        }
      }
    } else if r.stage != SalesDiscovery {
      assert o.record.lang == r.lang by {
        assert o == PipelineTurn(r, text, history, env);
        PipelineKeepsLanguage(r, text, history, env);
      }
    }
  }

  lemma CheckKycKeepsLanguage(r: Record, table: seq<V.KycRow>)
    ensures CheckKyc(r, table).record.lang == r.lang
  {
  }

  lemma UnderwriteKeepsLanguage(r: Record)
    ensures Underwrite(r).record.lang == r.lang
  {
  }

  lemma PipelineKeepsLanguage(r: Record, text: string, history: seq<ChatMessage>, env: Env)
    ensures PipelineTurn(r, text, history, env).record.lang == r.lang
  {
    if r.stage == SanctionPrompt {
      assert PipelineTurn(r, text, history, env) == M.ConfirmSanction(r, Strip(Lower(text)), env.uuidHex);
    }
  }

  /** None of the turns, read in language `lang`, asks for a reset. */
  predicate NoReset(lang: string, turns: seq<M.Turn>, env: Env)
  {
    forall i :: 0 <= i < |turns| ==>
      !IsResetRequest(Strip(Lower(L.ToEnglish(turns[i].input, lang, env.translate))))
  }

  lemma NoResetTail(lang: string, turns: seq<M.Turn>, env: Env)
    requires turns != [] && NoReset(lang, turns, env)
    ensures NoReset(lang, turns[1..], env)
  {
    forall i | 0 <= i < |turns[1..]|
      ensures !IsResetRequest(Strip(Lower(L.ToEnglish(turns[1..][i].input, lang, env.translate))))
    {
      assert turns[1..][i] == turns[i + 1];
    }
  }

  /** The session record after the turns, one after the other. */
  function Run(r: Record, turns: seq<M.Turn>, env: Env): Record
    decreases |turns|
  {
    if turns == [] then r
    else Run(Transition(r, turns[0].input, turns[0].history, env).record, turns[1..], env)
  }

  /** A latched language stays latched for the whole conversation, short of a reset. */
  lemma {:induction false} LanguagePersists(r: Record, turns: seq<M.Turn>, env: Env)
    requires r.lang.Some? && NoReset(r.lang.value, turns, env)
    ensures Run(r, turns, env).lang == r.lang
    decreases |turns|
  {
    if turns != [] {
      LanguageLatched(r, turns[0].input, turns[0].history, env);
      NoResetTail(r.lang.value, turns, env);
      LanguagePersists(Transition(r, turns[0].input, turns[0].history, env).record, turns[1..], env);
    }
  }

  /**
   * In a fresh session the language of the first message is the session's
   * language to the end: every later reply is translated into it, whatever the
   * later messages are written in.
   */
  lemma FirstLanguageWins(turns: seq<M.Turn>, env: Env)
    requires turns != []
    requires NoReset(L.DetectedLanguage(turns[0].input), turns, env)
    ensures Run(InitMemory(), turns, env).lang == Some(L.DetectedLanguage(turns[0].input))
  {
    var r := InitMemory();
    var first := L.DetectedLanguage(turns[0].input);
    assert UserLanguage(r, turns[0].input) == first;
    assert !IsResetRequest(EnglishCommand(r, turns[0].input, env));
    LanguageLatched(r, turns[0].input, turns[0].history, env);
    var next := Transition(r, turns[0].input, turns[0].history, env).record;
    NoResetTail(first, turns, env);
    LanguagePersists(next, turns[1..], env);
  }

  /**
   * "reset" or "start again" in an English session clears everything, the
   * latched language included, so the next message is detected afresh; the
   * acknowledgement itself is still translated into the old language.
   */
  lemma ResetForgetsLanguage(r: Record, before: string, keyword: string, after: string, history: seq<ChatMessage>, env: Env)
    requires M.IsResetKeyword(keyword) && r.lang == Some("en")
    ensures Transition(r, before + keyword + after, history, env)
              == Outcome(InitMemory(), Say(StartFresh), None, Some("en"))
    ensures Transition(r, before + keyword + after, history, env).record.lang.None?
  {
    M.ResetKeyword(before, keyword, after);
  }

  // ---------------------------------------------------------------------
  // Underwriting and risk
  // ---------------------------------------------------------------------

  /** Risk, then the salary-slip band, then rejection: the order of the underwriting outcomes. */
  function BandRank(s: Stage): nat
  {
    if s == Risk then 0 else if s == SalarySlipRequired then 1 else 2
  }

  /** Asking for more never lands in a better underwriting band. */
  lemma LargerRequestNeverBetterBand(r: Record, smaller: int, larger: int)
    requires r.creditScore.Some? && r.preapprovedLimit.Some? && smaller <= larger
    ensures BandRank(Underwrite(r.(requestedAmount := Some(smaller))).record.stage)
              <= BandRank(Underwrite(r.(requestedAmount := Some(larger))).record.stage)
  {
  }

  /** Any answer in the salary-slip stage verifies the slip and sends the requested amount to risk scoring. */
  lemma SalarySlipLeadsToRisk(r: Record, input: string, history: seq<ChatMessage>, env: Env)
    requires WellFormed(r) && r.stage == SalarySlipRequired && r.lang.Some?
    requires !IsResetRequest(EnglishCommand(r, input, env))
    ensures Transition(r, input, history, env)
              == Outcome(r.(eligibleAmount := r.requestedAmount, stage := Risk, riskCompleted := false),
                         Say(SalarySlipVerified), None, r.lang)
  {
    var text := L.ToEnglish(input, r.lang.value, env.translate);
    assert r.(lang := Some(r.lang.value)) == r;
    assert Route(r, text, history, env) == StageTurn(r, text, history, env);
  }

  /**
   * Scoring a complete profile: an approved result is stored with the band's
   * rate and leads to the sanction prompt; a High-risk result has no rate, so
   * reading it raises and nothing is stored.
   */
  lemma ScoreRiskOutcome(r: Record)
    requires r.eligibleAmount.Some? && r.eligibleAmount.value != 0
    requires r.currentLoanEmi.Some? && r.employmentType.Some?
    ensures var a := R.AssessRisk(r.eligibleAmount.value, r.employmentType.value, r.currentLoanEmi.value);
            var o := ScoreRisk(r);
            && (a.creditScore < 650 ==> o == Plain(r, Fault(MissingField("interest_rate"))))
            && (a.creditScore >= 650 ==>
                  && o.reply.Say?
                  && o.record.stage == SanctionPrompt
                  && o.record.riskResult.value.interestRate == (if a.creditScore >= 720 then 10.5 else 14.5))
  {
    M.ScoredRate(r.eligibleAmount.value, r.employmentType.value, r.currentLoanEmi.value);
  }

  /** Risk scoring never rejects: it either reaches the sanction prompt or raises. */
  lemma ScoringNeverRejects(r: Record)
    ensures ScoreRisk(r).reply.Say? ==> ScoreRisk(r).record.stage == SanctionPrompt
  {
  }

  // ---------------------------------------------------------------------
  // Sanction and completion
  // ---------------------------------------------------------------------

  /**
   * The sanction prompt, answered in the session's language: "no" completes
   * without a letter, "yes" completes with one, anything else asks again.
   */
  lemma SanctionPromptAnswers(r: Record, input: string, history: seq<ChatMessage>, env: Env)
    requires r.stage == SanctionPrompt && r.name.Some? && r.lang.Some?
    requires !IsResetRequest(EnglishCommand(r, input, env))
    ensures var low := EnglishCommand(r, input, env);
            var o := Transition(r, input, history, env);
            && (low == "no" ==> o == Outcome(r.(stage := Completed), Say(Declined), None, r.lang))
            && (low != "yes" && low != "no" ==> o == Outcome(r, Say(AskYesNo), None, r.lang))
            && (low == "yes" && o.reply.Say? ==> o.record.stage == Completed && o.record.sanctionFile.Some?)
  {
    var text := L.ToEnglish(input, r.lang.value, env.translate);
    assert r.(lang := Some(r.lang.value)) == r;
    assert Route(r, text, history, env) == StageTurn(r, text, history, env);
    assert StageTurn(r, text, history, env) == M.ConfirmSanction(r, Strip(Lower(text)), env.uuidHex);
  }

  /** A completed application answers every message but a reset with the closing message, in its language. */
  lemma CompletedAnswersThanks(r: Record, input: string, history: seq<ChatMessage>, env: Env)
    requires r.stage == Completed && r.name.Some? && r.lang.Some?
    requires !IsResetRequest(EnglishCommand(r, input, env))
    ensures Transition(r, input, history, env) == Outcome(r, Say(ThankYou), None, r.lang)
  {
    var text := L.ToEnglish(input, r.lang.value, env.translate);
    assert r.(lang := Some(r.lang.value)) == r;
    assert Route(r, text, history, env) == StageTurn(r, text, history, env);
  }

  /** A completed application stays exactly as it is for any number of turns short of a reset. */
  lemma {:induction false} CompletedIsFinal(r: Record, turns: seq<M.Turn>, env: Env)
    requires r.stage == Completed && r.name.Some? && r.lang.Some?
    requires NoReset(r.lang.value, turns, env)
    ensures Run(r, turns, env) == r
    decreases |turns|
  {
    if turns != [] {
      CompletedAnswersThanks(r, turns[0].input, turns[0].history, env);
      NoResetTail(r.lang.value, turns, env);
      CompletedIsFinal(r, turns[1..], env);
    }
  }

  /**
   * Sales discovery: the translated message, stripped, is stored as the loan
   * purpose, and the pitch it selects is sent with the request for an amount.
   */
  lemma DiscoveryPitches(r: Record, input: string, history: seq<ChatMessage>, env: Env)
    requires r.stage == SalesDiscovery && r.name.Some? && r.lang.Some?
    requires !IsResetRequest(EnglishCommand(r, input, env))
    ensures var purpose := Strip(L.ToEnglish(input, r.lang.value, env.translate));
            Transition(r, input, history, env)
              == Outcome(r.(loanPurpose := Some(purpose), stage := SalesAmount),
                         Say(PitchAndAskAmount(ChoosePitch(purpose))), None, r.lang)
  {
    var text := L.ToEnglish(input, r.lang.value, env.translate);
    assert r.(lang := Some(r.lang.value)) == r;
    assert Route(r, text, history, env) == StageTurn(r, text, history, env);
  }

  // ---------------------------------------------------------------------
  // The sales pitch
  // ---------------------------------------------------------------------

  /** A purpose mentioning "medical", in any case, gets the medical pitch whatever else it mentions. */
  lemma MedicalPitchFirst(before: string, after: string)
    ensures ChoosePitch(before + "medical" + after) == MedicalPitch
  {
    LowerSlice(before, "medical", after);
    LowerOfUncapitalized("medical");
    ContainsAt(Lower(before + "medical" + after), "medical", |before|);
  }

  /** Without "medical", a purpose mentioning "education" gets the education pitch, even beside "travel". */
  lemma EducationPitchBeforeTravel(before: string, after: string)
    requires !Contains(Lower(before + "education" + after), "medical")
    ensures ChoosePitch(before + "education" + after) == EducationPitch
  {
    LowerSlice(before, "education", after);
    LowerOfUncapitalized("education");
    ContainsAt(Lower(before + "education" + after), "education", |before|);
  }

  // ---------------------------------------------------------------------
  // The session invariant
  // ---------------------------------------------------------------------

  /** Every turn of this variant keeps the session well formed. */
  lemma TurnKeepsWellFormed(r: Record, input: string, history: seq<ChatMessage>, env: Env)
    requires WellFormed(r)
    ensures WellFormed(Transition(r, input, history, env).record)
  {
    var lang := UserLanguage(r, input);
    var latched, text := r.(lang := Some(lang)), L.ToEnglish(input, lang, env.translate);
    assert Transition(r, input, history, env).record == Route(latched, text, history, env).record;
    RouteKeepsWellFormed(latched, text, history, env);
  }

  lemma RouteKeepsWellFormed(r: Record, text: string, history: seq<ChatMessage>, env: Env)
    requires WellFormed(r)
    ensures WellFormed(Route(r, text, history, env).record)
  {
    var low := Strip(Lower(text));
    if IsResetRequest(low) {
      InitWellFormed();
    } else if IntroducesName(r, low) {
      M.NamedWellFormed(r, NameFrom(text));
    } else if OffersKyc(r, low) {
      assert Route(r, text, history, env) == CaptureKyc(r, text);
      M.KycKeepsWellFormed(r, text, env.kycTable);
    } else {
      assert Route(r, text, history, env) == StageTurn(r, text, history, env);
      StageTurnKeepsWellFormed(r, text, history, env);
    }
  }

  lemma StageTurnKeepsWellFormed(r: Record, text: string, history: seq<ChatMessage>, env: Env)
    requires WellFormed(r)
    ensures WellFormed(StageTurn(r, text, history, env).record)
  {
    if r.stage == KycPending {
      assert StageTurn(r, text, history, env) == CheckKyc(r, env.kycTable);
      M.KycKeepsWellFormed(r, text, env.kycTable);
    } else if r.stage == SalesDiscovery {
    } else if r.stage == SalesAmount {
      var amount := ParseAmount(text);
      assert StageTurn(r, text, history, env) == UnderwriteAmount(r, amount);
      if amount.Some? {
        UnderwriteKeepsWellFormed(r.(requestedAmount := amount, stage := Underwriting));
      }
    } else {
      assert StageTurn(r, text, history, env) == PipelineTurn(r, text, history, env);
      PipelineKeepsWellFormed(r, text, history, env);
    }
  }

  lemma UnderwriteKeepsWellFormed(r: Record)
    requires WellFormed(r) && r.stage == Underwriting
    ensures WellFormed(Underwrite(r).record)
  {
  }

  lemma PipelineKeepsWellFormed(r: Record, text: string, history: seq<ChatMessage>, env: Env)
    requires WellFormed(r)
    ensures WellFormed(PipelineTurn(r, text, history, env).record)
  {
    if r.stage == Underwriting {
      UnderwriteKeepsWellFormed(r);
    } else if r.stage == SalarySlipRequired {
    } else if r.stage == Risk && !r.riskCompleted {
      ScoreRiskKeepsWellFormed(r);
    } else if r.stage == SanctionPrompt {
      assert PipelineTurn(r, text, history, env) == M.ConfirmSanction(r, Strip(Lower(text)), env.uuidHex);
      M.ConfirmSanctionKeepsWellFormed(r, Strip(Lower(text)), env.uuidHex);
    }
  }

  lemma ScoreRiskKeepsWellFormed(r: Record)
    requires WellFormed(r) && r.stage == Risk
    ensures WellFormed(ScoreRisk(r).record)
  {
    var o := ScoreRisk(r);
    if o.reply.Say? {
      M.DecidedWellFormed(r, o.record.riskResult.value, o.record.stage);
    }
  }

  /** Every conversation of this variant from a well-formed session stays well formed. */
  lemma {:induction false} RunKeepsWellFormed(r: Record, turns: seq<M.Turn>, env: Env)
    requires WellFormed(r)
    ensures WellFormed(Run(r, turns, env))
    decreases |turns|
  {
    if turns != [] {
      TurnKeepsWellFormed(r, turns[0].input, turns[0].history, env);
      RunKeepsWellFormed(Transition(r, turns[0].input, turns[0].history, env).record, turns[1..], env);
    }
  }
}
