/**
 * The canonical conversation (`master_agent_response` in agents/master_agent.py):
 * one message moves the session through KYC, sales, underwriting with a fraud
 * screen, risk scoring and sanction. `Transition` is the table of what a turn
 * does; `Respond` performs it on the session in place.
 */
module MasterAgent {
  import opened Optional
  import opened Text
  import opened SessionMemory
  import opened Conversation
  import F = FraudAgent
  import R = RiskAgent
  import S = SanctionAgent

  // ---------------------------------------------------------------------
  // The handlers, as functions of the record
  // ---------------------------------------------------------------------

  /** The fraud row for the session as it stands. */
  function CaseOf(r: Record, reason: string): FraudCase
  {
    FraudCase(r.name, r.city, r.creditScore, r.requestedAmount, r.preapprovedLimit, r.employmentType, reason)
  }

  /** The fraud screen on the session's own fields. */
  function ScreenFraud(r: Record): F.FraudResult
  {
    F.AssessFraud(r.creditScore, r.requestedAmount, r.preapprovedLimit, r.currentLoanEmi)
  }

  /** Underwriting: the credit-score floor, the pre-approved limit, then the fraud screen. */
  function Underwrite(r: Record): (o: Outcome)
    ensures o.translateTo.None?
    ensures o.reply.Fault? ==> o.record == r && o.fraudCase.None?
    ensures o.reply.Say? ==> o.record.stage in {Rejected, InternalReview, Risk}
    ensures o.reply.Say? ==> o.reply.message in {LowCreditScore(None), OverLimit(None), ReferredForReview, ProceedToRisk}
    ensures r.creditScore.Some? && r.creditScore.value < 700 ==>
              o == Plain(r.(stage := Rejected), Say(LowCreditScore(None)))
    ensures o.reply.Say? && o.record.stage == Rejected && o.reply != Say(LowCreditScore(None)) ==>
              o.reply == Say(OverLimit(None)) && o.record == r.(stage := Rejected)
              && r.requestedAmount.Some? && r.preapprovedLimit.Some?
              && r.requestedAmount.value > r.preapprovedLimit.value
    ensures o.reply.Say? && o.record.stage in {InternalReview, Risk} ==>
              && r.creditScore.Some? && r.requestedAmount.Some? && r.preapprovedLimit.Some?
              && r.creditScore.value >= 700
              && r.requestedAmount.value <= r.preapprovedLimit.value
              && o.record.eligibleAmount == r.requestedAmount
    ensures o.reply.Say? && o.record.stage == InternalReview <==> o.fraudCase.Some?
    ensures o.fraudCase.Some? ==>
              ScreenFraud(r).isFraud
              && o.fraudCase == Some(CaseOf(r, ScreenFraud(r).reason))
              && o.record == r.(eligibleAmount := r.requestedAmount, stage := InternalReview)
    ensures o.reply.Say? && o.record.stage == Risk ==>
              !ScreenFraud(r).isFraud
              && o.record == r.(eligibleAmount := r.requestedAmount, stage := Risk, riskCompleted := false)
    ensures o.reply.Fault? <==>
              r.creditScore.None? || (r.creditScore.value >= 700 && (r.requestedAmount.None? || r.preapprovedLimit.None?))
    ensures r.creditScore.Some? && r.creditScore.value >= 700 && r.requestedAmount.Some? && r.preapprovedLimit.Some? ==>
              var requested, limit := r.requestedAmount.value, r.preapprovedLimit.value;
              && (requested <= limit && ScreenFraud(r).isFraud ==>
                    o == Outcome(r.(eligibleAmount := r.requestedAmount, stage := InternalReview), Say(ReferredForReview),
                                 Some(CaseOf(r, ScreenFraud(r).reason)), None))
              && (requested <= limit && !ScreenFraud(r).isFraud ==>
                    o == Plain(r.(eligibleAmount := r.requestedAmount, stage := Risk, riskCompleted := false), Say(ProceedToRisk)))
              && (requested > limit ==> o == Plain(r.(stage := Rejected), Say(OverLimit(None))))
  {
    if r.creditScore.None? then Plain(r, Fault(MissingField("credit_score")))
    else if r.creditScore.value < 700 then Plain(r.(stage := Rejected), Say(LowCreditScore(None)))
    else if r.requestedAmount.None? then Plain(r, Fault(MissingField("requested_amount")))
    else if r.preapprovedLimit.None? then Plain(r, Fault(MissingField("preapproved_limit")))
    else if r.requestedAmount.value <= r.preapprovedLimit.value then
      var approved := r.(eligibleAmount := r.requestedAmount);
      var fraud := ScreenFraud(approved);
      if fraud.isFraud then
        Outcome(approved.(stage := InternalReview), Say(ReferredForReview), Some(CaseOf(approved, fraud.reason)), None)
      else
        Plain(approved.(stage := Risk, riskCompleted := false), Say(ProceedToRisk))
    else Plain(r.(stage := Rejected), Say(OverLimit(None)))
  }

  /** `result.get("interest_rate", 0)`, percent sign removed, as a float. */
  function NormalizeRate(rate: Option<string>): Option<real>
  {
    match rate
    case None => Some(0.0)
    case Some(text) => RateValue(text)
  }

  /** Risk scoring, at most once per application. */
  function ScoreRisk(r: Record): (o: Outcome)
    ensures o.fraudCase.None? && o.translateTo.None?
    ensures r.riskCompleted ==> o == Plain(r, Say(ProcessingHold))
    ensures o.reply.Say? ==> o.reply.message.ProcessingHold? || o.reply.message.RiskRejected? || o.reply.message.RateOffer?
    ensures o.reply.Fault? ==> o.record == r
    ensures !r.riskCompleted && o.reply.Say? ==>
              && r.eligibleAmount.Some? && r.eligibleAmount.value != 0
              && r.currentLoanEmi.Some? && r.employmentType.Some?
              && var a := R.AssessRisk(r.eligibleAmount.value, r.employmentType.value, r.currentLoanEmi.value);
                 && NormalizeRate(a.interestRate).Some?
                 && var rate := NormalizeRate(a.interestRate).value;
                    && o.record.riskResult == Some(StoredRisk(a.riskLevel, a.creditScore, a.decision, rate, a.reason))
                    && (a.decision == "approved" ==> o.record.stage == SanctionPrompt && o.reply == Say(RateOffer(rate)))
                    && (a.decision != "approved" ==> o.record.stage == Rejected && o.reply == Say(RiskRejected(a.reason)))
                    && o.record == r.(riskResult := o.record.riskResult, riskCompleted := true, stage := o.record.stage)
    ensures r.eligibleAmount == Some(0) && r.currentLoanEmi.Some? && !r.riskCompleted ==>
              o == Plain(r, Fault(DivisionByZero))
  {
    if r.riskCompleted then Plain(r, Say(ProcessingHold))
    else if r.eligibleAmount.None? then Plain(r, Fault(MissingField("eligible_amount")))
    else if r.currentLoanEmi.None? then Plain(r, Fault(MissingField("current_loan_emi")))
    else if r.eligibleAmount.value == 0 then Plain(r, Fault(DivisionByZero))
    else if r.employmentType.None? then Plain(r, Fault(MissingField("employment_type")))
    else
      var a := R.AssessRisk(r.eligibleAmount.value, r.employmentType.value, r.currentLoanEmi.value);
      match NormalizeRate(a.interestRate)
      case None => Plain(r, Fault(NotANumber(a.interestRate.value)))
      case Some(rate) =>
        var stored := StoredRisk(a.riskLevel, a.creditScore, a.decision, rate, a.reason);
        var scored := r.(riskResult := Some(stored), riskCompleted := true);
        if a.decision != "approved" then
          Plain(scored.(stage := Rejected), Say(RiskRejected(a.reason)))
        else
          Plain(scored.(stage := SanctionPrompt), Say(RateOffer(rate)))
  }

  /** The sanction prompt: exactly "yes" sanctions, exactly "no" declines. */
  function ConfirmSanction(r: Record, low: string, uuidHex: string): (o: Outcome)
    ensures o.fraudCase.None? && o.translateTo.None?
    ensures low != "yes" && low != "no" ==> o == Plain(r, Say(AskYesNo))
    ensures low == "no" ==> o == Plain(r.(stage := Completed), Say(Declined))
    ensures low == "yes" && o.reply.Say? ==>
              && r.riskResult.Some? && r.eligibleAmount.Some?
              && var s := S.GenerateSanction(r.name, r.eligibleAmount.value, r.riskResult.value.interestRate, uuidHex);
                 && o.record == r.(stage := Completed, sanctionFile := Some(s.filePath))
                 && o.reply == Say(Sanctioned(r.eligibleAmount.value, r.riskResult.value.interestRate, "36 months", s.emi))
    ensures o.reply.Fault? ==> o.record == r
  {
    if low == "yes" then
      if r.riskResult.None? then Plain(r, Fault(MissingField("risk_result")))
      else if r.eligibleAmount.None? then Plain(r, Fault(MissingField("eligible_amount")))
      else
        var sanction := S.GenerateSanction(r.name, r.eligibleAmount.value, r.riskResult.value.interestRate, uuidHex);
        Plain(r.(stage := Completed, sanctionFile := Some(sanction.filePath)),
              Say(Sanctioned(sanction.loanAmount, sanction.interestRate, sanction.tenure, sanction.emi)))
    else if low == "no" then Plain(r.(stage := Completed), Say(Declined))
    else Plain(r, Say(AskYesNo))
  }

  /** The conversation handed to the chat model: persona, history, then the new message. */
  function Prompt(env: Env, history: seq<ChatMessage>, text: string): seq<ChatMessage>
  {
    [ChatMessage("system", env.systemPrompt)] + history + [ChatMessage("user", text)]
  }

  /**
   * One turn, as the chain of guarded branches: reset, name, KYC capture, then
   * the branch for the session's stage.
   */
  function Transition(r: Record, input: string, history: seq<ChatMessage>, env: Env): Outcome
  {
    var low := Strip(Lower(input));
    if IsResetRequest(low) then Plain(InitMemory(), Say(StartFresh))
    else if IntroducesName(r, low) then
      var name := NameFrom(input);
      Plain(r.(name := Some(name), stage := AwaitingKyc), Say(Welcome(name)))
    else if OffersKyc(r, low) then CaptureKyc(r, input)
    else StageTurn(r, input, history, env)
  }

  /**
   * The stage branches: KYC check, sales discovery, sales amount (falling
   * through into underwriting), then the rest of the pipeline.
   */
  function StageTurn(r: Record, input: string, history: seq<ChatMessage>, env: Env): Outcome
  {
    if r.stage == KycPending then CheckKyc(r, env.kycTable)
    else if r.stage == SalesDiscovery then
      Plain(r.(loanPurpose := Some(Strip(input)), stage := SalesAmount), Say(AskAmount))
    else if r.stage == SalesAmount then TakeAmount(r, input)
    else PipelineTurn(r, input, history, env)
  }

  /** The requested amount, then straight on to underwriting. */
  function TakeAmount(r: Record, input: string): Outcome
  {
    UnderwriteAmount(r, ParseAmount(input))
  }

  /** The parsed amount, if any, stored and underwritten. */
  function UnderwriteAmount(r: Record, amount: Option<int>): Outcome
  {
    match amount
    case None => Plain(r, Say(InvalidAmount))
    case Some(a) => Underwrite(r.(requestedAmount := Some(a), stage := Underwriting))
  }

  /** Underwriting, risk, sanction, internal review, and the chat-model fallback. */
  function PipelineTurn(r: Record, input: string, history: seq<ChatMessage>, env: Env): Outcome
  {
    if r.stage == Underwriting then Underwrite(r)
    else if r.stage == Risk then ScoreRisk(r)
    else if r.stage == SanctionPrompt then ConfirmSanction(r, Strip(Lower(input)), env.uuidHex)
    else if r.stage == InternalReview then Plain(r, Say(UnderReview))
    else Plain(r, Say(Chat(env.llm(Prompt(env, history, input)))))
  }

  // ---------------------------------------------------------------------
  // The turn, on the session in place
  // ---------------------------------------------------------------------

  method UnderwriteInto(memory: Memory) returns (reply: Reply, fraudCase: Option<FraudCase>)
    modifies memory
    ensures Outcome(memory.Snapshot(), reply, fraudCase, None) == Underwrite(old(memory.Snapshot()))
  {
    var requested, limit, creditScore := memory.requestedAmount, memory.preapprovedLimit, memory.creditScore;
    if creditScore.None? {
      return Fault(MissingField("credit_score")), None;
    }
    if creditScore.value < 700 {
      memory.stage := Rejected;
      return Say(LowCreditScore(None)), None;
    }
    if requested.None? {
      return Fault(MissingField("requested_amount")), None;
    }
    if limit.None? {
      return Fault(MissingField("preapproved_limit")), None;
    }
    if requested.value <= limit.value {
      memory.eligibleAmount := requested;
      var fraud := ScreenFraud(memory.Snapshot());
      if fraud.isFraud {
        fraudCase := Some(CaseOf(memory.Snapshot(), fraud.reason));
        memory.stage := InternalReview;
        return Say(ReferredForReview), fraudCase;
      }
      memory.stage := Risk;
      memory.riskCompleted := false;
      return Say(ProceedToRisk), None;
    }
    memory.stage := Rejected;
    return Say(OverLimit(None)), None;
  }

  method ScoreRiskInto(memory: Memory) returns (reply: Reply)
    modifies memory
    ensures Plain(memory.Snapshot(), reply) == ScoreRisk(old(memory.Snapshot()))
  {
    if memory.riskCompleted {
      return Say(ProcessingHold);
    }
    if memory.eligibleAmount.None? {
      return Fault(MissingField("eligible_amount"));
    }
    if memory.currentLoanEmi.None? {
      return Fault(MissingField("current_loan_emi"));
    }
    if memory.eligibleAmount.value == 0 {
      return Fault(DivisionByZero);
    }
    if memory.employmentType.None? {
      return Fault(MissingField("employment_type"));
    }
    var result := R.AssessRisk(memory.eligibleAmount.value, memory.employmentType.value, memory.currentLoanEmi.value);
    var rate := NormalizeRate(result.interestRate);
    if rate.None? {
      return Fault(NotANumber(result.interestRate.value));
    }
    memory.riskResult := Some(StoredRisk(result.riskLevel, result.creditScore, result.decision, rate.value, result.reason));
    memory.riskCompleted := true;
    if result.decision != "approved" {
      memory.stage := Rejected;
      return Say(RiskRejected(result.reason));
    }
    memory.stage := SanctionPrompt;
    return Say(RateOffer(rate.value));
  }

  method ConfirmSanctionInto(memory: Memory, low: string, uuidHex: string) returns (reply: Reply)
    modifies memory
    ensures Plain(memory.Snapshot(), reply) == ConfirmSanction(old(memory.Snapshot()), low, uuidHex)
  {
    if low == "yes" {
      if memory.riskResult.None? {
        return Fault(MissingField("risk_result"));
      }
      if memory.eligibleAmount.None? {
        return Fault(MissingField("eligible_amount"));
      }
      var sanction := S.GenerateSanction(memory.name, memory.eligibleAmount.value, memory.riskResult.value.interestRate, uuidHex);
      memory.stage := Completed;
      memory.sanctionFile := Some(sanction.filePath);
      return Say(Sanctioned(sanction.loanAmount, sanction.interestRate, sanction.tenure, sanction.emi));
    }
    if low == "no" {
      memory.stage := Completed;
      return Say(Declined);
    }
    return Say(AskYesNo);
  }

  method PipelineTurnInto(memory: Memory, input: string, history: seq<ChatMessage>, env: Env)
    returns (reply: Reply, fraudCase: Option<FraudCase>)
    modifies memory
    ensures Outcome(memory.Snapshot(), reply, fraudCase, None) == PipelineTurn(old(memory.Snapshot()), input, history, env)
  {
    fraudCase := None;
    if memory.stage == Underwriting {
      reply, fraudCase := UnderwriteInto(memory);
    } else if memory.stage == Risk {
      reply := ScoreRiskInto(memory);
    } else if memory.stage == SanctionPrompt {
      reply := ConfirmSanctionInto(memory, Strip(Lower(input)), env.uuidHex);
    } else if memory.stage == InternalReview {
      reply := Say(UnderReview);
    } else {
      reply := Say(Chat(env.llm(Prompt(env, history, input))));
    }
  }

  method TakeAmountInto(memory: Memory, input: string) returns (reply: Reply, fraudCase: Option<FraudCase>)
    modifies memory
    ensures Outcome(memory.Snapshot(), reply, fraudCase, None) == TakeAmount(old(memory.Snapshot()), input)
  {
    var amount := ParseAmount(input);
    reply, fraudCase := UnderwriteAmountInto(memory, amount);
  }

  method UnderwriteAmountInto(memory: Memory, amount: Option<int>) returns (reply: Reply, fraudCase: Option<FraudCase>)
    modifies memory
    ensures Outcome(memory.Snapshot(), reply, fraudCase, None) == UnderwriteAmount(old(memory.Snapshot()), amount)
  {
    ghost var before := memory.Snapshot();
    if amount.None? {
      return Say(InvalidAmount), None;
    }
    memory.requestedAmount := amount;
    memory.stage := Underwriting;
    assert memory.Snapshot() == before.(requestedAmount := amount, stage := Underwriting);
    reply, fraudCase := UnderwriteInto(memory);
  }

  method StageTurnInto(memory: Memory, input: string, history: seq<ChatMessage>, env: Env)
    returns (reply: Reply, fraudCase: Option<FraudCase>)
    modifies memory
    ensures Outcome(memory.Snapshot(), reply, fraudCase, None) == StageTurn(old(memory.Snapshot()), input, history, env)
  {
    fraudCase := None;
    if memory.stage == KycPending {
      reply := CheckKycInto(memory, env.kycTable);
    } else if memory.stage == SalesDiscovery {
      memory.loanPurpose := Some(Strip(input));
      memory.stage := SalesAmount;
      reply := Say(AskAmount);
    } else if memory.stage == SalesAmount {
      reply, fraudCase := TakeAmountInto(memory, input);
    } else {
      reply, fraudCase := PipelineTurnInto(memory, input, history, env);
    }
  }

  /**
   * `master_agent_response(user_input, chat_history, memory)`: the reply, and
   * the fraud case the turn logs, if any.
   */
  method Respond(memory: Memory, input: string, history: seq<ChatMessage>, env: Env)
    returns (reply: Reply, fraudCase: Option<FraudCase>)
    modifies memory
    ensures Outcome(memory.Snapshot(), reply, fraudCase, None) == Transition(old(memory.Snapshot()), input, history, env)
  {
    var before := memory.Snapshot();
    var low := Strip(Lower(input));
    fraudCase := None;
    if IsResetRequest(low) {
      memory.Clear();
      reply := Say(StartFresh);
    } else if IntroducesName(before, low) {
      var name := NameFrom(input);
      memory.name := Some(name);
      memory.stage := AwaitingKyc;
      reply := Say(Welcome(name));
      assert memory.Snapshot() == before.(name := Some(name), stage := AwaitingKyc);
    } else if OffersKyc(before, low) {
      assert Transition(before, input, history, env) == CaptureKyc(before, input);
      reply := CaptureKycInto(memory, input);
    } else {
      assert Transition(before, input, history, env) == StageTurn(before, input, history, env);
      reply, fraudCase := StageTurnInto(memory, input, history, env);
    }
  }

  // ---------------------------------------------------------------------
  // What one turn does
  // ---------------------------------------------------------------------

  /** The rate stored after scoring: the band's percentage as a number, or 0 when no rate was offered. */
  lemma ScoredRate(income: int, employmentType: string, existingEmi: int)
    requires income != 0
    ensures var a := R.AssessRisk(income, employmentType, existingEmi);
            NormalizeRate(a.interestRate) ==
              Some(if a.creditScore >= 720 then 10.5 else if a.creditScore >= 650 then 14.5 else 0.0)
  {
    var a := R.AssessRisk(income, employmentType, existingEmi);
    if a.creditScore >= 720 {
      BandRates("10.5%");
    } else if a.creditScore >= 650 {
      BandRates("14.5%");
    }
  }

  /** The two phrases that ask to restart the application. */
  predicate IsResetKeyword(keyword: string)
  {
    keyword == "reset" || keyword == "start again"
  }

  /** "reset" or "start again" anywhere in the message, in any case, restarts the application from any stage. */
  lemma ResetFromAnyStage(r: Record, before: string, keyword: string, after: string, history: seq<ChatMessage>, env: Env)
    requires IsResetKeyword(keyword)
    ensures Transition(r, before + keyword + after, history, env) == Plain(InitMemory(), Say(StartFresh))
  {
    ResetKeyword(before, keyword, after);
  }

  lemma ResetKeyword(before: string, keyword: string, after: string)
    requires IsResetKeyword(keyword)
    ensures IsResetRequest(Strip(Lower(before + keyword + after)))
  {
    LowerOfUncapitalized(keyword);
    SpaceRanges(keyword[0]);
    SpaceRanges(keyword[|keyword| - 1]);
    KeywordFound(before, keyword, after);
  }

  /** Introducing oneself names the customer and asks for KYC, whatever the stage. */
  lemma NameCapture(r: Record, name: string, history: seq<ChatMessage>, env: Env)
    requires r.name.None?
    requires name != [] && !IsSpace(name[0]) && !IsSpace(name[|name| - 1]) && !Contains(name, "is")
    requires !IsResetRequest(Strip(Lower("my name is " + name)))
    ensures Transition(r, "my name is " + name, history, env)
              == Plain(r.(name := Some(name), stage := AwaitingKyc), Say(Welcome(name)))
  {
    NameKeyword(name);
    NameOfGreeting(name);
  }

  lemma NameKeyword(name: string)
    ensures Contains(Strip(Lower("my name is " + name)), "my name is")
  {
    assert Lower("my name is") == "my name is";
    SpaceRanges('m');
    SpaceRanges('s');
    assert "my name is " + name == "" + "my name is" + ([' '] + name);
    KeywordFound("", "my name is", [' '] + name);
  }

  lemma NameOfGreeting(name: string)
    requires name != [] && !IsSpace(name[0]) && !IsSpace(name[|name| - 1]) && !Contains(name, "is")
    ensures NameFrom("my name is " + name) == name
  {
    GreetingPieces(name);
    NameAfterIs("my name ", name);
  }

  /** A name holding the letter i but not "is" is taken whole. */
  lemma PriyaIsNamed()
    ensures NameFrom("my name is Priya") == "Priya"
  {
    PriyaFits();
    NameOfGreeting("Priya");
  }

  lemma PriyaFits()
    ensures "Priya" != [] && !IsSpace("Priya"[0]) && !IsSpace("Priya"[4]) && !Contains("Priya", "is")
    ensures "my name is " + "Priya" == "my name is Priya"
  {
    AbsentPart("Priya", "is", 1);
    SpaceRanges('P');
    SpaceRanges('a');
  }

  /** "my name is " is "my name ", the only "is", and a space. */
  lemma GreetingPieces(name: string)
    ensures "my name is " + name == "my name " + "is" + [' '] + name
    ensures !Contains("my name ", "is")
  {
    AbsentLead("my name ", "is");
  }

  /**
   * The turns that leave the record alone: internal review, a sanction prompt
   * answered with neither "yes" nor "no", risk already scored, and every stage
   * that falls through to the chat model.
   */
  lemma QuietTurnsKeepRecord(r: Record, input: string, history: seq<ChatMessage>, env: Env)
    requires var low := Strip(Lower(input));
             !IsResetRequest(low) && !IntroducesName(r, low) && !OffersKyc(r, low)
    requires || r.stage in {Start, AwaitingKyc, InternalReview, Completed, Rejected}
             || (r.stage == SanctionPrompt && Strip(Lower(input)) != "yes" && Strip(Lower(input)) != "no")
             || (r.stage == Risk && r.riskCompleted)
    ensures Transition(r, input, history, env).record == r
    ensures Transition(r, input, history, env).fraudCase.None?
  {
    QuietPipeline(r, input, history, env);
    assert Transition(r, input, history, env) == PipelineTurn(r, input, history, env);
  }

  lemma QuietPipeline(r: Record, input: string, history: seq<ChatMessage>, env: Env)
    requires || r.stage in {Start, AwaitingKyc, InternalReview, Completed, Rejected}
             || (r.stage == SanctionPrompt && Strip(Lower(input)) != "yes" && Strip(Lower(input)) != "no")
             || (r.stage == Risk && r.riskCompleted)
    ensures PipelineTurn(r, input, history, env).record == r
    ensures PipelineTurn(r, input, history, env).fraudCase.None?
  {
  }

  /** Two outcomes that differ at most in the chat model's answer. */
  predicate AgreeButChat(o1: Outcome, o2: Outcome)
  {
    && o1.record == o2.record && o1.fraudCase == o2.fraudCase
    && (o1.reply != o2.reply ==> o1.reply.Say? && o1.reply.message.Chat? && o2.reply.Say? && o2.reply.message.Chat?)
  }

  /** The chat history reaches only the chat model's reply; the record and the fraud log ignore it. */
  lemma HistoryOnlyShapesChat(r: Record, input: string, h1: seq<ChatMessage>, h2: seq<ChatMessage>, env: Env)
    ensures AgreeButChat(Transition(r, input, h1, env), Transition(r, input, h2, env))
  {
    var low := Strip(Lower(input));
    if !IsResetRequest(low) && !IntroducesName(r, low) && !OffersKyc(r, low) {
      assert Transition(r, input, h1, env) == StageTurn(r, input, h1, env);
      assert Transition(r, input, h2, env) == StageTurn(r, input, h2, env);
      if r.stage !in {KycPending, SalesDiscovery, SalesAmount} {
        assert StageTurn(r, input, h1, env) == PipelineTurn(r, input, h1, env);
        assert StageTurn(r, input, h2, env) == PipelineTurn(r, input, h2, env);
        PipelineIgnoresHistory(r, input, h1, h2, env);
      }
    }
  }

  lemma PipelineIgnoresHistory(r: Record, input: string, h1: seq<ChatMessage>, h2: seq<ChatMessage>, env: Env)
    ensures AgreeButChat(PipelineTurn(r, input, h1, env), PipelineTurn(r, input, h2, env))
  {
  }

  /**
   * The fraud screen runs only on an application within its limit and above the
   * score floor, so with a non-negative limit the one rule that can fire there
   * is the EMI burden.
   */
  lemma UnderwritingFraudIsEmiBurden(r: Record)
    requires r.preapprovedLimit.Some? && r.preapprovedLimit.value >= 0
    requires Underwrite(r).fraudCase.Some?
    ensures Underwrite(r).fraudCase.value.reason == F.EmiBurden
  {
    var fraud := ScreenFraud(r);
    assert F.FraudReasons(r.creditScore, r.requestedAmount, r.preapprovedLimit, r.currentLoanEmi) == [F.EmiBurden];
    SplitThenJoin(fraud.reason, F.ReasonSeparator);
  }

  // ---------------------------------------------------------------------
  // The session invariant
  // ---------------------------------------------------------------------

  lemma UnderwriteKeepsWellFormed(r: Record)
    requires WellFormed(r) && r.stage == Underwriting
    ensures Underwrite(r).reply.Say? && WellFormed(Underwrite(r).record)
  {
  }

  lemma ScoreRiskKeepsWellFormed(r: Record)
    requires WellFormed(r) && r.stage == Risk
    ensures WellFormed(ScoreRisk(r).record)
  {
    if r.eligibleAmount == Some(0) {
      ScoreRiskOfZero(r);
    } else {
      ScoreRiskSucceeds(r);
    }
  }

  /** On a well-formed session, risk scoring fails only by dividing by a zero eligible amount. */
  lemma ScoreRiskFaultsOnlyOnZero(r: Record)
    requires WellFormed(r) && r.stage == Risk
    ensures ScoreRisk(r).reply.Fault? <==> r.eligibleAmount == Some(0)
    ensures ScoreRisk(r).reply.Fault? ==> ScoreRisk(r).reply == Fault(DivisionByZero)
  {
    if r.eligibleAmount == Some(0) {
      ScoreRiskOfZero(r);
    } else {
      ScoreRiskReplies(r);
    }
  }

  lemma ScoreRiskOfZero(r: Record)
    requires WellFormed(r) && r.stage == Risk && r.eligibleAmount == Some(0)
    ensures ScoreRisk(r) == Plain(r, Fault(DivisionByZero))
  {
  }

  /** With every field present and a non-zero amount, scoring completes and keeps the session well formed. */
  lemma ScoreRiskSucceeds(r: Record)
    requires WellFormed(r) && r.stage == Risk && r.eligibleAmount != Some(0)
    ensures WellFormed(ScoreRisk(r).record)
  {
    ScoreRiskReplies(r);
    var scored := ScoreRisk(r).record;
    DecidedWellFormed(r, scored.riskResult.value, scored.stage);
  }

  /** Storing a risk result and moving to a decided stage keeps a risk-stage session well formed. */
  lemma DecidedWellFormed(r: Record, result: StoredRisk, stage: Stage)
    requires WellFormed(r) && r.stage == Risk && stage in {Rejected, SanctionPrompt}
    requires stage == SanctionPrompt ==> result.decision == "approved"
    ensures WellFormed(r.(riskResult := Some(result), riskCompleted := true, stage := stage))
  {
  }

  lemma ScoreRiskReplies(r: Record)
    requires WellFormed(r) && r.stage == Risk && r.eligibleAmount != Some(0)
    ensures ScoreRisk(r).reply.Say?
  {
    ScoredRate(r.eligibleAmount.value, r.employmentType.value, r.currentLoanEmi.value);
  }

  lemma ConfirmSanctionKeepsWellFormed(r: Record, low: string, uuidHex: string)
    requires WellFormed(r) && r.stage == SanctionPrompt
    ensures ConfirmSanction(r, low, uuidHex).reply.Say? && WellFormed(ConfirmSanction(r, low, uuidHex).record)
  {
  }

  lemma KycKeepsWellFormed(r: Record, input: string, table: seq<V.KycRow>)
    requires WellFormed(r)
    ensures r.stage == AwaitingKyc ==> WellFormed(CaptureKyc(r, input).record)
    ensures r.stage == KycPending ==> CheckKyc(r, table).reply.Say? && WellFormed(CheckKyc(r, table).record)
  {
  }

  /**
   * What a turn from session `r` must achieve: the new session is well formed,
   * and the only exception is the division by a zero eligible amount in risk
   * scoring.
   */
  predicate SafeTurn(r: Record, o: Outcome)
  {
    && WellFormed(o.record)
    && (o.reply.Fault? ==> o.reply == Fault(DivisionByZero) && r.stage == Risk && r.eligibleAmount == Some(0))
  }

  /** Every turn keeps the session well formed and raises nothing but that division by zero. */
  lemma TurnKeepsWellFormed(r: Record, input: string, history: seq<ChatMessage>, env: Env)
    requires WellFormed(r)
    ensures SafeTurn(r, Transition(r, input, history, env))
  {
    var low := Strip(Lower(input));
    if IsResetRequest(low) {
      ResetTurnIsSafe(r, input, history, env);
    } else if IntroducesName(r, low) {
      NameTurnIsSafe(r, input, history, env);
    } else if OffersKyc(r, low) {
      KycTurnIsSafe(r, input, history, env);
    } else {
      StageTurnIsSafe(r, input, history, env);
    }
  }

  lemma ResetTurnIsSafe(r: Record, input: string, history: seq<ChatMessage>, env: Env)
    requires IsResetRequest(Strip(Lower(input)))
    ensures SafeTurn(r, Transition(r, input, history, env))
  {
    InitWellFormed();
  }

  lemma NameTurnIsSafe(r: Record, input: string, history: seq<ChatMessage>, env: Env)
    requires WellFormed(r)
    requires !IsResetRequest(Strip(Lower(input))) && IntroducesName(r, Strip(Lower(input)))
    ensures SafeTurn(r, Transition(r, input, history, env))
  {
    var name := NameFrom(input);
    assert Transition(r, input, history, env) == Plain(r.(name := Some(name), stage := AwaitingKyc), Say(Welcome(name)));
    NamedWellFormed(r, name);
  }

  /** Naming the customer of a fresh session and asking for KYC keeps it well formed. */
  lemma NamedWellFormed(r: Record, name: string)
    requires WellFormed(r) && r.name.None?
    ensures WellFormed(r.(name := Some(name), stage := AwaitingKyc))
  {
  }

  lemma KycTurnIsSafe(r: Record, input: string, history: seq<ChatMessage>, env: Env)
    requires WellFormed(r)
    requires var low := Strip(Lower(input));
             !IsResetRequest(low) && !IntroducesName(r, low) && OffersKyc(r, low)
    ensures SafeTurn(r, Transition(r, input, history, env))
  {
    assert Transition(r, input, history, env) == CaptureKyc(r, input);
    KycKeepsWellFormed(r, input, env.kycTable);
  }

  lemma StageTurnIsSafe(r: Record, input: string, history: seq<ChatMessage>, env: Env)
    requires WellFormed(r)
    requires var low := Strip(Lower(input));
             !IsResetRequest(low) && !IntroducesName(r, low) && !OffersKyc(r, low)
    ensures SafeTurn(r, Transition(r, input, history, env))
  {
    assert Transition(r, input, history, env) == StageTurn(r, input, history, env);
    var o := StageTurn(r, input, history, env);
    if r.stage == KycPending {
      assert o == CheckKyc(r, env.kycTable);
      KycKeepsWellFormed(r, input, env.kycTable);
    } else if r.stage == SalesAmount {
      assert o == TakeAmount(r, input);
      if ParseAmount(input).Some? {
        UnderwriteKeepsWellFormed(r.(requestedAmount := ParseAmount(input), stage := Underwriting));
      }
    } else if r.stage != SalesDiscovery {
      assert o == PipelineTurn(r, input, history, env);
      PipelineTurnIsSafe(r, input, history, env);
    }
  }

  lemma PipelineTurnIsSafe(r: Record, input: string, history: seq<ChatMessage>, env: Env)
    requires WellFormed(r)
    ensures SafeTurn(r, PipelineTurn(r, input, history, env))
  {
    var o := PipelineTurn(r, input, history, env);
    if r.stage == Underwriting {
      assert o == Underwrite(r);
      UnderwriteKeepsWellFormed(r);
    } else if r.stage == Risk {
      assert o == ScoreRisk(r);
      ScoreRiskKeepsWellFormed(r);
      ScoreRiskFaultsOnlyOnZero(r);
    } else if r.stage == SanctionPrompt {
      assert o == ConfirmSanction(r, Strip(Lower(input)), env.uuidHex);
      ConfirmSanctionKeepsWellFormed(r, Strip(Lower(input)), env.uuidHex);
    }
  }


  /** The turn answered with a sanction letter. */
  predicate Sanctions(o: Outcome)
  {
    o.reply.Say? && o.reply.message.Sanctioned?
  }

  /**
   * A sanction letter is produced only from the sanction prompt answered
   * "yes", after an approved risk decision, for the eligible amount at the
   * stored rate; the application is then complete and records the letter.
   */
  lemma SanctionFollowsApproval(r: Record, input: string, history: seq<ChatMessage>, env: Env)
    requires WellFormed(r)
    ensures var o := Transition(r, input, history, env);
            Sanctions(o) ==>
              && r.stage == SanctionPrompt && Strip(Lower(input)) == "yes"
              && r.riskResult.value.decision == "approved"
              && o.reply.message.loanAmount == r.eligibleAmount.value
              && o.reply.message.interestRate == r.riskResult.value.interestRate
              && o.record.stage == Completed && o.record.sanctionFile.Some?
  {
    var low := Strip(Lower(input));
    var o := Transition(r, input, history, env);
    if IsResetRequest(low) {
      assert o == Plain(InitMemory(), Say(StartFresh));
    } else if IntroducesName(r, low) {
    } else if OffersKyc(r, low) {
      assert o == CaptureKyc(r, input);
    } else {
      assert o == StageTurn(r, input, history, env);
      StageTurnSanction(r, input, history, env);
      if Sanctions(o) {
        assert o == PipelineTurn(r, input, history, env);
        assert o == ConfirmSanction(r, low, env.uuidHex);
      }
    }
  }

  lemma StageTurnSanction(r: Record, input: string, history: seq<ChatMessage>, env: Env)
    ensures Sanctions(StageTurn(r, input, history, env)) ==> r.stage == SanctionPrompt && Strip(Lower(input)) == "yes"
  {
    if r.stage == KycPending {
      assert StageTurn(r, input, history, env) == CheckKyc(r, env.kycTable);
    } else if r.stage == SalesAmount {
      assert StageTurn(r, input, history, env) == TakeAmount(r, input);
      TakeAmountNeverSanctions(r, input);
    } else if r.stage != SalesDiscovery {
      PipelineTurnSanction(r, input, history, env);
    }
  }

  lemma TakeAmountNeverSanctions(r: Record, input: string)
    ensures !Sanctions(TakeAmount(r, input))
  {
    match ParseAmount(input)
    case None =>
    case Some(amount) =>
      assert TakeAmount(r, input) == Underwrite(r.(requestedAmount := Some(amount), stage := Underwriting));
  }

  lemma PipelineTurnSanction(r: Record, input: string, history: seq<ChatMessage>, env: Env)
    ensures Sanctions(PipelineTurn(r, input, history, env)) ==> r.stage == SanctionPrompt && Strip(Lower(input)) == "yes"
  {
    if r.stage == Underwriting {
      assert PipelineTurn(r, input, history, env) == Underwrite(r);
    } else if r.stage == Risk {
      assert PipelineTurn(r, input, history, env) == ScoreRisk(r);
    } else if r.stage == SanctionPrompt {
      assert PipelineTurn(r, input, history, env) == ConfirmSanction(r, Strip(Lower(input)), env.uuidHex);
    }
  }

  // ---------------------------------------------------------------------
  // Conversations: a sequence of turns
  // ---------------------------------------------------------------------

  /** One user message, with the history shown to the chat model alongside it. */
  datatype Turn = Turn(input: string, history: seq<ChatMessage>)

  /** The session record after the turns, one after the other. */
  function Run(r: Record, turns: seq<Turn>, env: Env): Record
    decreases |turns|
  {
    if turns == [] then r
    else Run(Transition(r, turns[0].input, turns[0].history, env).record, turns[1..], env)
  }

  predicate NoReset(turns: seq<Turn>)
  {
    forall i :: 0 <= i < |turns| ==> !IsResetRequest(Strip(Lower(turns[i].input)))
  }

  /** Every conversation from a well-formed session (such as `init_memory()`) stays well formed. */
  lemma {:induction false} RunKeepsWellFormed(r: Record, turns: seq<Turn>, env: Env)
    requires WellFormed(r)
    ensures WellFormed(Run(r, turns, env))
    decreases |turns|
  {
    if turns != [] {
      TurnKeepsWellFormed(r, turns[0].input, turns[0].history, env);
      RunKeepsWellFormed(Transition(r, turns[0].input, turns[0].history, env).record, turns[1..], env);
    }
  }

  /** Completed, rejected and internally reviewed applications stay as they are until a reset. */
  lemma {:induction false} FinishedStaysFinished(r: Record, turns: seq<Turn>, env: Env)
    requires r.stage in {Completed, Rejected, InternalReview} && r.name.Some?
    requires NoReset(turns)
    ensures Run(r, turns, env) == r
    decreases |turns|
  {
    if turns != [] {
      QuietTurnsKeepRecord(r, turns[0].input, turns[0].history, env);
      assert NoReset(turns[1..]) by {
        forall i | 0 <= i < |turns[1..]|
          ensures !IsResetRequest(Strip(Lower(turns[1..][i].input)))
        {
          assert turns[1..][i] == turns[i + 1];
        }
      }
      FinishedStaysFinished(r, turns[1..], env);
    }
  }

  /** Once scored, the risk result stays in place for the rest of a well-formed session, up to a reset. */
  lemma ScoredRiskKept(r: Record, input: string, history: seq<ChatMessage>, env: Env)
    requires WellFormed(r) && r.riskCompleted && !IsResetRequest(Strip(Lower(input)))
    ensures Transition(r, input, history, env).record.riskCompleted
    ensures Transition(r, input, history, env).record.riskResult == r.riskResult
  {
    var low := Strip(Lower(input));
    assert r.stage in {SanctionPrompt, Completed, Rejected};
    assert !IntroducesName(r, low) && !OffersKyc(r, low);
    assert Transition(r, input, history, env) == StageTurn(r, input, history, env);
    assert StageTurn(r, input, history, env) == PipelineTurn(r, input, history, env);
    PipelineKeepsScore(r, input, history, env);
  }

  lemma PipelineKeepsScore(r: Record, input: string, history: seq<ChatMessage>, env: Env)
    requires r.stage in {SanctionPrompt, Completed, Rejected}
    ensures PipelineTurn(r, input, history, env).record.riskCompleted == r.riskCompleted
    ensures PipelineTurn(r, input, history, env).record.riskResult == r.riskResult
  {
    if r.stage == SanctionPrompt {
      assert PipelineTurn(r, input, history, env) == ConfirmSanction(r, Strip(Lower(input)), env.uuidHex);
    }
  }

  /** Risk is scored at most once per application: no later turn short of a reset replaces the result. */
  lemma {:induction false} RiskScoredAtMostOnce(r: Record, turns: seq<Turn>, env: Env)
    requires WellFormed(r) && r.riskCompleted
    requires NoReset(turns)
    ensures Run(r, turns, env).riskCompleted && Run(r, turns, env).riskResult == r.riskResult
    decreases |turns|
  {
    if turns != [] {
      var next := Transition(r, turns[0].input, turns[0].history, env).record;
      ScoredRiskKept(r, turns[0].input, turns[0].history, env);
      TurnKeepsWellFormed(r, turns[0].input, turns[0].history, env);
      assert NoReset(turns[1..]) by {
        forall i | 0 <= i < |turns[1..]|
          ensures !IsResetRequest(Strip(Lower(turns[1..][i].input)))
        {
          assert turns[1..][i] == turns[i + 1];
        }
      }
      RiskScoredAtMostOnce(next, turns[1..], env);
    }
  }

  /**
   * Nothing stops an amount of zero or below (`int` accepts "-500000"): with a
   * score above the floor and no excessive EMI burden it passes underwriting
   * and the fraud screen, and becomes the eligible amount.
   */
  lemma NonPositiveAmountPassesUnderwriting(r: Record, input: string, amount: int, history: seq<ChatMessage>, env: Env)
    requires WellFormed(r) && r.stage == SalesAmount
    requires ParseAmount(input) == Some(amount) && amount <= 0 && !IsResetRequest(Strip(Lower(input)))
    requires r.creditScore.value >= 700 && r.preapprovedLimit.value >= 0
    requires !F.EmiBurdenFires(r.currentLoanEmi, r.preapprovedLimit)
    ensures Transition(r, input, history, env).record.stage == Risk
    ensures Transition(r, input, history, env).record.eligibleAmount == Some(amount)
  {
    var asked := r.(requestedAmount := Some(amount), stage := Underwriting);
    AmountTurn(r, input, history, env);
    assert TakeAmount(r, input) == Underwrite(asked);
    UnderwriteNonPositive(asked);
  }

  /** In the sales-amount stage every message but a reset is read as the amount. */
  lemma AmountTurn(r: Record, input: string, history: seq<ChatMessage>, env: Env)
    requires WellFormed(r) && r.stage == SalesAmount && !IsResetRequest(Strip(Lower(input)))
    ensures Transition(r, input, history, env) == TakeAmount(r, input)
  {
    assert Transition(r, input, history, env) == StageTurn(r, input, history, env);
  }

  /** An amount that does not parse is asked for again, and the session is left exactly as it was. */
  lemma UnparsableAmountReprompts(r: Record, input: string, history: seq<ChatMessage>, env: Env)
    requires WellFormed(r) && r.stage == SalesAmount && !IsResetRequest(Strip(Lower(input)))
    requires ParseAmount(input).None?
    ensures Transition(r, input, history, env) == Plain(r, Say(InvalidAmount))
  {
    AmountTurn(r, input, history, env);
  }

  lemma UnderwriteNonPositive(r: Record)
    requires r.creditScore.Some? && r.creditScore.value >= 700
    requires r.preapprovedLimit.Some? && r.preapprovedLimit.value >= 0
    requires r.requestedAmount.Some? && r.requestedAmount.value <= 0
    requires !F.EmiBurdenFires(r.currentLoanEmi, r.preapprovedLimit)
    ensures Underwrite(r).record.stage == Risk && Underwrite(r).record.eligibleAmount == r.requestedAmount
  {
    assert !ScreenFraud(r).isFraud;
  }

  /** In the risk stage a zero eligible amount raises the division by zero on any message but a reset. */
  lemma ZeroEligibleDividesByZero(r: Record, input: string, history: seq<ChatMessage>, env: Env)
    requires WellFormed(r) && r.stage == Risk && r.eligibleAmount == Some(0)
    requires !IsResetRequest(Strip(Lower(input)))
    ensures Transition(r, input, history, env) == Plain(r, Fault(DivisionByZero))
  {
    ScoreRiskOfZero(r);
  }
}
