# Loan-application chatbot, modelled in Dafny

This project models the decision core of a personal-loan chatbot. A customer
chats with the bot. Each message goes to `master_agent_response`, which reads
and rewrites a per-session dictionary (`memory`) and returns a reply. The
session moves through a closed set of stages:

- `start`, then `awaiting_kyc`: the name is captured.
- `kyc_pending`: the PAN and phone are captured, then looked up in the KYC table.
- `sales_discovery`: the loan purpose is captured.
- `sales_amount`: the requested amount is captured.
- `underwriting`.
- `salary_slip_required`: multilingual variant only.
- `risk`: rule-based risk scoring.
- `sanction_prompt`: "yes" / "no" for the sanction letter.
- `completed`, `rejected` or `internal_review`.

Two versions of the conversation are modelled:

- **`MasterAgent`** (agents/master_agent.py). Underwriting runs a rule-based fraud screen. A flagged application goes to internal review, and its fraud case is returned for logging.
- **`DummyAgent`** (agents/masteragentdummy.py). Multilingual:
  - The first detected language is latched in the session.
  - Every message is translated into English before the guards run.
  - Every reply is translated back.
  - Underwriting has a salary-slip band between the limit and twice the limit, and no fraud screen.
  - A completed application gets a closing message.

  Its risk step reads `result["interest_rate"]` without a default. A High-risk result has no such key, so that turn raises before anything is stored. The model keeps this behaviour as written: `DummyAgent.ScoreRiskOutcome` states it, and `DummyAgent.ScoringNeverRejects` shows that the variant's rejected-after-risk branch can never be reached.

Each version has three layers:

1. **Pure functions of the session record** (`Transition`, `Route`, `StageTurn`, `PipelineTurn` and the handlers). Together they are the table of what one turn does.
2. **Methods that update a `SessionMemory.Memory` object in place**, branch by branch as the source does. Each one is proved to leave the object holding exactly the record that the function computes. `Respond` is `master_agent_response` itself.
3. **Lemmas about the functions.** They cover:
   - reset from any stage;
   - what each stage writes and what it leaves alone;
   - the session invariant `WellFormed`, kept by every turn and every conversation;
   - risk scored at most once;
   - sanction only after an approved decision;
   - terminal stages;
   - the language latch across a whole conversation.

The collaborators are modelled as pure functions:

- `verify_kyc` over the KYC table as a sequence of rows;
- `assess_risk`;
- `assess_fraud`;
- `check_eligibility`;
- the figures of `generate_sanction`;
- `init_memory` / `reset_memory`;
- script-based language detection.

The Python built-ins the core depends on are modelled on strings in `Text` and `Numbers`: `lower`, `upper`, `strip`, `in`, `split`, `join`, `replace`, `int`, `float` and `str`.

Conventions:

- **Exceptions.** A Python exception (KeyError or TypeError on a missing field, ZeroDivisionError, ValueError) is a `Fault` reply. The writes made before the raise are kept, as in the source.
- **Outside services.** The chat model, the translator, the KYC table and the random part of the loan id are fields of an `Env` value passed to every turn.

## Model

| member | source | states |
|---|---|---|
| SessionMemory.InitMemory | memory.py:1-27 | the initial record is at stage start, with every customer, KYC, bureau, sales and underwriting field empty, risk_completed false, and neither sanction_file nor lang present |
| SessionMemory.ResetMemory | memory.py:30-31 | a reset record has the same properties as the initial one |
| SessionMemory.InitWellFormed | memory.py:1-27 | the initial record satisfies the session invariant |
| SessionMemory.Memory.constructor | app.py:22-23 | a new session object holds exactly the given record |
| SessionMemory.Memory.Clear | agents/master_agent.py:17-22 | after `clear()` and the update, the dictionary reads back as the initial record |
| Text.Lower | agents/master_agent.py:11 | same length, no capital letter left, each character mapped by ASCII lower-casing |
| Text.Upper | agents/verification_agent.py:24 | same length, no small letter left, each character mapped by ASCII upper-casing |
| Text.UpperOfLower | agents/verification_agent.py:24-29 | upper-casing after lower-casing equals upper-casing, so the PAN comparison ignores case |
| Text.LowerKeepsSpace | agents/master_agent.py:11 | lower-casing a character neither creates nor removes whitespace, so `lower` and `strip` commute |
| Text.SpaceRanges | agents/master_agent.py:11 | the characters `strip` removes are exactly the listed whitespace ranges |
| Text.LStrip | agents/master_agent.py:11 | the result is a suffix, everything dropped is whitespace, and it does not start with whitespace |
| Text.RStrip | agents/master_agent.py:11 | the result is a prefix, everything dropped is whitespace, and it does not end with whitespace |
| Text.Strip | agents/master_agent.py:11 | the result is no longer than the input and neither end is whitespace |
| Text.StripSlice | agents/master_agent.py:11 | the result is the contiguous slice of the input left after dropping a whitespace-only prefix and a whitespace-only suffix, so it is exactly what `strip` returns |
| Text.StripUnspaced | agents/master_agent.py:11 | text without surrounding whitespace is left unchanged |
| Text.StripPadded | agents/verification_agent.py:24 | one space of padding on each side is removed |
| Text.ContainsWitness | agents/master_agent.py:16 | `sub in s` gives a position where `sub` occurs |
| Text.Find | agents/master_agent.py:29 | the first occurrence: it is one, none comes earlier, and there is none exactly when `sub` is absent |
| Text.FindFirst | agents/master_agent.py:29 | an occurrence with none before it is the one found |
| Text.KeywordFound | agents/master_agent.py:11-16 | a keyword written anywhere in the message, in any case, is found in the lowered and stripped message |
| Text.Split | agents/master_agent.py:43 | a split has at least one piece |
| Text.SplitFound | agents/master_agent.py:43 | when the separator first occurs at i, the pieces are the text before i followed by the split of the rest after the separator |
| Text.SplitNone | agents/master_agent.py:43 | text without the separator splits into itself alone |
| Text.SplitThenJoin | agents/fraud_agent.py:38 | joining the pieces of a split with the same separator gives back the text |
| Text.JoinThenSplit | agents/fraud_agent.py:38 | splitting a join gives back the parts, when no part holds the separator's first character |
| Text.Join | agents/fraud_agent.py:38 | joining no parts gives the empty text and joining a single part gives that part |
| Text.JoinCons | agents/fraud_agent.py:38 | joining two or more parts is the first part, the separator, then the join of the rest |
| Text.Remove | agents/master_agent.py:95 | the result is no longer than the input, has no occurrence of the character, and is the input when the character is absent |
| Text.RemoveCounts | agents/master_agent.py:95 | the result holds every other character exactly as many times as the input, and none of the removed one |
| Text.RemoveConcat | agents/master_agent.py:95 | removing from a concatenation is concatenating the removals, so the removal keeps the order of what remains |
| Text.RemoveJoin | agents/master_agent.py:95 | removing the separator from parts joined by it, none of which holds it, gives the parts joined with nothing between them |
| Text.RemoveTrailing | agents/master_agent.py:149 | removing "%" from a rate with a trailing "%" gives the number before it |
| Numbers.ShowNat | agents/sanction_agent.py:152 | `str` of a natural number is a non-empty run of digits |
| Numbers.ShowNatValue | agents/sanction_agent.py:152 | the digits `str` prints have the number's value |
| Numbers.ParseShow | agents/master_agent.py:95 | `int(str(n)) == n` for every integer |
| Numbers.ParseDigits | agents/master_agent.py:95 | plain digits parse to their value |
| Numbers.ParseNegatedDigits | agents/master_agent.py:95 | a minus sign and digits parse to the negated value |
| Numbers.DigitsAreARun | agents/master_agent.py:95 | plain digits are a valid digit run with the same value |
| Numbers.ParseDecimal | agents/master_agent.py:150 | `float("w.f")` is w plus f scaled by its number of digits |
| Numbers.DigitNotSpace | agents/master_agent.py:95 | a digit is never whitespace, so `strip` leaves digits at either end |
| Numbers.Trunc | agents/eligibility_agent.py:29-30 | `int(x)` truncates toward zero: within one of x, on the side of zero |
| LanguageSupport.DetectedLanguage | utils/language_support.py:7-21 | one of hi, gu, ta, te, en; "en" exactly when no character is in a listed script; otherwise the language of the first such character |
| LanguageSupport.DetectLanguage | utils/language_support.py:7-21 | the character loop with early return computes `DetectedLanguage` |
| LanguageSupport.GujaratiDetectedButUnsupported | utils/language_support.py:5-21 | Gujarati is detected although "gu" is not a supported language |
| LanguageSupport.NeverDetectsMarathiOrBengali | utils/language_support.py:5-21 | the supported "mr" and "bn" are never detected |
| LanguageSupport.ToEnglish | utils/language_support.py:24-34 | English passes through unchanged; a failed translation returns the input; otherwise it is the translator's answer |
| LanguageSupport.FromEnglish | utils/language_support.py:37-47 | a reply for an English session passes through unchanged; a failed translation returns the reply as it is; otherwise it is the translator's answer in the target language |
| EligibilityAgent.CheckEligibility | agents/eligibility_agent.py:1-31 | rejected with the EMI-burden reason exactly when 40% of income less existing EMIs is not positive; otherwise 15 times income for salaried and 10 times for others, and the truncated headroom, which is not negative |
| EligibilityAgent.HeavierEmiNeverHelps | agents/eligibility_agent.py:10-31 | if an application is approved with a larger existing EMI, it is approved with a smaller one too, for the same amount and with at least as much monthly headroom |
| EligibilityAgent.SalariedExample | agents/eligibility_agent.py:10-31 | income 100000, salaried, EMI 10000 gives 1500000 and 30000 |
| EligibilityAgent.OverburdenedExample | agents/eligibility_agent.py:13-17 | EMIs above 40% of income are rejected |
| FraudAgent.FraudReasons | agents/fraud_agent.py:20-32 | each reason is present exactly when its rule fires (with the 0 / 1 defaults); one entry per fired rule, in rule order; no reason is empty or holds ';' |
| FraudAgent.AssessFraud | agents/fraud_agent.py:10-39 | fraud exactly when some rule fires; the reason is empty exactly when not fraud; splitting the reason on "; " gives the fired rules back in order |
| FraudAgent.EveryRuleFires | agents/fraud_agent.py:20-39 | a customer tripping all three rules gets all three reasons in order |
| FraudAgent.NoRuleFires | agents/fraud_agent.py:20-39 | a customer tripping no rule is not flagged and gets an empty reason |
| RiskAgent.AssessRisk | agents/risk_agent.py:1-46 | score = 750 less 150 or 80 for the EMI ratio, less 50 for "self employed"; one of six values; Low, Medium and High bands with their decision and rate; approved exactly when the score is at least 650; a rate exactly when approved, a reason exactly when not; the income must be non-zero |
| RiskAgent.HeavierEmiNeverScoresHigher | agents/risk_agent.py:8-17 | for a positive income, a larger EMI never gives a higher score |
| RiskAgent.SelfEmploymentPenalty | agents/risk_agent.py:20-21 | only "self employed", in any case, costs exactly 50 points |
| RiskAgent.MediumBandExample | agents/risk_agent.py:32-38 | a 40% EMI burden for a salaried borrower is Medium at 14.5% |
| VerificationAgent.Matching | agents/verification_agent.py:28-31 | the filtered rows are exactly the table rows that match on the upper-cased PAN and the phone |
| VerificationAgent.FirstMatching | agents/verification_agent.py:39 | `iloc[0]` is the first table row that matches |
| VerificationAgent.VerifyKyc | agents/verification_agent.py:7-50 | failed with the not-found reason exactly when no row matches the stripped, upper-cased PAN and the stripped phone; otherwise the profile of the first matching row |
| VerificationAgent.NameIsIgnored | agents/verification_agent.py:7-31 | the name argument does not affect the result |
| VerificationAgent.PanCaseAndPaddingIgnored | agents/verification_agent.py:24-29 | a lower-case PAN padded with spaces finds the same customer |
| VerificationAgent.PaddedPanKey | agents/verification_agent.py:24 | a padded lower-case PAN and the PAN itself normalise to the same key |
| VerificationAgent.SameKeysSameResult | agents/verification_agent.py:24-31 | the lookup sees the PAN only through its normalised key |
| VerificationAgent.UnknownCustomerFails | agents/verification_agent.py:33-37 | an empty table verifies nobody |
| SanctionAgent.LoanId | agents/sanction_agent.py:19 | "TCPL-" followed by the first eight hex digits, upper-cased |
| SanctionAgent.MonthlyEmi | agents/sanction_agent.py:21 | the EMI is the principal plus one year's interest, divided over 36 months and truncated toward zero: for a non-negative total the largest whole EMI whose 36 payments do not exceed it, for a negative total the smallest whole EMI whose 36 payments are not below it |
| SanctionAgent.GenerateSanction | agents/sanction_agent.py:13-26 | the given amount and rate, loan id, "36 months", that EMI, and the file path "sanction_letters/Loan_Sanction_<id>.pdf" |
| SanctionAgent.TenureText | agents/sanction_agent.py:152 | the tenure text is "36 months" |
| SanctionAgent.LowBandEmiExample | agents/sanction_agent.py:21 | 500000 at 10.5% gives an EMI of 15347 |
| SanctionAgent.NegativeEmiExample | agents/sanction_agent.py:21 | a negative amount, -500000 at 10.5%, gives -15347, truncated toward zero rather than floored |
| SanctionAgent.EmiMonotoneInRate | agents/sanction_agent.py:21 | a higher rate never gives a lower EMI on a non-negative amount |
| Conversation.NameAfterIs | agents/master_agent.py:29 | when neither the greeting nor the name contains "is", the stripped text after "is" becomes the name |
| Conversation.NameAtIs | agents/master_agent.py:29 | the split on "is" leaves the text after it, the leading space included, as the piece that is stripped into the name |
| Conversation.NameContainingIs | agents/master_agent.py:29 | "my name is Chris" yields an empty name, because the split is on "is" anywhere |
| Conversation.SplitTwo | agents/master_agent.py:43-45 | two pieces joined by a separator split back apart, when the separator occurs neither in the second piece nor anywhere before the joint |
| Conversation.SplitOnChar | agents/master_agent.py:43-45 | two pieces joined by a one-character separator that neither holds split back apart |
| Conversation.StripAfterSpace | agents/master_agent.py:44-45 | the space after ':' is dropped by `strip` |
| Conversation.KycFormatRoundTrip | agents/master_agent.py:43-45 | a message in the advertised "PAN: …, Phone: …" format yields exactly that PAN and phone |
| Conversation.CaptureKyc | agents/master_agent.py:41-49 | acknowledges exactly when both fields parse, storing PAN and phone and moving to kyc_pending; otherwise the format prompt, changing at most the PAN (written before the phone fails) |
| Conversation.CaptureKycInto | agents/master_agent.py:41-49 | the in-place capture leaves the session as `CaptureKyc` says |
| Conversation.RecordKycFieldsInto | agents/master_agent.py:44-47 | the in-place writes of the parsed fields, PAN first |
| Conversation.CheckKyc | agents/master_agent.py:54-69 | faults exactly when PAN or phone is missing; a failed lookup returns to awaiting_kyc and writes no profile field; a verified one copies city, score, limit, employment and EMI of the first table row matching the normalised PAN and phone, and moves to sales_discovery |
| Conversation.CheckKycInto | agents/master_agent.py:54-76 | the in-place KYC check leaves the session as `CheckKyc` says |
| Conversation.RecordKycResultInto | agents/master_agent.py:58-69 | the in-place writes of a lookup result |
| Conversation.GroupedAmount | agents/master_agent.py:95 | digits written in comma-separated groups are read as the number those digits spell |
| Conversation.ThreeLakh | agents/master_agent.py:95 | "3,00,000" is read as 300000 |
| Conversation.AmountRoundTrip | agents/master_agent.py:95 | every amount written as `str` prints it is read back exactly |
| Conversation.BandRates | agents/master_agent.py:146-150 | "10.5%" and "14.5%" read as 10.5 and 14.5 |
| Conversation.HalfRate | agents/master_agent.py:146-150 | "w.5%" reads as w + 0.5 |
| Conversation.PercentRate | agents/master_agent.py:146-150 | a decimal rate with a percent sign reads as the number before it |
| MasterAgent.Underwrite | agents/master_agent.py:103-130 | below 700 rejected; within the limit the eligible amount is the request, then internal review with the fraud case and the review reply exactly when the screen flags, else risk with risk_completed false and the proceed reply; above the limit rejected with the over-limit reply; a fault exactly when the score is missing, or the score passes and the request or limit is missing, and a fault changes nothing |
| MasterAgent.ScoreRisk | agents/master_agent.py:135-164 | holds when already scored; otherwise stores the band, score, decision, reason and numeric rate of `assess_risk`, sets risk_completed and changes nothing else; approved moves to sanction_prompt and offers that rate, anything else moves to rejected and sends the reason; a zero eligible amount raises the division by zero |
| MasterAgent.ConfirmSanction | agents/master_agent.py:169-199 | "yes" completes and records the letter for the eligible amount at the stored rate; "no" completes; anything else changes nothing |
| MasterAgent.UnderwriteInto | agents/master_agent.py:103-130 | the in-place underwriting, fraud case included, agrees with `Underwrite` |
| MasterAgent.ScoreRiskInto | agents/master_agent.py:135-164 | the in-place risk step agrees with `ScoreRisk` |
| MasterAgent.ConfirmSanctionInto | agents/master_agent.py:169-199 | the in-place sanction step agrees with `ConfirmSanction` |
| MasterAgent.PipelineTurnInto | agents/master_agent.py:103-215 | the stages from underwriting on agree with `PipelineTurn` |
| MasterAgent.TakeAmountInto | agents/master_agent.py:93-98 | the amount step agrees with `TakeAmount` |
| MasterAgent.UnderwriteAmountInto | agents/master_agent.py:93-103 | a parsed amount is stored and falls through into underwriting |
| MasterAgent.StageTurnInto | agents/master_agent.py:54-215 | the stage branches agree with `StageTurn` |
| MasterAgent.Respond | agents/master_agent.py:9-215 | the session after `master_agent_response`, its reply and its fraud case are those of `Transition` |
| MasterAgent.ScoredRate | agents/master_agent.py:140-150 | the stored rate is 10.5 for a score of at least 720, 14.5 for at least 650, and 0 otherwise |
| MasterAgent.ResetFromAnyStage | agents/master_agent.py:16-23 | "reset" or "start again" anywhere in the message, in any case, restores the initial record from any stage and acknowledges |
| MasterAgent.ResetKeyword | agents/master_agent.py:16 | a message holding either phrase, in any case, is a reset request |
| MasterAgent.NameCapture | agents/master_agent.py:28-30 | "my name is <name>", for a name without "is", names an unnamed customer and asks for KYC, whatever the stage |
| MasterAgent.NameKeyword | agents/master_agent.py:28 | the greeting passes the name guard |
| MasterAgent.NameOfGreeting | agents/master_agent.py:29 | the greeting yields the name, for any name without "is" |
| MasterAgent.PriyaIsNamed | agents/master_agent.py:29 | "my name is Priya" yields "Priya": a name holding the letter i but not "is" is taken whole |
| MasterAgent.QuietTurnsKeepRecord | agents/master_agent.py:135-215 | internal review, a sanction answer other than yes or no, risk already scored and the chat-model fallback leave the record unchanged and log nothing |
| MasterAgent.HistoryOnlyShapesChat | agents/master_agent.py:210-215 | the chat history affects only the chat model's reply, never the record or the fraud log |
| MasterAgent.PipelineIgnoresHistory | agents/master_agent.py:210-215 | the same, for the pipeline stages |
| MasterAgent.UnderwritingFraudIsEmiBurden | agents/master_agent.py:113-120 | with a non-negative limit, the only rule that can flag an application during underwriting is the EMI burden |
| MasterAgent.UnderwriteKeepsWellFormed | agents/master_agent.py:103-130 | underwriting a well-formed session replies and keeps it well formed |
| MasterAgent.ScoreRiskKeepsWellFormed | agents/master_agent.py:135-164 | risk scoring keeps the session well formed |
| MasterAgent.ScoreRiskFaultsOnlyOnZero | agents/master_agent.py:140-144 | on a well-formed session, scoring faults exactly when the eligible amount is zero, and then with the division by zero |
| MasterAgent.ScoreRiskOfZero | agents/master_agent.py:140-144 | a zero eligible amount raises and changes nothing |
| MasterAgent.ScoreRiskSucceeds | agents/master_agent.py:140-164 | with a non-zero amount, scoring keeps the session well formed |
| MasterAgent.ScoreRiskReplies | agents/master_agent.py:140-164 | with a non-zero amount, scoring replies |
| MasterAgent.DecidedWellFormed | agents/master_agent.py:152-159 | storing a result and moving to a decided stage keeps the invariant |
| MasterAgent.ConfirmSanctionKeepsWellFormed | agents/master_agent.py:169-199 | the sanction prompt replies and keeps the session well formed |
| MasterAgent.KycKeepsWellFormed | agents/master_agent.py:41-69 | KYC capture and the KYC lookup keep the session well formed, and the lookup always replies |
| MasterAgent.NamedWellFormed | agents/master_agent.py:28-30 | naming a fresh customer keeps the invariant |
| MasterAgent.TurnKeepsWellFormed | agents/master_agent.py:9-215 | every turn keeps the session well formed, and the only exception it can raise is the division by a zero eligible amount in risk scoring |
| MasterAgent.ResetTurnIsSafe | agents/master_agent.py:16-23 | the reset turn is safe |
| MasterAgent.NameTurnIsSafe | agents/master_agent.py:28-36 | the name turn is safe |
| MasterAgent.KycTurnIsSafe | agents/master_agent.py:41-49 | the KYC-capture turn is safe |
| MasterAgent.StageTurnIsSafe | agents/master_agent.py:54-215 | every stage branch is safe |
| MasterAgent.PipelineTurnIsSafe | agents/master_agent.py:103-215 | every pipeline branch is safe |
| MasterAgent.SanctionFollowsApproval | agents/master_agent.py:169-193 | a sanction letter comes only from the sanction prompt answered "yes" after an approved decision, for the eligible amount at the stored rate, and completes the application with the letter recorded |
| MasterAgent.StageTurnSanction | agents/master_agent.py:54-199 | only the sanction prompt answered "yes" sanctions |
| MasterAgent.TakeAmountNeverSanctions | agents/master_agent.py:93-130 | the amount step never sanctions |
| MasterAgent.PipelineTurnSanction | agents/master_agent.py:103-199 | within the pipeline, only the sanction prompt answered "yes" sanctions |
| MasterAgent.RunKeepsWellFormed | agents/master_agent.py:9-215 | every conversation from a well-formed session stays well formed |
| MasterAgent.FinishedStaysFinished | agents/master_agent.py:201-215 | a named customer's completed, rejected or internally reviewed application stays exactly as it is for a whole conversation without a reset |
| MasterAgent.ScoredRiskKept | agents/master_agent.py:135-138 | once scored, the next turn short of a reset keeps the risk result |
| MasterAgent.PipelineKeepsScore | agents/master_agent.py:169-215 | the stages after scoring keep the risk result |
| MasterAgent.RiskScoredAtMostOnce | agents/master_agent.py:135-153 | no later turn short of a reset replaces the risk result |
| MasterAgent.NonPositiveAmountPassesUnderwriting | agents/master_agent.py:93-127 | an amount of 0 or below passes underwriting and the fraud screen, reaching risk with that amount as the eligible amount |
| MasterAgent.AmountTurn | agents/master_agent.py:93-98 | in sales_amount every message but a reset is read as the amount |
| MasterAgent.UnparsableAmountReprompts | agents/master_agent.py:93-98 | an amount that does not parse is asked for again and the session is unchanged |
| MasterAgent.UnderwriteNonPositive | agents/master_agent.py:109-127 | a request of 0 or below above the score floor reaches risk |
| MasterAgent.ZeroEligibleDividesByZero | agents/master_agent.py:140-144 | in risk, a zero eligible amount raises on every message but a reset |
| DummyAgent.Underwrite | agents/masteragentdummy.py:140-177 | below 700 rejected, showing the score; up to the limit risk, with the request as eligible amount and a reply showing the request and the limit; up to twice the limit the salary-slip stage and the request for a slip; beyond that rejected, showing twice the limit; no fraud screen; a fault exactly when the score is missing, or the score passes and the request or limit is missing, and a fault changes nothing |
| DummyAgent.ScoreRisk | agents/masteragentdummy.py:193-223 | replies only when the assessment has a rate: the band, score, decision and reason of `assess_risk` are stored with the numeric rate, risk_completed is set and nothing else changes; approved moves to sanction_prompt with a reply showing the score, band and rate, anything else moves to rejected and sends the reason; an exception changes nothing |
| DummyAgent.Transition | agents/masteragentdummy.py:14-27 | no fraud case; a reply is translated exactly when it is not an exception, into the session's language |
| DummyAgent.Route | agents/masteragentdummy.py:32-41 | a reset on the translated message restores the initial record |
| DummyAgent.Discover | agents/masteragentdummy.py:105-123 | sales discovery logs nothing and is not yet translated |
| DummyAgent.StageTurn | agents/masteragentdummy.py:75-135 | the stage branches log nothing |
| DummyAgent.UnderwriteAmount | agents/masteragentdummy.py:128-135 | the amount step logs nothing |
| DummyAgent.PipelineTurn | agents/masteragentdummy.py:140-274 | the pipeline branches log nothing |
| DummyAgent.UnderwriteInto | agents/masteragentdummy.py:140-177 | the in-place underwriting agrees with `Underwrite` |
| DummyAgent.VerifySalarySlipInto | agents/masteragentdummy.py:182-188 | the in-place salary-slip step agrees with `VerifySalarySlip` |
| DummyAgent.ScoreRiskInto | agents/masteragentdummy.py:193-223 | the in-place risk step agrees with `ScoreRisk` |
| DummyAgent.StoreRiskInto | agents/masteragentdummy.py:206-223 | the in-place storing of a scored result agrees with `StoreRisk` |
| DummyAgent.DiscoverInto | agents/masteragentdummy.py:105-123 | the in-place discovery agrees with `Discover` |
| DummyAgent.UnderwriteAmountInto | agents/masteragentdummy.py:128-140 | a parsed amount is stored and falls through into underwriting |
| DummyAgent.PipelineTurnInto | agents/masteragentdummy.py:140-274 | the stages from underwriting on agree with `PipelineTurn` |
| DummyAgent.StageTurnInto | agents/masteragentdummy.py:75-274 | the stage branches agree with `StageTurn` |
| DummyAgent.RouteInto | agents/masteragentdummy.py:32-274 | the guarded branches on the English message agree with `Route` |
| DummyAgent.Respond | agents/masteragentdummy.py:9-274 | the session after the multilingual `master_agent_response`, its reply and the reply's target language are those of `Transition` |
| DummyAgent.LanguageLatched | agents/masteragentdummy.py:14-19 | short of a reset, a turn leaves the session in the language it already had, or else in the language detected in this message |
| DummyAgent.RouteKeepsLanguage | agents/masteragentdummy.py:46-274 | no branch but the reset touches the language |
| DummyAgent.StageTurnKeepsLanguage | agents/masteragentdummy.py:75-274 | the stage branches keep the language |
| DummyAgent.CheckKycKeepsLanguage | agents/masteragentdummy.py:75-100 | the KYC check keeps the language |
| DummyAgent.UnderwriteKeepsLanguage | agents/masteragentdummy.py:140-177 | underwriting keeps the language |
| DummyAgent.PipelineKeepsLanguage | agents/masteragentdummy.py:140-274 | the pipeline branches keep the language |
| DummyAgent.NoResetTail | agents/masteragentdummy.py:32 | a conversation without a reset has a tail without a reset |
| DummyAgent.LanguagePersists | agents/masteragentdummy.py:16-19 | a latched language stays for a whole conversation without a reset |
| DummyAgent.FirstLanguageWins | agents/masteragentdummy.py:14-19 | in a fresh session, the language of the first message is the session's language to the end |
| DummyAgent.ResetForgetsLanguage | agents/masteragentdummy.py:32-41 | in an English session, a reset by either phrase restores the initial record, so it clears the latched language too, while its acknowledgement is still sent in the old language |
| DummyAgent.LargerRequestNeverBetterBand | agents/masteragentdummy.py:146-177 | asking for more never lands in a better band (risk, then salary slip, then rejection) |
| DummyAgent.SalarySlipLeadsToRisk | agents/masteragentdummy.py:182-188 | any message but a reset in the salary-slip stage makes the request the eligible amount and moves to risk, unscored |
| DummyAgent.ScoreRiskOutcome | agents/masteragentdummy.py:193-215 | with a complete profile, an approved score is stored at 10.5 or 14.5 and leads to sanction_prompt; a High-risk score raises on the missing rate and changes nothing |
| DummyAgent.ScoringNeverRejects | agents/masteragentdummy.py:209-215 | risk scoring in this variant never reaches its rejection branch: it replies only by moving to sanction_prompt |
| DummyAgent.DiscoveryPitches | agents/masteragentdummy.py:105-123 | the translated, stripped message is stored as the purpose, and the pitch it selects is sent in the session's language |
| DummyAgent.MedicalPitchFirst | agents/masteragentdummy.py:109-118 | a purpose mentioning "medical", in any case, gets the medical pitch whatever else it mentions |
| DummyAgent.EducationPitchBeforeTravel | agents/masteragentdummy.py:109-118 | without "medical", a purpose mentioning "education" gets the education pitch even beside "travel" |
| DummyAgent.SanctionPromptAnswers | agents/masteragentdummy.py:228-255 | "no" completes without a letter, "yes" completes with one, and anything else asks again and changes nothing |
| DummyAgent.CompletedAnswersThanks | agents/masteragentdummy.py:260-264 | a completed application answers every message but a reset with the closing message and no change |
| DummyAgent.CompletedIsFinal | agents/masteragentdummy.py:260-264 | a completed application stays exactly as it is for a whole conversation without a reset |
| DummyAgent.TurnKeepsWellFormed | agents/masteragentdummy.py:9-274 | every turn of this variant keeps the session well formed |
| DummyAgent.RouteKeepsWellFormed | agents/masteragentdummy.py:32-274 | every guarded branch keeps the invariant |
| DummyAgent.StageTurnKeepsWellFormed | agents/masteragentdummy.py:75-274 | every stage branch keeps the invariant |
| DummyAgent.UnderwriteKeepsWellFormed | agents/masteragentdummy.py:140-177 | underwriting keeps the invariant |
| DummyAgent.PipelineKeepsWellFormed | agents/masteragentdummy.py:140-274 | every pipeline branch keeps the invariant |
| DummyAgent.ScoreRiskKeepsWellFormed | agents/masteragentdummy.py:193-223 | risk scoring keeps the invariant |
| DummyAgent.RunKeepsWellFormed | agents/masteragentdummy.py:9-274 | every conversation of this variant from a well-formed session stays well formed |

## Left out

- app.py is not part of this model: the Streamlit interface, the progress bar, the download button, the feedback CSV, and the sidebar override that writes `lang` into the session (app.py:47-49). The latch lemmas hold for whatever language the session already holds.
- `log_fraud_case` and utils/fraud_logger.py append to a CSV file. The model returns the row to be logged as the turn's `fraudCase` instead of writing it.
- The PDF layout of the sanction letter, `os.makedirs` and `date.today()` are file I/O and a clock. `uuid.uuid4()` is randomness. Its hex digits are a parameter (`Env.uuidHex`).
- `pd.read_csv` is file I/O. The KYC table is a parameter (`Env.kycTable`), a sequence of rows with the columns the lookup reads.
- `ollama.chat` and `GoogleTranslator` are network calls. They are the functions `Env.llm` and `Env.translate`; the translator returns `None` where it raises. prompts.py is the `Env.systemPrompt` string.
- The English wording of the replies is not modelled: a reply is a `Message` value carrying the figures it shows. For the multilingual variant, `from_english` on the reply is recorded as the language the reply is translated into, not applied to text.
- Floats are exact reals. IEEE rounding in the EMI ratio, the eligibility arithmetic and the EMI is not modelled. `float()` of a rate is modelled for decimal text only, without exponents, `inf` or `nan`.
- `int()` on text accepts ASCII digits only, and `lower()` / `upper()` map ASCII letters only. Python also accepts Unicode digits and maps non-ASCII letters.
- A key that is absent and a key that holds `None` are both `None` in the record. So the record after `clear()` and the update in the reset branch equals `init_memory()`.
- FraudAgent.AssessFraud: a key holding `None` gets the `get` default here, where Python would raise TypeError on the comparison. The screen runs only after the KYC lookup has filled those fields, so no well-formed session reaches that case.
- Conversation.CheckKyc: a missing PAN or phone is a fault here. Python raises KeyError for an absent key, but looks up the text "None" for a `None` value. Every well-formed session in kyc_pending holds both fields.
- DummyAgent.PipelineTurn: at the sanction prompt the variant reads `eligible_amount` before `risk_result`, while the shared sanction step checks `risk_result` first. So when both are missing, a different field is named in the fault. Every well-formed session at the sanction prompt holds both.
- DummyAgent.Discover, DummyAgent.StageTurn, DummyAgent.UnderwriteAmount and DummyAgent.PipelineTurn: their own contracts say only that they log nothing. What they do is stated by the `…Into` methods, `DiscoveryPitches`, `SalarySlipLeadsToRisk`, `SanctionPromptAnswers`, `CompletedAnswersThanks` and the invariant lemmas.
- DummyAgent.Route: its own contract states the reset branch only. The other branches are stated by `RouteInto`, `LanguageLatched` and `RouteKeepsWellFormed`.
- Text.Split: its contract says only that there is at least one piece. The split is pinned down by `SplitFound`, `SplitNone` and the round trips `SplitThenJoin` and `JoinThenSplit`.
- Text.Remove: its contract no longer says that every character of the result occurs in the input. `RemoveCounts` states the stronger fact, with the count of each character.
- `check_eligibility` is modelled and proved on its own. No core file calls it.
