/**
 * What both versions of `master_agent_response` share: the replies, the
 * collaborators a turn consults, and the handlers for the name, KYC and
 * sales-amount steps.
 */
module Conversation {
  import opened Optional
  import opened Text
  import opened Numbers
  import opened SessionMemory
  import V = VerificationAgent
  import L = LanguageSupport

  /** One entry of the chat history handed to the language model. */
  datatype ChatMessage = ChatMessage(role: string, content: string)

  /** Everything outside the session record that a turn consults. */
  datatype Env = Env(
    kycTable: seq<V.KycRow>,             // the KYC table
    uuidHex: string,                     // the hex digits of the next fresh UUID
    systemPrompt: string,                // the persona prompt
    llm: seq<ChatMessage> -> string,     // the chat model's answer to a conversation
    translate: L.Translator)

  datatype Pitch = MedicalPitch | EducationPitch | TravelPitch | GeneralPitch

  /** The replies, by meaning; their English wording is not modelled. */
  datatype Message =
    | StartFresh
    | Welcome(name: string)
    | VerifyingKyc
    | KycFormatPrompt
    | KycFailed
    | KycVerified(customerName: string, city: string, employmentType: string)
    | AskAmount
    | PitchAndAskAmount(pitch: Pitch)
    | InvalidAmount
    | LowCreditScore(shownScore: Option<int>)
    | ReferredForReview
    | ProceedToRisk
    | PreapprovedOffer(requested: int, limit: int)
    | SalarySlipRequest
    | OverLimit(shownMaximum: Option<int>)
    | SalarySlipVerified
    | ProcessingHold
    | RiskRejected(reason: Option<string>)
    | RateOffer(rate: real)
    | CreditAssessed(creditScore: Option<int>, riskLevel: string, rate: real)
    | Sanctioned(loanAmount: int, interestRate: real, tenure: string, emi: int)
    | Declined
    | AskYesNo
    | UnderReview
    | ThankYou
    | Chat(text: string)

  /** The exceptions a turn can raise instead of replying. */
  datatype Failure =
    | MissingField(field: string)   // KeyError or TypeError on an absent or None field
    | DivisionByZero                // ZeroDivisionError in the risk score
    | NotANumber(text: string)      // ValueError from float()

  datatype Reply = Say(message: Message) | Fault(failure: Failure)

  /** The row `log_fraud_case` appends for a flagged application. */
  datatype FraudCase = FraudCase(
    name: Option<string>,
    city: Option<string>,
    creditScore: Option<int>,
    requestedAmount: Option<int>,
    preapprovedLimit: Option<int>,
    employmentType: Option<string>,
    reason: string)

  /**
   * The effect of one turn: the new session record, the reply, the fraud case
   * to log if any, and the language the reply is translated into if any.
   */
  datatype Outcome = Outcome(record: Record, reply: Reply, fraudCase: Option<FraudCase>, translateTo: Option<string>)

  function Plain(r: Record, reply: Reply): Outcome
  {
    Outcome(r, reply, None, None)
  }

  // ---------------------------------------------------------------------
  // Guards, on the lower-cased and stripped message
  // ---------------------------------------------------------------------

  predicate IsResetRequest(low: string)
  {
    Contains(low, "reset") || Contains(low, "start again")
  }

  predicate IntroducesName(r: Record, low: string)
  {
    r.name.None? && Contains(low, "my name is")
  }

  predicate OffersKyc(r: Record, low: string)
  {
    r.stage == AwaitingKyc && Contains(low, "pan") && Contains(low, "phone")
  }

  /** `text.split("is")[-1].strip()` */
  function NameFrom(text: string): string
  {
    Strip(Last(Split(text, "is")))
  }

  /** Whatever follows the only "is" of the message, stripped, becomes the name. */
  lemma NameAfterIs(before: string, name: string)
    requires !Contains(before, "is") && !Contains(name, "is")
    requires name != [] && !IsSpace(name[0]) && !IsSpace(name[|name| - 1])
    ensures NameFrom(before + "is" + [' '] + name) == name
  {
    NameAtIs(before, name);
    StripAfterSpace(name);
  }

  /** The only "is" of the message splits it in two, and the name is what follows. */
  lemma NameAtIs(before: string, name: string)
    requires !Contains(before, "is") && !Contains(name, "is")
    ensures NameFrom(before + "is" + [' '] + name) == Strip([' '] + name)
  {
    var rest := [' '] + name;
    IsAfterText(before);
    SpaceBeforeText(rest, name);
    SplitTwo(before, rest, "is");
    assert before + "is" + rest == before + "is" + [' '] + name;
    NameFromPieces(before + "is" + rest, before, rest);
  }

  lemma NameFromPieces(s: string, before: string, rest: string)
    requires Split(s, "is") == [before, rest]
    ensures NameFrom(s) == Strip(rest)
  {
  }

  /** "is" cannot start in the last character of `before + "i"`. */
  lemma IsAfterText(before: string)
    requires !Contains(before, "is")
    ensures !Contains(before + "is"[..1], "is")
  {
    var t := before + "is"[..1];
    if Contains(t, "is") {
      var k := ContainsWitness(t, "is");
      assert k + 2 <= |before| by {
        assert t[k + 1] == "is"[1];
        assert t[|before|] == 'i';
      }
      OccursInPrefixAt(t, before, "is", k);
    }
  }

  /** A leading space cannot begin "is". */
  lemma SpaceBeforeText(s: string, name: string)
    requires s == [' '] + name && !Contains(name, "is")
    ensures !Contains(s, "is")
  {
    assert s[1..] == name;
    assert !StartsWith(s, "is") by {
      assert s[0] != "is"[0];
    }
  }

  /** The split is on "is" anywhere, so a name containing "is" loses its head. */
  lemma NameContainingIs()
    ensures NameFrom("my name is Chris") == ""
  {
    var parts := ["my name ", " Chr", ""];
    assert Join(parts, "is") == "my name is Chris" by {
      assert Join(parts[1..], "is") == " Chr" + "is" + "";
    }
    JoinThenSplit(parts, "is");
  }

  /**
   * Two pieces split back apart when the separator occurs only where they
   * are joined: not in `b`, and nowhere in `a` followed by all but the
   * last character of `sep` (no occurrence starts inside `a`).
   */
  lemma SplitTwo(a: string, b: string, sep: string)
    requires sep != [] && !Contains(a + sep[..|sep| - 1], sep) && !Contains(b, sep)
    ensures Split(a + sep + b, sep) == [a, b]
  {
    var s := a + sep + b;
    var t := a + sep[..|sep| - 1];
    assert s[|a|..][..|sep|] == sep;
    assert s[..|t|] == t;
    forall j | 0 <= j < |a|
      ensures !StartsWith(s[j..], sep)
    {
      if StartsWith(s[j..], sep) {
        OccursInPrefixAt(s, t, sep, j);
      }
    }
    FindFirst(s, sep, |a|);
    SplitFound(s, sep, |a|);
    assert s[..|a|] == a;
    assert s[|a| + |sep|..] == b;
    SplitNone(b, sep);
  }

  /** An occurrence that ends within a prefix of the text is an occurrence in that prefix. */
  lemma OccursInPrefixAt(s: string, t: string, sep: string, j: nat)
    requires |t| <= |s| && s[..|t|] == t
    requires j + |sep| <= |t| && StartsWith(s[j..], sep)
    ensures Contains(t, sep)
  {
    assert t[j..][..|sep|] == s[j..][..|sep|];
    ContainsAt(t, sep, j);
  }

  /** A one-character separator that occurs in neither piece. */
  lemma SplitOnChar(a: string, b: string, c: char)
    requires c !in a && c !in b
    ensures Split(a + [c] + b, [c]) == [a, b]
  {
    AbsentLead(a, [c]);
    AbsentLead(b, [c]);
    assert a + [c][..0] == a;
    SplitTwo(a, b, [c]);
  }

  // ---------------------------------------------------------------------
  // KYC capture: "PAN: <pan>, Phone: <phone>"
  // ---------------------------------------------------------------------

  /** How far the KYC parse gets before Python raises IndexError. */
  datatype KycFields = Both(pan: string, phone: string) | PanOnly(pan: string) | Neither

  /** `parts = text.split(",")`, then the piece between the first and second ':' (`split(":")[1]`) of each of the first two parts. */
  function ParseKycFields(text: string): KycFields
  {
    var parts := Split(text, ",");
    var panPieces := Split(parts[0], ":");
    if |panPieces| < 2 then Neither
    else
      var pan := Strip(panPieces[1]);
      if |parts| < 2 then PanOnly(pan)
      else
        var phonePieces := Split(parts[1], ":");
        if |phonePieces| < 2 then PanOnly(pan) else Both(pan, Strip(phonePieces[1]))
  }

  /** The KYC handler: the PAN is written before the phone is looked for. */
  function CaptureKyc(r: Record, text: string): (o: Outcome)
    ensures o.fraudCase.None? && o.translateTo.None?
    ensures o.reply == Say(VerifyingKyc) || o.reply == Say(KycFormatPrompt)
    ensures o.reply == Say(VerifyingKyc) <==> ParseKycFields(text).Both?
    ensures o.reply == Say(VerifyingKyc) ==>
              o.record == r.(pan := Some(ParseKycFields(text).pan),
                             phone := Some(ParseKycFields(text).phone),
                             stage := KycPending)
    ensures o.reply == Say(KycFormatPrompt) ==> o.record.(pan := r.pan) == r
    ensures o.record.pan != r.pan ==> !ParseKycFields(text).Neither? && o.record.pan == Some(ParseKycFields(text).pan)
  {
    RecordKycFields(r, ParseKycFields(text))
  }

  /** What the KYC handler stores and replies once the fields are parsed. */
  function RecordKycFields(r: Record, fields: KycFields): Outcome
  {
    match fields
    case Neither => Plain(r, Say(KycFormatPrompt))
    case PanOnly(pan) => Plain(r.(pan := Some(pan)), Say(KycFormatPrompt))
    case Both(pan, phone) => Plain(r.(pan := Some(pan), phone := Some(phone), stage := KycPending), Say(VerifyingKyc))
  }

  /** Text after a ':' of one comma part: one leading space is dropped by `strip`. */
  lemma StripAfterSpace(s: string)
    requires s != [] && !IsSpace(s[0]) && !IsSpace(s[|s| - 1])
    ensures Strip([' '] + s) == s
  {
    var padded := [' '] + s;
    assert LStrip(padded) == LStrip(s) by {
      assert padded[1..] == s;
      assert IsSpace(padded[0]) by {
        SpaceRanges(' ');
      }
    }
    StripUnspaced(s);
  }

  /** The message in the advertised format yields exactly the PAN and phone it carries. */
  lemma KycFormatRoundTrip(pan: string, phone: string)
    requires pan != [] && !IsSpace(pan[0]) && !IsSpace(pan[|pan| - 1])
    requires phone != [] && !IsSpace(phone[0]) && !IsSpace(phone[|phone| - 1])
    requires ',' !in pan && ':' !in pan && ',' !in phone && ':' !in phone
    ensures ParseKycFields("PAN: " + pan + ", Phone: " + phone) == Both(pan, phone)
  {
    var p1, p2 := [' '] + pan, [' '] + phone;
    var first, second := "PAN" + ":" + p1, " Phone" + ":" + p2;
    assert "PAN: " + pan + ", Phone: " + phone == first + "," + second;
    assert ',' !in first && ',' !in second;
    SplitOnChar(first, second, ',');
    SplitOnChar("PAN", p1, ':');
    SplitOnChar(" Phone", p2, ':');
    StripAfterSpace(pan);
    StripAfterSpace(phone);
  }

  /** The KYC capture on the session. */
  method CaptureKycInto(memory: Memory, text: string) returns (reply: Reply)
    modifies memory
    ensures Plain(memory.Snapshot(), reply) == CaptureKyc(old(memory.Snapshot()), text)
  {
    var fields := ParseKycFields(text);
    reply := RecordKycFieldsInto(memory, fields);
  }

  /** Stores the parsed fields, writing the PAN before the phone is looked for. */
  method RecordKycFieldsInto(memory: Memory, fields: KycFields) returns (reply: Reply)
    modifies memory
    ensures Plain(memory.Snapshot(), reply) == RecordKycFields(old(memory.Snapshot()), fields)
  {
    if fields.Neither? {
      return Say(KycFormatPrompt);
    }
    memory.pan := Some(fields.pan);
    if fields.PanOnly? {
      return Say(KycFormatPrompt);
    }
    memory.phone := Some(fields.phone);
    memory.stage := KycPending;
    return Say(VerifyingKyc);
  }

  // ---------------------------------------------------------------------
  // KYC check
  // ---------------------------------------------------------------------

  /** The profile fields a verified KYC result copies into the session. */
  function WithProfile(r: Record, city: string, creditScore: int, limit: int, employmentType: string, emi: int): Record
  {
    r.(city := Some(city), creditScore := Some(creditScore), preapprovedLimit := Some(limit),
       employmentType := Some(employmentType), currentLoanEmi := Some(emi), stage := SalesDiscovery)
  }

  /** The KYC-pending handler: look the stored PAN and phone up in the table. */
  function CheckKyc(r: Record, table: seq<V.KycRow>): (o: Outcome)
    ensures o.fraudCase.None? && o.translateTo.None?
    ensures r.pan.None? || r.phone.None? <==> o.reply.Fault?
    ensures o.reply.Say? ==> o.reply.message.KycFailed? || o.reply.message.KycVerified?
    ensures o.reply.Fault? ==> o.record == r
    ensures o.reply == Say(KycFailed) ==>
              o.record == r.(stage := AwaitingKyc)
              && V.VerifyKyc(r.name, r.pan.value, r.phone.value, table).Failed?
    ensures o.reply.Say? && o.reply != Say(KycFailed) ==>
              exists row :: row in table
                && V.RowMatches(row, Upper(Strip(r.pan.value)), Strip(r.phone.value))
                && o.reply == Say(KycVerified(row.name, row.city, row.employmentType))
                && o.record == WithProfile(r, row.city, row.creditScore, row.preapprovedLimit,
                                           row.employmentType, row.currentLoanEmi)
    ensures o.reply.Say? && o.reply != Say(KycFailed) ==>
              var found := V.VerifyKyc(r.name, r.pan.value, r.phone.value, table);
              && found.Verified?
              && o.reply == Say(KycVerified(found.name, found.city, found.employmentType))
              && o.record == WithProfile(r, found.city, found.creditScore, found.preapprovedLimit,
                                         found.employmentType, found.currentLoanEmi)
  {
    if r.pan.None? then Plain(r, Fault(MissingField("pan")))
    else if r.phone.None? then Plain(r, Fault(MissingField("phone")))
    else RecordKycResult(r, V.VerifyKyc(r.name, r.pan.value, r.phone.value, table))
  }

  /** What the KYC-pending handler stores and replies for a lookup result. */
  function RecordKycResult(r: Record, result: V.KycResult): Outcome
  {
    match result
    case Failed(_) => Plain(r.(stage := AwaitingKyc), Say(KycFailed))
    case Verified(name, city, _, score, limit, emi, employment) =>
      Plain(WithProfile(r, city, score, limit, employment, emi), Say(KycVerified(name, city, employment)))
  }

  /** The KYC check, updating the session in place. */
  method CheckKycInto(memory: Memory, table: seq<V.KycRow>) returns (reply: Reply)
    modifies memory
    ensures Plain(memory.Snapshot(), reply) == CheckKyc(old(memory.Snapshot()), table)
  {
    if memory.pan.None? {
      return Fault(MissingField("pan"));
    }
    if memory.phone.None? {
      return Fault(MissingField("phone"));
    }
    var result := V.VerifyKyc(memory.name, memory.pan.value, memory.phone.value, table);
    reply := RecordKycResultInto(memory, result);
  }

  method RecordKycResultInto(memory: Memory, result: V.KycResult) returns (reply: Reply)
    modifies memory
    ensures Plain(memory.Snapshot(), reply) == RecordKycResult(old(memory.Snapshot()), result)
  {
    if result.Failed? {
      memory.stage := AwaitingKyc;
      return Say(KycFailed);
    }
    memory.city, memory.creditScore, memory.preapprovedLimit := Some(result.city), Some(result.creditScore), Some(result.preapprovedLimit);
    memory.employmentType, memory.currentLoanEmi := Some(result.employmentType), Some(result.currentLoanEmi);
    memory.stage := SalesDiscovery;
    return Say(KycVerified(result.name, result.city, result.employmentType));
  }

  // ---------------------------------------------------------------------
  // Amounts and rates
  // ---------------------------------------------------------------------

  /** `int(text.replace(",", "").strip())` */
  function ParseAmount(text: string): Option<int>
  {
    ParseInt(Strip(Remove(text, ',')))
  }

  /** Every amount as `str` writes it is read back exactly. */
  lemma AmountRoundTrip(n: int)
    ensures ParseAmount(ShowInt(n)) == Some(n)
  {
    var s := ShowInt(n);
    var digits := if n < 0 then ShowNat(-n) else ShowNat(n);
    assert s == (if n < 0 then "-" + digits else digits);
    assert AllDigits(digits);
    forall i | 0 <= i < |s|
      ensures s[i] != ','
    {
      if n >= 0 {
        assert s[i] == digits[i];
      } else if i > 0 {
        assert s[i] == digits[i - 1];
      }
    }
    assert Remove(s, ',') == s;
    assert s[|s| - 1] == digits[|digits| - 1];
    DigitNotSpace(s[|s| - 1]);
    SpaceRanges(s[0]);
    StripUnspaced(s);
    ParseShow(n);
  }

  /**
   * An amount written with grouping commas, in any grouping ("300,000" or
   * "3,00,000"), reads as the number its digits spell.
   */
  lemma GroupedAmount(groups: seq<string>)
    requires |groups| >= 1
    requires forall i :: 0 <= i < |groups| ==> groups[i] != [] && AllDigits(groups[i])
    ensures var ds := Join(groups, "");
            ds != [] && AllDigits(ds) && ParseAmount(Join(groups, ",")) == Some(DigitsValue(ds))
  {
    JoinedDigits(groups);
    CommaFreeGroups(groups);
    RemoveJoin(groups, ',');
    DigitsAmount(Join(groups, ","), Join(groups, ""));
  }

  /** Text that is digits once its commas are dropped reads as their value. */
  lemma DigitsAmount(text: string, ds: string)
    requires ds != [] && AllDigits(ds) && Remove(text, ',') == ds
    ensures ParseAmount(text) == Some(DigitsValue(ds))
  {
    DigitNotSpace(ds[0]);
    DigitNotSpace(ds[|ds| - 1]);
    StripUnspaced(ds);
    ParseDigits(ds);
  }

  lemma CommaFreeGroups(groups: seq<string>)
    requires forall i :: 0 <= i < |groups| ==> AllDigits(groups[i])
    ensures forall i :: 0 <= i < |groups| ==> ',' !in groups[i]
  {
    assert !IsDigit(',');
  }

  /** Digit groups run together are digits. */
  lemma {:induction false} JoinedDigits(groups: seq<string>)
    requires |groups| >= 1
    requires forall i :: 0 <= i < |groups| ==> groups[i] != [] && AllDigits(groups[i])
    ensures Join(groups, "") != [] && AllDigits(Join(groups, ""))
    decreases |groups|
  {
    if |groups| >= 2 {
      JoinedDigits(groups[1..]);
      assert AllDigits(groups[0]);
      assert Join(groups, "") == groups[0] + Join(groups[1..], "");
    }
  }

  /** The Indian grouping the chatbot's customers write: "3,00,000" is three lakh. */
  lemma ThreeLakh()
    ensures ParseAmount("3,00,000") == Some(300000)
  {
    var groups := ["3", "00", "000"];
    LakhGroups(groups);
    GroupedAmount(groups);
    LakhDigits("300000");
  }

  lemma LakhGroups(groups: seq<string>)
    requires groups == ["3", "00", "000"]
    ensures Join(groups, ",") == "3,00,000" && Join(groups, "") == "300000"
  {
    assert Join(groups[1..], ",") == "00" + "," + "000";
    assert Join(groups[1..], "") == "00000";
  }

  lemma LakhDigits(ds: string)
    requires ds == "300000"
    ensures AllDigits(ds) && DigitsValue(ds) == 300000
  {
    assert DigitsValue(ds[..1]) == 3;
    assert DigitsValue(ds[..2]) == 30;
    assert ds[..3][..2] == ds[..2];
    assert DigitsValue(ds[..3]) == 300;
    assert ds[..4][..3] == ds[..3];
    assert DigitsValue(ds[..4]) == 3000;
    assert ds[..5][..4] == ds[..4];
    assert DigitsValue(ds[..5]) == 30000;
    assert ds[..5] == ds[..|ds| - 1];
  }

  /** The rate a risk result carries, as `float(rate.replace("%", "").strip())`. */
  function RateValue(rate: string): Option<real>
  {
    ParseFloat(Strip(Remove(rate, '%')))
  }

  /** The rates the approving risk bands quote read as 10.5 and 14.5. */
  lemma BandRates(rate: string)
    requires rate == "10.5%" || rate == "14.5%"
    ensures RateValue(rate) == Some(if rate == "10.5%" then 10.5 else 14.5)
  {
    var whole := if rate == "10.5%" then "10" else "14";
    assert rate == whole + ".5%";
    TwoDigits(whole);
    HalfRate(whole);
  }

  lemma TwoDigits(whole: string)
    requires whole == "10" || whole == "14"
    ensures AllDigits(whole) && DigitsValue(whole) == if whole == "10" then 10 else 14
  {
    var head := whole[..1];
    assert head[..0] == [];
    assert DigitsValue(head) == 1;
    assert DigitsValue(whole) == 10 * DigitsValue(head) + (whole[1] as int - '0' as int);
  }

  /** `w.5%` reads as w + 0.5. */
  lemma HalfRate(whole: string)
    requires whole != [] && AllDigits(whole)
    ensures RateValue(whole + ".5%") == Some(DigitsValue(whole) as real + 0.5)
  {
    assert whole + "." + "5" + "%" == whole + ".5%";
    PercentRate(whole, "5");
    Half();
  }

  lemma Half()
    ensures AllDigits("5") && Fraction(DigitsValue("5"), 1) == 0.5
  {
    assert DigitsValue("5") == 5;
  }

  /** A decimal rate with a percent sign reads as the number before the sign. */
  lemma PercentRate(whole: string, frac: string)
    requires whole != [] && AllDigits(whole) && frac != [] && AllDigits(frac)
    ensures RateValue(whole + "." + frac + "%")
            == Some(DigitsValue(whole) as real + Fraction(DigitsValue(frac), |frac|))
  {
    var number := whole + "." + frac;
    assert '%' !in number by {
      forall k | 0 <= k < |number| ensures number[k] != '%' {
        if k < |whole| { assert number[k] == whole[k]; }
        else if k > |whole| { assert number[k] == frac[k - |whole| - 1]; }
      }
    }
    RemoveTrailing(number, '%');
    assert IsDigit(number[0]) && number[|number| - 1] == frac[|frac| - 1];
    DigitNotSpace(number[0]);
    DigitNotSpace(number[|number| - 1]);
    StripUnspaced(number);
    ParseDecimal(whole, frac);
  }
}
