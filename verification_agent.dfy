/** KYC lookup by PAN and phone number (`verify_kyc`) against the customer table. */
module VerificationAgent {
  import opened Optional
  import opened Text

  /** One row of the KYC table, with the columns the lookup reads. */
  datatype KycRow = KycRow(
    name: string,
    city: string,
    address: string,
    pan: string,
    phone: string,
    creditScore: int,
    preapprovedLimit: int,
    currentLoanEmi: int,
    employmentType: string)

  datatype KycResult =
    | Verified(
        name: string, city: string, address: string,
        creditScore: int, preapprovedLimit: int, currentLoanEmi: int,
        employmentType: string)
    | Failed(reason: string)

  const NotFound := "PAN or phone number not found in KYC records"

  /** The row filter: the upper-cased PAN column and the phone column as text. */
  predicate RowMatches(row: KycRow, pan: string, phone: string)
  {
    Upper(row.pan) == pan && row.phone == phone
  }

  /** The rows that pass the filter, in table order. */
  function Matching(table: seq<KycRow>, pan: string, phone: string): (rows: seq<KycRow>)
    ensures |rows| <= |table|
    ensures forall r :: r in rows <==> r in table && RowMatches(r, pan, phone)
  {
    if table == [] then []
    else if RowMatches(table[0], pan, phone) then [table[0]] + Matching(table[1..], pan, phone)
    else Matching(table[1..], pan, phone)
  }

  /** `match.iloc[0]` is the first row of the table that passes the filter. */
  lemma {:induction false} FirstMatching(table: seq<KycRow>, pan: string, phone: string)
    requires Matching(table, pan, phone) != []
    ensures exists k :: 0 <= k < |table| && table[k] == Matching(table, pan, phone)[0]
              && RowMatches(table[k], pan, phone)
              && forall j :: 0 <= j < k ==> !RowMatches(table[j], pan, phone)
  {
    if RowMatches(table[0], pan, phone) {
      assert table[0] == Matching(table, pan, phone)[0];
    } else {
      var tail := table[1..];
      FirstMatching(tail, pan, phone);
      var k :| 0 <= k < |tail| && tail[k] == Matching(tail, pan, phone)[0] && RowMatches(tail[k], pan, phone)
               && forall j :: 0 <= j < k ==> !RowMatches(tail[j], pan, phone);
      assert table[k + 1] == tail[k];
      forall j | 0 <= j < k + 1
        ensures !RowMatches(table[j], pan, phone)
      {
        if j > 0 { assert table[j] == tail[j - 1]; }
      }
    }
  }

  /** The customer profile reported for a matching row. */
  function Profile(row: KycRow): KycResult
  {
    Verified(row.name, row.city, row.address, row.creditScore,
             row.preapprovedLimit, row.currentLoanEmi, row.employmentType)
  }

  /**
   * `verify_kyc(name, pan, phone)`: PAN is stripped and upper-cased, phone is
   * stripped; the first matching row wins. The name is carried for reference only.
   */
  function VerifyKyc(name: Option<string>, pan: string, phone: string, table: seq<KycRow>): (r: KycResult)
    ensures r.Failed? <==>
              forall i :: 0 <= i < |table| ==> !RowMatches(table[i], Upper(Strip(pan)), Strip(phone))
    ensures r.Failed? ==> r.reason == NotFound
    ensures r.Verified? ==>
              exists k :: 0 <= k < |table| && r == Profile(table[k])
                && RowMatches(table[k], Upper(Strip(pan)), Strip(phone))
                && forall j :: 0 <= j < k ==> !RowMatches(table[j], Upper(Strip(pan)), Strip(phone))
  {
    var panKey := Upper(Strip(pan));
    var phoneKey := Strip(phone);
    var matches := Matching(table, panKey, phoneKey);
    if matches == [] then
      assert forall i :: 0 <= i < |table| ==> !RowMatches(table[i], panKey, phoneKey) by {
        forall i | 0 <= i < |table| ensures !RowMatches(table[i], panKey, phoneKey) {
          assert table[i] in table;
        }
      }
      Failed(NotFound)
    else
      FirstMatching(table, panKey, phoneKey);
      Profile(matches[0])
  }

  /** The claimed name plays no part in the lookup. */
  lemma NameIsIgnored(name1: Option<string>, name2: Option<string>, pan: string, phone: string, table: seq<KycRow>)
    ensures VerifyKyc(name1, pan, phone, table) == VerifyKyc(name2, pan, phone, table)
  {
  }

  /** A PAN typed in lower case with surrounding spaces finds the same customer. */
  lemma PanCaseAndPaddingIgnored(name: Option<string>, pan: string, phone: string, table: seq<KycRow>)
    requires pan != [] && !IsSpace(pan[0]) && !IsSpace(pan[|pan| - 1])
    ensures VerifyKyc(name, [' '] + Lower(pan) + [' '], phone, table) == VerifyKyc(name, pan, phone, table)
  {
    PaddedPanKey(pan);
    SameKeysSameResult(name, [' '] + Lower(pan) + [' '], pan, phone, table);
  }

  /** The lookup key of a padded lower-case PAN is the key of the PAN itself. */
  lemma PaddedPanKey(pan: string)
    requires pan != [] && !IsSpace(pan[0]) && !IsSpace(pan[|pan| - 1])
    ensures Upper(Strip([' '] + Lower(pan) + [' '])) == Upper(Strip(pan))
  {
    var low := Lower(pan);
    LowerKeepsSpace(pan[0]);
    LowerKeepsSpace(pan[|pan| - 1]);
    StripPadded(low);
    StripUnspaced(pan);
    UpperOfLower(pan);
  }

  /** The lookup sees the PAN only through its stripped upper-case key. */
  lemma SameKeysSameResult(name: Option<string>, pan1: string, pan2: string, phone: string, table: seq<KycRow>)
    requires Upper(Strip(pan1)) == Upper(Strip(pan2))
    ensures VerifyKyc(name, pan1, phone, table) == VerifyKyc(name, pan2, phone, table)
  {
  }

  /** An empty table verifies nobody. */
  lemma UnknownCustomerFails(name: Option<string>)
    ensures VerifyKyc(name, "ABCDE1234F", "9876543210", []) == Failed(NotFound)
  {
  }
}
