/**
 * Python's number conversions on text and on floats: `int(s)` and `float(s)`
 * for a string, `str(n)` for an integer, `int(x)` for a float.
 */
module Numbers {
  import opened Optional
  import opened Text

  predicate IsDigit(c: char)
  {
    '0' <= c <= '9'
  }

  lemma DigitNotSpace(c: char)
    requires IsDigit(c)
    ensures !IsSpace(c)
  {
    SpaceRanges(c);
  }

  predicate AllDigits(s: string)
  {
    forall i :: 0 <= i < |s| ==> IsDigit(s[i])
  }

  function DigitsValue(ds: string): nat
    requires AllDigits(ds)
  {
    if ds == [] then 0
    else 10 * DigitsValue(ds[..|ds| - 1]) + (ds[|ds| - 1] as int - '0' as int)
  }

  /** The digits of a Python number literal: ASCII digits, with single underscores between digits. */
  predicate IsDigitRun(s: string)
  {
    && |s| > 0 && IsDigit(s[0]) && IsDigit(s[|s| - 1])
    && (forall i :: 0 <= i < |s| ==> IsDigit(s[i]) || s[i] == '_')
    && (forall i, j :: 0 <= i < |s| && 0 <= j < |s| && j == i + 1 ==> s[i] != '_' || s[j] != '_')
  }

  /** The value of a digit run, underscores ignored. */
  function RunValue(s: string): nat
    requires IsDigitRun(s)
  {
    var ds := Remove(s, '_');
    assert AllDigits(ds) by {
      RemoveCounts(s, '_');
      forall i | 0 <= i < |ds| ensures IsDigit(ds[i]) {
        assert ds[i] in multiset(ds);
      }
    }
    DigitsValue(ds)
  }

  predicate IsSign(c: char)
  {
    c == '+' || c == '-'
  }

  /** `int(s)` on a string; None where Python raises ValueError. */
  function ParseInt(s: string): (r: Option<int>)
  {
    ParseSigned(Strip(s))
  }

  /** `int` on text already stripped of surrounding whitespace: an optional sign, then a digit run. */
  function ParseSigned(t: string): Option<int>
  {
    if |t| > 0 && IsSign(t[0]) then
      if IsDigitRun(t[1..]) then
        var v: int := RunValue(t[1..]);
        Some(if t[0] == '-' then -v else v)
      else None
    else if IsDigitRun(t) then Some(RunValue(t))
    else None
  }

  function DigitChar(d: nat): char
    requires d < 10
  {
    ('0' as int + d) as char
  }

  /** `str(n)` for n >= 0 */
  function ShowNat(n: nat): (r: string)
    ensures r != [] && AllDigits(r)
  {
    if n < 10 then [DigitChar(n)] else ShowNat(n / 10) + [DigitChar(n % 10)]
  }

  /** `str(n)` */
  function ShowInt(n: int): (r: string)
    ensures r != []
  {
    if n < 0 then "-" + ShowNat(-n) else ShowNat(n)
  }

  lemma {:induction false} ShowNatValue(n: nat)
    ensures DigitsValue(ShowNat(n)) == n
  {
    if n >= 10 {
      ShowNatValue(n / 10);
      var s := ShowNat(n);
      assert s[..|s| - 1] == ShowNat(n / 10);
    }
  }

  lemma DigitsAreARun(s: string)
    requires s != [] && AllDigits(s)
    ensures IsDigitRun(s) && RunValue(s) == DigitsValue(s)
  {
    assert '_' !in s;
    assert Remove(s, '_') == s;
  }

  /** `int(str(n)) == n`: the integer parser reads back what `str` prints. */
  lemma ParseShow(n: int)
    ensures ParseInt(ShowInt(n)) == Some(n)
  {
    if n < 0 {
      ParseShowNegative(-n);
    } else {
      ParseShowNat(n);
    }
  }

  lemma ParseShowNat(m: nat)
    ensures ParseInt(ShowInt(m)) == Some(m)
  {
    ShowNatValue(m);
    assert ShowInt(m) == ShowNat(m);
    ParseDigits(ShowNat(m));
  }

  /** Plain digits parse to their value. */
  lemma ParseDigits(ds: string)
    requires ds != [] && AllDigits(ds)
    ensures ParseInt(ds) == Some(DigitsValue(ds))
  {
    DigitsAreARun(ds);
    DigitNotSpace(ds[0]);
    DigitNotSpace(ds[|ds| - 1]);
    StripUnspaced(ds);
    assert !IsSign(ds[0]);
    assert ParseInt(ds) == ParseSigned(ds);
  }

  lemma ParseShowNegative(m: nat)
    requires m > 0
    ensures ParseInt(ShowInt(-(m as int))) == Some(-(m as int))
  {
    ShowNatValue(m);
    ParseNegatedDigits(ShowNat(m));
    ShownNegative(m, ParseInt("-" + ShowNat(m)));
  }

  /** `str` of a negative number is the minus sign before the digits of its magnitude. */
  lemma ShownNegative(m: nat, read: Option<int>)
    requires m > 0 && read == ParseInt("-" + ShowNat(m))
    ensures ParseInt(ShowInt(-(m as int))) == read
  {
  }

  /** A minus sign followed by plain digits parses to the negated value. */
  lemma ParseNegatedDigits(ds: string)
    requires ds != [] && AllDigits(ds)
    ensures ParseInt("-" + ds) == Some(0 - DigitsValue(ds))
  {
    NegatedUnspaced(ds);
    NegatedSigned(ds);
  }

  lemma NegatedUnspaced(ds: string)
    requires ds != [] && AllDigits(ds)
    ensures Strip("-" + ds) == "-" + ds
  {
    var s := "-" + ds;
    assert s[|s| - 1] == ds[|ds| - 1];
    DigitNotSpace(ds[|ds| - 1]);
    SpaceRanges(s[0]);
    StripUnspaced(s);
  }

  lemma NegatedSigned(ds: string)
    requires ds != [] && AllDigits(ds)
    ensures ParseSigned("-" + ds) == Some(0 - DigitsValue(ds))
  {
    var s := "-" + ds;
    DigitsAreARun(ds);
    assert s[0] == '-' && s[1..] == ds;
  }

  function Signed(negative: bool, x: real): real
  {
    if negative then -x else x
  }

  /** `float(s)` on decimal text: an optional sign, then digits with an optional fractional part. */
  function ParseFloat(s: string): (r: Option<real>)
  {
    var t := Strip(s);
    var negative := |t| > 0 && t[0] == '-';
    var body := if |t| > 0 && IsSign(t[0]) then t[1..] else t;
    match UnsignedValue(body)
    case None => None
    case Some(x) => Some(Signed(negative, x))
  }

  /** `f` tenths, hundredths, ... for `n` fractional digits with value `f`. */
  function Fraction(f: nat, n: nat): real
  {
    if n == 0 then f as real else Fraction(f, n - 1) / 10.0
  }

  /** The value of unsigned decimal text, digits on at least one side of an optional point. */
  function UnsignedValue(body: string): Option<real>
  {
    match Find(body, ".")
    case None =>
      if IsDigitRun(body) then Some(RunValue(body) as real) else None
    case Some(i) => PointValue(body[..i], body[i + 1..])
  }

  /** The value of `whole.frac`, where either side may be empty but not both. */
  function PointValue(whole: string, frac: string): Option<real>
  {
    if (whole != [] || frac != []) && (whole == [] || IsDigitRun(whole)) && (frac == [] || IsDigitRun(frac)) then
      var w := if whole == [] then 0 else RunValue(whole);
      var f := if frac == [] then 0 else RunValue(frac);
      Some(w as real + Fraction(f, |Remove(frac, '_')|))
    else None
  }

  /** Plain decimal text `w.f` is read as w + f / 10^|f|. */
  lemma ParseDecimal(whole: string, frac: string)
    requires whole != [] && AllDigits(whole) && frac != [] && AllDigits(frac)
    ensures ParseFloat(whole + "." + frac)
            == Some(DigitsValue(whole) as real + Fraction(DigitsValue(frac), |frac|))
  {
    var s := whole + "." + frac;
    assert IsDigit(s[0]) && s[|s| - 1] == frac[|frac| - 1];
    DigitNotSpace(s[0]);
    DigitNotSpace(s[|s| - 1]);
    StripUnspaced(s);
    assert !IsSign(s[0]);
    DecimalValue(whole, frac, s);
  }

  lemma DecimalValue(whole: string, frac: string, s: string)
    requires whole != [] && AllDigits(whole) && frac != [] && AllDigits(frac)
    requires s == whole + "." + frac
    ensures UnsignedValue(s) == Some(DigitsValue(whole) as real + Fraction(DigitsValue(frac), |frac|))
  {
    SplitAtPoint(whole, frac);
    PointOfDigits(whole, frac);
  }

  lemma PointOfDigits(whole: string, frac: string)
    requires whole != [] && AllDigits(whole) && frac != [] && AllDigits(frac)
    ensures PointValue(whole, frac) == Some(DigitsValue(whole) as real + Fraction(DigitsValue(frac), |frac|))
  {
    RunOfDigits(whole);
    RunOfDigits(frac);
  }

  lemma RunOfDigits(ds: string)
    requires ds != [] && AllDigits(ds)
    ensures IsDigitRun(ds) && RunValue(ds) == DigitsValue(ds) && Remove(ds, '_') == ds
  {
    DigitsAreARun(ds);
  }

  lemma SplitAtPoint(whole: string, frac: string)
    requires AllDigits(whole)
    ensures UnsignedValue(whole + "." + frac) == PointValue(whole, frac)
  {
    var s := whole + "." + frac;
    var i := |whole|;
    FindPoint(whole, frac);
    assert s[..i] == whole && s[i + 1..] == frac;
  }

  /** The first point of `w.f` is the one after the whole digits. */
  lemma FindPoint(whole: string, frac: string)
    requires AllDigits(whole)
    ensures Find(whole + "." + frac, ".") == Some(|whole|)
  {
    var s := whole + "." + frac;
    var i := |whole|;
    assert s[i..][..1] == ".";
    forall k | 0 <= k < i
      ensures !StartsWith(s[k..], ".")
    {
      assert s[k..][0] == whole[k];
    }
    FindFirst(s, ".", i);
  }

  /** `int(x)` for a float `x`: truncation toward zero. */
  function Trunc(x: real): (n: int)
    ensures 0.0 <= x ==> n as real <= x < n as real + 1.0
    ensures x < 0.0 ==> n as real - 1.0 < x <= n as real
  {
    if x >= 0.0 then x.Floor else -((-x).Floor)
  }
}
