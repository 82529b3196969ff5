/**
 * The operations of Python's `str` that the chatbot relies on:
 * `lower`, `upper`, `strip`, `in`, `find`, `split`, `join` and `replace`
 * of one character by the empty string.
 */
module Text {
  import opened Optional

  // ---------------------------------------------------------------------
  // Case mapping (ASCII letters; other characters are left as they are)
  // ---------------------------------------------------------------------

  function LowerChar(c: char): char
  {
    if 'A' <= c <= 'Z' then (c as int + 32) as char else c
  }

  function UpperChar(c: char): char
  {
    if 'a' <= c <= 'z' then (c as int - 32) as char else c
  }

  /** `s.lower()` */
  function Lower(s: string): (r: string)
    ensures |r| == |s|
    ensures forall i :: 0 <= i < |r| ==> !('A' <= r[i] <= 'Z')
    ensures forall i :: 0 <= i < |r| ==> r[i] == LowerChar(s[i])
  {
    seq(|s|, i requires 0 <= i < |s| => LowerChar(s[i]))
  }

  /** `s.upper()` */
  function Upper(s: string): (r: string)
    ensures |r| == |s|
    ensures forall i :: 0 <= i < |r| ==> !('a' <= r[i] <= 'z')
    ensures forall i :: 0 <= i < |r| ==> r[i] == UpperChar(s[i])
  {
    seq(|s|, i requires 0 <= i < |s| => UpperChar(s[i]))
  }

  /** Lower-casing leaves a string without capitals as it is. */
  lemma LowerOfUncapitalized(w: string)
    requires forall i :: 0 <= i < |w| ==> !('A' <= w[i] <= 'Z')
    ensures Lower(w) == w
  {
  }

  /** Upper-casing forgets any earlier lower-casing: the comparison `upper() == upper()` ignores case. */
  lemma UpperOfLower(s: string)
    ensures Upper(Lower(s)) == Upper(s)
  {
    var a, b := Upper(Lower(s)), Upper(s);
    forall i | 0 <= i < |s|
      ensures a[i] == b[i]
    {
      assert a[i] == UpperChar(LowerChar(s[i]));
    }
  }

  // ---------------------------------------------------------------------
  // Whitespace and strip
  // ---------------------------------------------------------------------

  /**
   * The characters for which Python's `str.isspace()` holds. The test reaches
   * the ranges only after a few steps of `SpaceAfter`: the solver unfolds a
   * recursive definition only a bounded number of times, so proofs that move
   * whitespace around without asking which characters it is never case-split
   * on the ranges. `SpaceRanges` states them for the proofs that do ask.
   */
  predicate IsSpace(c: char)
  {
    SpaceAfter(c, 3)
  }

  predicate SpaceAfter(c: char, steps: nat)
  {
    if steps == 0 then InSpaceRanges(c) else SpaceAfter(c, steps - 1)
  }

  predicate InSpaceRanges(c: char)
  {
    || '\t' <= c <= '\r'
    || '\U{1C}' <= c <= '\U{20}'
    || c == '\U{85}' || c == '\U{A0}' || c == '\U{1680}'
    || '\U{2000}' <= c <= '\U{200A}'
    || c == '\U{2028}' || c == '\U{2029}' || c == '\U{202F}' || c == '\U{205F}'
    || c == '\U{3000}'
  }

  /** Whitespace is exactly the characters in the ranges of `str.isspace()`. */
  lemma SpaceRanges(c: char)
    ensures IsSpace(c) <==> InSpaceRanges(c)
  {
    assert SpaceAfter(c, 3) == SpaceAfter(c, 2) == SpaceAfter(c, 1) == SpaceAfter(c, 0);
  }

  /** Lower-casing maps whitespace to whitespace and anything else to something else. */
  lemma LowerKeepsSpace(c: char)
    ensures IsSpace(LowerChar(c)) <==> IsSpace(c)
  {
    SpaceRanges(c);
    SpaceRanges(LowerChar(c));
  }

  /** `s.lstrip()`: a suffix of `s`, everything dropped before it is whitespace. */
  function LStrip(s: string): (r: string)
    ensures |r| <= |s| && r == s[|s| - |r|..]
    ensures forall i :: 0 <= i < |s| - |r| ==> IsSpace(s[i])
    ensures r == [] || !IsSpace(r[0])
  {
    if |s| > 0 && IsSpace(s[0]) then LStrip(s[1..]) else s
  }

  /** `s.rstrip()`: a prefix of `s`, everything dropped after it is whitespace. */
  function RStrip(s: string): (r: string)
    ensures |r| <= |s| && r == s[..|r|]
    ensures forall i :: |r| <= i < |s| ==> IsSpace(s[i])
    ensures r == [] || !IsSpace(r[|r| - 1])
  {
    if |s| > 0 && IsSpace(s[|s| - 1]) then RStrip(s[..|s| - 1]) else s
  }

  /** `s.strip()`: neither end of the result is whitespace. */
  function Strip(s: string): (r: string)
    ensures |r| <= |s|
    ensures r == [] || (!IsSpace(r[0]) && !IsSpace(r[|r| - 1]))
  {
    RStrip(LStrip(s))
  }

  /** `r` is the slice of `s` that starts at `i`, and all of `s` around it is whitespace. */
  predicate KeptSlice(s: string, r: string, i: int)
  {
    && 0 <= i && i + |r| <= |s| && r == s[i..i + |r|]
    && (forall k :: 0 <= k < i ==> IsSpace(s[k]))
    && (forall k :: i + |r| <= k < |s| ==> IsSpace(s[k]))
  }

  /**
   * `strip` keeps one slice of the text: the one that starts where `lstrip`
   * starts. All that it drops before and after the slice is whitespace, and
   * with the ends of the result not whitespace this pins the result down.
   */
  lemma StripSlice(s: string)
    ensures KeptSlice(s, Strip(s), |s| - |LStrip(s)|)
  {
    StripShape(s, LStrip(s), Strip(s));
  }

  /** What `rstrip` after `lstrip` keeps and drops, stated on the two results. */
  lemma StripShape(s: string, t: string, r: string)
    requires |t| <= |s| && t == s[|s| - |t|..]
    requires forall k :: 0 <= k < |s| - |t| ==> IsSpace(s[k])
    requires |r| <= |t| && r == t[..|r|]
    requires forall k :: |r| <= k < |t| ==> IsSpace(t[k])
    ensures KeptSlice(s, r, |s| - |t|)
  {
    var i := |s| - |t|;
    assert r == s[i..i + |r|];
    forall k | i + |r| <= k < |s|
      ensures IsSpace(s[k])
    {
      assert s[k] == t[k - i];
    }
  }

  /** Text that neither starts nor ends with whitespace is left alone by `strip`. */
  lemma StripUnspaced(s: string)
    requires s != [] && !IsSpace(s[0]) && !IsSpace(s[|s| - 1])
    ensures Strip(s) == s
  {
    assert LStrip(s) == s;
  }

  /** One space of padding on either side is removed by `strip`. */
  lemma StripPadded(s: string)
    requires s != [] && !IsSpace(s[0]) && !IsSpace(s[|s| - 1])
    ensures Strip([' '] + s + [' ']) == s
  {
    var padded := [' '] + s + [' '];
    assert padded[1..] == s + [' '];
    assert LStrip(s + [' ']) == s + [' '];
    assert (s + [' '])[..|s|] == s;
    assert RStrip(s) == s;
  }

  // ---------------------------------------------------------------------
  // Searching
  // ---------------------------------------------------------------------

  predicate StartsWith(s: string, prefix: string)
  {
    |prefix| <= |s| && s[..|prefix|] == prefix
  }

  /** `sub in s` */
  predicate Contains(s: string, sub: string)
    decreases |s|
  {
    StartsWith(s, sub) || (|s| > 0 && Contains(s[1..], sub))
  }

  lemma {:induction false} ContainsAt(s: string, sub: string, k: nat)
    requires k <= |s| && StartsWith(s[k..], sub)
    ensures Contains(s, sub)
    decreases k
  {
    if k > 0 {
      assert s[1..][k - 1..] == s[k..];
      ContainsAt(s[1..], sub, k - 1);
    }
  }

  lemma {:induction false} ContainsWitness(s: string, sub: string) returns (k: nat)
    requires Contains(s, sub)
    ensures k + |sub| <= |s| && s[k..k + |sub|] == sub
    decreases |s|
  {
    if StartsWith(s, sub) {
      k := 0;
    } else {
      var j := ContainsWitness(s[1..], sub);
      k := j + 1;
      assert s[k..k + |sub|] == s[1..][j..j + |sub|];
    }
  }

  /** `s.find(sub)`, with `None` for -1: the first place `sub` occurs. */
  function Find(s: string, sub: string): (r: Option<nat>)
    ensures r.Some? ==> r.value + |sub| <= |s| && StartsWith(s[r.value..], sub)
    ensures r.Some? ==> forall k {:trigger StartsWith(s[k..], sub)} :: 0 <= k < r.value ==> !StartsWith(s[k..], sub)
    ensures r.None? <==> !Contains(s, sub)
    decreases |s|
  {
    if StartsWith(s, sub) then Some(0)
    else if |s| == 0 then None
    else match Find(s[1..], sub)
      case None => None
      case Some(k) =>
        assert forall j :: 1 <= j <= |s| ==> s[j..] == s[1..][j - 1..];
        Some(k + 1)
  }

  /** Any place where `sub` occurs that has no occurrence before it is what `Find` returns. */
  lemma FindFirst(s: string, sub: string, k: nat)
    requires k <= |s| && StartsWith(s[k..], sub)
    requires forall j {:trigger StartsWith(s[j..], sub)} :: 0 <= j < k ==> !StartsWith(s[j..], sub)
    ensures Find(s, sub) == Some(k)
  {
    ContainsAt(s, sub, k);
  }

  /** `strip` only trims whitespace, so an occurrence that neither starts nor ends with whitespace survives it. */
  lemma StripKeepsOccurrence(s: string, w: string, k: nat)
    requires w != [] && !IsSpace(w[0]) && !IsSpace(w[|w| - 1])
    requires k + |w| <= |s| && s[k..k + |w|] == w
    ensures Contains(Strip(s), w)
  {
    var j := LStripKeeps(s, w, k);
    RStripKeeps(LStrip(s), w, j);
    ContainsAt(Strip(s), w, j);
  }

  lemma LStripKeeps(s: string, w: string, k: nat) returns (j: nat)
    requires w != [] && !IsSpace(w[0])
    requires k + |w| <= |s| && s[k..k + |w|] == w
    ensures j + |w| <= |LStrip(s)| && LStrip(s)[j..j + |w|] == w
  {
    j := KeptInSuffix(s, LStrip(s), w, k);
  }

  /** An occurrence that does not start with whitespace lies inside a suffix that only drops whitespace. */
  lemma KeptInSuffix(s: string, t: string, w: string, k: nat) returns (j: nat)
    requires |t| <= |s| && t == s[|s| - |t|..]
    requires forall i :: 0 <= i < |s| - |t| ==> IsSpace(s[i])
    requires w != [] && !IsSpace(w[0])
    requires k + |w| <= |s| && s[k..k + |w|] == w
    ensures j + |w| <= |t| && t[j..j + |w|] == w
  {
    var d := |s| - |t|;
    assert s[k] == w[0];
    j := k - d;
    assert t[j..j + |w|] == s[k..k + |w|];
  }

  lemma RStripKeeps(t: string, w: string, j: nat)
    requires w != [] && !IsSpace(w[|w| - 1])
    requires j + |w| <= |t| && t[j..j + |w|] == w
    ensures j <= |RStrip(t)| && StartsWith(RStrip(t)[j..], w)
  {
    var u := RStrip(t);
    assert !IsSpace(t[j + |w| - 1]) by {
      assert t[j + |w| - 1] == w[|w| - 1];
    }
    assert u == t[..|u|];
    assert u[j..][..|w|] == t[j..j + |w|];
  }

  /** A keyword anywhere in a message is found, lower-cased, by `keyword in message.lower().strip()`. */
  lemma KeywordFound(before: string, w: string, after: string)
    requires w != [] && !IsSpace(Lower(w)[0]) && !IsSpace(Lower(w)[|w| - 1])
    ensures Contains(Strip(Lower(before + w + after)), Lower(w))
  {
    LowerSlice(before, w, after);
    StripKeepsOccurrence(Lower(before + w + after), Lower(w), |before|);
  }

  /** Lower-casing works character by character, so it commutes with taking a slice. */
  lemma LowerSlice(before: string, w: string, after: string)
    ensures Lower(before + w + after)[|before|..|before| + |w|] == Lower(w)
  {
    var s := before + w + after;
    var l := Lower(s);
    forall i | 0 <= i < |w|
      ensures l[|before| + i] == Lower(w)[i]
    {
      assert s[|before| + i] == w[i];
    }
  }

  // ---------------------------------------------------------------------
  // split and join
  // ---------------------------------------------------------------------

  /** Text without the first character of `sub` cannot contain `sub`. */
  lemma {:induction false} AbsentLead(s: string, sub: string)
    requires sub != [] && sub[0] !in s
    ensures !Contains(s, sub)
    decreases |s|
  {
    if s != [] {
      assert s[0] != sub[0];
      AbsentLead(s[1..], sub);
    }
  }

  /** Text missing any one character of `sub` cannot contain `sub`. */
  lemma {:induction false} AbsentPart(s: string, sub: string, j: nat)
    requires j < |sub| && sub[j] !in s
    ensures !Contains(s, sub)
    decreases |s|
  {
    if |sub| <= |s| {
      assert s[..|sub|][j] == s[j];
      assert s[j] in s;
    }
    if s != [] {
      assert s == [s[0]] + s[1..];
      AbsentPart(s[1..], sub, j);
    }
  }

  /** `s.split(sep)`: the pieces between the non-overlapping occurrences of `sep`, left to right. */
  function Split(s: string, sep: string): (parts: seq<string>)
    requires sep != []
    ensures |parts| >= 1
    decreases |s|
  {
    match Find(s, sep)
    case None => [s]
    case Some(i) =>
      NoEarlierOccurrence(s, sep, i);
      [s[..i]] + Split(s[i + |sep|..], sep)
  }

  lemma NoEarlierOccurrence(s: string, sep: string, i: nat)
    requires sep != [] && i <= |s|
    requires forall k {:trigger StartsWith(s[k..], sep)} :: 0 <= k < i ==> !StartsWith(s[k..], sep)
    ensures !Contains(s[..i], sep)
  {
    if Contains(s[..i], sep) {
      OccursInPrefix(s, sep, i);
    }
  }

  lemma OccursInPrefix(s: string, sep: string, i: nat)
    requires sep != [] && i <= |s| && Contains(s[..i], sep)
    ensures exists k {:trigger StartsWith(s[k..], sep)} :: 0 <= k < i && StartsWith(s[k..], sep)
  {
    var k := ContainsWitness(s[..i], sep);
    assert s[k..][..|sep|] == s[..i][k..k + |sep|];
    assert StartsWith(s[k..], sep);
  }

  /** Where `sep` first occurs the split takes the text before it and splits the rest. */
  lemma SplitFound(s: string, sep: string, i: nat)
    requires sep != [] && Find(s, sep) == Some(i)
    ensures Split(s, sep) == [s[..i]] + Split(s[i + |sep|..], sep)
  {
  }

  /** Text without `sep` is one piece. */
  lemma SplitNone(s: string, sep: string)
    requires sep != [] && !Contains(s, sep)
    ensures Split(s, sep) == [s]
  {
  }

  /** `sep.join(parts)`: the parts in order, with `sep` between neighbours. */
  function Join(parts: seq<string>, sep: string): (r: string)
    ensures |parts| == 0 ==> r == []
    ensures |parts| == 1 ==> r == parts[0]
    decreases |parts|
  {
    if |parts| == 0 then ""
    else if |parts| == 1 then parts[0]
    else parts[0] + sep + Join(parts[1..], sep)
  }

  /** The last element, `parts[-1]`. */
  function Last(parts: seq<string>): string
    requires |parts| > 0
  {
    parts[|parts| - 1]
  }

  /** Joining the pieces of a split with the same separator gives back the original text. */
  lemma {:induction false} SplitThenJoin(s: string, sep: string)
    requires sep != []
    ensures Join(Split(s, sep), sep) == s
    decreases |s|
  {
    match Find(s, sep)
    case None =>
    case Some(i) =>
      SplitThenJoin(s[i + |sep|..], sep);
      SplitThenJoinStep(s, sep, i);
  }

  /** The inductive step: the first piece, the separator, then the join of the rest. */
  lemma SplitThenJoinStep(s: string, sep: string, i: nat)
    requires sep != [] && Find(s, sep) == Some(i)
    requires Join(Split(s[i + |sep|..], sep), sep) == s[i + |sep|..]
    ensures Join(Split(s, sep), sep) == s
  {
    var parts := Split(s[i + |sep|..], sep);
    SplitFound(s, sep, i);
    JoinCons(s[..i], parts, sep);
    Reassemble(s, sep, i);
  }

  lemma JoinCons(p: string, parts: seq<string>, sep: string)
    requires |parts| >= 1
    ensures Join([p] + parts, sep) == p + sep + Join(parts, sep)
  {
    assert ([p] + parts)[1..] == parts;
  }

  /** Text around an occurrence of `sep` put back together with `sep` is the text. */
  lemma Reassemble(s: string, sep: string, i: nat)
    requires i + |sep| <= |s| && StartsWith(s[i..], sep)
    ensures s[..i] + sep + s[i + |sep|..] == s
  {
    assert s[i..i + |sep|] == s[i..][..|sep|] == sep;
    assert s == s[..i] + s[i..i + |sep|] + s[i + |sep|..];
  }

  /**
   * Splitting a join gives back the parts, provided no part holds the first
   * character of the separator (so no occurrence can start inside a part).
   */
  lemma {:induction false} JoinThenSplit(parts: seq<string>, sep: string)
    requires sep != [] && |parts| >= 1
    requires forall i :: 0 <= i < |parts| ==> sep[0] !in parts[i]
    ensures Split(Join(parts, sep), sep) == parts
    decreases |parts|
  {
    var p := parts[0];
    if |parts| == 1 {
      if Contains(p, sep) {
        var k := ContainsWitness(p, sep);
      }
    } else {
      var rest := Join(parts[1..], sep);
      var s := p + sep + rest;
      assert Join(parts, sep) == s;
      assert s[|p|..][..|sep|] == sep;
      forall j | 0 <= j < |p|
        ensures !StartsWith(s[j..], sep)
      {
        assert s[j..][0] == p[j];
      }
      FindFirst(s, sep, |p|);
      assert s[..|p|] == p;
      assert s[|p| + |sep|..] == rest;
      JoinThenSplit(parts[1..], sep);
    }
  }

  // ---------------------------------------------------------------------
  // replace(c, "")
  // ---------------------------------------------------------------------

  /** `s.replace(c, "")`: every other character kept, in order. */
  function Remove(s: string, c: char): (r: string)
    ensures |r| <= |s|
    ensures c !in r
    ensures c !in s ==> r == s
  {
    if s == [] then []
    else (if s[0] == c then [] else [s[0]]) + Remove(s[1..], c)
  }

  /** `replace(c, "")` drops every `c` and keeps every other character, as often as it occurs. */
  lemma {:induction false} RemoveCounts(s: string, c: char)
    ensures multiset(Remove(s, c)) == multiset(s)[c := 0]
    decreases |s|
  {
    if s != [] {
      RemoveCounts(s[1..], c);
      assert s == [s[0]] + s[1..];
    }
  }

  /** `replace(c, "")` works piecewise: it keeps the order of what it keeps. */
  lemma {:induction false} RemoveConcat(a: string, b: string, c: char)
    ensures Remove(a + b, c) == Remove(a, c) + Remove(b, c)
    decreases |a|
  {
    if a != [] {
      assert (a + b)[1..] == a[1..] + b;
      RemoveConcat(a[1..], b, c);
    } else {
      assert a + b == b;
    }
  }

  /** Removing the separator from a join of separator-free parts concatenates the parts. */
  lemma {:induction false} RemoveJoin(parts: seq<string>, c: char)
    requires forall i :: 0 <= i < |parts| ==> c !in parts[i]
    ensures Remove(Join(parts, [c]), c) == Join(parts, "")
    decreases |parts|
  {
    if |parts| == 1 {
      assert c !in parts[0];
    } else if |parts| >= 2 {
      var head, tail := parts[0], parts[1..];
      assert c !in head;
      assert forall i :: 0 <= i < |tail| ==> c !in tail[i] by {
        forall i | 0 <= i < |tail| ensures c !in tail[i] {
          assert tail[i] == parts[i + 1];
        }
      }
      RemoveJoin(tail, c);
      RemoveSeparator(head, Join(tail, [c]), Join(tail, ""), c);
    }
  }

  lemma RemoveSeparator(head: string, rest: string, kept: string, c: char)
    requires c !in head && Remove(rest, c) == kept
    ensures Remove(head + [c] + rest, c) == head + kept
  {
    var tail := [c] + rest;
    assert Remove(tail, c) == kept by {
      assert tail[1..] == rest;
    }
    assert Remove(head, c) == head;
    assert head + [c] + rest == head + tail;
    RemoveConcat(head, tail, c);
  }

  /** A trailing `c` after text free of `c` is all that `replace(c, "")` removes. */
  lemma {:induction false} RemoveTrailing(s: string, c: char)
    requires c !in s
    ensures Remove(s + [c], c) == s
  {
    if s != [] {
      assert (s + [c])[1..] == s[1..] + [c];
      RemoveTrailing(s[1..], c);
    }
  }
}
