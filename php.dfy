/** String and number primitives with the semantics of the PHP built-ins the
    services use: `strpos(...) === 0`, `str_replace`, `strpos`/`substr` to cut a
    query string, `empty()` on strings, `preg_match('/\/x\/(\d+)/', ...)`,
    `(int)` on a digit string, and the decimal rendering of an auto-increment id. */
module Php {

  datatype Option<+T> = None | Some(value: T) {
    function GetOr(default: T): T {
      match this
      case Some(v) => v
      case None => default
    }
  }

  /** `strpos($s, $prefix) === 0`: the prefix fits and `s` agrees with it
      character by character. */
  function StartsWith(s: string, prefix: string): (b: bool)
    ensures b ==> |prefix| <= |s|
    ensures b && |s| == |prefix| ==> s == prefix
  {
    |prefix| <= |s| && s[..|prefix|] == prefix
  }

  /** `sub` occurs in `s` starting at index `i`. */
  predicate OccursAt(s: string, sub: string, i: int) {
    0 <= i && i + |sub| <= |s| && s[i..i + |sub|] == sub
  }

  /** `empty($s)` for a string: true for "" and for "0". The only non-blank
      string PHP counts as false is the digit zero. */
  function EmptyString(s: string): (b: bool)
    ensures b ==> |s| <= 1
    ensures b && s != "" ==> AllDigits(s) && ParseDigits(s) == 0
  {
    s == "" || s == "0"
  }

  /** `str_replace($search, $replacement, $s)` with one non-empty search
      string: every non-overlapping occurrence, scanning left to right. */
  function ReplaceAll(s: string, search: string, replacement: string): (r: string)
    requires search != ""
    ensures StartsWith(s, search) ==> StartsWith(r, replacement)
    ensures |s| > 0 && !StartsWith(s, search) ==> |r| > 0 && r[0] == s[0]
    ensures s == "" ==> r == ""
    decreases |s|
  {
    if |s| < |search| then s
    else if s[..|search|] == search then replacement + ReplaceAll(s[|search|..], search, replacement)
    else [s[0]] + ReplaceAll(s[1..], search, replacement)
  }

  /** A string with no occurrence of `search` comes back unchanged. */
  lemma {:induction false} ReplaceAllWithoutOccurrence(s: string, search: string, replacement: string)
    requires search != ""
    requires forall i :: 0 <= i <= |s| ==> !OccursAt(s, search, i)
    ensures ReplaceAll(s, search, replacement) == s
    decreases |s|
  {
    if |s| >= |search| {
      assert !OccursAt(s, search, 0);
      forall i | 0 <= i <= |s[1..]|
        ensures !OccursAt(s[1..], search, i)
      {
        assert !OccursAt(s, search, i + 1);
      }
      ReplaceAllWithoutOccurrence(s[1..], search, replacement);
      assert [s[0]] + s[1..] == s;
    }
  }

  /** A string lacking one of the characters of `search` comes back unchanged. */
  lemma ReplaceAllForeign(s: string, search: string, replacement: string, c: char)
    requires search != "" && c in search && c !in s
    ensures ReplaceAll(s, search, replacement) == s
  {
    var k :| 0 <= k < |search| && search[k] == c;
    forall i | 0 <= i <= |s|
      ensures !OccursAt(s, search, i)
    {
      if i + |search| <= |s| {
        assert s[i + k] != c;
        assert s[i..i + |search|][k] == s[i + k];
      }
    }
    ReplaceAllWithoutOccurrence(s, search, replacement);
  }

  /** A character that neither the input nor the replacement holds does not
      appear in the output. */
  lemma {:induction false} ReplaceAllKeepsOut(s: string, search: string, replacement: string, c: char)
    requires search != ""
    requires c !in s && c !in replacement
    ensures c !in ReplaceAll(s, search, replacement)
    decreases |s|
  {
    if |s| < |search| {
    } else if s[..|search|] == search {
      assert forall k :: 0 <= k < |s[|search|..]| ==> s[|search|..][k] == s[|search| + k];
      ReplaceAllKeepsOut(s[|search|..], search, replacement, c);
    } else {
      assert forall k :: 0 <= k < |s[1..]| ==> s[1..][k] == s[k + 1];
      ReplaceAllKeepsOut(s[1..], search, replacement, c);
    }
  }

  /** No occurrence of `search` can straddle a character `search` does not
      hold, so the replacement works on each side of it independently. */
  lemma {:induction false} ReplaceAllSplit(a: string, c: char, b: string, search: string, replacement: string)
    requires search != "" && c !in search
    ensures ReplaceAll(a + [c] + b, search, replacement)
         == ReplaceAll(a, search, replacement) + [c] + ReplaceAll(b, search, replacement)
    decreases |a|, 1
  {
    var s := a + [c] + b;
    var n := |search|;
    if |s| < n {
      ReplaceAllShort(a, search, replacement);
      ReplaceAllShort(b, search, replacement);
    } else if s[..n] == search {
      assert forall i :: 0 <= i < n ==> s[i] != c;
      assert s[|a|] == c;
      assert a[..n] == search;
      assert s[n..] == a[n..] + [c] + b;
      ReplaceAllSplit(a[n..], c, b, search, replacement);
      calc {
        ReplaceAll(s, search, replacement);
        replacement + ReplaceAll(a[n..] + [c] + b, search, replacement);
        replacement + ReplaceAll(a[n..], search, replacement) + [c] + ReplaceAll(b, search, replacement);
        ReplaceAll(a, search, replacement) + [c] + ReplaceAll(b, search, replacement);
      }
    } else if |a| == 0 {
      assert s == [c] + b;
      assert s[1..] == b;
    } else {
      ReplaceAllSplitHead(a, c, b, search, replacement);
    }
  }

  /** The step of ReplaceAllSplit where `a` is non-empty and no occurrence
      starts at the front. */
  lemma {:induction false} ReplaceAllSplitHead(a: string, c: char, b: string, search: string, replacement: string)
    requires search != "" && c !in search && |a| > 0
    requires |a + [c] + b| >= |search| && (a + [c] + b)[..|search|] != search
    ensures ReplaceAll(a + [c] + b, search, replacement)
         == ReplaceAll(a, search, replacement) + [c] + ReplaceAll(b, search, replacement)
    decreases |a|, 0
  {
    var s := a + [c] + b;
    var n := |search|;
    assert s[0] == a[0];
    assert s[1..] == a[1..] + [c] + b;
    assert !StartsWith(s, search);
    assert !StartsWith(a, search) by {
      if |a| >= n {
        assert a[..n] == s[..n];
      }
    }
    var ra1, rb := ReplaceAll(a[1..], search, replacement), ReplaceAll(b, search, replacement);
    calc {
      ReplaceAll(s, search, replacement);
      { ReplaceAllNoMatchHead(s, search, replacement); }
      [a[0]] + ReplaceAll(a[1..] + [c] + b, search, replacement);
      { ReplaceAllSplit(a[1..], c, b, search, replacement); }
      [a[0]] + (ra1 + [c] + rb);
      ([a[0]] + ra1) + [c] + rb;
      { ReplaceAllNoMatchHead(a, search, replacement); }
      ReplaceAll(a, search, replacement) + [c] + rb;
    }
  }

  /** Where no occurrence starts at the front, the first character is kept. */
  lemma ReplaceAllNoMatchHead(s: string, search: string, replacement: string)
    requires search != "" && |s| > 0 && !StartsWith(s, search)
    ensures ReplaceAll(s, search, replacement) == [s[0]] + ReplaceAll(s[1..], search, replacement)
  {
    if |s| < |search| {
      ReplaceAllShort(s[1..], search, replacement);
      assert [s[0]] + s[1..] == s;
    }
  }

  /** An occurrence at the front is replaced and the scan resumes after it. */
  lemma ReplaceAllLeading(search: string, rest: string, replacement: string)
    requires search != ""
    ensures ReplaceAll(search + rest, search, replacement) == replacement + ReplaceAll(rest, search, replacement)
  {
    assert (search + rest)[..|search|] == search;
    assert (search + rest)[|search|..] == rest;
  }

  /** A string shorter than the search string is returned as it is. */
  lemma ReplaceAllShort(s: string, search: string, replacement: string)
    requires search != "" && |s| < |search|
    ensures ReplaceAll(s, search, replacement) == s
  {
  }

  /** `strpos($s, $c)`: the index of the first `c`, or none (PHP's `false`). */
  function IndexOf(s: string, c: char): (r: Option<nat>)
    ensures r.Some? ==> r.value < |s| && s[r.value] == c && c !in s[..r.value]
    ensures r.None? <==> c !in s
  {
    if s == [] then None
    else if s[0] == c then Some(0)
    else
      match IndexOf(s[1..], c)
      case None => None
      case Some(i) =>
        assert s[..i + 1] == [s[0]] + s[1..][..i];
        Some(i + 1)
  }

  /** `substr($s, 0, strpos($s, '?'))` when `$s` holds a '?', else `$s`:
      the longest prefix of `s` that holds no '?'. */
  function StripQuery(s: string): (r: string)
    ensures r <= s && '?' !in r
    ensures '?' !in s ==> r == s
    ensures '?' in s ==> |r| < |s| && s[|r|] == '?'
  {
    match IndexOf(s, '?')
    case None => s
    case Some(i) => s[..i]
  }

  /** Cutting `a + "?" + b` at its first '?' gives back `a` when `a` has none. */
  lemma StripQueryAt(a: string, b: string)
    requires '?' !in a
    ensures StripQuery(a + ['?'] + b) == a
  {
    var s := a + ['?'] + b;
    var r := StripQuery(s);
    assert forall i :: 0 <= i < |r| ==> s[i] != '?';
    assert forall i :: 0 <= i < |a| ==> s[i] != '?';
    assert s[|a|] == '?';
    assert |r| == |a|;
    assert r == s[..|r|] == s[..|a|] == a;
  }

  /** Splitting a string at its first '?' and putting it back together. */
  lemma StripQuerySplit(s: string)
    requires '?' in s
    ensures s == StripQuery(s) + ['?'] + s[|StripQuery(s)| + 1..]
  {
  }

  predicate IsDigit(c: char) {
    '0' <= c <= '9'
  }

  predicate AllDigits(s: string) {
    forall i :: 0 <= i < |s| ==> IsDigit(s[i])
  }

  function DigitValue(c: char): (d: nat)
    requires IsDigit(c)
    ensures d < 10
  {
    c as int - '0' as int
  }

  function DigitChar(d: nat): (c: char)
    requires d < 10
    ensures IsDigit(c) && DigitValue(c) == d
  {
    ('0' as int + d) as char
  }

  /** `(int)` applied to a string of decimal digits. */
  function ParseDigits(s: string): nat
    requires AllDigits(s)
    decreases |s|
  {
    if s == [] then 0 else 10 * ParseDigits(s[..|s| - 1]) + DigitValue(s[|s| - 1])
  }

  /** The decimal rendering of a non-negative integer: what `lastInsertId()`
      returns and what PHP prints for an int. Non-empty, digits only, and
      without a leading zero unless the number is zero. */
  function NatToString(n: nat): (r: string)
    ensures |r| > 0 && AllDigits(r)
    ensures (|r| == 1) == (n < 10)
    ensures (r[0] == '0') == (n == 0)
    decreases n
  {
    if n < 10 then [DigitChar(n)] else NatToString(n / 10) + [DigitChar(n % 10)]
  }

  /** A digit string is in canonical form: non-empty, no leading zero. */
  predicate Canonical(s: string) {
    |s| > 0 && AllDigits(s) && (|s| > 1 ==> s[0] != '0')
  }

  /** Reading back a rendered number gives the number. */
  lemma {:induction false} ParseNatToString(n: nat)
    ensures ParseDigits(NatToString(n)) == n
    decreases n
  {
    if n >= 10 {
      var s := NatToString(n);
      assert s[..|s| - 1] == NatToString(n / 10);
      ParseNatToString(n / 10);
    }
  }

  /** A digit string whose first digit is not zero denotes a positive number. */
  lemma {:induction false} ParsePositive(s: string)
    requires |s| > 0 && AllDigits(s) && s[0] != '0'
    ensures ParseDigits(s) > 0
    decreases |s|
  {
    if |s| > 1 {
      ParsePositive(s[..|s| - 1]);
    }
  }

  /** Rendering a parsed canonical digit string gives the string back. */
  lemma {:induction false} NatToStringParse(s: string)
    requires Canonical(s)
    ensures NatToString(ParseDigits(s)) == s
    decreases |s|
  {
    var last := s[|s| - 1];
    assert DigitChar(DigitValue(last)) == last;
    if |s| > 1 {
      var init := s[..|s| - 1];
      ParsePositive(init);
      NatToStringParse(init);
      var n := ParseDigits(s);
      assert n / 10 == ParseDigits(init) && n % 10 == DigitValue(last);
      assert init + [last] == s;
    }
  }

  /** The longest prefix of `s` made of digits (what a greedy `\d+` takes). */
  function LeadingDigits(s: string): (r: string)
    ensures r <= s && AllDigits(r)
    ensures |r| < |s| ==> !IsDigit(s[|r|])
  {
    if s == [] || !IsDigit(s[0]) then []
    else
      var rest := LeadingDigits(s[1..]);
      assert [s[0]] + rest <= s by {
        assert s == [s[0]] + s[1..];
      }
      [s[0]] + rest
  }

  /** The regular expression `<pat>(\d+)` matches at index `i` of `s`. */
  predicate NumberAt(s: string, pat: string, i: int) {
    OccursAt(s, pat, i) && i + |pat| < |s| && IsDigit(s[i + |pat|])
  }

  /** The leftmost index at or after `from` where `<pat>(\d+)` matches. */
  function FirstNumberAt(s: string, pat: string, from: nat): (r: Option<nat>)
    requires from <= |s|
    ensures r.Some? ==> from <= r.value < |s| && NumberAt(s, pat, r.value)
    ensures r.Some? ==> forall j :: from <= j < r.value ==> !NumberAt(s, pat, j)
    ensures r.None? ==> forall j :: from <= j <= |s| ==> !NumberAt(s, pat, j)
    decreases |s| - from
  {
    if from == |s| then None
    else if NumberAt(s, pat, from) then Some(from)
    else FirstNumberAt(s, pat, from + 1)
  }

  /** `<pat>(\d+)` matches at `i` and nowhere before it. */
  predicate FirstNumber(s: string, pat: string, i: int) {
    0 <= i < |s| && NumberAt(s, pat, i) && forall j :: 0 <= j < i ==> !NumberAt(s, pat, j)
  }

  /** The number that the group `(\d+)` captures for a match at `i`. */
  function Captured(s: string, pat: string, i: int): nat
    requires NumberAt(s, pat, i)
  {
    ParseDigits(LeadingDigits(s[i + |pat|..]))
  }

  /** `preg_match('/<pat>(\d+)/', $s, $m)` followed by `(int)$m[1]`: the
      pattern is not anchored, the leftmost match wins and `\d+` is greedy.
      None when the pattern does not match. */
  function MatchNumber(s: string, pat: string): (r: Option<nat>)
    ensures r.None? <==> forall j :: 0 <= j <= |s| ==> !NumberAt(s, pat, j)
    ensures r.Some? ==> exists i :: FirstNumber(s, pat, i) && r.value == Captured(s, pat, i)
  {
    match FirstNumberAt(s, pat, 0)
    case None => None
    case Some(i) =>
      assert FirstNumber(s, pat, i);
      Some(Captured(s, pat, i))
  }

  /** A string made of only digits is its own longest digit prefix. */
  lemma {:induction false} LeadingDigitsAll(s: string)
    requires AllDigits(s)
    ensures LeadingDigits(s) == s
    decreases |s|
  {
    if s != [] {
      assert AllDigits(s[1..]);
      LeadingDigitsAll(s[1..]);
      assert s == [s[0]] + s[1..];
    }
  }

  /** The path a client builds from the pattern and an id's digits is
      matched at its start and yields that id. */
  lemma MatchNumberAfter(pat: string, digits: string)
    requires digits != "" && AllDigits(digits)
    ensures MatchNumber(pat + digits, pat) == Some(ParseDigits(digits))
  {
    var s := pat + digits;
    assert s[0..|pat|] == pat;
    assert s[|pat|] == digits[0];
    assert NumberAt(s, pat, 0);
    assert s[|pat|..] == digits;
    LeadingDigitsAll(digits);
    assert FirstNumberAt(s, pat, 0) == Some(0);
  }

  /** A pattern followed by an id's decimal digits: the regex captures the
      id, and the digits add no '?'. */
  lemma PatternThenId(pat: string, id: nat)
    ensures MatchNumber(pat + NatToString(id), pat) == Some(id)
    ensures |pat + NatToString(id)| > |pat|
    ensures '?' !in pat ==> '?' !in pat + NatToString(id)
  {
    var digits := NatToString(id);
    MatchNumberAfter(pat, digits);
    ParseNatToString(id);
    assert forall i :: 0 <= i < |digits| ==> IsDigit(digits[i]);
    assert forall i :: |pat| <= i < |pat + digits| ==> (pat + digits)[i] == digits[i - |pat|];
  }
}
