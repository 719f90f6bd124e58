/** The handful of Python `str` operations the session engine relies on:
    `strip()`, `in` (substring test), `split(sep)` / `sep.join(parts)`,
    decimal formatting of lengths and a decimal `int()` parser. */
module Strings {
  import opened Wrappers

  // ---------------------------------------------------------------------
  // Whitespace and strip()
  // ---------------------------------------------------------------------

  /** The characters Python's `str.isspace()` accepts, which are exactly
      the ones `str.strip()` with no argument removes. */
  predicate IsSpace(c: char) {
    var n := c as int;
    || (9 <= n <= 13) || (28 <= n <= 32) || n == 0x85 || n == 0xA0 || n == 0x1680
    || (0x2000 <= n <= 0x200A) || n == 0x2028 || n == 0x2029 || n == 0x202F
    || n == 0x205F || n == 0x3000
  }

  predicate AllSpace(s: string) {
    forall k :: 0 <= k < |s| ==> IsSpace(s[k])
  }

  /** No leading and no trailing whitespace. */
  predicate Stripped(s: string) {
    |s| > 0 ==> !IsSpace(s[0]) && !IsSpace(s[|s| - 1])
  }

  /** Index of the first non-whitespace character at or after `i`
      (or `|s|` when there is none). */
  function SkipSpace(s: string, i: nat): (k: nat)
    requires i <= |s|
    ensures i <= k <= |s|
    ensures forall m :: i <= m < k ==> IsSpace(s[m])
    ensures k < |s| ==> !IsSpace(s[k])
    decreases |s| - i
  {
    if i < |s| && IsSpace(s[i]) then SkipSpace(s, i + 1) else i
  }

  /** One past the last non-whitespace character before `j` and at or
      after `lo` (or `lo` when there is none). */
  function SkipSpaceBack(s: string, lo: nat, j: nat): (k: nat)
    requires lo <= j <= |s|
    ensures lo <= k <= j
    ensures forall m :: k <= m < j ==> IsSpace(s[m])
    ensures k > lo ==> !IsSpace(s[k - 1])
    decreases j
  {
    if j > lo && IsSpace(s[j - 1]) then SkipSpaceBack(s, lo, j - 1) else j
  }

  /** Python's `s.strip()`: the result neither starts nor ends with
      whitespace, and a string that already does not is left alone. */
  function Trim(s: string): (r: string)
    ensures Stripped(r)
    ensures |r| <= |s|
    ensures Stripped(s) ==> r == s
  {
    var lo := SkipSpace(s, 0);
    var hi := SkipSpaceBack(s, lo, |s|);
    s[lo..hi]
  }

  /** Only whitespace is cut, and only from the ends: the result is a
      contiguous middle part of the input. */
  lemma TrimIsInfix(s: string)
    ensures exists i :: 0 <= i <= |s| - |Trim(s)| && Trim(s) == s[i..i + |Trim(s)|]
                        && AllSpace(s[..i]) && AllSpace(s[i + |Trim(s)|..])
  {
    var lo := SkipSpace(s, 0);
    var hi := SkipSpaceBack(s, lo, |s|);
    assert Trim(s) == s[lo..hi];
    assert AllSpace(s[..lo]);
    assert AllSpace(s[hi..]);
  }

  /** Stripping twice is stripping once. */
  lemma TrimIdempotent(s: string)
    ensures Trim(Trim(s)) == Trim(s)
  {
  }

  // ---------------------------------------------------------------------
  // Substring test (Python's `sub in s`)
  // ---------------------------------------------------------------------

  ghost predicate IsSubstring(sub: string, s: string) {
    exists i :: 0 <= i <= |s| && sub <= s[i..]
  }

  /** Executable `sub in s`, a left-to-right search. */
  function Contains(s: string, sub: string): (r: bool)
    ensures r <==> IsSubstring(sub, s)
    decreases |s|
  {
    if sub <= s then
      assert sub <= s[0..];
      true
    else if |s| == 0 then false
    else
      var r := Contains(s[1..], sub);
      if r then
        var i :| 0 <= i <= |s[1..]| && sub <= s[1..][i..];
        assert s[1..][i..] == s[i + 1..];
        true
      else
        assert forall i :: 1 <= i <= |s| ==> s[i..] == s[1..][i - 1..];
        false
  }

  lemma SubstringOfConcat(a: string, sub: string, b: string)
    ensures IsSubstring(sub, a + sub + b)
  {
    assert sub <= (a + sub + b)[|a|..];
  }

  /** A substring stays one when text is appended. */
  lemma SubstringExtends(sub: string, s: string, t: string)
    requires IsSubstring(sub, s)
    ensures IsSubstring(sub, s + t)
  {
    var i :| 0 <= i <= |s| && sub <= s[i..];
    assert s[i..] <= (s + t)[i..];
  }

  /** A substring of a middle part is a substring of the whole. */
  lemma SubstringWidens(sub: string, a: string, mid: string, b: string)
    requires IsSubstring(sub, mid)
    ensures IsSubstring(sub, a + mid + b)
  {
    var i :| 0 <= i <= |mid| && sub <= mid[i..];
    assert mid[i..] <= (a + mid + b)[|a| + i..];
  }

  // ---------------------------------------------------------------------
  // split(sep) and sep.join(parts)
  // ---------------------------------------------------------------------

  /** `sep.join(parts)`. */
  function Join(parts: seq<string>, sep: char): string {
    if |parts| == 0 then ""
    else if |parts| == 1 then parts[0]
    else parts[0] + [sep] + Join(parts[1..], sep)
  }

  /** Python's `s.split(sep)` with a one-character separator: never empty,
      no part contains the separator, and joining the parts gives `s` back. */
  function Split(s: string, sep: char): (parts: seq<string>)
    ensures |parts| >= 1
    ensures forall k :: 0 <= k < |parts| ==> sep !in parts[k]
    ensures Join(parts, sep) == s
    decreases |s|
  {
    if |s| == 0 then [""]
    else
      var rest := Split(s[1..], sep);
      if s[0] == sep then
        [""] + rest
      else
        assert s == [s[0]] + s[1..];
        [[s[0]] + rest[0]] + rest[1..]
  }

  /** One step of `Split`: how a leading character extends the parts of the rest. */
  lemma SplitCons(c: char, rest: string, sep: char)
    ensures c == sep ==> Split([c] + rest, sep) == [""] + Split(rest, sep)
    ensures c != sep ==> Split([c] + rest, sep)
                         == [[c] + Split(rest, sep)[0]] + Split(rest, sep)[1..]
  {
    assert ([c] + rest)[1..] == rest;
  }

  /** Splitting a join of separator-free parts gives the parts back. */
  lemma {:induction false} JoinSplit(parts: seq<string>, sep: char)
    requires |parts| >= 1
    requires forall k :: 0 <= k < |parts| ==> sep !in parts[k]
    ensures Split(Join(parts, sep), sep) == parts
    decreases |parts|, |parts[0]|
  {
    if |parts[0]| == 0 {
      if |parts| > 1 {
        var tail := parts[1..];
        JoinSplit(tail, sep);
        assert Join(parts, sep) == [sep] + Join(tail, sep);
        SplitCons(sep, Join(tail, sep), sep);
        assert parts == [""] + tail;
      }
    } else {
      var c := parts[0][0];
      var shorter := [parts[0][1..]] + parts[1..];
      assert forall k :: 1 <= k < |shorter| ==> shorter[k] == parts[k];
      JoinSplit(shorter, sep);
      JoinConsHead(c, parts[0][1..], parts[1..], sep);
      assert [c] + parts[0][1..] == parts[0];
      assert [parts[0]] + parts[1..] == parts;
      SplitCons(c, Join(shorter, sep), sep);
    }
  }

  /** Prepending a character to the first part prepends it to the join. */
  lemma JoinConsHead(c: char, first: string, rest: seq<string>, sep: char)
    ensures Join([[c] + first] + rest, sep) == [c] + Join([first] + rest, sep)
  {
    if |rest| > 0 {
      assert ([[c] + first] + rest)[1..] == rest;
      assert ([first] + rest)[1..] == rest;
    }
  }

  /** Joining a non-empty tail of the parts gives a suffix of the whole join. */
  lemma {:induction false} JoinSuffix(parts: seq<string>, sep: char, k: nat)
    requires k < |parts|
    ensures exists pre :: Join(parts, sep) == pre + Join(parts[k..], sep)
    decreases k
  {
    if k == 0 {
      assert Join(parts, sep) == "" + Join(parts[0..], sep);
    } else {
      JoinSuffix(parts[1..], sep, k - 1);
      var pre :| Join(parts[1..], sep) == pre + Join(parts[1..][k - 1..], sep);
      assert parts[1..][k - 1..] == parts[k..];
      assert Join(parts, sep) == (parts[0] + [sep] + pre) + Join(parts[k..], sep);
    }
  }

  // ---------------------------------------------------------------------
  // Decimal numbers
  // ---------------------------------------------------------------------

  predicate IsDigit(c: char) {
    '0' <= c <= '9'
  }

  predicate AllDigits(s: string) {
    forall k :: 0 <= k < |s| ==> IsDigit(s[k])
  }

  function DigitChar(d: nat): (c: char)
    requires d < 10
    ensures IsDigit(c) && c as int - '0' as int == d
  {
    (d + '0' as int) as char
  }

  /** Python's `str(n)` for a natural number (and the `{n}` in an f-string):
      canonical digits, with a leading zero only for zero itself. */
  function NatToString(n: nat): (r: string)
    ensures |r| >= 1 && AllDigits(r)
    ensures r[0] == '0' <==> n == 0
    ensures |r| == 1 || r[0] != '0'
    decreases n
  {
    if n < 10 then [DigitChar(n)] else NatToString(n / 10) + [DigitChar(n % 10)]
  }

  /** The value of a string of decimal digits. */
  function DigitsValue(s: string): nat
    requires AllDigits(s)
    decreases |s|
  {
    if |s| == 0 then 0
    else DigitsValue(s[..|s| - 1]) * 10 + (s[|s| - 1] as int - '0' as int)
  }

  lemma {:induction false} NatToStringValue(n: nat)
    ensures DigitsValue(NatToString(n)) == n
    decreases n
  {
    if n >= 10 {
      NatToStringValue(n / 10);
      var s := NatToString(n);
      assert s[..|s| - 1] == NatToString(n / 10);
    }
  }

  /** The texts the decimal parser accepts: an optional sign followed by
      one or more ASCII digits. */
  predicate IsDecimal(text: string) {
    || (|text| >= 1 && AllDigits(text))
    || (|text| >= 2 && (text[0] == '-' || text[0] == '+') && AllDigits(text[1..]))
  }

  /** A decimal `int(text)`: an optional sign followed by one or more
      ASCII digits; anything else fails to parse (Python raises
      `ValueError`, read here as `None`). */
  function ParseInt(text: string): (r: Option<int>)
    ensures r.Some? <==> IsDecimal(text)
    ensures r.Some? && AllDigits(text) ==> r.value == DigitsValue(text)
    ensures r.Some? && text[0] == '-' ==> r.value == -(DigitsValue(text[1..]) as int)
    ensures r.Some? && text[0] == '+' ==> r.value == DigitsValue(text[1..])
  {
    if |text| >= 1 && (text[0] == '-' || text[0] == '+') then
      var body := text[1..];
      if |body| >= 1 && AllDigits(body) then
        var v: int := DigitsValue(body);
        Some(if text[0] == '-' then -v else v)
      else None
    else if |text| >= 1 && AllDigits(text) then Some(DigitsValue(text))
    else None
  }

  /** `int(str(n)) == n` and `int("-" + str(n)) == -n`: the parser reads
      back what the formatter writes. */
  lemma ParseNatToString(n: nat)
    ensures ParseInt(NatToString(n)) == Some(n)
    ensures ParseInt("-" + NatToString(n)) == Some(-(n as int))
  {
    var s := NatToString(n);
    NatToStringValue(n);
    assert s[0] != '-' && s[0] != '+';
    assert ("-" + s)[1..] == s;
  }

  /** The empty string is not a number. */
  lemma ParseEmptyFails()
    ensures ParseInt("") == None
  {
  }
}
