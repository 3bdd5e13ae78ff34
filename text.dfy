/** String operations the pages use: JavaScript's `toLowerCase`, `includes`,
    `trim`, `substring`, number-to-string conversion and string concatenation. */
module Text {

  function Min(a: int, b: int): int { if a <= b then a else b }

  function Max(a: int, b: int): int { if a <= b then b else a }

  /** `toLowerCase` on one character; only the ASCII letters are mapped. */
  function LowerChar(c: char): char
  {
    if 'A' <= c <= 'Z' then (c as int + 32) as char else c
  }

  function ToLower(s: string): (r: string)
    ensures |r| == |s|
    ensures forall i :: 0 <= i < |s| ==> r[i] == LowerChar(s[i])
  {
    seq(|s|, i requires 0 <= i < |s| => LowerChar(s[i]))
  }

  /** Lower-casing twice is lower-casing once. */
  lemma ToLowerIdempotent(s: string)
    ensures ToLower(ToLower(s)) == ToLower(s)
  {
  }

  /** `s.includes(sub)`: `sub` occurs in `s` at some position. */
  predicate Contains(s: string, sub: string)
  {
    exists i :: 0 <= i <= |s| && sub <= s[i..]
  }

  lemma ContainsItself(s: string)
    ensures Contains(s, s)
  {
    assert s <= s[0..];
  }

  /** `s.toLowerCase().includes(sub.toLowerCase())`: the empty search is found
      everywhere, an exact occurrence is found, and a longer search never is. */
  predicate IncludesIgnoringCase(s: string, sub: string)
    ensures sub == "" ==> IncludesIgnoringCase(s, sub)
    ensures Contains(s, sub) ==> IncludesIgnoringCase(s, sub)
    ensures IncludesIgnoringCase(s, sub) ==> |sub| <= |s|
  {
    var r := Contains(ToLower(s), ToLower(sub));
    assert sub == "" ==> r by {
      if sub == "" {
        assert ToLower(sub) <= ToLower(s)[0..];
      }
    }
    assert Contains(s, sub) ==> r by {
      if Contains(s, sub) {
        var i :| 0 <= i <= |s| && sub <= s[i..];
        assert ToLower(sub) <= ToLower(s)[i..];
      }
    }
    r
  }

  /** Matching ignoring case does not change when either side is lower-cased first. */
  lemma IncludesIgnoringCaseOfLowered(s: string, sub: string)
    ensures IncludesIgnoringCase(ToLower(s), ToLower(sub)) == IncludesIgnoringCase(s, sub)
  {
    ToLowerIdempotent(s);
    ToLowerIdempotent(sub);
  }

  /** The characters JavaScript's `trim` removes: white space and line terminators. */
  predicate IsWhitespace(c: char)
  {
    || c == ' ' || '\t' <= c <= '\r'
    || c == '\U{A0}' || c == '\U{1680}' || '\U{2000}' <= c <= '\U{200A}'
    || c == '\U{2028}' || c == '\U{2029}' || c == '\U{202F}' || c == '\U{205F}'
    || c == '\U{3000}' || c == '\U{FEFF}'
  }

  /** Every character of `s` is white space (so `s.trim() === ''`). */
  predicate IsBlank(s: string)
  {
    forall i :: 0 <= i < |s| ==> IsWhitespace(s[i])
  }

  /** Every character of `s` in `[lo, hi)` is white space. */
  predicate BlankBetween(s: string, lo: int, hi: int)
  {
    forall k :: lo <= k < hi && 0 <= k < |s| ==> IsWhitespace(s[k])
  }

  /** The index of the first character at or after `i` that is not white space,
      or `|s|`. */
  function SkipBlankFrom(s: string, i: nat): (n: nat)
    requires i <= |s|
    ensures i <= n <= |s| && BlankBetween(s, i, n)
    ensures n < |s| ==> !IsWhitespace(s[n])
    decreases |s| - i
  {
    if i < |s| && IsWhitespace(s[i]) then SkipBlankFrom(s, i + 1) else i
  }

  /** The index just past the last character before `j` and at or after `lo`
      that is not white space, or `lo`. */
  function SkipBlankBefore(s: string, lo: nat, j: nat): (n: nat)
    requires lo <= j <= |s|
    ensures lo <= n <= j && BlankBetween(s, n, j)
    ensures n > lo ==> !IsWhitespace(s[n - 1])
    decreases j
  {
    if j > lo && IsWhitespace(s[j - 1]) then SkipBlankBefore(s, lo, j - 1) else j
  }

  /** `r` is `s[i..j]` with only white space before `i` and after `j`. */
  predicate IsTrimOf(r: string, s: string, i: int, j: int)
  {
    0 <= i <= j <= |s| && r == s[i..j] && BlankBetween(s, 0, i) && BlankBetween(s, j, |s|)
  }

  /** `s.trim()`: the middle of `s` between a blank prefix and a blank suffix,
      starting and ending with a character that is not white space. */
  function Trim(s: string): (r: string)
    ensures exists i, j :: IsTrimOf(r, s, i, j)
    ensures r != "" ==> !IsWhitespace(r[0]) && !IsWhitespace(r[|r| - 1])
  {
    var i := SkipBlankFrom(s, 0);
    var j := SkipBlankBefore(s, i, |s|);
    assert IsTrimOf(s[i..j], s, i, j);
    s[i..j]
  }

  /** A string trims to the empty string exactly when it is blank. */
  lemma TrimEmptyIffBlank(s: string)
    ensures Trim(s) == "" <==> IsBlank(s)
  {
    var r := Trim(s);
    var i, j :| IsTrimOf(r, s, i, j);
    if r != "" {
      assert r[0] == s[i];
    }
  }

  predicate IsDigit(c: char) { '0' <= c <= '9' }

  function DigitChar(d: int): (c: char)
    requires 0 <= d < 10
    ensures IsDigit(c) && c as int - '0' as int == d
  {
    ('0' as int + d) as char
  }

  /** The value of a string of decimal digits, most significant digit first. */
  function DigitsValue(s: string): int
  {
    if s == [] then 0 else 10 * DigitsValue(s[..|s| - 1]) + (s[|s| - 1] as int - '0' as int)
  }

  /** A numeral without sign: digits only, no leading zero unless it is "0". */
  predicate CanonicalDigits(s: string)
  {
    && |s| > 0
    && (forall i :: 0 <= i < |s| ==> IsDigit(s[i]))
    && (s[0] == '0' ==> |s| == 1)
  }

  /** The decimal numeral of `n`, without leading zeros. */
  function NatToString(n: nat): (r: string)
    ensures CanonicalDigits(r)
    ensures DigitsValue(r) == n
    ensures r[0] == '0' <==> n == 0
    decreases n
  {
    if n < 10 then [DigitChar(n)]
    else
      var r := NatToString(n / 10) + [DigitChar(n % 10)];
      assert r[..|r| - 1] == NatToString(n / 10);
      r
  }

  /** Every canonical numeral is the numeral of its value. */
  lemma {:induction false} NatToStringOfDigitsValue(s: string)
    requires CanonicalDigits(s)
    ensures DigitsValue(s) >= 0 && NatToString(DigitsValue(s)) == s
    decreases |s|
  {
    var init := s[..|s| - 1];
    if |s| == 1 {
      assert DigitsValue(s) == s[0] as int - '0' as int;
    } else {
      assert CanonicalDigits(init);
      NatToStringOfDigitsValue(init);
      var n := DigitsValue(s);
      var d := s[|s| - 1] as int - '0' as int;
      assert n == 10 * DigitsValue(init) + d;
      assert DigitsValue(init) > 0;
      assert n / 10 == DigitsValue(init) && n % 10 == d;
      assert s == init + [DigitChar(d)];
    }
  }

  /** The value of a numeral with an optional leading '-'. */
  function NumeralValue(s: string): int
  {
    if |s| > 0 && s[0] == '-' then -DigitsValue(s[1..]) else DigitsValue(s)
  }

  /** A numeral with an optional sign: '-' only in front of a nonzero value. */
  predicate CanonicalNumeral(s: string)
  {
    if |s| > 0 && s[0] == '-' then CanonicalDigits(s[1..]) && s[1] != '0' else CanonicalDigits(s)
  }

  /** JavaScript's conversion of an integer to a string, with a leading '-' when negative. */
  function IntToString(n: int): (r: string)
    ensures CanonicalNumeral(r)
    ensures |r| > 0 && (r[0] == '-' <==> n < 0)
    ensures NumeralValue(r) == n
  {
    if n < 0 then
      var r := "-" + NatToString(-n);
      assert r[1..] == NatToString(-n);
      r
    else NatToString(n)
  }

  /** Every canonical numeral is the string of its value. */
  lemma IntToStringOfNumeralValue(s: string)
    requires CanonicalNumeral(s)
    ensures IntToString(NumeralValue(s)) == s
  {
    if |s| > 0 && s[0] == '-' {
      NatToStringOfDigitsValue(s[1..]);
      assert s == "-" + s[1..];
    } else {
      NatToStringOfDigitsValue(s);
    }
  }

  /** The chunks joined in order. */
  function Concat(chunks: seq<string>): string
  {
    if chunks == [] then "" else Concat(chunks[..|chunks| - 1]) + chunks[|chunks| - 1]
  }
}
