/**
 * The few pieces of JavaScript string semantics the source relies on:
 * `String.prototype.trim`, the decimal spelling of array indices, and the
 * conversion of a numeric string to a number. A `char` is a Unicode
 * scalar value, where JavaScript counts UTF-16 code units.
 */
module JsString {
  import opened Wrappers

  /** WhiteSpace and LineTerminator code points of ECMAScript, the set `trim` removes. */
  predicate IsWhiteSpace(c: char) {
    c == '\t' || c == '\n' || c == '\U{000B}' || c == '\U{000C}' || c == '\r' || c == ' '
    || c == '\U{00A0}' || c == '\U{1680}' || ('\U{2000}' <= c <= '\U{200A}')
    || c == '\U{2028}' || c == '\U{2029}' || c == '\U{202F}' || c == '\U{205F}'
    || c == '\U{3000}' || c == '\U{FEFF}'
  }

  /** The first index from `i` on that does not hold white space (`|s|` if there is none). */
  function SkipWhiteSpace(s: string, i: nat): (r: nat)
    requires i <= |s|
    ensures i <= r <= |s|
    ensures forall k :: i <= k < r ==> IsWhiteSpace(s[k])
    ensures r < |s| ==> !IsWhiteSpace(s[r])
    decreases |s| - i
  {
    if i < |s| && IsWhiteSpace(s[i]) then SkipWhiteSpace(s, i + 1) else i
  }

  /** The end of `s[lo..j]` once its trailing white space is cut off. */
  function SkipWhiteSpaceBack(s: string, lo: nat, j: nat): (r: nat)
    requires lo <= j <= |s|
    ensures lo <= r <= j
    ensures forall k :: r <= k < j ==> IsWhiteSpace(s[k])
    ensures r > lo ==> !IsWhiteSpace(s[r - 1])
    decreases j
  {
    if j > lo && IsWhiteSpace(s[j - 1]) then SkipWhiteSpaceBack(s, lo, j - 1) else j
  }

  /** JavaScript's `s.trim()`: leading white space is removed, then trailing white space. */
  function Trim(s: string): string {
    var i := SkipWhiteSpace(s, 0);
    s[i..SkipWhiteSpaceBack(s, i, |s|)]
  }

  /**
   * `Trim(s)` is the infix of `s` left after cutting white space from both
   * ends, and it neither starts nor ends with white space.
   */
  lemma TrimIsInfix(s: string)
    ensures exists i, j ::
              && 0 <= i <= j <= |s| && Trim(s) == s[i..j]
              && (forall k :: 0 <= k < i ==> IsWhiteSpace(s[k]))
              && (forall k :: j <= k < |s| ==> IsWhiteSpace(s[k]))
    ensures Trim(s) != [] ==> !IsWhiteSpace(Trim(s)[0]) && !IsWhiteSpace(Trim(s)[|Trim(s)| - 1])
  {
    var i := SkipWhiteSpace(s, 0);
    var j := SkipWhiteSpaceBack(s, i, |s|);
    assert Trim(s) == s[i..j];
    if i < j {
      assert Trim(s)[0] == s[i] && Trim(s)[|Trim(s)| - 1] == s[j - 1];
    }
  }

  /** Trimming twice is trimming once. */
  lemma TrimIdempotent(s: string)
    ensures Trim(Trim(s)) == Trim(s)
  {
    var t := Trim(s);
    TrimIsInfix(s);
    if t != [] {
      assert SkipWhiteSpace(t, 0) == 0;
      assert SkipWhiteSpaceBack(t, 0, |t|) == |t|;
      assert t[0..|t|] == t;
    }
  }

  predicate IsDigit(c: char) {
    '0' <= c <= '9'
  }

  predicate AllDigits(s: string) {
    forall k :: 0 <= k < |s| ==> IsDigit(s[k])
  }

  function DigitChar(d: nat): (c: char)
    requires d < 10
    ensures IsDigit(c)
  {
    ('0' as int + d) as char
  }

  function DigitValue(c: char): nat
    requires IsDigit(c)
  {
    c as int - '0' as int
  }

  /** The decimal value of a string of digits (leading zeros allowed). */
  function DigitsValue(s: string): nat
    requires AllDigits(s)
  {
    if s == [] then 0 else DigitsValue(s[..|s| - 1]) * 10 + DigitValue(s[|s| - 1])
  }

  /** The decimal spelling of `n`, as JavaScript converts a non-negative integer to a string. */
  function NatToString(n: nat): (r: string)
    ensures r != [] && AllDigits(r)
    ensures |r| > 1 ==> r[0] != '0'
  {
    if n < 10 then [DigitChar(n)] else NatToString(n / 10) + [DigitChar(n % 10)]
  }

  /** JavaScript's spelling of an integer, with a minus sign when negative. */
  function IntToString(i: int): string {
    if i < 0 then "-" + NatToString(-i) else NatToString(i)
  }

  /** The index a property key denotes on an array or a string: a canonical decimal numeral. */
  function ParseIndex(key: string): (r: Option<nat>)
    ensures r.Some? ==> key != [] && AllDigits(key)
  {
    if key != [] && AllDigits(key) && (|key| == 1 || key[0] != '0') then Some(DigitsValue(key)) else None
  }

  /** The digits of `n` read back give `n`. */
  lemma {:induction false} DigitsValueOfNatToString(n: nat)
    ensures DigitsValue(NatToString(n)) == n
  {
    if n >= 10 {
      var s := NatToString(n);
      DigitsValueOfNatToString(n / 10);
      assert s[..|s| - 1] == NatToString(n / 10);
    }
  }

  /** The spelling of an index is read back as that index. */
  lemma ParseIndexOfNatToString(n: nat)
    ensures ParseIndex(NatToString(n)) == Some(n)
  {
    DigitsValueOfNatToString(n);
  }

  /** A numeral of two or more digits that does not start with 0 denotes at least 10. */
  lemma {:induction false} LeadingDigitBound(s: string)
    requires |s| > 1 && AllDigits(s) && s[0] != '0'
    ensures DigitsValue(s) >= 10
  {
    var init := s[..|s| - 1];
    if |init| > 1 {
      LeadingDigitBound(init);
    } else {
      assert init[0] == s[0];
    }
  }

  /** A canonical numeral is the spelling of the index it denotes. */
  lemma {:induction false} NatToStringOfParseIndex(key: string, n: nat)
    requires ParseIndex(key) == Some(n)
    ensures NatToString(n) == key
  {
    var last := key[|key| - 1];
    if |key| > 1 {
      var init := key[..|key| - 1];
      assert AllDigits(init);
      var m := DigitsValue(init);
      assert n == m * 10 + DigitValue(last);
      assert n / 10 == m && n % 10 == DigitValue(last);
      LeadingDigitBound(key);
      assert init[0] == key[0];
      assert ParseIndex(init) == Some(m);
      NatToStringOfParseIndex(init, m);
      assert NatToString(n) == NatToString(m) + [DigitChar(DigitValue(last))];
      assert key == init + [last];
    } else {
      assert key[..|key| - 1] == [];
      assert DigitsValue(key) == DigitsValue(key[..|key| - 1]) * 10 + DigitValue(last);
      assert n == DigitValue(last);
      assert NatToString(n) == [DigitChar(n)];
    }
  }

  /** Distinct indices have distinct spellings. */
  lemma NatToStringInjective(m: nat, n: nat)
    requires NatToString(m) == NatToString(n)
    ensures m == n
  {
    ParseIndexOfNatToString(m);
    ParseIndexOfNatToString(n);
  }

  /**
   * JavaScript's conversion of a string to a number, for the integer
   * numerals: white space around is ignored, the empty string is 0, and an
   * optional sign may precede decimal digits. Every other string gives None
   * (JavaScript gives NaN, or a non-integer or differently spelled number).
   */
  function StringToInteger(s: string): (r: Option<int>)
    ensures Trim(s) == [] ==> r == Some(0)
  {
    var t := Trim(s);
    if t == [] then Some(0)
    else if AllDigits(t) then Some(DigitsValue(t))
    else if |t| > 1 && (t[0] == '+' || t[0] == '-') && AllDigits(t[1..]) then
      var magnitude: int := DigitsValue(t[1..]);
      Some(if t[0] == '-' then -magnitude else magnitude)
    else None
  }

  /** A string of digits has no white space to trim. */
  lemma TrimDigits(s: string)
    requires AllDigits(s)
    ensures Trim(s) == s
  {
    if s != [] {
      assert IsDigit(s[0]) && IsDigit(s[|s| - 1]);
      assert SkipWhiteSpace(s, 0) == 0;
      assert SkipWhiteSpaceBack(s, 0, |s|) == |s|;
      assert s[0..|s|] == s;
    }
  }

  /** The spelling of a non-negative integer converts back to that integer. */
  lemma StringToIntegerOfNatToString(n: nat)
    ensures StringToInteger(NatToString(n)) == Some(n)
  {
    TrimDigits(NatToString(n));
    DigitsValueOfNatToString(n);
  }
}
