/**
 * The few Python string built-ins that core.py relies on: `str.rstrip` with a
 * character set, `str.strip()`, `int(text)` on a decimal string and `str(n)` on
 * an integer. Strings are sequences of Unicode code points, as in Python 3.
 */
module PythonText {
  import opened Wrappers

  predicate IsDigit(c: char) {
    '0' <= c <= '9'
  }

  predicate AllDigits(s: string) {
    forall i | 0 <= i < |s| :: IsDigit(s[i])
  }

  /** The characters for which Python's `str.isspace` holds; `str.strip()` removes these. */
  predicate IsSpace(c: char) {
    || '\t' <= c <= '\r'
    || '\U{001C}' <= c <= ' '
    || c == '\U{0085}' || c == '\U{00A0}' || c == '\U{1680}'
    || '\U{2000}' <= c <= '\U{200A}'
    || c == '\U{2028}' || c == '\U{2029}' || c == '\U{202F}' || c == '\U{205F}' || c == '\U{3000}'
  }

  /** The whitespace `int()` skips around a number: `str.isspace` without U+001C..U+001F. */
  predicate IsIntSpace(c: char) {
    IsSpace(c) && !('\U{001C}' <= c <= '\U{001F}')
  }

  function DigitValue(c: char): (d: nat)
    requires IsDigit(c)
    ensures d < 10
  {
    (c as int - '0' as int) as nat
  }

  function DigitChar(d: nat): (c: char)
    requires d < 10
    ensures IsDigit(c) && DigitValue(c) == d
  {
    ('0' as int + d) as char
  }

  /** The number a run of decimal digits denotes, most significant digit first. */
  function DigitsValue(ds: string): nat
    requires AllDigits(ds)
  {
    if ds == [] then 0 else DigitsValue(ds[..|ds| - 1]) * 10 + DigitValue(ds[|ds| - 1])
  }

  /** `s.rstrip(chars)`: drops the longest suffix made of characters in `strip`. */
  function RStrip(s: string, strip: char -> bool): (r: string)
    ensures r <= s
    ensures forall i | |r| <= i < |s| :: strip(s[i])
    ensures r == [] || !strip(r[|r| - 1])
  {
    if s != [] && strip(s[|s| - 1]) then RStrip(s[..|s| - 1], strip) else s
  }

  /** `s.lstrip(chars)`: drops the longest prefix made of characters in `strip`. */
  function LStrip(s: string, strip: char -> bool): (r: string)
    ensures |r| <= |s| && r == s[|s| - |r|..]
    ensures forall i | 0 <= i < |s| - |r| :: strip(s[i])
    ensures r == [] || !strip(r[0])
  {
    if s != [] && strip(s[0]) then LStrip(s[1..], strip) else s
  }

  function Strip(s: string, strip: char -> bool): string {
    RStrip(LStrip(s, strip), strip)
  }

  lemma DigitOrSignNotSpace(c: char)
    requires IsDigit(c) || c == '-'
    ensures !IsSpace(c)
  {
  }

  /** Stripping removes nothing from a text that neither starts nor ends with a stripped character. */
  lemma StripNothing(s: string, strip: char -> bool)
    requires s != [] && !strip(s[0]) && !strip(s[|s| - 1])
    ensures Strip(s, strip) == s
  {
    assert LStrip(s, strip) == s;
  }

  /** A leading stripped character makes no difference to `strip()`. */
  lemma StripLeadingSpace(s: string, strip: char -> bool)
    requires strip(' ')
    ensures Strip(" " + s, strip) == Strip(s, strip)
  {
    assert (" " + s)[1..] == s;
  }

  /** The decimal literal `int()` accepts after its sign: digits, single underscores only between digits. */
  predicate IsDigitGroup(s: string) {
    && s != []
    && IsDigit(s[0])
    && IsDigit(s[|s| - 1])
    && (forall i | 0 <= i < |s| :: IsDigit(s[i]) || s[i] == '_')
    && (forall i, j | 0 <= i < |s| && i < j < |s| && j == i + 1 :: s[i] == '_' ==> s[j] != '_')
  }

  function WithoutUnderscores(s: string): (r: string)
    requires forall i | 0 <= i < |s| :: IsDigit(s[i]) || s[i] == '_'
    ensures AllDigits(r)
    ensures AllDigits(s) ==> r == s
  {
    if s == [] then []
    else (if s[0] == '_' then [] else [s[0]]) + WithoutUnderscores(s[1..])
  }

  /** The literal `int()` reads once the surrounding whitespace is gone: an optional sign, then digits. */
  function ParseSigned(t: string): Option<int> {
    if t != [] && (t[0] == '+' || t[0] == '-') then
      var magnitude := t[1..];
      if IsDigitGroup(magnitude) then
        var v: int := DigitsValue(WithoutUnderscores(magnitude));
        Some(if t[0] == '-' then -v else v)
      else None
    else if IsDigitGroup(t) then Some(DigitsValue(WithoutUnderscores(t)))
    else None
  }

  /**
   * `int(text)` in base 10: `Some(value)` where Python returns a value and `None`
   * where it raises `ValueError`.
   */
  function ParseInt(text: string): Option<int> {
    ParseSigned(Strip(text, IsIntSpace))
  }

  /** `str(n)` for a natural number: its decimal digits, without leading zeros. */
  function NatToString(n: nat): (s: string)
    ensures s != [] && AllDigits(s)
    ensures s[0] == '0' ==> s == "0"
    ensures DigitsValue(s) == n
  {
    if n < 10 then [DigitChar(n)]
    else
      var prefix := NatToString(n / 10);
      var s := prefix + [DigitChar(n % 10)];
      assert s[..|s| - 1] == prefix;
      s
  }

  /** `str(n)` for any integer: a minus sign before the digits of a negative number. */
  function IntToString(n: int): (s: string) {
    if n < 0 then "-" + NatToString(-n) else NatToString(n)
  }

  lemma {:induction false} RStripDigitsAfter(prefix: string, digits: string)
    requires prefix != [] && !IsDigit(prefix[|prefix| - 1])
    requires AllDigits(digits)
    ensures RStrip(prefix + digits, IsDigit) == prefix
    decreases |digits|
  {
    if digits == [] {
      assert prefix + digits == prefix;
    } else {
      var s := prefix + digits;
      assert s[..|s| - 1] == prefix + digits[..|digits| - 1];
      RStripDigitsAfter(prefix, digits[..|digits| - 1]);
    }
  }

  lemma {:induction false} StripDigits(s: string)
    requires AllDigits(s)
    ensures Strip(s, IsIntSpace) == s
  {
    assert s != [] ==> !IsIntSpace(s[0]) && !IsIntSpace(s[|s| - 1]);
  }

  /** A minus sign before a run of digits: `int` negates the value of the digits. */
  lemma ParseIntOfNegative(digits: string)
    requires digits != [] && AllDigits(digits)
    ensures ParseInt("-" + digits) == Some(-(DigitsValue(digits) as int))
  {
    var t := "-" + digits;
    assert t[0] == '-' && t[|t| - 1] == digits[|digits| - 1];
    StripNothing(t, IsIntSpace);
    ParseSignedNegative(digits);
  }

  lemma ParseSignedNegative(digits: string)
    requires digits != [] && AllDigits(digits)
    ensures ParseSigned("-" + digits) == Some(-(DigitsValue(digits) as int))
  {
    var t := "-" + digits;
    assert t[1..] == digits;
    assert IsDigitGroup(digits);
  }

  /** `int(str(n)) == n` for every integer. */
  lemma ParseIntOfIntToString(n: int)
    ensures ParseInt(IntToString(n)) == Some(n)
  {
    if n < 0 {
      ParseIntOfNegative(NatToString(-n));
    } else {
      ParseIntOfDigits(NatToString(n));
    }
  }

  /** `int` of a non-empty run of ASCII digits is the number those digits denote. */
  lemma ParseIntOfDigits(ds: string)
    requires ds != [] && AllDigits(ds)
    ensures ParseInt(ds) == Some(DigitsValue(ds))
  {
    StripDigits(ds);
    assert IsDigitGroup(ds);
  }

  /** `int()` refuses a text ending in an underscore, where its grammar wants another digit. */
  lemma ParseIntRejectsTrailingUnderscore(text: string)
    requires text != [] && text[|text| - 1] == '_'
    ensures ParseInt(text) == None
  {
    var l := LStrip(text, IsIntSpace);
    assert l != [] && l[|l| - 1] == '_';
    assert RStrip(l, IsIntSpace) == l;
    ParseSignedRejectsUnderscore(l);
  }

  lemma ParseSignedRejectsUnderscore(t: string)
    requires t != [] && t[|t| - 1] == '_'
    ensures ParseSigned(t) == None
  {
    if t[0] == '+' || t[0] == '-' {
      assert |t[1..]| == 0 || t[1..][|t[1..]| - 1] == '_';
    }
  }

  /** `int()` refuses a text whose first non-blank character is neither a sign nor a digit, and a blank text. */
  lemma ParseIntRejectsLetter(text: string)
    requires var t := Strip(text, IsIntSpace); t == [] || (t[0] != '+' && t[0] != '-' && !IsDigit(t[0]))
    ensures ParseInt(text) == None
  {
  }
}
