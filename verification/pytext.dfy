/**
 * The Python string built-ins the DXF reader and the import command rely on:
 * `str.strip()`, `str.upper()`, `int(str)`, `float(str)` and `str(int)`.
 * Numbers are decimal ASCII literals; see README for what is not covered.
 */
module PyText {
  import opened Wrappers

  /** The characters `str.strip()` removes (`str.isspace()`). */
  predicate IsSpace(c: char) {
    c == ' ' || ('\t' <= c <= '\r') || ('\U{1C}' <= c <= '\U{1F}')
    || c == '\U{85}' || c == '\U{A0}' || c == '\U{1680}'
    || ('\U{2000}' <= c <= '\U{200A}') || c == '\U{2028}' || c == '\U{2029}'
    || c == '\U{202F}' || c == '\U{205F}' || c == '\U{3000}'
  }

  /** Number of whitespace characters at the start of `s`. */
  function LeadingSpaces(s: string): (n: nat)
    ensures n <= |s|
    ensures forall i :: 0 <= i < n ==> IsSpace(s[i])
    ensures n < |s| ==> !IsSpace(s[n])
  {
    if |s| > 0 && IsSpace(s[0]) then 1 + LeadingSpaces(s[1..]) else 0
  }

  /** Number of whitespace characters at the end of `s`. */
  function TrailingSpaces(s: string): (n: nat)
    ensures n <= |s|
    ensures forall i :: |s| - n <= i < |s| ==> IsSpace(s[i])
    ensures n < |s| ==> !IsSpace(s[|s| - n - 1])
  {
    if |s| > 0 && IsSpace(s[|s| - 1]) then 1 + TrailingSpaces(s[..|s| - 1]) else 0
  }

  /**
   * `s.strip()`: the contiguous part of `s` that starts at its first and ends at its
   * last non-whitespace character; every non-whitespace character of `s` is kept.
   */
  function Strip(s: string): (r: string)
    ensures LeadingSpaces(s) + |r| <= |s|
    ensures r == s[LeadingSpaces(s)..LeadingSpaces(s) + |r|]
    ensures r == [] || (!IsSpace(r[0]) && !IsSpace(r[|r| - 1]))
    ensures forall i :: 0 <= i < |s| && !IsSpace(s[i]) ==>
              LeadingSpaces(s) <= i < LeadingSpaces(s) + |r|
  {
    var a := LeadingSpaces(s);
    if a == |s| then [] else s[a..|s| - TrailingSpaces(s)]
  }

  predicate IsLowerAscii(c: char) {
    'a' <= c <= 'z'
  }

  function UpperChar(c: char): char {
    if IsLowerAscii(c) then (c as int - 32) as char else c
  }

  /**
   * `s.upper()` on ASCII letters: no lower-case letter survives, and each character
   * is either unchanged or the upper-case form of a lower-case letter.
   */
  function Upper(s: string): (r: string)
    ensures |r| == |s|
    ensures forall i :: 0 <= i < |r| ==> !IsLowerAscii(r[i])
    ensures forall i :: 0 <= i < |r| ==>
              r[i] == s[i] || (IsLowerAscii(s[i]) && r[i] as int == s[i] as int - 32)
  {
    seq(|s|, i requires 0 <= i < |s| => UpperChar(s[i]))
  }

  predicate IsDigit(c: char) {
    '0' <= c <= '9'
  }

  function DigitValue(c: char): nat
    requires IsDigit(c)
  {
    c as int - '0' as int
  }

  function DigitChar(d: nat): char
    requires d < 10
  {
    ('0' as int + d) as char
  }

  /**
   * A run of decimal digits in which single underscores may separate two digits,
   * the grouping `int()` and `float()` accept.
   */
  predicate IsDigitRun(s: string) {
    |s| > 0 && IsDigit(s[0]) &&
    (|s| == 1 || (if s[1] == '_' then |s| > 2 && IsDigitRun(s[2..]) else IsDigitRun(s[1..])))
  }

  /** The digits of a run, underscores dropped. */
  function RunDigits(s: string): (d: string)
    requires IsDigitRun(s)
    ensures |d| > 0
    ensures forall i :: 0 <= i < |d| ==> IsDigit(d[i])
  {
    if |s| == 1 then [s[0]]
    else if s[1] == '_' then [s[0]] + RunDigits(s[2..])
    else [s[0]] + RunDigits(s[1..])
  }

  /** The number a string of decimal digits denotes, most significant digit first. */
  function DecValue(d: string): nat
    requires forall i :: 0 <= i < |d| ==> IsDigit(d[i])
  {
    if d == [] then 0 else DecValue(d[..|d| - 1]) * 10 + DigitValue(d[|d| - 1])
  }

  /** `int(s)` for a decimal string: surrounding whitespace, then an optional sign and a digit run. */
  function ParseInt(s: string): Option<int> {
    ParseSignedDigits(Strip(s))
  }

  /** `str(n)` for a natural number. */
  function NatToString(n: nat): (r: string)
    ensures |r| > 0
    ensures forall i :: 0 <= i < |r| ==> IsDigit(r[i])
  {
    if n < 10 then [DigitChar(n)] else NatToString(n / 10) + [DigitChar(n % 10)]
  }

  /** `str(n)`: the decimal representation, with a leading minus sign when negative. */
  function IntToString(n: int): string {
    if n < 0 then "-" + NatToString(-n) else NatToString(n)
  }

  /** `s.rstrip(c)` for a single character: `s` without its trailing run of `c`. */
  function RStripChar(s: string, c: char): (r: string)
    ensures r <= s && (r == [] || r[|r| - 1] != c)
    ensures forall i :: |r| <= i < |s| ==> s[i] == c
  {
    if |s| > 0 && s[|s| - 1] == c then RStripChar(s[..|s| - 1], c) else s
  }

  /** m * 10^e, one factor of ten at a time. */
  function Scale10(m: real, e: int): real
    decreases if e >= 0 then e else -e
  {
    if e == 0 then m
    else if e > 0 then 10.0 * Scale10(m, e - 1)
    else Scale10(m, e + 1) / 10.0
  }

  /** Index of the first `c` in `s`, or |s| when there is none. */
  function IndexOf(s: string, c: char): (k: nat)
    ensures k <= |s|
    ensures k < |s| ==> s[k] == c
    ensures forall i :: 0 <= i < k ==> s[i] != c
  {
    if |s| == 0 then 0 else if s[0] == c then 0 else 1 + IndexOf(s[1..], c)
  }

  predicate IsExponentMark(c: char) {
    c == 'e' || c == 'E'
  }

  /** Index of the first exponent mark in `s`, or |s| when there is none. */
  function ExponentIndex(s: string): (k: nat)
    ensures k <= |s|
    ensures k < |s| ==> IsExponentMark(s[k])
    ensures forall i :: 0 <= i < k ==> !IsExponentMark(s[i])
  {
    if |s| == 0 then 0 else if IsExponentMark(s[0]) then 0 else 1 + ExponentIndex(s[1..])
  }

  /**
   * The mantissa of a float literal: digits with at most one decimal point, at least one
   * digit. Returns the integer made of all its digits and the number of fraction digits.
   */
  function ParseMantissa(m: string): Option<(nat, nat)> {
    var p := IndexOf(m, '.');
    var ip := m[..p];
    var fp := if p < |m| then m[p + 1..] else [];
    if |ip| == 0 && |fp| == 0 then None
    else if (|ip| > 0 && !IsDigitRun(ip)) || (|fp| > 0 && !IsDigitRun(fp)) then None
    else
      var id := if |ip| == 0 then [] else RunDigits(ip);
      var fd := if |fp| == 0 then [] else RunDigits(fp);
      Some((DecValue(id + fd), |fd|))
  }

  /**
   * An optional sign and a digit run: what `int()` accepts once whitespace is stripped,
   * and the exponent of a float literal.
   */
  function ParseSignedDigits(x: string): Option<int> {
    if |x| > 0 && (x[0] == '+' || x[0] == '-') then
      if IsDigitRun(x[1..]) then
        var v: int := DecValue(RunDigits(x[1..]));
        Some(if x[0] == '-' then -v else v)
      else None
    else if IsDigitRun(x) then Some(DecValue(RunDigits(x)))
    else None
  }

  /** An unsigned float literal: mantissa, then optionally `e` or `E` and an exponent. */
  function ParseUnsignedFloat(b: string): Option<real> {
    var e := ExponentIndex(b);
    var exponent := if e < |b| then ParseSignedDigits(b[e + 1..]) else Some(0);
    var mantissa := ParseMantissa(b[..e]);
    if mantissa.None? || exponent.None? then None
    else Some(Scale10(mantissa.value.0 as real, exponent.value - mantissa.value.1))
  }

  /**
   * `float(s)` for a finite decimal literal, with its exact real value: surrounding
   * whitespace, then a signed literal.
   */
  function ParseFloat(s: string): Option<real> {
    ParseSignedFloat(Strip(s))
  }

  /** An optional sign, then an unsigned float literal. */
  function ParseSignedFloat(t: string): Option<real> {
    var body := if |t| > 0 && (t[0] == '+' || t[0] == '-') then t[1..] else t;
    match ParseUnsignedFloat(body)
    case None => None
    case Some(v) => Some(if |t| > 0 && t[0] == '-' then -v else v)
  }

  // ---------------------------------------------------------------------------
  // Properties

  lemma {:induction false} DigitsAreRun(d: string)
    requires |d| > 0 && forall i :: 0 <= i < |d| ==> IsDigit(d[i])
    ensures IsDigitRun(d) && RunDigits(d) == d
    decreases |d|
  {
    if |d| > 1 {
      DigitsAreRun(d[1..]);
    }
  }

  lemma {:induction false} RunCharacters(s: string)
    requires IsDigitRun(s)
    ensures forall i :: 0 <= i < |s| ==> IsDigit(s[i]) || s[i] == '_'
    decreases |s|
  {
    if |s| > 1 {
      if s[1] == '_' {
        RunCharacters(s[2..]);
        assert forall i :: 2 <= i < |s| ==> s[i] == s[2..][i - 2];
      } else {
        RunCharacters(s[1..]);
        assert forall i :: 1 <= i < |s| ==> s[i] == s[1..][i - 1];
      }
    }
  }

  lemma {:induction false} DecValueOfNatToString(n: nat)
    ensures DecValue(NatToString(n)) == n
    decreases n
  {
    if n >= 10 {
      DecValueOfNatToString(n / 10);
      var r := NatToString(n);
      assert r[..|r| - 1] == NatToString(n / 10);
    }
  }

  lemma StripKeepsSpaceFree(s: string)
    requires forall i :: 0 <= i < |s| ==> !IsSpace(s[i])
    ensures Strip(s) == s
  {
    var r := Strip(s);
    if |s| > 0 {
      assert LeadingSpaces(s) == 0;
      assert LeadingSpaces(s) <= |s| - 1 < LeadingSpaces(s) + |r|;
    }
  }

  /** `int(str(n)) == n`: the decimal representation reads back as the same number. */
  lemma ParseIntOfIntToString(n: int)
    ensures ParseInt(IntToString(n)) == Some(n)
  {
    var m: nat := if n < 0 then -n else n;
    DecValueOfNatToString(m);
    ParseIntOfDigits(NatToString(m), n < 0);
  }

  /** A digit string, with or without a leading minus, reads back as its value. */
  lemma ParseIntOfDigits(d: string, negative: bool)
    requires |d| > 0 && forall i :: 0 <= i < |d| ==> IsDigit(d[i])
    ensures ParseInt(if negative then "-" + d else d) == Some(if negative then -(DecValue(d) as int) else DecValue(d) as int)
  {
    var s := if negative then "-" + d else d;
    SignedDigitsSpaceFree(d, negative);
    StripKeepsSpaceFree(s);
    SignedDigitsOfDigits(d, negative);
  }

  lemma SignedDigitsSpaceFree(d: string, negative: bool)
    requires forall i :: 0 <= i < |d| ==> IsDigit(d[i])
    ensures var s := if negative then "-" + d else d;
            forall i :: 0 <= i < |s| ==> !IsSpace(s[i])
  {
    if negative {
      var s := "-" + d;
      assert forall i :: 1 <= i < |s| ==> s[i] == d[i - 1];
    }
  }

  lemma SignedDigitsOfDigits(d: string, negative: bool)
    requires |d| > 0 && forall i :: 0 <= i < |d| ==> IsDigit(d[i])
    ensures ParseSignedDigits(if negative then "-" + d else d) == Some(if negative then -(DecValue(d) as int) else DecValue(d) as int)
  {
    DigitsAreRun(d);
    if negative {
      assert ("-" + d)[1..] == d;
    } else {
      assert IsDigit(d[0]);
    }
  }

  /** `str` is injective on integers, so distinct indices give distinct identifiers. */
  lemma IntToStringInjective(a: int, b: int)
    requires IntToString(a) == IntToString(b)
    ensures a == b
  {
    ParseIntOfIntToString(a);
    ParseIntOfIntToString(b);
  }

  /** A digit run read as a float literal denotes the same whole number. */
  lemma UnsignedFloatOfRun(b: string)
    requires IsDigitRun(b)
    ensures ParseUnsignedFloat(b) == Some(DecValue(RunDigits(b)) as real)
  {
    RunCharacters(b);
    var e := ExponentIndex(b);
    assert e == |b|;
    assert b[..e] == b;
    var p := IndexOf(b, '.');
    assert p == |b|;
    assert b[..p] == b;
    assert RunDigits(b) + [] == RunDigits(b);
    assert ParseMantissa(b) == Some((DecValue(RunDigits(b)), 0));
  }

  /** Every string `int()` accepts is accepted by `float()` with the same value. */
  lemma ParseFloatExtendsParseInt(s: string)
    requires ParseInt(s).Some?
    ensures ParseFloat(s) == Some(ParseInt(s).value as real)
  {
    SignedFloatExtendsSignedDigits(Strip(s));
  }

  lemma SignedFloatExtendsSignedDigits(t: string)
    requires ParseSignedDigits(t).Some?
    ensures ParseSignedFloat(t) == Some(ParseSignedDigits(t).value as real)
  {
    if |t| > 0 && (t[0] == '+' || t[0] == '-') {
      var u := t[1..];
      assert IsDigitRun(u);
      var v: int := DecValue(RunDigits(u));
      assert ParseSignedDigits(t).value == if t[0] == '-' then -v else v;
      UnsignedFloatOfRun(u);
      assert ParseUnsignedFloat(u) == Some(v as real);
    } else {
      assert IsDigitRun(t);
      UnsignedFloatOfRun(t);
      assert ParseSignedDigits(t).value == DecValue(RunDigits(t));
    }
  }
}
