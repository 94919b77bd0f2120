/**
 * JavaScript's `parseInt(s, 10)` (ECMA-262, section 19.2.5, "parseInt ( string, radix )"):
 * skip leading white space, accept one optional sign, then read the longest run of
 * decimal digits. No digits means NaN, modelled as `None`.
 */
module IntParsing {
  import opened Wrappers

  /** StrWhiteSpaceChar of ECMA-262: WhiteSpace (including every Zs character) or LineTerminator. */
  predicate IsJsWhitespace(c: char) {
    c == '\t' || c == '\n' || c == '\U{B}' || c == '\U{C}' || c == '\r' || c == ' '
    || c == '\U{A0}' || c == '\U{1680}' || ('\U{2000}' <= c <= '\U{200A}')
    || c == '\U{2028}' || c == '\U{2029}' || c == '\U{202F}' || c == '\U{205F}'
    || c == '\U{3000}' || c == '\U{FEFF}'
  }

  predicate IsDigit(c: char) {
    '0' <= c <= '9'
  }

  predicate AllDigits(s: string) {
    forall i :: 0 <= i < |s| ==> IsDigit(s[i])
  }

  predicate AllWhitespace(s: string) {
    forall i :: 0 <= i < |s| ==> IsJsWhitespace(s[i])
  }

  /** The value of a digit character, and 0 for any other character. */
  function DigitValue(c: char): nat
  {
    if IsDigit(c) then c as int - '0' as int else 0
  }

  function DigitChar(d: nat): (c: char)
    requires d < 10
    ensures IsDigit(c) && DigitValue(c) == d
  {
    ('0' as int + d) as char
  }

  /** The string with its leading white space removed. */
  function TrimStart(s: string): string
  {
    if s != [] && IsJsWhitespace(s[0]) then TrimStart(s[1..]) else s
  }

  /** `TrimStart` removes exactly the white space in front: a suffix remains that does not start with white space. */
  lemma {:induction false} TrimStartSpec(s: string)
    ensures |TrimStart(s)| <= |s| && TrimStart(s) == s[|s| - |TrimStart(s)|..]
    ensures AllWhitespace(s[..|s| - |TrimStart(s)|])
    ensures TrimStart(s) == [] || !IsJsWhitespace(TrimStart(s)[0])
  {
    if s != [] && IsJsWhitespace(s[0]) {
      TrimStartSpec(s[1..]);
      var n := |s| - |TrimStart(s)|;
      assert s[1..][n - 1..] == s[n..];
      forall i | 0 <= i < n
        ensures IsJsWhitespace(s[..n][i])
      {
        if i > 0 {
          assert s[..n][i] == s[1..][..n - 1][i - 1];
        }
      }
    }
  }

  /** The longest prefix of `s` made of decimal digits. */
  function DigitPrefix(s: string): string
  {
    if s != [] && IsDigit(s[0]) then [s[0]] + DigitPrefix(s[1..]) else []
  }

  /** `DigitPrefix` is a prefix, made of digits, that stops at the end or at a character that is not a digit. */
  lemma {:induction false} DigitPrefixSpec(s: string)
    ensures |DigitPrefix(s)| <= |s| && DigitPrefix(s) == s[..|DigitPrefix(s)|]
    ensures AllDigits(DigitPrefix(s))
    ensures |DigitPrefix(s)| == |s| || !IsDigit(s[|DigitPrefix(s)|])
  {
    if s != [] && IsDigit(s[0]) {
      DigitPrefixSpec(s[1..]);
      var d := DigitPrefix(s[1..]);
      assert s[..|d| + 1] == [s[0]] + d;
      forall i | 0 <= i < |d| + 1
        ensures IsDigit(([s[0]] + d)[i])
      {
        if i > 0 {
          assert ([s[0]] + d)[i] == d[i - 1];
        }
      }
    }
  }

  /** The value of a run of decimal digits, most significant digit first. */
  function DigitsValue(d: string): nat
  {
    if d == [] then 0 else 10 * DigitsValue(d[..|d| - 1]) + DigitValue(d[|d| - 1])
  }

  /**
   * `parseInt(s, 10)`; `None` is NaN. Nothing but white space is NaN, a digit right after the
   * white space always gives a number, and only a leading '-' gives a negative one.
   */
  function ParseInt(s: string): (r: Option<int>)
    ensures TrimStart(s) == [] ==> r.None?
    ensures TrimStart(s) != [] && IsDigit(TrimStart(s)[0]) ==> r.Some? && r.value >= 0
    ensures r.Some? && r.value < 0 ==> TrimStart(s) != [] && TrimStart(s)[0] == '-'
  {
    ParseSigned(TrimStart(s))
  }

  /** What `parseInt` does once the white space is gone: one optional sign, then digits. */
  function ParseSigned(t: string): Option<int>
  {
    var negative := t != [] && t[0] == '-';
    var unsigned := if t != [] && (t[0] == '-' || t[0] == '+') then t[1..] else t;
    var digits := DigitPrefix(unsigned);
    var magnitude: int := DigitsValue(digits);
    if digits == [] then None
    else if negative then Some(-magnitude)
    else Some(magnitude)
  }

  predicate IsSign(s: string) {
    s == [] || s == "+" || s == "-"
  }

  /** The value a sign gives a magnitude. */
  function ApplySign(sign: string, magnitude: nat): int {
    var value: int := magnitude;
    if sign == "-" then -value else value
  }

  lemma {:induction false} TrimStartSkips(ws: string, t: string)
    requires AllWhitespace(ws)
    requires t == [] || !IsJsWhitespace(t[0])
    ensures TrimStart(ws + t) == t
  {
    if ws != [] {
      assert (ws + t)[1..] == ws[1..] + t;
      TrimStartSkips(ws[1..], t);
    } else {
      assert ws + t == t;
    }
  }

  lemma {:induction false} DigitPrefixStops(digits: string, rest: string)
    requires AllDigits(digits)
    requires rest == [] || !IsDigit(rest[0])
    ensures DigitPrefix(digits + rest) == digits
  {
    if digits != [] {
      assert (digits + rest)[1..] == digits[1..] + rest;
      DigitPrefixStops(digits[1..], rest);
      assert [digits[0]] + digits[1..] == digits;
    } else {
      assert digits + rest == rest;
    }
  }

  /**
   * The leading-prefix rule: white space, an optional sign, a non-empty run of digits and
   * anything that does not continue the run parse as the signed value of the run.
   */
  lemma ParseIntPrefix(ws: string, sign: string, digits: string, rest: string)
    requires AllWhitespace(ws) && IsSign(sign)
    requires digits != [] && AllDigits(digits)
    requires rest == [] || !IsDigit(rest[0])
    ensures ParseInt(ws + sign + digits + rest) == Some(ApplySign(sign, DigitsValue(digits)))
  {
    var t := sign + digits + rest;
    assert ws + sign + digits + rest == ws + t;
    assert !IsJsWhitespace(t[0]) by {
      if sign == [] { assert t[0] == digits[0]; } else { assert t[0] == sign[0]; }
    }
    TrimStartSkips(ws, t);
    ParseSignedPrefix(sign, digits, rest);
  }

  lemma ParseSignedPrefix(sign: string, digits: string, rest: string)
    requires IsSign(sign)
    requires digits != [] && AllDigits(digits)
    requires rest == [] || !IsDigit(rest[0])
    ensures ParseSigned(sign + digits + rest) == Some(ApplySign(sign, DigitsValue(digits)))
  {
    var u := digits + rest;
    assert sign + digits + rest == sign + u;
    assert IsDigit(u[0]);
    DigitPrefixStops(digits, rest);
    ParseSignedAfterSign(sign, u);
  }

  lemma ParseSignedAfterSign(sign: string, u: string)
    requires IsSign(sign)
    requires u != [] && IsDigit(u[0])
    ensures ParseSigned(sign + u) == Some(ApplySign(sign, DigitsValue(DigitPrefix(u))))
  {
    if sign == [] {
      assert sign + u == u;
    } else {
      assert (sign + u)[0] == sign[0] && (sign + u)[1..] == u;
    }
  }

  /**
   * The NaN rule: when white space and an optional sign are followed by anything that is
   * not a digit (and, without a sign, is neither more white space nor a sign), there is no number.
   */
  lemma ParseIntNaN(ws: string, sign: string, rest: string)
    requires AllWhitespace(ws) && IsSign(sign)
    requires rest == [] || !IsDigit(rest[0])
    requires sign == [] && rest != [] ==> !IsJsWhitespace(rest[0]) && rest[0] != '+' && rest[0] != '-'
    ensures ParseInt(ws + sign + rest) == None
  {
    var t := sign + rest;
    assert ws + sign + rest == ws + t;
    assert t == [] || !IsJsWhitespace(t[0]) by {
      if sign != [] { assert t[0] == sign[0]; }
    }
    TrimStartSkips(ws, t);
    DigitPrefixStops([], rest);
    if sign != [] {
      assert t[1..] == rest;
    } else {
      assert t == rest;
    }
  }

  /** The decimal rendering of a natural number, most significant digit first. */
  function NatToDecimal(n: nat): (s: string)
    ensures s != [] && AllDigits(s)
  {
    if n < 10 then [DigitChar(n)] else NatToDecimal(n / 10) + [DigitChar(n % 10)]
  }

  /** The decimal rendering of an integer, with a leading '-' when it is negative. */
  function IntToDecimal(n: int): string
  {
    if n < 0 then "-" + NatToDecimal(-n) else NatToDecimal(n)
  }

  lemma {:induction false} NatToDecimalValue(n: nat)
    ensures DigitsValue(NatToDecimal(n)) == n
  {
    var s := NatToDecimal(n);
    if n >= 10 {
      NatToDecimalValue(n / 10);
      assert s[..|s| - 1] == NatToDecimal(n / 10);
    }
  }

  /**
   * A stock value written in decimal, followed by anything that is not a digit (a fraction
   * ".9", a unit "abc", nothing), parses back to that value.
   */
  lemma ParseIntDecimalRoundTrip(n: int, rest: string)
    requires rest == [] || !IsDigit(rest[0])
    ensures ParseInt(IntToDecimal(n) + rest) == Some(n)
  {
    var m: nat := if n < 0 then -n else n;
    var d := NatToDecimal(m);
    var sign := if n < 0 then "-" else [];
    assert IntToDecimal(n) + rest == [] + sign + d + rest;
    ParseIntPrefix([], sign, d, rest);
    NatToDecimalValue(m);
    assert ApplySign(sign, DigitsValue(d)) == n;
  }

  // The examples split their strings into white space, sign, digits and the rest, so that the
  // general rules above apply.

  /** A unit suffix after the digits is ignored. */
  lemma ParseIntUnitSuffix()
    ensures ParseInt("12abc") == Some(12)
  {
    var digits, rest := "12", "abc";
    assert "12abc" == [] + [] + digits + rest;
    ParseIntPrefix([], [], digits, rest);
    assert DigitsValue(digits) == 12;
  }

  /** A fraction is cut off at the decimal point. */
  lemma ParseIntFraction()
    ensures ParseInt("42.9") == Some(42)
  {
    var s := "42.9";
    var digits, rest := "42", ".9";
    assert s == [] + [] + digits + rest;
    ParseIntPrefix([], [], digits, rest);
    assert DigitsValue(digits) == 42;
  }

  /** Signs are honoured and not checked: "-5" is accepted as -5. */
  lemma ParseIntNegative()
    ensures ParseInt("-5") == Some(-5)
  {
    var s := "-5";
    var sign, digits := "-", "5";
    assert s == [] + sign + digits + [];
    ParseIntPrefix([], sign, digits, []);
    assert DigitsValue(digits) == 5;
  }

  /** Leading white space and a plus sign are skipped. */
  lemma ParseIntPadded()
    ensures ParseInt(" +7") == Some(7)
  {
    var s := " +7";
    var space, sign, digits := " ", "+", "7";
    assert s == space + sign + digits + [];
    ParseIntPrefix(space, sign, digits, []);
    assert DigitsValue(digits) == 7;
  }

  /** A field without digits is NaN. */
  lemma ParseIntLetters()
    ensures ParseInt("abc") == None
  {
    var s := "abc";
    assert s == [] + [] + s;
    ParseIntNaN([], [], s);
  }

  /** An empty field is NaN. */
  lemma ParseIntEmpty()
    ensures ParseInt("") == None
  {
    var s := "";
    assert s == [] + [] + s;
    ParseIntNaN([], [], s);
  }

  /** White space between the sign and the digits makes the field NaN. */
  lemma ParseIntSpacedSign()
    ensures ParseInt("- 5") == None
  {
    var s := "- 5";
    var sign, rest := "-", " 5";
    assert s == [] + sign + rest;
    ParseIntNaN([], sign, rest);
  }
}
