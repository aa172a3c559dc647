/**
 * Decimal text for Python integers: `str(n)` for an `int` and `int(text)`
 * for a `str` in base 10. The parser accepts what CPython accepts for ASCII
 * input: surrounding whitespace, one optional `+` or `-` sign, and decimal
 * digits with single `_` separators between digits (leading zeros allowed).
 */
module Decimal {
  import opened Wrappers
  import PyStr

  predicate IsDigit(c: char) {
    '0' <= c <= '9'
  }

  predicate AllDigits(s: string) {
    forall i :: 0 <= i < |s| ==> IsDigit(s[i])
  }

  function DigitChar(d: nat): (c: char)
    requires d < 10
    ensures IsDigit(c)
  {
    (d + '0' as int) as char
  }

  function DigitValue(c: char): (d: nat)
    requires IsDigit(c)
    ensures d < 10
  {
    c as int - '0' as int
  }

  /** The value of a string of decimal digits, most significant first. */
  function DigitsValue(s: string): nat
    requires AllDigits(s)
  {
    if s == [] then 0 else DigitsValue(s[..|s| - 1]) * 10 + DigitValue(s[|s| - 1])
  }

  /** The value of a two-digit string. */
  lemma {:induction false} TwoDigitsValue(s: string)
    requires |s| == 2 && AllDigits(s)
    ensures DigitsValue(s) == DigitValue(s[0]) * 10 + DigitValue(s[1])
  {
    var first := s[..1];
    assert first[..0] == [] && first[0] == s[0];
    assert DigitsValue(first) == DigitValue(s[0]);
  }

  /** `str(n)` for a non-negative `n`: shortest decimal digits, no sign. */
  function NatToString(n: nat): (s: string)
    ensures |s| >= 1 && AllDigits(s)
  {
    if n < 10 then [DigitChar(n)] else NatToString(n / 10) + [DigitChar(n % 10)]
  }

  /** `str(n)` for any Python `int`: a `-` in front of the digits of a negative number. */
  function IntToString(n: int): (s: string)
    ensures |s| >= 1
    ensures n < 0 ==> s[0] == '-' && AllDigits(s[1..])
    ensures n >= 0 ==> AllDigits(s)
  {
    if n < 0 then "-" + NatToString(-n) else NatToString(n)
  }

  lemma {:induction false} NatToStringValue(n: nat)
    ensures DigitsValue(NatToString(n)) == n
    decreases n
  {
    if n >= 10 {
      var s := NatToString(n);
      assert s[..|s| - 1] == NatToString(n / 10);
      NatToStringValue(n / 10);
    }
  }

  /** `digit (_? digit)*`: the body of an integer literal that `int()` accepts. */
  predicate WellFormedDigits(s: string) {
    && |s| >= 1
    && IsDigit(s[0])
    && IsDigit(s[|s| - 1])
    && forall i :: 0 <= i < |s| ==> DigitOrSeparatorAt(s, i)
  }

  /** Position `i` holds a digit, or a `_` with a digit on either side. */
  predicate DigitOrSeparatorAt(s: string, i: int)
    requires 0 <= i < |s|
  {
    IsDigit(s[i]) || (s[i] == '_' && 0 < i < |s| - 1 && IsDigit(s[i - 1]) && IsDigit(s[i + 1]))
  }

  predicate IsDigitOrUnderscore(c: char) {
    IsDigit(c) || c == '_'
  }

  /** The digits of `s` with the `_` separators removed. */
  function RemoveUnderscores(s: string): (r: string)
    requires forall i :: 0 <= i < |s| ==> IsDigitOrUnderscore(s[i])
    ensures AllDigits(r)
    ensures AllDigits(s) ==> r == s
  {
    if s == [] then []
    else if s[0] == '_' then RemoveUnderscores(s[1..])
    else
      assert IsDigitOrUnderscore(s[0]);
      [s[0]] + RemoveUnderscores(s[1..])
  }

  /** The value of a well-formed literal body. */
  function BodyValue(body: string): nat
    requires WellFormedDigits(body)
  {
    assert forall i :: 0 <= i < |body| ==> IsDigitOrUnderscore(body[i]) by {
      forall i | 0 <= i < |body| ensures IsDigitOrUnderscore(body[i]) {
        assert DigitOrSeparatorAt(body, i);
      }
    }
    DigitsValue(RemoveUnderscores(body))
  }

  /** `int(text)`: `None` where CPython raises `ValueError`. */
  function ParseInt(text: string): Option<int> {
    ParseSigned(PyStr.Strip(text))
  }

  /** An optional sign followed by a well-formed digit body, with nothing around it. */
  function ParseSigned(t: string): Option<int> {
    if t == [] then None
    else
      var negative := t[0] == '-';
      var body := if t[0] == '-' || t[0] == '+' then t[1..] else t;
      if WellFormedDigits(body) then
        var v: int := BodyValue(body);
        Some(if negative then -v else v)
      else None
  }

  lemma {:induction false} DigitsAreWellFormed(s: string)
    requires |s| >= 1 && AllDigits(s)
    ensures WellFormedDigits(s) && BodyValue(s) == DigitsValue(s)
  {
    assert forall i :: 0 <= i < |s| ==> DigitOrSeparatorAt(s, i);
    assert RemoveUnderscores(s) == s;
  }

  /** `int(str(n)) == n` for every integer, negative ones included. */
  lemma {:induction false} ParseIntRoundTrip(n: int)
    ensures ParseInt(IntToString(n)) == Some(n)
  {
    var s := IntToString(n);
    IntToStringTrimmed(n);
    PyStr.StripTrimmed(s);
    IntToStringParses(n);
  }

  /** The digits of `str(n)`, after the sign, read back as `n`. */
  lemma {:induction false} IntToStringParses(n: int)
    ensures ParseSigned(IntToString(n)) == Some(n)
  {
    var s := IntToString(n);
    var m: nat := if n < 0 then -n else n;
    var digits := NatToString(m);
    NatToStringValue(m);
    DigitsAreWellFormed(digits);
    var body := if n < 0 then s[1..] else s;
    assert body == digits;
    assert (s[0] == '-') == (n < 0) && (s[0] == '+' ==> n < 0) by {
      assert IsDigit(digits[0]);
    }
  }

  /** `str(n)` starts with a sign or a digit and ends with a digit. */
  lemma {:induction false} IntToStringTrimmed(n: int)
    ensures PyStr.IsTrimmed(IntToString(n))
  {
    var s := IntToString(n);
    var digits := NatToString(if n < 0 then -n else n);
    assert s[|s| - 1] == digits[|digits| - 1];
    assert IsDigit(s[|s| - 1]);
    assert s[0] == '-' || IsDigit(s[0]);
  }

  /** `int()` ignores surrounding whitespace, and blank text is never an integer. */
  lemma {:induction false} ParseIntIgnoresSurroundingSpace(text: string)
    ensures ParseInt(text) == ParseInt(PyStr.Strip(text))
    ensures PyStr.IsBlank(text) ==> ParseInt(text) == None
  {
    PyStr.StripIdempotent(text);
  }

  /** The state-file contents the repository's tests use: a stored id. */
  lemma {:induction false} ParseIntExample()
    ensures ParseInt("12345") == Some(12345)
  {
    assert NatToString(12345) == "12345" by {
      assert NatToString(1) == "1";
      assert NatToString(12) == NatToString(1) + "2";
      assert NatToString(123) == NatToString(12) + "3";
      assert NatToString(1234) == NatToString(123) + "4";
      assert NatToString(12345) == NatToString(1234) + "5";
    }
    ParseIntRoundTrip(12345);
  }

  /** Text that starts with something other than a sign or a digit is not an integer. */
  lemma {:induction false} ParseIntRejectsNonDigit(text: string)
    requires text != [] && PyStr.IsTrimmed(text)
    requires !IsDigit(text[0]) && text[0] != '-' && text[0] != '+'
    ensures ParseInt(text) == None
  {
    PyStr.StripTrimmed(text);
  }

  /** The state-file contents the repository's tests use: garbage and an empty file. */
  lemma {:induction false} ParseIntRejectsExamples()
    ensures ParseInt("invalid") == None
    ensures ParseInt("") == None
  {
    ParseIntRejectsNonDigit("invalid");
    ParseIntIgnoresSurroundingSpace("");
  }
}
