// Decimal text of signed integers, as produced by the sketch's own
// `mysprintf` (display.cpp) and by the C library's `itoa` (ontime.cpp),
// together with the inverse reading that recovers the value.
module Decimal {

  predicate IsDigit(c: char) {
    '0' <= c <= '9'
  }

  function DigitValue(c: char): (d: nat)
    requires IsDigit(c)
    ensures d < 10
  {
    c as int - '0' as int
  }

  /** The ASCII digit for d, i.e. d + 0x30. */
  function DigitChar(d: nat): (c: char)
    requires d < 10
    ensures IsDigit(c) && DigitValue(c) == d
    ensures c == '0' <==> d == 0
  {
    (0x30 + d) as char
  }

  /** Decimal digits of n, most significant first, without leading zeros; "0" for 0. */
  function Digits(n: nat): (s: seq<char>)
    ensures 1 <= |s|
    ensures forall i :: 0 <= i < |s| ==> IsDigit(s[i])
    ensures s[0] == '0' <==> n == 0
    ensures n < 10 <==> |s| == 1
    decreases n
  {
    if n < 10 then [DigitChar(n)] else Digits(n / 10) + [DigitChar(n % 10)]
  }

  /** The digits emitted before the final one: none when no higher digit is non-zero. */
  function LeadingDigits(k: nat): (s: seq<char>)
    ensures k == 0 <==> s == []
  {
    if k == 0 then [] else Digits(k)
  }

  function Magnitude(v: int): (m: nat)
    ensures m == v || m == -v
  {
    if v < 0 then -v else v
  }

  /**
   * Text of v: '-' when v is negative, then the decimal digits of |v|; when
   * dp is set, a '.' stands before the final digit and at least one digit
   * stands before the '.' (so 3 reads "0.3" and 123 reads "12.3").
   */
  function Text(v: int, dp: bool): seq<char> {
    (if v < 0 then ['-'] else []) + UnsignedText(Magnitude(v), dp)
  }

  /** The text of a magnitude, without sign. */
  function UnsignedText(m: nat, dp: bool): seq<char> {
    if dp then Digits(m / 10) + ['.', DigitChar(m % 10)] else Digits(m)
  }

  /** Value of the digits of s read left to right; a '.' contributes nothing. */
  function DigitsValue(s: seq<char>): nat
    decreases |s|
  {
    if s == [] then 0
    else if IsDigit(s[|s| - 1]) then DigitsValue(s[..|s| - 1]) * 10 + DigitValue(s[|s| - 1])
    else DigitsValue(s[..|s| - 1])
  }

  /** Reads a text back: a leading '-' negates; the value is in units of the last digit. */
  function ParseText(s: seq<char>): int {
    if |s| > 0 && s[0] == '-' then -(DigitsValue(s[1..]) as int) else DigitsValue(s)
  }

  /** A canonical unsigned numeral: digits only, non-empty, no leading zero. */
  predicate IsNumeral(s: seq<char>) {
    && 1 <= |s|
    && (forall i :: 0 <= i < |s| ==> IsDigit(s[i]))
    && (s[0] == '0' ==> |s| == 1)
  }

  /** The shape of an unsigned text, with or without the decimal point. */
  predicate IsUnsignedText(s: seq<char>, dp: bool) {
    if dp then
      |s| >= 3 && IsNumeral(s[..|s| - 2]) && s[|s| - 2] == '.' && IsDigit(s[|s| - 1])
    else
      IsNumeral(s)
  }

  /** The shape of every text Text produces: a '-' is never followed by zero. */
  predicate IsText(s: seq<char>, dp: bool) {
    if |s| > 0 && s[0] == '-' then IsUnsignedText(s[1..], dp) && DigitsValue(s[1..]) != 0
    else IsUnsignedText(s, dp)
  }

  lemma {:induction false} DigitsValueOfDigits(n: nat)
    ensures DigitsValue(Digits(n)) == n
    decreases n
  {
    var s := Digits(n);
    if n < 10 {
      assert s[..0] == [];
    } else {
      DigitsValueOfDigits(n / 10);
      assert s[..|s| - 1] == Digits(n / 10);
    }
  }

  lemma {:induction false} NumeralValuePositive(s: seq<char>)
    requires IsNumeral(s) && s[0] != '0'
    ensures DigitsValue(s) > 0
    decreases |s|
  {
    if |s| > 1 {
      var p := s[..|s| - 1];
      assert p[0] == s[0];
      NumeralValuePositive(p);
    } else {
      assert s[..0] == [];
    }
  }

  lemma {:induction false} DigitsOfNumeral(s: seq<char>)
    requires IsNumeral(s)
    ensures Digits(DigitsValue(s)) == s
    decreases |s|
  {
    var last := s[|s| - 1];
    var v := DigitsValue(s);
    if |s| == 1 {
      assert s[..0] == [];
      assert IsDigit(last);
      assert DigitsValue(s[..0]) == 0;
      assert v == DigitsValue(s[..0]) * 10 + DigitValue(last);
      assert Digits(v) == [DigitChar(v)];
    } else {
      var p := s[..|s| - 1];
      assert p[0] == s[0];
      assert IsNumeral(p);
      NumeralValuePositive(p);
      DigitsOfNumeral(p);
      var pv := DigitsValue(p);
      assert v == pv * 10 + DigitValue(last);
      assert v / 10 == pv && v % 10 == DigitValue(last);
      assert DigitChar(DigitValue(last)) == last;
      assert s == p + [last];
    }
  }

  lemma DigitsIsNumeral(n: nat)
    ensures IsNumeral(Digits(n))
  {
  }

  /** Value of the unsigned part of Text(v, dp). */
  lemma {:induction false} UnsignedValue(m: nat, dp: bool)
    ensures DigitsValue(UnsignedText(m, dp)) == m
    ensures IsUnsignedText(UnsignedText(m, dp), dp)
  {
    if dp {
      var q := Digits(m / 10);
      var u := q + ['.', DigitChar(m % 10)];
      DigitsValueOfDigits(m / 10);
      assert u[..|u| - 1] == q + ['.'];
      assert (q + ['.'])[..|q|] == q;
      assert u[..|u| - 2] == q;
      DigitsIsNumeral(m / 10);
    } else {
      DigitsValueOfDigits(m);
      DigitsIsNumeral(m);
    }
  }

  /** Reading a text back recovers the value, and every text has the canonical shape. */
  lemma TextRoundTrip(v: int, dp: bool)
    ensures ParseText(Text(v, dp)) == v
    ensures IsText(Text(v, dp), dp)
  {
    var u := UnsignedText(Magnitude(v), dp);
    UnsignedValue(Magnitude(v), dp);
    assert IsDigit(u[0]);
    if v < 0 {
      SignedText(u, dp);
    } else {
      assert Text(v, dp) == u;
    }
  }

  /** A '-' in front of a non-zero unsigned text reads as the negated value. */
  lemma SignedText(u: seq<char>, dp: bool)
    requires IsUnsignedText(u, dp) && DigitsValue(u) != 0
    ensures ParseText(['-'] + u) == -(DigitsValue(u) as int)
    ensures IsText(['-'] + u, dp)
  {
    assert (['-'] + u)[1..] == u;
  }

  /** Every canonical unsigned text is the unsigned text of the value it reads as. */
  lemma UnsignedTextOfValue(u: seq<char>, dp: bool)
    requires IsUnsignedText(u, dp)
    ensures UnsignedText(DigitsValue(u), dp) == u
  {
    if dp {
      var q := u[..|u| - 2];
      var d := u[|u| - 1];
      assert u[..|u| - 1] == q + ['.'];
      assert (q + ['.'])[..|q|] == q;
      assert DigitsValue(q + ['.']) == DigitsValue(q);
      var n := DigitsValue(u);
      assert n == DigitsValue(q) * 10 + DigitValue(d);
      DigitsOfNumeral(q);
      assert n / 10 == DigitsValue(q) && n % 10 == DigitValue(d);
      assert u == q + ['.', d];
    } else {
      DigitsOfNumeral(u);
    }
  }

  /** Every canonical text is the text of the value it reads as. */
  lemma TextOfParse(s: seq<char>, dp: bool)
    requires IsText(s, dp)
    ensures Text(ParseText(s), dp) == s
  {
    if |s| > 0 && s[0] == '-' {
      var u := s[1..];
      UnsignedTextOfValue(u, dp);
      assert s == ['-'] + u;
    } else {
      UnsignedTextOfValue(s, dp);
    }
  }

  /** Distinct values have distinct texts. */
  lemma TextInjective(v: int, w: int, dp: bool)
    requires Text(v, dp) == Text(w, dp)
    ensures v == w
  {
    TextRoundTrip(v, dp);
    TextRoundTrip(w, dp);
  }

  lemma {:induction false} DigitsLength(n: nat, k: nat, p: nat)
    requires p >= 1 && n < p * 10
    requires (k == 1 && p == 1) || (k == 2 && p == 10) || (k == 3 && p == 100)
          || (k == 4 && p == 1000) || (k == 5 && p == 10000)
    ensures |Digits(n)| <= k
    decreases k
  {
    if n >= 10 {
      DigitsLength(n / 10, k - 1, p / 10);
    }
  }

  /** A text of a magnitude below 100000 has at most seven characters. */
  lemma TextLength(v: int, dp: bool)
    requires Magnitude(v) < 100000
    ensures |Text(v, dp)| <= 7
  {
    var m := Magnitude(v);
    if dp {
      DigitsLength(m / 10, 4, 1000);
    } else {
      DigitsLength(m, 5, 10000);
    }
  }
}
