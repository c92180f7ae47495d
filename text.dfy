/** The few pieces of java.lang string behaviour the core relies on:
    decimal rendering of numbers, `String.format("%04d", n)`, `Integer.parseInt`,
    `String.startsWith` and `String.toUpperCase`. */
module Text {
  import opened Wrappers

  const INT_MIN: int := -0x8000_0000
  const INT_MAX: int := 0x7fff_ffff

  predicate IsDigit(c: char) { '0' <= c <= '9' }

  predicate AllDigits(s: string) { forall i :: 0 <= i < |s| ==> IsDigit(s[i]) }

  function DigitValue(c: char): nat
    requires IsDigit(c)
  {
    (c as int) - ('0' as int)
  }

  function DigitChar(d: nat): (c: char)
    requires d < 10
    ensures IsDigit(c) && DigitValue(c) == d
  {
    (('0' as int) + d) as char
  }

  /** Value of a string of decimal digits, most significant first. */
  function DigitsValue(s: string): nat
    requires AllDigits(s)
  {
    if s == [] then 0 else 10 * DigitsValue(s[..|s| - 1]) + DigitValue(s[|s| - 1])
  }

  /** `Long.toString(n)` for n >= 0: digits only, no leading zero unless n is 0. */
  function NatToString(n: nat): (s: string)
    ensures |s| >= 1 && AllDigits(s)
    ensures |s| > 1 ==> s[0] != '0'
  {
    if n < 10 then [DigitChar(n)] else NatToString(n / 10) + [DigitChar(n % 10)]
  }

  /** `Long.toString(n)` / string concatenation of a long. */
  function IntToString(n: int): string
  {
    if n < 0 then "-" + NatToString(-n) else NatToString(n)
  }

  lemma {:induction false} NatToStringRoundTrip(n: nat)
    ensures DigitsValue(NatToString(n)) == n
  {
    if n >= 10 {
      NatToStringRoundTrip(n / 10);
      var s := NatToString(n);
      assert s[..|s| - 1] == NatToString(n / 10);
    }
  }

  /** A leading zero does not change the value of a digit string. */
  lemma {:induction false} LeadingZero(s: string)
    requires AllDigits(s)
    ensures AllDigits("0" + s) && DigitsValue("0" + s) == DigitsValue(s)
  {
    var z := "0" + s;
    assert AllDigits(z) by {
      forall i | 0 <= i < |z| ensures IsDigit(z[i]) {
        if i > 0 { assert z[i] == s[i - 1]; }
      }
    }
    if s != [] {
      var init := s[..|s| - 1];
      LeadingZero(init);
      assert z[..|z| - 1] == "0" + init;
    }
  }

  /** `n` zero characters. */
  function Zeros(n: nat): (r: string)
    ensures |r| == n && forall i :: 0 <= i < n ==> r[i] == '0'
  {
    seq(n, _ => '0')
  }

  /** `String.format("%0<width>d", v)` for v >= 0, given the digits of v:
      left-padded with zeros up to `width` characters, never truncated. */
  function ZeroPad(digits: string, width: nat): (r: string)
    ensures |r| == if |digits| >= width then |digits| else width
    ensures r[|r| - |digits|..] == digits
    ensures forall i :: 0 <= i < |r| - |digits| ==> r[i] == '0'
  {
    if |digits| >= width then digits else Zeros(width - |digits|) + digits
  }

  /** Leading zeros do not change the value of a digit string. */
  lemma {:induction false} ZerosValue(n: nat, digits: string)
    requires AllDigits(digits)
    ensures AllDigits(Zeros(n) + digits) && DigitsValue(Zeros(n) + digits) == DigitsValue(digits)
    decreases n
  {
    if n > 0 {
      ZerosValue(n - 1, digits);
      LeadingZero(Zeros(n - 1) + digits);
      assert Zeros(n) + digits == "0" + (Zeros(n - 1) + digits);
    } else {
      assert Zeros(n) + digits == digits;
    }
  }

  lemma ZeroPadValue(digits: string, width: nat)
    requires AllDigits(digits)
    ensures AllDigits(ZeroPad(digits, width))
    ensures DigitsValue(ZeroPad(digits, width)) == DigitsValue(digits)
  {
    if |digits| < width {
      ZerosValue(width - |digits|, digits);
    }
  }

  /** `s.startsWith(prefix)`. */
  predicate StartsWith(s: string, prefix: string)
  {
    |prefix| <= |s| && s[..|prefix|] == prefix
  }

  /** `Character.toUpperCase` restricted to ASCII letters. */
  function UpperChar(c: char): char
  {
    if 'a' <= c <= 'z' then ((c as int) - 32) as char else c
  }

  predicate IsLower(c: char) { 'a' <= c <= 'z' }

  /** `s.toUpperCase()` on ASCII text: each lower-case letter becomes its
      capital, every other character stays, and the length is kept. */
  function ToUpperCase(s: string): (r: string)
    ensures |r| == |s|
    ensures forall i :: 0 <= i < |s| && IsLower(s[i]) ==> 'A' <= r[i] <= 'Z' && r[i] as int == s[i] as int - 32
    ensures forall i :: 0 <= i < |s| && !IsLower(s[i]) ==> r[i] == s[i]
  {
    seq(|s|, i requires 0 <= i < |s| => UpperChar(s[i]))
  }

  /** Upper-casing twice is upper-casing once. */
  lemma ToUpperCaseIdempotent(s: string)
    ensures ToUpperCase(ToUpperCase(s)) == ToUpperCase(s)
  {
    var u := ToUpperCase(s);
    forall i | 0 <= i < |s| ensures !IsLower(u[i]) {
    }
  }

  /** `Integer.parseInt(s)` in radix 10: an optional '+' or '-', then at least
      one digit, and the value must fit in 32 bits; None stands for the
      NumberFormatException. */
  function ParseInt(s: string): (r: Option<int>)
    ensures r.Some? ==> INT_MIN <= r.value <= INT_MAX
    ensures s == [] || s == "-" || s == "+" ==> r.None?
    ensures r.Some? && s[0] != '-' ==> r.value >= 0
  {
    if |s| == 0 then None
    else
      var digits := if s[0] == '-' || s[0] == '+' then s[1..] else s;
      if |digits| == 0 || !AllDigits(digits) then None
      else
        var n: int := DigitsValue(digits);
        var v: int := if s[0] == '-' then 0 - n else n;
        if INT_MIN <= v <= INT_MAX then Some(v) else None
  }

  /** parseInt reads back what string concatenation writes for an int. */
  lemma ParseIntRoundTrip(n: int)
    requires INT_MIN <= n <= INT_MAX
    ensures ParseInt(IntToString(n)) == Some(n)
  {
    var s := IntToString(n);
    if n < 0 {
      var digits := NatToString(-n);
      assert s == "-" + digits;
      assert s[0] == '-' && s[1..] == digits;
      NatToStringRoundTrip(-n);
    } else {
      var digits := NatToString(n);
      assert s == digits;
      assert s[0] != '-' && s[0] != '+' by {
        assert IsDigit(digits[0]);
      }
      NatToStringRoundTrip(n);
    }
  }

  /** A character other than a digit anywhere, except a sign in front,
      makes parseInt throw. */
  lemma ParseIntRejectsNonDigit(s: string, i: nat)
    requires i < |s| && !IsDigit(s[i])
    requires i == 0 ==> s[0] != '-' && s[0] != '+'
    ensures ParseInt(s) == None
  {
    var digits := if s[0] == '-' || s[0] == '+' then s[1..] else s;
    if s[0] == '-' || s[0] == '+' {
      assert digits[i - 1] == s[i];
    } else {
      assert digits[i] == s[i];
    }
  }
}
