/** The JavaScript string operations the views rely on: `Number.prototype.toString`
    for a non-negative integer, `String.prototype.padStart` and
    `String.prototype.replaceAll` with a one-character pattern. Decimal parsing is
    the partner of `toString` and lets the round trips below be stated. */
module JsStrings {
  import opened Common

  predicate IsDigit(c: char) { '0' <= c <= '9' }

  predicate AllDigits(s: string) { forall i :: 0 <= i < |s| ==> IsDigit(s[i]) }

  /** Every character of `s` is the character zero. */
  predicate AllZeros(s: string) { forall i :: 0 <= i < |s| ==> s[i] == '0' }

  function DigitChar(d: nat): (c: char)
    requires d < 10
    ensures IsDigit(c) && DigitValue(c) == d
  {
    "0123456789"[d]
  }

  function DigitValue(c: char): nat
    requires IsDigit(c)
  {
    c as int - '0' as int
  }

  /** `n.toString()` for a non-negative integer: its decimal digits, most
      significant first, with no leading zero except for `0` itself. */
  function NumberToString(n: nat): (s: string)
    ensures 1 <= |s| && AllDigits(s)
    ensures |s| > 1 ==> s[0] != '0'
    ensures n < 10 <==> |s| == 1
    decreases n
  {
    if n < 10 then [DigitChar(n)] else NumberToString(n / 10) + [DigitChar(n % 10)]
  }

  /** Template-literal interpolation `${i}` of an integer: a minus sign before the
      digits of a negative value. */
  function IntToString(i: int): (s: string)
    ensures 1 <= |s|
    ensures i < 0 <==> s[0] == '-'
    ensures i >= 0 ==> AllDigits(s)
    ensures i < 0 ==> AllDigits(s[1..])
  {
    if i < 0 then "-" + NumberToString(-i) else NumberToString(i)
  }

  /** The value of a string of decimal digits, read most significant first. */
  function DecimalValue(s: string): nat
    requires AllDigits(s)
  {
    if s == [] then 0 else 10 * DecimalValue(s[..|s| - 1]) + DigitValue(s[|s| - 1])
  }

  /** Reading back the decimal rendering of `n` gives `n`. */
  lemma {:induction false} NumberToStringRoundTrip(n: nat)
    ensures DecimalValue(NumberToString(n)) == n
    decreases n
  {
    var s := NumberToString(n);
    if n >= 10 {
      var p := NumberToString(n / 10);
      assert s == p + [DigitChar(n % 10)];
      assert s[..|s| - 1] == p;
      NumberToStringRoundTrip(n / 10);
    }
  }

  /** The interpolated digits are the decimal value of `|i|`. */
  lemma IntToStringValue(i: int)
    ensures i >= 0 ==> DecimalValue(IntToString(i)) == i
    ensures i < 0 ==> DecimalValue(IntToString(i)[1..]) == -i
  {
    if i >= 0 {
      NumberToStringRoundTrip(i);
    } else {
      assert IntToString(i)[1..] == NumberToString(-i);
      NumberToStringRoundTrip(-i);
    }
  }

  /** Distinct naturals render as distinct strings. */
  lemma NumberToStringInjective(a: nat, b: nat)
    requires NumberToString(a) == NumberToString(b)
    ensures a == b
  {
    NumberToStringRoundTrip(a);
    NumberToStringRoundTrip(b);
  }

  /** Distinct integers interpolate to distinct strings. */
  lemma IntToStringInjective(a: int, b: int)
    requires IntToString(a) == IntToString(b)
    ensures a == b
  {
    if a >= 0 && b >= 0 {
      NumberToStringInjective(a, b);
    } else if a < 0 && b < 0 {
      var s := IntToString(a);
      assert s[1..] == NumberToString(-a) by { assert s == "-" + NumberToString(-a); }
      assert s[1..] == NumberToString(-b) by { assert s == "-" + NumberToString(-b); }
      NumberToStringInjective(-a, -b);
    }
  }

  lemma {:induction false} ZerosValue(z: string)
    requires AllZeros(z)
    ensures AllDigits(z) && DecimalValue(z) == 0
    decreases |z|
  {
    if z != [] {
      ZerosValue(z[..|z| - 1]);
    }
  }

  /** Leading zeros do not change the value of a decimal string. */
  lemma {:induction false} LeadingZerosIgnored(z: string, s: string)
    requires AllZeros(z) && AllDigits(s)
    ensures AllDigits(z + s) && DecimalValue(z + s) == DecimalValue(s)
    decreases |s|
  {
    if s == [] {
      assert z + s == z;
      ZerosValue(z);
    } else {
      var t := z + s;
      assert t[..|t| - 1] == z + s[..|s| - 1];
      assert t[|t| - 1] == s[|s| - 1];
      LeadingZerosIgnored(z, s[..|s| - 1]);
    }
  }

  /** The first `n` characters of `fill` repeated endlessly: the filler that
      `padStart` puts in front. */
  function Repeat(fill: string, n: nat): (r: string)
    requires fill != []
    ensures |r| == n
    ensures forall i :: 0 <= i < n ==> r[i] == fill[i % |fill|]
  {
    if n == 0 then [] else Repeat(fill, n - 1) + [fill[(n - 1) % |fill|]]
  }

  /** `s.padStart(target, fill)`: `s` unchanged when it is already at least
      `target` long or `fill` is empty; otherwise the truncated repetition of
      `fill` in front of `s`, to length exactly `target`. */
  function PadStart(s: string, target: nat, fill: string): (r: string)
    ensures |r| == if fill == [] then |s| else Max(target, |s|)
    ensures |s| <= |r| && r[|r| - |s|..] == s
    ensures fill != [] ==> forall i :: 0 <= i < |r| - |s| ==> r[i] == fill[i % |fill|]
  {
    if target <= |s| || fill == [] then s else Repeat(fill, target - |s|) + s
  }

  /** `s.replaceAll(from, to)` for one-character pattern and replacement: every
      occurrence of `from` becomes `to`, every other character stays. */
  function ReplaceAllChar(s: string, from: char, to: char): (r: string)
    ensures |r| == |s|
    ensures forall i :: 0 <= i < |s| ==> r[i] == (if s[i] == from then to else s[i])
    ensures from != to ==> from !in r
  {
    if s == [] then [] else [if s[0] == from then to else s[0]] + ReplaceAllChar(s[1..], from, to)
  }
}
