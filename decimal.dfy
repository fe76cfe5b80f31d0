/**
 * Decimal digit strings and their values: the part of JavaScript's `parseInt(s, 10)` and
 * `parseFloat(s)` that the program reaches, namely strings made only of ASCII digits (and, for
 * `parseFloat`, periods).
 */
module Decimal {
  import opened Ascii
  import opened Numbers

  function DigitValue(c: char): (d: nat)
    requires IsDigit(c)
    ensures d < 10
  {
    c as int - '0' as int
  }

  function DigitChar(d: nat): (c: char)
    requires d < 10
    ensures IsDigit(c) && DigitValue(c) == d
  {
    ('0' as int + d) as char
  }

  predicate AllDigits(s: string) {
    forall i :: 0 <= i < |s| ==> IsDigit(s[i])
  }

  function Pow10(n: nat): (p: nat)
    ensures p > 0
  {
    if n == 0 then 1 else 10 * Pow10(n - 1)
  }

  /** The base-10 value of a digit string, most significant digit first; `""` has value 0. */
  function DigitsValue(s: string): (v: nat)
    requires AllDigits(s)
    ensures v < Pow10(|s|)
  {
    if s == [] then 0
    else DigitsValue(s[..|s| - 1]) * 10 + DigitValue(s[|s| - 1])
  }

  /** The decimal representation of `n`, without leading zeros. */
  function ToDigits(n: nat): (s: string)
    ensures AllDigits(s) && s != []
    ensures n > 0 ==> s[0] != '0'
  {
    if n < 10 then [DigitChar(n)] else ToDigits(n / 10) + [DigitChar(n % 10)]
  }

  /** Reading back the representation of `n` gives `n`. */
  lemma {:induction false} DigitsRoundTrip(n: nat)
    ensures DigitsValue(ToDigits(n)) == n
  {
    if n >= 10 {
      var s := ToDigits(n);
      assert s[..|s| - 1] == ToDigits(n / 10);
      DigitsRoundTrip(n / 10);
    }
  }

  /** Leading zeros do not change the value. */
  lemma {:induction false} LeadingZeroIgnored(s: string)
    requires AllDigits(s)
    ensures DigitsValue("0" + s) == DigitsValue(s)
    decreases |s|
  {
    if s != [] {
      var t := "0" + s;
      assert t[..|t| - 1] == "0" + s[..|s| - 1];
      LeadingZeroIgnored(s[..|s| - 1]);
    }
  }

  /** The longest prefix of `s` made of digits. */
  function LeadingDigits(s: string): (r: string)
    ensures AllDigits(r) && r <= s
    ensures |r| == |s| || !IsDigit(s[|r|])
  {
    if s != [] && IsDigit(s[0]) then [s[0]] + LeadingDigits(s[1..]) else []
  }

  lemma {:induction false} LeadingDigitsOfDigits(s: string)
    requires AllDigits(s)
    ensures LeadingDigits(s) == s
  {
    if s != [] {
      LeadingDigitsOfDigits(s[1..]);
    }
  }

  /** No digit prefix exactly when the string is empty or does not start with a digit. */
  lemma LeadingDigitsEmpty(s: string)
    ensures LeadingDigits(s) == [] <==> s == [] || !IsDigit(s[0])
    ensures s != [] ==> (LeadingDigits(s[1..]) == [] <==> |s| == 1 || !IsDigit(s[1]))
  {
  }

  /** The characters a `parseFloat` residue may hold: digits and the period. */
  predicate DecimalChar(c: char) { IsDigit(c) || c == '.' }

  /**
   * `parseFloat(s)` for a string of digits and periods: the longest prefix of the form
   * `digits [. digits]` is read, and NaN results when that prefix holds no digit at all.
   */
  function ParseFloatResidue(s: string): (r: Amount)
    requires forall i :: 0 <= i < |s| ==> DecimalChar(s[i])
    ensures r.NaN? <==> !(s != [] && (IsDigit(s[0]) || (|s| > 1 && s[0] == '.' && IsDigit(s[1]))))
    ensures r.Finite? ==> r.value >= 0.0
  {
    var whole := LeadingDigits(s);
    var rest := s[|whole|..];
    var fraction := if rest != [] && rest[0] == '.' then LeadingDigits(rest[1..]) else [];
    LeadingDigitsEmpty(s);
    assert whole == [] ==> rest == s;
    if whole == [] && fraction == [] then NaN
    else
      Finite(DigitsValue(whole) as real + FractionValue(fraction))
  }

  /** The digits after the period, read as a fraction: `fraction` over its power of ten. */
  function FractionValue(fraction: string): (r: real)
    requires AllDigits(fraction)
    ensures 0.0 <= r
    ensures fraction == [] ==> r == 0.0
    ensures r * Pow10(|fraction|) as real == DigitsValue(fraction) as real
  {
    var a := DigitsValue(fraction) as real;
    var b := Pow10(|fraction|) as real;
    QuotientTimes(a, b);
    a / b
  }

  lemma QuotientTimes(a: real, b: real)
    requires b > 0.0
    ensures (a / b) * b == a
  {
  }

  /** The digit prefix stops where the digits do. */
  lemma {:induction false} LeadingDigitsAppend(w: string, t: string)
    requires AllDigits(w)
    requires t == [] || !IsDigit(t[0])
    ensures LeadingDigits(w + t) == w
  {
    if w != [] {
      assert (w + t)[1..] == w[1..] + t;
      LeadingDigitsAppend(w[1..], t);
    }
  }

  /**
   * A residue `w . f rest`, with `w` and `f` runs of digits not both empty and `rest` empty or
   * starting at the next period, is read as `w` plus `f` over its power of ten.
   */
  lemma ResidueValue(w: string, f: string, rest: string)
    requires AllDigits(w) && AllDigits(f) && (w != [] || f != [])
    requires forall i :: 0 <= i < |rest| ==> DecimalChar(rest[i])
    requires rest == [] || rest[0] == '.'
    ensures forall i :: 0 <= i < |w + ['.'] + f + rest| ==> DecimalChar((w + ['.'] + f + rest)[i])
    ensures ParseFloatResidue(w + ['.'] + f + rest) == Finite(DigitsValue(w) as real + FractionValue(f))
  {
    ResidueChars(w, f, rest);
    ResidueSplit(w, f, rest);
    var s := w + ['.'] + f + rest;
    var tail := s[|w|..];
    assert tail != [] && tail[0] == '.' && LeadingDigits(tail[1..]) == f;
    ResidueRead(s, w, f, tail);
  }

  /** `parseFloat`'s reading, given where it cuts the residue. */
  lemma ResidueRead(s: string, w: string, f: string, tail: string)
    requires forall i :: 0 <= i < |s| ==> DecimalChar(s[i])
    requires LeadingDigits(s) == w && tail == s[|w|..]
    requires tail != [] && tail[0] == '.' && LeadingDigits(tail[1..]) == f
    requires w != [] || f != []
    ensures ParseFloatResidue(s) == Finite(DigitsValue(w) as real + FractionValue(f))
  {
  }

  /** Where `parseFloat` cuts the residue `w . f rest`: after `w`, and after `f` past the period. */
  lemma ResidueSplit(w: string, f: string, rest: string)
    requires AllDigits(w) && AllDigits(f)
    requires rest == [] || rest[0] == '.'
    ensures var s := w + ['.'] + f + rest;
      && LeadingDigits(s) == w
      && s[|w|..] == ['.'] + f + rest
      && LeadingDigits(s[|w|..][1..]) == f
  {
    var s := w + ['.'] + f + rest;
    assert s == w + (['.'] + f + rest);
    LeadingDigitsAppend(w, ['.'] + f + rest);
    assert (['.'] + f + rest)[1..] == f + rest;
    LeadingDigitsAppend(f, rest);
  }

  lemma ResidueChars(w: string, f: string, rest: string)
    requires AllDigits(w) && AllDigits(f)
    requires forall i :: 0 <= i < |rest| ==> DecimalChar(rest[i])
    ensures forall i :: 0 <= i < |w + ['.'] + f + rest| ==> DecimalChar((w + ['.'] + f + rest)[i])
  {
    var s := w + ['.'] + f + rest;
    forall i | 0 <= i < |s|
      ensures DecimalChar(s[i])
    {
      if i < |w| {
        assert s[i] == w[i];
      } else if i == |w| {
      } else if i < |w| + 1 + |f| {
        assert s[i] == f[i - |w| - 1];
      } else {
        assert s[i] == rest[i - |w| - 1 - |f|];
      }
    }
  }

  /** A string of digits alone is read as the whole number it spells. */
  lemma ParseFloatOfDigits(s: string)
    requires AllDigits(s) && s != []
    ensures ParseFloatResidue(s) == Finite(DigitsValue(s) as real)
  {
    LeadingDigitsOfDigits(s);
  }

  /** Reading back the representation of any count gives that count. */
  lemma ParseFloatRoundTrip(n: nat)
    ensures ParseFloatResidue(ToDigits(n)) == Finite(n as real)
  {
    ParseFloatOfDigits(ToDigits(n));
    DigitsRoundTrip(n);
  }
}
