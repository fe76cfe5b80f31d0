/**
 * The two locale-independent helpers of `utils/formatters.ts`: reading a formatted amount back
 * as a whole number, and clamping a value into a range.
 */
module Formatters {
  import opened Ascii
  import opened Decimal

  /**
   * `parseCurrency`: the digits of `value`, in order, read as one base-10 number; every other
   * character (currency sign, separators, minus sign) is ignored, and no digits at all give 0.
   */
  function ParseCurrency(value: string): (r: nat)
    ensures r == DigitsValue(Retain(value, IsDigit))
    ensures (forall i :: 0 <= i < |value| ==> !IsDigit(value[i])) ==> r == 0
  {
    NoDigitsNoValue(value);
    DigitsValue(Retain(value, IsDigit))
  }

  lemma NoDigitsNoValue(value: string)
    ensures (forall i :: 0 <= i < |value| ==> !IsDigit(value[i])) ==> DigitsValue(Retain(value, IsDigit)) == 0
  {
    if forall i :: 0 <= i < |value| ==> !IsDigit(value[i]) {
      RetainNone(value, IsDigit);
    }
  }

  /** Reading back the plain decimal representation of `n` gives `n`. */
  lemma ParseCurrencyRoundTrip(n: nat)
    ensures ParseCurrency(ToDigits(n)) == n
  {
    RetainAll(ToDigits(n), IsDigit);
    DigitsRoundTrip(n);
  }

  /** A character that is not a digit, such as a thousands separator, changes nothing. */
  lemma SeparatorIgnored(a: string, c: char, b: string)
    requires !IsDigit(c)
    ensures ParseCurrency(a + [c] + b) == ParseCurrency(a + b)
  {
    DropRejected(a, c, b, IsDigit);
    RetainAppend(a, b, IsDigit);
  }

  /** Leading zeros do not change the value. */
  lemma LeadingZeroesIgnored(s: string)
    ensures ParseCurrency("0" + s) == ParseCurrency(s)
  {
    RetainAppend("0", s, IsDigit);
    assert Retain("0", IsDigit) == "0" by { assert "0"[1..] == []; }
    LeadingZeroIgnored(Retain(s, IsDigit));
  }

  /** `"Rp1.500.000"` reads as 1500000. */
  lemma RupiahExample()
    ensures ParseCurrency("Rp1.500.000") == 1500000
  {
    RupiahDigits();
    RupiahValue();
  }

  lemma RupiahDigits()
    ensures Retain("Rp1.500.000", IsDigit) == "1500000"
  {
    RupiahPrefix();
    RetainAppend("Rp", "1.500.000", IsDigit);
    GroupedDigits();
  }

  /** The currency prefix holds no digit. */
  lemma RupiahPrefix()
    ensures "Rp1.500.000" == "Rp" + "1.500.000"
    ensures Retain("Rp", IsDigit) == []
  {
    RetainNone("Rp", IsDigit);
  }

  lemma GroupedDigits()
    ensures Retain("1.500.000", IsDigit) == "1500000"
  {
    var a, b, c := "1", "500", "000";
    GroupedSpelling(a, b, c);
    ThreeGroups(a, b, c);
  }

  lemma GroupedSpelling(a: string, b: string, c: string)
    requires a == "1" && b == "500" && c == "000"
    ensures "1.500.000" == a + ['.'] + (b + ['.'] + c)
    ensures "1500000" == a + (b + c)
  {
  }

  /** Digit groups joined by periods read as the groups run together. */
  lemma ThreeGroups(a: string, b: string, c: string)
    requires AllDigits(a) && AllDigits(b) && AllDigits(c)
    ensures Retain(a + ['.'] + (b + ['.'] + c), IsDigit) == a + (b + c)
  {
    DropRejected(a, '.', b + ['.'] + c, IsDigit);
    DropRejected(b, '.', c, IsDigit);
    RetainAll(a, IsDigit);
    RetainAll(b, IsDigit);
    RetainAll(c, IsDigit);
  }

  /** A character the filter rejects disappears without disturbing its neighbours. */
  lemma DropRejected(a: string, c: char, b: string, keep: char -> bool)
    requires !keep(c)
    ensures Retain(a + [c] + b, keep) == Retain(a, keep) + Retain(b, keep)
  {
    RetainAppend(a + [c], b, keep);
    RetainAppend(a, [c], keep);
    RejectedSingleton(c, keep);
  }

  lemma RejectedSingleton(c: char, keep: char -> bool)
    requires !keep(c)
    ensures Retain([c], keep) == []
  {
    assert [c][1..] == [];
  }

  /** Appending a digit shifts the value one place and adds the digit. */
  lemma DigitsSnoc(s: string, c: char)
    requires AllDigits(s) && IsDigit(c)
    ensures DigitsValue(s + [c]) == DigitsValue(s) * 10 + DigitValue(c)
  {
    assert (s + [c])[..|s|] == s;
  }

  lemma RupiahValue()
    ensures DigitsValue("1500000") == 1500000
  {
    ValueSpellings();
    assert DigitsValue("1") == 1;
    DigitsSnoc("1", '5');
    DigitsSnoc("15", '0');
    DigitsSnoc("150", '0');
    DigitsSnoc("1500", '0');
    DigitsSnoc("15000", '0');
    DigitsSnoc("150000", '0');
  }

  /** Each spelling on the way to `"1500000"` is the previous one and one more digit. */
  lemma ValueSpellings()
    ensures "1" + ['5'] == "15" && "15" + ['0'] == "150" && "150" + ['0'] == "1500"
    ensures "1500" + ['0'] == "15000" && "15000" + ['0'] == "150000" && "150000" + ['0'] == "1500000"
  {
  }

  /** `"-5"` reads as 5: the minus sign is dropped with the other non-digits. */
  lemma NegativeExample()
    ensures ParseCurrency("-5") == 5
  {
    NegativeSpelling();
    SeparatorIgnored([], '-', "5");
    RetainAll("5", IsDigit);
  }

  lemma NegativeSpelling()
    ensures "-5" == [] + ['-'] + "5" && [] + "5" == "5"
  {
  }

  function Max(a: real, b: real): real { if a >= b then a else b }

  function Min(a: real, b: real): real { if a <= b then a else b }

  /** `clamp`: `min(max(value, min), max)`. */
  function Clamp(value: real, lo: real, hi: real): (r: real)
    ensures lo <= hi ==> lo <= r <= hi
    ensures lo <= value <= hi ==> r == value
    ensures lo > hi ==> r == hi
    ensures r <= hi
  {
    Min(Max(value, lo), hi)
  }

  /** Clamping an already clamped value changes nothing. */
  lemma ClampIdempotent(value: real, lo: real, hi: real)
    ensures Clamp(Clamp(value, lo, hi), lo, hi) == Clamp(value, lo, hi)
  {
  }

  /** Below the range gives the lower bound, above it the upper bound. */
  lemma ClampOutside(value: real, lo: real, hi: real)
    requires lo <= hi
    ensures value < lo ==> Clamp(value, lo, hi) == lo
    ensures value > hi ==> Clamp(value, lo, hi) == hi
  {
  }
}
