/** The amount fields of the two entry forms. Both accept the text of a plain decimal
    number: one or more digits, optionally a dot and one or two more digits
    (`/^[0-9]+(\.[0-9]{1,2})?$/`), at least a minimum, and required. Such a text is an
    exact number of paise, which is what the model stores in place of `parseFloat`. */
module AmountField {
  import opened Prims

  predicate IsDigit(c: char) { '0' <= c <= '9' }

  predicate AllDigits(s: string) {
    forall i :: 0 <= i < |s| ==> IsDigit(s[i])
  }

  /** `[0-9]+` */
  predicate IsWhole(s: string) {
    |s| >= 1 && AllDigits(s)
  }

  /** `^[0-9]+(\.[0-9]{1,2})?$`: a whole part alone, or followed by a dot and one or two
      digits. */
  predicate MatchesAmountPattern(s: string) {
    || IsWhole(s)
    || (|s| >= 3 && s[|s| - 2] == '.' && IsWhole(s[..|s| - 2]) && IsDigit(s[|s| - 1]))
    || (|s| >= 4 && s[|s| - 3] == '.' && IsWhole(s[..|s| - 3]) && AllDigits(s[|s| - 2..]))
  }

  function DigitValue(c: char): (d: nat)
    requires IsDigit(c)
    ensures d < 10
  {
    c as int - '0' as int
  }

  /** The number a run of decimal digits denotes (leading zeros allowed). */
  function DigitsValue(s: string): nat
    requires AllDigits(s)
  {
    if s == [] then 0 else DigitsValue(s[..|s| - 1]) * 10 + DigitValue(s[|s| - 1])
  }

  /** `parseFloat` of a text that matches the pattern, in paise: the whole part in rupees
      and the fraction as tenths or hundredths of a rupee. */
  function ParsePaise(s: string): nat
    requires MatchesAmountPattern(s)
  {
    if IsWhole(s) then DigitsValue(s) * 100
    else if s[|s| - 2] == '.' then DigitsValue(s[..|s| - 2]) * 100 + DigitValue(s[|s| - 1]) * 10
    else DigitsValue(s[..|s| - 3]) * 100 + DigitsValue(s[|s| - 2..])
  }

  /** A canonical text for an amount in paise: rupees, a dot and two digits of paise. */
  function AmountText(paise: nat): (s: string)
    ensures |s| >= 4 && s[|s| - 3] == '.'
  {
    NatToString(paise / 100) + "." + [DigitChar(paise % 100 / 10), DigitChar(paise % 10)]
  }

  lemma DigitCharValue(d: int)
    requires 0 <= d < 10
    ensures DigitValue(DigitChar(d)) == d
  {
  }

  lemma {:induction false} NatToStringValue(n: nat)
    ensures DigitsValue(NatToString(n)) == n
  {
    if n < 10 {
      DigitCharValue(n);
      assert NatToString(n)[..0] == [];
    } else {
      var s := NatToString(n);
      assert s[..|s| - 1] == NatToString(n / 10);
      NatToStringValue(n / 10);
      DigitCharValue(n % 10);
    }
  }

  /** Every amount in paise has a text the field accepts, and that text reads back as the
      same amount: the pattern is exactly as precise as the paise the store keeps. */
  lemma AmountTextRoundTrip(paise: nat)
    ensures MatchesAmountPattern(AmountText(paise))
    ensures ParsePaise(AmountText(paise)) == paise
  {
    var s := AmountText(paise);
    var hi, lo := paise % 100 / 10, paise % 10;
    AmountTextShape(paise);
    NatToStringValue(paise / 100);
    TwoDigitsValue(hi, lo);
    assert MatchesAmountPattern(s);
    assert ParsePaise(s) == DigitsValue(s[..|s| - 3]) * 100 + DigitsValue(s[|s| - 2..]);
    PaiseDigits(paise);
  }

  /** An amount in paise is its rupees, its tenths and its hundredths. */
  lemma PaiseDigits(paise: nat)
    ensures paise == paise / 100 * 100 + paise % 100 / 10 * 10 + paise % 10
  {
  }

  /** The canonical text is a whole part, a dot and two digits, so it takes the pattern's
      two-decimal form. */
  lemma AmountTextShape(paise: nat)
    ensures var s := AmountText(paise);
      && s[..|s| - 3] == NatToString(paise / 100)
      && s[|s| - 2..] == [DigitChar(paise % 100 / 10), DigitChar(paise % 10)]
      && IsWhole(s[..|s| - 3])
      && !IsWhole(s)
      && s[|s| - 2] != '.'
  {
    var s := AmountText(paise);
    var w := NatToString(paise / 100);
    assert s[..|s| - 3] == w;
    assert s[|s| - 2..] == [DigitChar(paise % 100 / 10), DigitChar(paise % 10)];
    assert !IsDigit(s[|s| - 3]);
  }

  /** Two digit characters read back as the two-digit number they spell. */
  lemma TwoDigitsValue(hi: int, lo: int)
    requires 0 <= hi < 10 && 0 <= lo < 10
    ensures AllDigits([DigitChar(hi), DigitChar(lo)])
    ensures DigitsValue([DigitChar(hi), DigitChar(lo)]) == hi * 10 + lo
  {
    DigitCharValue(hi);
    DigitCharValue(lo);
    var f := [DigitChar(hi), DigitChar(lo)];
    assert f[..1] == [DigitChar(hi)];
    assert [DigitChar(hi)][..0] == [];
    assert DigitsValue([DigitChar(hi)]) == hi;
    assert DigitsValue(f) == DigitsValue(f[..1]) * 10 + DigitValue(f[1]);
  }

  /** Which rule rejected the field's text. */
  datatype AmountError = AmountRequired | BelowMinimum | NotAnAmount

  datatype AmountCheck = AmountOk(paise: nat) | AmountRejected(error: AmountError)

  /** The field's rules: required first; a plain decimal below the minimum (given in paise)
      fails the minimum; any other text fails the pattern. */
  function CheckAmount(s: string, minPaise: nat): (r: AmountCheck)
    ensures r.AmountOk? <==> MatchesAmountPattern(s) && ParsePaise(s) >= minPaise
    ensures r.AmountOk? ==> r.paise == ParsePaise(s) && r.paise >= minPaise
    ensures r == AmountRejected(AmountRequired) <==> s == ""
    ensures r == AmountRejected(NotAnAmount) <==> s != "" && !MatchesAmountPattern(s)
  {
    if s == "" then AmountRejected(AmountRequired)
    else if !MatchesAmountPattern(s) then AmountRejected(NotAnAmount)
    else if ParsePaise(s) < minPaise then AmountRejected(BelowMinimum)
    else AmountOk(ParsePaise(s))
  }

  /** The field accepts exactly the amounts at or above its minimum, each through its
      canonical text. */
  lemma CheckAmountOfText(paise: nat, minPaise: nat)
    ensures CheckAmount(AmountText(paise), minPaise) ==
      if paise >= minPaise then AmountOk(paise) else AmountRejected(BelowMinimum)
  {
    AmountTextRoundTrip(paise);
  }
}
