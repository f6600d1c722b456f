/** The two PHP number conversions the payment amount goes through:
    `number_format($total, 2, '', '')` and the `(float)` cast of the digit
    string it produces. Totals are fixed-point integers counted in
    ten-thousandths of the currency unit (the scale of the store's decimal
    columns), so no floating point is involved. */
module PhpNumbers {

  predicate IsDigit(c: char) {
    '0' <= c <= '9'
  }

  predicate AllDigits(s: string) {
    forall i :: 0 <= i < |s| ==> IsDigit(s[i])
  }

  function DigitValue(c: char): nat
    requires IsDigit(c)
  {
    c as int - '0' as int
  }

  function DigitChar(d: nat): (c: char)
    requires d < 10
    ensures IsDigit(c) && DigitValue(c) == d
  {
    (d + '0' as int) as char
  }

  /** Decimal text of `n`, most significant digit first, without leading
      zeros: how PHP prints a non-negative integer. */
  function NatToString(n: nat): (s: string)
    ensures |s| >= 1 && AllDigits(s)
    ensures |s| > 1 ==> s[0] != '0'
  {
    if n < 10 then [DigitChar(n)] else NatToString(n / 10) + [DigitChar(n % 10)]
  }

  /** The number a string of decimal digits denotes. */
  function DigitsValue(s: string): nat
    requires AllDigits(s)
  {
    if s == [] then 0 else 10 * DigitsValue(s[..|s| - 1]) + DigitValue(s[|s| - 1])
  }

  /** Reading back the decimal text of `n` gives `n`. */
  lemma {:induction false} DigitsValueOfNatToString(n: nat)
    ensures DigitsValue(NatToString(n)) == n
  {
    if n >= 10 {
      DigitsValueOfNatToString(n / 10);
      var s := NatToString(n);
      assert s[..|s| - 1] == NatToString(n / 10);
    }
  }

  /** Appending two digits multiplies what came before by a hundred. */
  lemma DigitsValueAppendTwo(a: string, hi: nat, lo: nat)
    requires AllDigits(a) && hi < 10 && lo < 10
    ensures AllDigits(a + [DigitChar(hi), DigitChar(lo)])
    ensures DigitsValue(a + [DigitChar(hi), DigitChar(lo)]) == 100 * DigitsValue(a) + 10 * hi + lo
  {
    var s := a + [DigitChar(hi), DigitChar(lo)];
    assert s[..|s| - 1] == a + [DigitChar(hi)];
    assert (a + [DigitChar(hi)])[..|a|] == a;
  }

  /** The rounding number_format applies before printing two decimals: a
      total in ten-thousandths goes to the nearest hundredth, halves away
      from zero. The two bounds pin the result down uniquely. */
  function RoundToCents(t: int): (c: int)
    ensures t >= 0 ==> c >= 0 && t - 50 < 100 * c <= t + 50
    ensures t < 0 ==> c <= 0 && t - 50 <= 100 * c < t + 50
  {
    if t >= 0 then (t + 50) / 100 else -((50 - t) / 100)
  }

  /** `number_format($t, 2, '', '')`: a minus sign for a negative rounded
      value, the integer part with no grouping separator, then exactly two
      decimals with no decimal point. */
  function NumberFormat2(t: int): string
  {
    var c := RoundToCents(t);
    var m := if c < 0 then -c else c;
    (if c < 0 then "-" else "") + NatToString(m / 100) + [DigitChar(m % 100 / 10), DigitChar(m % 10)]
  }

  /** A string the `(float)` cast reads completely: an optional minus sign
      followed by digits. */
  predicate IsSignedDigits(s: string) {
    if |s| > 0 && s[0] == '-' then AllDigits(s[1..]) else AllDigits(s)
  }

  /** The `(float)` cast of a signed digit string (integral values only). */
  function CastToNumber(s: string): int
    requires IsSignedDigits(s)
  {
    if |s| > 0 && s[0] == '-' then -(DigitsValue(s[1..]) as int) else DigitsValue(s)
  }

  lemma SplitHundreds(m: nat)
    ensures 100 * (m / 100) + 10 * (m % 100 / 10) + m % 10 == m
  {
    assert m % 100 % 10 == m % 10;
  }

  /** The unsigned digits number_format prints for `m` cents. */
  lemma CentsDigits(m: nat)
    ensures AllDigits(NatToString(m / 100) + [DigitChar(m % 100 / 10), DigitChar(m % 10)])
    ensures DigitsValue(NatToString(m / 100) + [DigitChar(m % 100 / 10), DigitChar(m % 10)]) == m
  {
    DigitsValueAppendTwo(NatToString(m / 100), m % 100 / 10, m % 10);
    DigitsValueOfNatToString(m / 100);
    SplitHundreds(m);
  }

  /** Formatting with two decimals and no separators, then casting back,
      yields the total in minor units (cents), rounded half away from zero. */
  lemma FormattedAmountIsMinorUnits(t: int)
    ensures IsSignedDigits(NumberFormat2(t))
    ensures CastToNumber(NumberFormat2(t)) == RoundToCents(t)
  {
    var c := RoundToCents(t);
    var m: nat := if c < 0 then -c else c;
    var digits := NatToString(m / 100) + [DigitChar(m % 100 / 10), DigitChar(m % 10)];
    CentsDigits(m);
    if c < 0 {
      assert NumberFormat2(t) == "-" + digits;
      assert ("-" + digits)[1..] == digits;
    } else {
      assert NumberFormat2(t) == digits;
      assert IsDigit(digits[0]);
    }
  }
}
