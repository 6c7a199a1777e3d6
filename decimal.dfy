/** Decimal rendering of whole numbers, as a template literal `${n}` prints them. */
module Decimal {
  import opened Validation

  function DigitChar(d: nat): (c: char)
    requires d < 10
    ensures IsDigit(c)
  {
    "0123456789"[d]
  }

  function DigitValue(c: char): nat
  {
    if IsDigit(c) then (c as int - '0' as int) as nat else 0
  }

  /** The shortest decimal numeral of `n`. */
  function NatToString(n: nat): (s: string)
    ensures |s| >= 1 && AllDigits(s)
    ensures |s| > 1 ==> s[0] != '0'
    decreases n
  {
    if n < 10 then [DigitChar(n)] else NatToString(n / 10) + [DigitChar(n % 10)]
  }

  /** The number a string of decimal digits denotes. */
  function ValueOf(s: string): nat
    decreases |s|
  {
    if s == [] then 0 else ValueOf(s[..|s| - 1]) * 10 + DigitValue(s[|s| - 1])
  }

  lemma DigitRoundTrip(d: nat)
    requires d < 10
    ensures DigitValue(DigitChar(d)) == d
  {
  }

  /** Reading the numeral back gives the number. */
  lemma {:induction false} NatToStringRoundTrip(n: nat)
    ensures ValueOf(NatToString(n)) == n
    decreases n
  {
    DigitRoundTrip(n % 10);
    if n >= 10 {
      var s := NatToString(n);
      assert s[..|s| - 1] == NatToString(n / 10);
      NatToStringRoundTrip(n / 10);
    } else {
      assert [DigitChar(n)][..0] == [];
    }
  }

  /** `${n}` for an integer: the numeral of `n`, after a minus sign when `n` is negative. */
  function IntToString(n: int): (s: string)
    ensures n >= 0 ==> AllDigits(s) && ValueOf(s) == n
    ensures n < 0 ==> |s| >= 2 && s[0] == '-' && AllDigits(s[1..]) && ValueOf(s[1..]) == -n
  {
    if n < 0 then
      NatToStringRoundTrip(-n);
      assert ("-" + NatToString(-n))[1..] == NatToString(-n);
      "-" + NatToString(-n)
    else
      NatToStringRoundTrip(n);
      NatToString(n)
  }
}
