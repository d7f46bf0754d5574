/**
 * A non-negative integer written as the shortest run of decimal digits.  This
 * is how JavaScript writes the integers the store turns into text: the status
 * code interpolated into the message `HTTP error! status: ${response.status}`,
 * and the keys "0", "1", ... that spreading an array into an object produces.
 * (JavaScript switches to exponent notation from 10^21 on; no status code or
 * array index comes near that.)
 */
module DecimalText {

  predicate IsDigit(c: char) {
    '0' <= c <= '9'
  }

  predicate AllDigits(s: string) {
    forall i :: 0 <= i < |s| ==> IsDigit(s[i])
  }

  function DigitChar(d: nat): (c: char)
    requires d < 10
    ensures IsDigit(c)
  {
    ('0' as int + d) as char
  }

  function DigitValue(c: char): (d: nat)
    requires IsDigit(c)
    ensures d < 10 && DigitChar(d) == c
  {
    c as int - '0' as int
  }

  /** The decimal text of `n`: digits only, no leading zero. */
  function NatToDecimal(n: nat): (r: string)
    ensures 0 < |r| && AllDigits(r)
    ensures r[0] == '0' ==> n == 0 && |r| == 1
    decreases n
  {
    if n < 10 then [DigitChar(n)] else NatToDecimal(n / 10) + [DigitChar(n % 10)]
  }

  /** The number a run of decimal digits denotes (the reading direction of NatToDecimal). */
  function DecimalValue(s: string): nat
    requires AllDigits(s)
    decreases |s|
  {
    if s == [] then 0 else DecimalValue(s[..|s| - 1]) * 10 + DigitValue(s[|s| - 1])
  }

  /** Reading the text back gives the number: no information is lost in the message. */
  lemma {:induction false} DecimalRoundTrip(n: nat)
    ensures DecimalValue(NatToDecimal(n)) == n
    decreases n
  {
    var r := NatToDecimal(n);
    if n < 10 {
      assert r[..|r| - 1] == [];
    } else {
      var prefix := NatToDecimal(n / 10);
      assert r[..|r| - 1] == prefix;
      DecimalRoundTrip(n / 10);
    }
  }

  /** Distinct numbers have distinct texts (so distinct array indices give distinct keys). */
  lemma DecimalInjective()
    ensures forall m: nat, n: nat :: NatToDecimal(m) == NatToDecimal(n) ==> m == n
  {
    forall m: nat, n: nat | NatToDecimal(m) == NatToDecimal(n)
      ensures m == n
    {
      DecimalRoundTrip(m);
      DecimalRoundTrip(n);
    }
  }
}
