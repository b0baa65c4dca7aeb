/**
 * generatePairingCode: `Math.floor(100000 + Math.random() * 900000).toString()`.
 * The random part is an oracle value `draw`, the integer part of
 * `Math.random() * 900000`; the rest is decimal formatting.
 */
module PairingCode {

  /** One output of the entropy oracle: floor(Math.random() * 900000). */
  type Draw = d: nat | d < 900000

  const Lowest: nat := 100000
  const Highest: nat := 999999

  predicate IsDigit(c: char) { '0' <= c <= '9' }

  predicate IsDigits(s: string) { forall i :: 0 <= i < |s| ==> IsDigit(s[i]) }

  /** A decimal numeral as Number.prototype.toString writes it: no leading zero. */
  predicate IsCanonical(s: string) {
    |s| > 0 && IsDigits(s) && (s[0] != '0' || |s| == 1)
  }

  function DigitChar(d: nat): (c: char)
    requires d < 10
    ensures IsDigit(c)
  {
    ('0' as int + d) as char
  }

  function DigitValue(c: char): (d: nat)
    requires IsDigit(c)
    ensures d < 10 && DigitChar(d) == c
  {
    c as int - '0' as int
  }

  function Pow10(k: nat): (p: nat)
    ensures p >= 1
  {
    if k == 0 then 1 else 10 * Pow10(k - 1)
  }

  /**
   * The decimal numeral of a natural number: what Number.prototype.toString
   * prints for integers below 10^21 (above that it switches to exponent form).
   */
  function DecimalString(n: nat): (s: string)
    ensures IsCanonical(s)
    ensures s[0] == '0' ==> n == 0
    decreases n
  {
    if n < 10 then [DigitChar(n)] else DecimalString(n / 10) + [DigitChar(n % 10)]
  }

  /** The integer a string of decimal digits denotes. */
  function DecimalValue(s: string): nat
    requires IsDigits(s)
    decreases |s|
  {
    if s == [] then 0 else DecimalValue(s[..|s| - 1]) * 10 + DigitValue(s[|s| - 1])
  }

  /** Reading back what toString wrote gives the number. */
  lemma {:induction false} ValueOfDecimalString(n: nat)
    ensures DecimalValue(DecimalString(n)) == n
    decreases n
  {
    if n >= 10 {
      ValueOfDecimalString(n / 10);
      var s := DecimalString(n);
      assert s[..|s| - 1] == DecimalString(n / 10);
      assert DigitValue(s[|s| - 1]) == n % 10;
    }
  }

  lemma {:induction false} ValueLowerBound(s: string)
    requires IsDigits(s) && |s| > 0 && s[0] != '0'
    ensures DecimalValue(s) >= Pow10(|s| - 1)
    decreases |s|
  {
    if |s| > 1 {
      var p := s[..|s| - 1];
      assert p[0] == s[0];
      ValueLowerBound(p);
    }
  }

  /** Writing the value of a canonical numeral gives the numeral back. */
  lemma {:induction false} DecimalStringOfValue(s: string)
    requires IsCanonical(s)
    ensures DecimalString(DecimalValue(s)) == s
    decreases |s|
  {
    if |s| > 1 {
      var p := s[..|s| - 1];
      assert p[0] == s[0];
      ValueLowerBound(p);
      DecimalStringOfValue(p);
      var n := DecimalValue(s);
      var d := DigitValue(s[|s| - 1]);
      assert n == DecimalValue(p) * 10 + d;
      assert n / 10 == DecimalValue(p) && n % 10 == d;
      assert s == p + [s[|s| - 1]];
    }
  }

  /** A number of k digits is written with exactly k characters. */
  lemma {:induction false} DecimalStringLength(n: nat, k: nat)
    requires k >= 1 && Pow10(k - 1) <= n < Pow10(k)
    ensures |DecimalString(n)| == k
    decreases k
  {
    if k > 1 {
      assert n >= 10;
      assert Pow10(k - 2) <= n / 10 < Pow10(k - 1);
      DecimalStringLength(n / 10, k - 1);
    }
  }

  lemma SixDigitBounds()
    ensures Pow10(5) == Lowest && Pow10(6) == Highest + 1
  {
  }

  /** A well-formed pairing code: a numeral whose value lies in [100000, 999999]. */
  predicate IsPairingCode(code: string) {
    IsCanonical(code) && Lowest <= DecimalValue(code) <= Highest
  }

  /** Every pairing code is six characters long. */
  lemma PairingCodeHasSixDigits(code: string)
    requires IsPairingCode(code)
    ensures |code| == 6
  {
    DecimalStringOfValue(code);
    SixDigitBounds();
    DecimalStringLength(DecimalValue(code), 6);
  }

  /** generatePairingCode, with the random draw made explicit. */
  function Generate(draw: Draw): (code: string)
    ensures IsPairingCode(code) && |code| == 6
    ensures DecimalValue(code) == Lowest + draw
  {
    ValueOfDecimalString(Lowest + draw);
    SixDigitBounds();
    DecimalStringLength(Lowest + draw, 6);
    DecimalString(Lowest + draw)
  }

  /** Different draws give different codes. */
  lemma GenerateInjective(d1: Draw, d2: Draw)
    ensures Generate(d1) == Generate(d2) ==> d1 == d2
  {
  }

  /**
   * Every pairing code, the current one included, is an output the
   * generator can produce: rotation does not rule out getting the old
   * code back.
   */
  function DrawFor(code: string): (d: Draw)
    requires IsPairingCode(code)
    ensures Generate(d) == code
  {
    DecimalStringOfValue(code);
    DecimalValue(code) - Lowest
  }
}
