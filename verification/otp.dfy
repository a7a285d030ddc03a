/** The one-time-code settings shared by both registration flows and the code
    generator `String(randomInt(100000, 1000000))`. */
module Otp {

  const OtpTtlSeconds: int := 300
  const VerifyTtlSeconds: int := 600
  const MaxAttempts: int := 5

  const CodeMin: nat := 100000
  const CodeMax: nat := 1000000

  /** `randomInt(min, max)`: a value in `[min, max)`; the randomness is the
      `entropy` argument. */
  function RandomInt(min: int, max: int, entropy: nat): (r: int)
    requires min < max
    ensures min <= r < max
  {
    min + entropy % (max - min)
  }

  predicate IsDigit(c: char) {
    '0' <= c <= '9'
  }

  /** `String(n)` for a natural number: its decimal digits, no leading zero. */
  function NatToString(n: nat): (s: string)
    ensures |s| >= 1
    ensures forall i :: 0 <= i < |s| ==> IsDigit(s[i])
    ensures |s| > 1 ==> s[0] != '0'
    decreases n
  {
    if n < 10 then [('0' as int + n) as char]
    else NatToString(n / 10) + [('0' as int + n % 10) as char]
  }

  /** The number a string of decimal digits denotes. */
  function DigitsValue(s: string): nat
    requires forall i :: 0 <= i < |s| ==> IsDigit(s[i])
  {
    if s == [] then 0
    else
      assert IsDigit(s[|s| - 1]);
      10 * DigitsValue(s[..|s| - 1]) + (s[|s| - 1] as int - '0' as int)
  }

  function Pow10(k: nat): nat {
    if k == 0 then 1 else 10 * Pow10(k - 1)
  }

  /** Reading the decimal rendering back gives the number. */
  lemma {:induction false} NatToStringRoundTrip(n: nat)
    ensures DigitsValue(NatToString(n)) == n
    decreases n
  {
    var s := NatToString(n);
    if n >= 10 {
      NatToStringRoundTrip(n / 10);
      assert s[..|s| - 1] == NatToString(n / 10);
    }
  }

  /** A number with `k` digits renders to exactly `k` characters. */
  lemma {:induction false} NatToStringLength(n: nat, k: nat)
    requires k >= 1 && Pow10(k - 1) <= n < Pow10(k)
    ensures |NatToString(n)| == k
    decreases k
  {
    if k > 1 {
      NatToStringLength(n / 10, k - 1);
    }
  }

  /** The code handed out for a given draw. */
  function OtpCode(entropy: nat): (code: string)
    ensures |code| == 6
    ensures forall i :: 0 <= i < |code| ==> IsDigit(code[i])
  {
    var n := RandomInt(CodeMin, CodeMax, entropy);
    assert Pow10(5) == 100000 && Pow10(6) == 1000000;
    NatToStringLength(n, 6);
    NatToString(n)
  }

  /** Every code is exactly six decimal digits and denotes a number in
      [100000, 999999]. */
  lemma OtpCodeIsSixDigits(entropy: nat)
    ensures 100000 <= DigitsValue(OtpCode(entropy)) <= 999999
  {
    NatToStringRoundTrip(RandomInt(CodeMin, CodeMax, entropy));
  }
}
