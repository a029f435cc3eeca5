/**
 * Time-based one-time passwords (TOTP, section 4 of RFC 6238) with the configuration the
 * registration flow installs: a 300-second time step and 6-digit codes. The keyed one-way part
 * (HMAC-SHA-1 of the counter under the key, followed by the dynamic truncation of section 5.3
 * of RFC 4226) is a parameter `hotp` of type `Truncation`: nothing is assumed about it.
 */
module Totp {
  import opened Text
  import opened Arith

  /** Seconds per time step (`totp.options = { step: 300, digits: 6 }`). */
  const StepSeconds: nat := 300

  /** Digits per code. */
  const Digits: nat := 6

  /** Key and counter to the 31-bit number that dynamic truncation yields. */
  type Truncation = (string, nat) -> nat

  function Pow10(n: nat): (p: nat)
    ensures p >= 1
  {
    if n == 0 then 1 else 10 * Pow10(n - 1)
  }

  /** The time-step counter T of a clock reading in milliseconds since the epoch (T0 = 0). */
  function Counter(nowMs: nat): nat
  {
    nowMs / 1000 / StepSeconds
  }

  function DigitChar(d: nat): (c: char)
    requires d < 10
    ensures IsDigit(c)
  {
    ('0' as int + d) as char
  }

  function DigitValue(c: char): (d: nat)
    requires IsDigit(c)
    ensures d < 10 && DigitChar(d) == c
  {
    c as int - '0' as int
  }

  /** The last `w` decimal digits of `n`, padded on the left with zeros. */
  function PadDecimal(n: nat, w: nat): (code: string)
    ensures |code| == w && AllChars(code, IsDigit)
  {
    if w == 0 then [] else PadDecimal(n / 10, w - 1) + [DigitChar(n % 10)]
  }

  /** The number a string of decimal digits denotes. */
  function DecimalValue(code: string): nat
    requires AllChars(code, IsDigit)
  {
    if code == [] then 0 else 10 * DecimalValue(code[..|code| - 1]) + DigitValue(code[|code| - 1])
  }

  /** `totp.generate(secret)` at clock reading `nowMs`. */
  function Generate(hotp: Truncation, secret: string, nowMs: nat): (code: string)
    ensures |code| == Digits && AllChars(code, IsDigit)
  {
    PadDecimal(hotp(secret, Counter(nowMs)) % Pow10(Digits), Digits)
  }

  /** `totp.check(token, secret)` at clock reading `nowMs`; the window option is 0 (no skew allowance). */
  predicate Check(hotp: Truncation, token: string, secret: string, nowMs: nat)
  {
    token == Generate(hotp, secret, nowMs)
  }

  lemma {:induction false} DecimalStep(n: nat, m: nat)
    requires m >= 1
    ensures n % (10 * m) == 10 * ((n / 10) % m) + n % 10
  {
    var q, r := n / 10, n % 10;
    var a, b := q / m, q % m;
    assert n == 10 * q + r;
    assert q == a * m + b;
    assert 10 * q == a * (10 * m) + 10 * b;
    assert 10 * b + r < 10 * m;
    DivModUnique(n, 10 * m, a, 10 * b + r);
  }

  lemma {:induction false} PadDecimalRoundTrip(n: nat, w: nat)
    ensures DecimalValue(PadDecimal(n, w)) == n % Pow10(w)
  {
    if w == 0 {
      DivModUnique(n, 1, n, 0);
    } else {
      var code := PadDecimal(n, w);
      var prefix := PadDecimal(n / 10, w - 1);
      assert code == prefix + [DigitChar(n % 10)];
      assert code[..|code| - 1] == prefix;
      assert DigitValue(code[|code| - 1]) == n % 10;
      PadDecimalRoundTrip(n / 10, w - 1);
      assert DecimalValue(code) == 10 * ((n / 10) % Pow10(w - 1)) + n % 10;
      DecimalStep(n, Pow10(w - 1));
    }
  }

  /**
   * A code is accepted at the clock reading `t2` exactly when the truncated HMAC of its own window
   * and that of `t2`'s window agree in their last six digits; in particular it is accepted
   * throughout the window in which it was generated.
   */
  lemma {:induction false} CheckGenerated(hotp: Truncation, secret: string, t1: nat, t2: nat)
    ensures Check(hotp, Generate(hotp, secret, t1), secret, t2) <==>
      hotp(secret, Counter(t1)) % Pow10(Digits) == hotp(secret, Counter(t2)) % Pow10(Digits)
    ensures Counter(t1) == Counter(t2) ==> Check(hotp, Generate(hotp, secret, t1), secret, t2)
  {
    var x1 := hotp(secret, Counter(t1)) % Pow10(Digits);
    var x2 := hotp(secret, Counter(t2)) % Pow10(Digits);
    PadDecimalRoundTrip(x1, Digits);
    PadDecimalRoundTrip(x2, Digits);
    DivModUnique(x1, Pow10(Digits), 0, x1);
    DivModUnique(x2, Pow10(Digits), 0, x2);
  }

  /** Two clock readings in the same window are less than 300 seconds apart. */
  lemma {:induction false} SameWindowIsShort(t1: nat, t2: nat)
    requires Counter(t1) == Counter(t2)
    ensures -(StepSeconds * 1000) < t1 - t2 < StepSeconds * 1000
  {
    var k := Counter(t1);
    var a1, a2 := t1 / 1000, t2 / 1000;
    assert 300 * k <= a1 < 300 * k + 300;
    assert 300 * k <= a2 < 300 * k + 300;
    assert 1000 * a1 <= t1 < 1000 * a1 + 1000;
    assert 1000 * a2 <= t2 < 1000 * a2 + 1000;
    assert 300000 * k <= t1 < 300000 * k + 300000;
    assert 300000 * k <= t2 < 300000 * k + 300000;
  }
}
