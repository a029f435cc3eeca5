/**
 * The request body of a password reset and its field rules. `@IsNumberString()` is validator.js's
 * `isNumeric` with default options, the pattern `^[+-]?([0-9]*[.])?[0-9]+$`: besides digits it admits
 * a leading sign and one decimal point.
 */
module ResetPasswordDto {
  import opened Text
  import RegisterDto
  import Totp

  datatype ResetPasswordDto = ResetPasswordDto(email: string, otp: string, newPassword: string)

  /** `[0-9]+` or `[0-9]*[.][0-9]+`. */
  predicate UnsignedNumeral(r: string)
  {
    || (r != [] && AllChars(r, IsDigit))
    || exists k :: 0 <= k < |r| - 1 && r[k] == '.' && AllChars(r[..k], IsDigit) && AllChars(r[k + 1..], IsDigit)
  }

  /** `^[+-]?([0-9]*[.])?[0-9]+$`. */
  predicate IsNumberString(s: string)
  {
    if s != [] && (s[0] == '+' || s[0] == '-') then UnsignedNumeral(s[1..]) else UnsignedNumeral(s)
  }

  /** `@IsNumberString() @Length(6, 6) @IsNotEmpty()` on `otp`. */
  predicate OtpValid(otp: string)
  {
    IsNumberString(otp) && |otp| == 6 && otp != ""
  }

  /** `@IsString() @MinLength(8) @Matches(...) @IsNotEmpty()` on `newPassword`, with the registration pattern. */
  predicate NewPasswordValid(p: string)
  {
    |p| >= 8 && RegisterDto.PasswordPatternMatches(p) && p != ""
  }

  /** The field rules of `ResetPasswordDto`; `@IsEmail()` is the library check `isEmail`. */
  predicate ResetPasswordDtoValid(d: ResetPasswordDto, isEmail: string -> bool)
  {
    isEmail(d.email) && d.email != "" && OtpValid(d.otp) && NewPasswordValid(d.newPassword)
  }

  predicate OtpChar(c: char)
  {
    IsDigit(c) || c == '+' || c == '-' || c == '.'
  }

  /** An unsigned numeral ends in a digit and holds only digits and a point. */
  lemma {:induction false} UnsignedNumeralShape(r: string)
    requires UnsignedNumeral(r)
    ensures r != [] && IsDigit(r[|r| - 1])
    ensures forall k :: 0 <= k < |r| ==> OtpChar(r[k])
  {
    if !(r != [] && AllChars(r, IsDigit)) {
      var m :| 0 <= m < |r| - 1 && r[m] == '.' && AllChars(r[..m], IsDigit) && AllChars(r[m + 1..], IsDigit);
      assert r[m + 1..][|r| - m - 2] == r[|r| - 1];
      forall k | 0 <= k < |r|
        ensures OtpChar(r[k])
      {
        if k < m {
          assert r[..m][k] == r[k];
        } else if k > m {
          assert r[m + 1..][k - m - 1] == r[k];
        }
      }
    }
  }

  /**
   * An accepted OTP has exactly six characters, ends in a digit, and holds nothing but digits,
   * a sign and a decimal point; every string of six digits is accepted.
   */
  lemma {:induction false} OtpRule(otp: string)
    ensures OtpValid(otp) ==> |otp| == 6 && IsDigit(otp[5]) && AllChars(otp, OtpChar)
    ensures |otp| == 6 && AllChars(otp, IsDigit) ==> OtpValid(otp)
  {
    if OtpValid(otp) {
      var start := if otp[0] == '+' || otp[0] == '-' then 1 else 0;
      var r := otp[start..];
      UnsignedNumeralShape(r);
      assert r[|r| - 1] == otp[5];
      forall k | 0 <= k < 6
        ensures OtpChar(otp[k])
      {
        if k >= start {
          assert r[k - start] == otp[k];
        }
      }
    }
    if |otp| == 6 && AllChars(otp, IsDigit) {
      assert !IsDigit('+') && !IsDigit('-');
      assert UnsignedNumeral(otp);
    }
  }

  /** The rule is weaker than "digits only": a signed or a decimal six-character numeral passes. */
  lemma SignAndPointAccepted()
    ensures OtpValid("+12345") && OtpValid("1.2345")
  {
    var signed := "+12345";
    assert signed[1..] == "12345";
    assert AllChars(signed[1..], IsDigit);
    var dotted := "1.2345";
    assert dotted[..1] == "1" && dotted[2..] == "2345";
    assert AllChars(dotted[..1], IsDigit) && AllChars(dotted[2..], IsDigit);
    assert UnsignedNumeral(dotted);
  }

  /** Every code the TOTP engine generates passes the OTP rule. */
  lemma GeneratedCodesAccepted(hotp: Totp.Truncation, secret: string, nowMs: nat)
    ensures OtpValid(Totp.Generate(hotp, secret, nowMs))
  {
    OtpRule(Totp.Generate(hotp, secret, nowMs));
  }

  /** The new-password rule is the registration password rule. */
  lemma NewPasswordRuleIsRegisterRule(p: string)
    ensures NewPasswordValid(p) <==> RegisterDto.PasswordValid(p)
    ensures NewPasswordValid(p) ==> |p| >= 8 && RegisterDto.Strong(p)
  {
    if NewPasswordValid(p) {
      RegisterDto.PasswordValidNecessary(p);
    }
  }
}
