/**
 * The request body of registration and its field rules (class-validator decorators).
 * The password rule is the regular expression
 *   ((?=.*\d)|(?=.*\W+))(?![.\n])(?=.*[A-Z])(?=.*[a-z]).*$
 * which is not anchored at the start: `Matches` accepts when it matches from SOME position.
 */
module RegisterDto {
  import opened Options
  import opened Text

  /** The members of the `gender` enum of the database schema. */
  datatype Gender = MALE | FEMALE

  datatype RegisterUserDto = RegisterUserDto(
    firstName: string,
    lastName: string,
    email: string,
    phone: string,
    password: string,
    datebirth: string,
    gender: Gender,
    image: Option<string>)

  /** `(?=.*C)` tried at position `i`: a character of class C lies ahead, before any line terminator. */
  predicate Ahead(s: string, i: nat, cls: char -> bool)
  {
    exists j :: i <= j < |s| && cls(s[j]) && NoLineTerminator(s[i..j])
  }

  /** The whole pattern tried at position `i`. */
  predicate PatternMatchesAt(s: string, i: nat)
    requires i <= |s|
  {
    && (Ahead(s, i, IsDigit) || Ahead(s, i, IsNonWord))   // (?=.*\d)|(?=.*\W+)
    && !(i < |s| && (s[i] == '.' || s[i] == '\n'))         // (?![.\n])
    && Ahead(s, i, IsUpper)                                 // (?=.*[A-Z])
    && Ahead(s, i, IsLower)                                 // (?=.*[a-z])
    && NoLineTerminator(s[i..])                             // .*$
  }

  /** `Matches(pattern)`: the pattern matches starting at some position of the string. */
  predicate PasswordPatternMatches(s: string)
  {
    exists i :: 0 <= i <= |s| && PatternMatchesAt(s, i)
  }

  /** What the pattern asks of the part of the password it is tried on. */
  predicate Strong(t: string)
  {
    AnyChar(t, IsUpper) && AnyChar(t, IsLower) && (AnyChar(t, IsDigit) || AnyChar(t, IsNonWord))
  }

  /** A position the pattern may start from: not a `.`, and no line break from there to the end. */
  predicate SingleLineStart(s: string, i: nat)
    requires i < |s|
  {
    s[i] != '.' && NoLineTerminator(s[i..])
  }

  const MinPasswordLength: nat := 8

  /** `@IsString @MinLength(8) @Matches(...) @IsNotEmpty` on `password`. */
  predicate PasswordValid(p: string)
  {
    |p| >= MinPasswordLength && PasswordPatternMatches(p) && p != ""
  }

  lemma {:induction false} AheadOnSingleLine(s: string, i: nat, cls: char -> bool)
    requires i <= |s| && NoLineTerminator(s[i..])
    ensures Ahead(s, i, cls) <==> AnyChar(s[i..], cls)
  {
    if Ahead(s, i, cls) {
      var j :| i <= j < |s| && cls(s[j]) && NoLineTerminator(s[i..j]);
      assert s[i..][j - i] == s[j];
    }
    if AnyChar(s[i..], cls) {
      var k :| 0 <= k < |s[i..]| && cls(s[i..][k]);
      assert s[i..i + k] == s[i..][..k];
      assert cls(s[i + k]) && NoLineTerminator(s[i..i + k]);
    }
  }

  /**
   * The pattern matches exactly when some position that is not a `.` starts a line-break-free
   * suffix holding an upper-case letter, a lower-case letter, and a digit or a non-word character.
   */
  lemma {:induction false} PatternCharacterization(s: string)
    ensures PasswordPatternMatches(s) <==>
      exists i :: 0 <= i < |s| && SingleLineStart(s, i) && Strong(s[i..])
  {
    if PasswordPatternMatches(s) {
      var i :| 0 <= i <= |s| && PatternMatchesAt(s, i);
      AheadOnSingleLine(s, i, IsUpper);
      AheadOnSingleLine(s, i, IsLower);
      AheadOnSingleLine(s, i, IsDigit);
      AheadOnSingleLine(s, i, IsNonWord);
      assert i < |s|;
      assert SingleLineStart(s, i) && Strong(s[i..]);
    }
    if exists i :: 0 <= i < |s| && SingleLineStart(s, i) && Strong(s[i..]) {
      var i :| 0 <= i < |s| && SingleLineStart(s, i) && Strong(s[i..]);
      AheadOnSingleLine(s, i, IsUpper);
      AheadOnSingleLine(s, i, IsLower);
      AheadOnSingleLine(s, i, IsDigit);
      AheadOnSingleLine(s, i, IsNonWord);
      assert s[i] != '\n' by { assert s[i..][0] == s[i]; }
      assert PatternMatchesAt(s, i);
    }
  }

  /** A suffix has no character class the whole string lacks. */
  lemma SuffixAnyChar(s: string, i: nat, cls: char -> bool)
    requires i <= |s| && AnyChar(s[i..], cls)
    ensures AnyChar(s, cls)
  {
    var k :| 0 <= k < |s[i..]| && cls(s[i..][k]);
    assert s[i + k] == s[i..][k];
  }

  /**
   * Every accepted password is at least 8 characters long and holds an upper-case letter,
   * a lower-case letter, and a digit or a non-word character.
   */
  lemma {:induction false} PasswordValidNecessary(p: string)
    requires PasswordValid(p)
    ensures |p| >= 8 && Strong(p)
  {
    PatternCharacterization(p);
    var i :| 0 <= i < |p| && SingleLineStart(p, i) && Strong(p[i..]);
    SuffixAnyChar(p, i, IsUpper);
    SuffixAnyChar(p, i, IsLower);
    if AnyChar(p[i..], IsDigit) { SuffixAnyChar(p, i, IsDigit); } else { SuffixAnyChar(p, i, IsNonWord); }
  }

  /** On a one-line password that does not start with `.`, the pattern is exactly `Strong`. */
  lemma {:induction false} PasswordPatternOnOneLine(p: string)
    requires NoLineTerminator(p) && (p == [] || p[0] != '.')
    ensures PasswordPatternMatches(p) <==> Strong(p)
  {
    PatternCharacterization(p);
    if PasswordPatternMatches(p) {
      var i :| 0 <= i < |p| && SingleLineStart(p, i) && Strong(p[i..]);
      SuffixAnyChar(p, i, IsUpper);
      SuffixAnyChar(p, i, IsLower);
      if AnyChar(p[i..], IsDigit) { SuffixAnyChar(p, i, IsDigit); } else { SuffixAnyChar(p, i, IsNonWord); }
    }
    if Strong(p) {
      assert p[0..] == p;
      assert 0 < |p| && SingleLineStart(p, 0) && Strong(p[0..]);
    }
  }

  /** Letters and a digit suffice: no special character is needed, whatever the message says. */
  lemma DigitWithoutSpecialAccepted()
    ensures PasswordValid("Abcdefg1")
  {
    var p := "Abcdefg1";
    assert IsUpper(p[0]) && IsLower(p[1]) && IsDigit(p[7]);
    assert Strong(p);
    PasswordPatternOnOneLine(p);
  }

  /**
   * Leading dots are skipped by `(?![.\n])` and so do not count as special characters:
   * ".Abcdefgh" has an upper-case and lower-case letter and a non-word character, yet is refused.
   */
  lemma LeadingDotDoesNotCount()
    ensures Strong(".Abcdefgh")
    ensures !PasswordValid(".Abcdefgh")
  {
    var p := ".Abcdefgh";
    assert IsNonWord(p[0]) && IsUpper(p[1]) && IsLower(p[2]);
    forall m | 1 <= m < |p|
      ensures IsUpper(p[m]) || IsLower(p[m])
    {
      assert m in {1, 2, 3, 4, 5, 6, 7, 8};
    }
    forall i | 0 <= i < |p| && SingleLineStart(p, i)
      ensures !Strong(p[i..])
    {
      LettersOnly(p, i);
    }
    PatternCharacterization(p);
  }

  lemma LettersOnly(p: string, i: nat)
    requires 1 <= i <= |p|
    requires forall m :: 1 <= m < |p| ==> IsUpper(p[m]) || IsLower(p[m])
    ensures !AnyChar(p[i..], IsDigit) && !AnyChar(p[i..], IsNonWord)
  {
    forall k | 0 <= k < |p[i..]|
      ensures !IsDigit(p[i..][k]) && !IsNonWord(p[i..][k])
    {
      assert p[i..][k] == p[i + k];
    }
  }

  /**
   * The field rules of `RegisterUserDto`. `@IsEmail()` and `@IsPhoneNumber('UZ')` are library checks
   * and are given as the predicates `isEmail` and `isUzPhone`; `@IsEnum(gender)` holds by the type.
   */
  predicate RegisterUserDtoValid(d: RegisterUserDto, isEmail: string -> bool, isUzPhone: string -> bool)
  {
    && d.firstName != ""
    && d.lastName != ""
    && isEmail(d.email) && d.email != ""
    && isUzPhone(d.phone) && d.phone != ""
    && PasswordValid(d.password)
    && d.datebirth != ""
  }

  /**
   * An accepted registration body has non-empty names and date of birth and a password of at least
   * 8 characters with both letter cases and a digit or special character; the image may be absent.
   */
  lemma {:induction false} RegisterUserDtoRules(d: RegisterUserDto, isEmail: string -> bool, isUzPhone: string -> bool)
    requires RegisterUserDtoValid(d, isEmail, isUzPhone)
    ensures d.firstName != "" && d.lastName != "" && d.datebirth != ""
    ensures |d.password| >= 8 && Strong(d.password)
    ensures RegisterUserDtoValid(d.(image := None), isEmail, isUzPhone)
  {
    PasswordValidNecessary(d.password);
  }
}
