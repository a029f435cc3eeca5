/** The texts `AuthService` answers and mails with. */
module AuthMessages {
  import opened Errors
  import opened Text
  import opened AuthService

  /** The message of each exception the service raises. */
  function ErrorMessage(e: AuthError): string
  {
    match e
    case EmailInUse(email) => "User with email " + email + " already exists."
    case PhoneInUse(phone) => "User with phone number " + phone + " already exists."
    case BadDateFormat => "Invalid date of birth: Invalid date format. Please use YYYY-MM-DD."
    case FutureBirthDate => "Invalid date of birth: Date of birth cannot be in the future."
    case SaveFailed => "Could not save user data."
    case Unhandled => UnhandledMessage
    case MailFailed => "User registered, but failed to send verification email."
    case BadOtp => "Invalid or expired OTP."
    case UserNotFound(email) => "User with email " + email + " not found."
    case ActivationRefused(status) => "Account status (" + StatusName(status) + ") does not allow activation."
    case BadCredentials => "Invalid credentials."
    case NotActive => "Account is not active. Please verify your email."
    case LoginRefused(status) => "Account status (" + StatusName(status) + ") prevents login."
    case TokenFailed => "Could not generate access token."
    case LoginFailed => "An unexpected error occurred during login."
  }

  function NoticeMessage(n: Notice): string
  {
    match n
    case CodeSent => "Great! We've sent a verification code to your email. Please use it to activate your account."
  }

  const MailSubject: string := "Verify Your Email Address"

  const MailGreeting: string := "Hello "
  const MailCodeIntro: string := ",\n\nYour verification code is: "
  const MailClosing: string :=
    "\n\nPlease use this code within 5 minutes to activate your account."
    + "\n\nIf you did not request this, please ignore this email."

  function MailBody(m: Mail): string
  {
    MailGreeting + m.firstName + MailCodeIntro + m.code + MailClosing
  }

  /** The mail body greets the user by name and carries the code itself. */
  lemma MailCarriesCode(m: Mail)
    ensures Contains(MailBody(m), m.code)
    ensures Contains(MailBody(m), m.firstName)
  {
    ContainsSuffix(MailGreeting + m.firstName + MailCodeIntro, m.code);
    ContainsExtend(MailGreeting + m.firstName + MailCodeIntro + m.code, m.code, MailClosing);
    ContainsSuffix(MailGreeting, m.firstName);
    ContainsExtend(MailGreeting + m.firstName, m.firstName, MailCodeIntro);
    ContainsExtend(MailGreeting + m.firstName + MailCodeIntro, m.firstName, m.code);
    ContainsExtend(MailGreeting + m.firstName + MailCodeIntro + m.code, m.firstName, MailClosing);
  }

  /** The two conflict messages of registration name the email or phone that is taken. */
  lemma ConflictMessagesNameTheValue(email: string, phone: string)
    ensures Contains(ErrorMessage(EmailInUse(email)), email)
    ensures Contains(ErrorMessage(PhoneInUse(phone)), phone)
  {
    ContainsSuffix("User with email ", email);
    ContainsExtend("User with email " + email, email, " already exists.");
    ContainsSuffix("User with phone number ", phone);
    ContainsExtend("User with phone number " + phone, phone, " already exists.");
  }

  /** Login's two credential failures are one and the same message. */
  lemma CredentialFailuresLookAlike(s: Store, cfg: Config, lib: Collaborators, unknown: string, anyPassword: string,
                                    known: string, wrongPassword: string)
    requires unknown !in s
    requires known in s && !lib.compare(wrongPassword, s[known].password)
    ensures LoginOutcome(s, cfg, lib, unknown, anyPassword).Err?
    ensures ErrorMessage(LoginOutcome(s, cfg, lib, unknown, anyPassword).error)
         == ErrorMessage(LoginOutcome(s, cfg, lib, known, wrongPassword).error)
         == "Invalid credentials."
  {
  }
}
