/**
 * The account lifecycle of `AuthService`: registration, activation by emailed one-time code, and
 * login. The user table is a map from email to user row; bcrypt, the HOTP core of the TOTP
 * engine, JWT signing and JavaScript date handling are the function-valued fields of
 * `Collaborators`, about which nothing is assumed except, where a lemma says so, `HasherSound`.
 */
module AuthService {
  import opened Options
  import opened Errors
  import opened RegisterDto
  import Totp

  datatype Role = USER | ADMIN
  datatype Status = INACTIVE | ACTIVE | BLOCKED

  function StatusName(st: Status): string
  {
    match st
    case INACTIVE => "INACTIVE"
    case ACTIVE => "ACTIVE"
    case BLOCKED => "BLOCKED"
  }

  datatype User = User(
    id: string,
    email: string,
    phone: string,
    password: string,
    firstName: string,
    lastName: string,
    datebirth: string,
    gender: Gender,
    image: Option<string>,
    role: Role,
    status: Status)

  /** `Omit<User, 'password'>`: what activation and login hand back. */
  datatype UserInfo = UserInfo(
    id: string,
    email: string,
    phone: string,
    firstName: string,
    lastName: string,
    datebirth: string,
    gender: Gender,
    image: Option<string>,
    role: Role,
    status: Status)

  function WithoutPassword(u: User): UserInfo
  {
    UserInfo(u.id, u.email, u.phone, u.firstName, u.lastName, u.datebirth, u.gender, u.image, u.role, u.status)
  }

  /** Configuration read with `getOrThrow`; `None` for a missing key. */
  datatype Config = Config(
    otpKey: Option<string>,
    jwtAccessSecret: Option<string>,
    jwtAccessExpiration: Option<string>)

  datatype AccessTokenPayload = AccessTokenPayload(id: string, role: Role, status: Status)

  /** The library functions the service calls. */
  datatype Collaborators = Collaborators(
    hash: string -> string,                                          // bcrypt.hash(password, 10)
    compare: (string, string) -> bool,                               // bcrypt.compare(password, digest)
    hotp: Totp.Truncation,                                           // HMAC and truncation inside totp
    sign: (AccessTokenPayload, string, string) -> Option<string>,    // jwtService.signAsync; None if it throws
    parseDate: string -> Option<int>,                                // new Date(s).getTime(); None for NaN
    formatDate: int -> string)                                       // String(date)

  /** The one fact about bcrypt the flows rely on: a password matches its own digest. */
  ghost predicate HasherSound(lib: Collaborators)
  {
    forall p :: lib.compare(p, lib.hash(p))
  }

  /** The user table, keyed by email. */
  type Store = map<string, User>

  /** Each row sits under its own email; phones and ids are unique (the table's unique indexes). */
  ghost predicate ValidStore(s: Store)
  {
    && (forall e :: e in s ==> s[e].email == e)
    && (forall e1, e2 :: e1 in s && e2 in s && e1 != e2 ==> s[e1].phone != s[e2].phone && s[e1].id != s[e2].id)
  }

  predicate PhoneTaken(s: Store, phone: string)
  {
    exists e :: e in s && s[e].phone == phone
  }

  predicate IdTaken(s: Store, id: string)
  {
    exists e :: e in s && s[e].id == id
  }

  /** The date of birth parses and does not lie after `nowMs`. */
  predicate BirthDateAcceptable(lib: Collaborators, datebirth: string, nowMs: nat)
  {
    lib.parseDate(datebirth).Some? && lib.parseDate(datebirth).value <= nowMs
  }

  /** The row registration creates. */
  function NewUser(dto: RegisterUserDto, id: string, digest: string, datebirth: string): User
  {
    User(id, dto.email, dto.phone, digest, dto.firstName, dto.lastName, datebirth,
         dto.gender, dto.image, USER, INACTIVE)
  }

  /** The verification mail: its address, the greeting name and the code (`AuthMessages` renders it). */
  datatype Mail = VerificationMail(to: string, firstName: string, code: string)

  /** The key under which the code for `email` is generated and checked: `OTP_KEY + email`. */
  function OtpSecret(key: string, email: string): string
  {
    key + email
  }

  /** The success answer of `register` (`AuthMessages` gives its text). */
  datatype Notice = CodeSent

  /** The exceptions the service raises; each has an HTTP status class (`Kind`); `AuthMessages` gives the message. */
  datatype AuthError =
    | EmailInUse(email: string)
    | PhoneInUse(phone: string)
    | BadDateFormat
    | FutureBirthDate
    | SaveFailed
    | Unhandled
    | MailFailed
    | BadOtp
    | UserNotFound(email: string)
    | ActivationRefused(status: Status)
    | BadCredentials
    | NotActive
    | LoginRefused(status: Status)
    | TokenFailed
    | LoginFailed
  {
    function Kind(): ErrorKind
    {
      match this
      case EmailInUse(_) => Conflict
      case PhoneInUse(_) => Conflict
      case BadDateFormat => BadRequest
      case FutureBirthDate => BadRequest
      case BadOtp => BadRequest
      case UserNotFound(_) => NotFound
      case ActivationRefused(_) => Forbidden
      case NotActive => Forbidden
      case LoginRefused(_) => Forbidden
      case BadCredentials => Unauthorized
      case _ => InternalError
    }
  }

  /** A value, or the exception raised instead. */
  datatype Result<T> = Ok(value: T) | Err(error: AuthError)
  {
    predicate Fails(k: ErrorKind)
    {
      Err? && error.Kind() == k
    }
  }

  /** No earlier check of registration fails: email and phone are free and the birth date is acceptable. */
  predicate Admissible(s: Store, lib: Collaborators, dto: RegisterUserDto, nowMs: nat)
  {
    dto.email !in s && !PhoneTaken(s, dto.phone) && BirthDateAcceptable(lib, dto.datebirth, nowMs)
  }

  /** The outcome of registration, the table afterwards, and the mail handed to the mailer. */
  datatype Registration = Registration(outcome: Result<Notice>, store: Store, mail: Option<Mail>)

  /**
   * `register`: `newId` is the id the database assigns, `nowMs` the clock, and `delivered` whether
   * the mailer reported success.
   */
  function RegisterOutcome(s: Store, cfg: Config, lib: Collaborators, dto: RegisterUserDto,
                           newId: string, nowMs: nat, delivered: bool): (r: Registration)
    // conflicts: the email is checked first, then the phone
    ensures r.outcome.Fails(Conflict) <==> dto.email in s || PhoneTaken(s, dto.phone)
    ensures dto.email in s ==> r.outcome == Err(EmailInUse(dto.email))
    // an unparsable or future birth date, once email and phone are free
    ensures r.outcome.Fails(BadRequest) <==>
      dto.email !in s && !PhoneTaken(s, dto.phone) && !BirthDateAcceptable(lib, dto.datebirth, nowMs)
    // the table changes exactly when a row is created, and then gains one INACTIVE USER row
    ensures r.store != s <==> Admissible(s, lib, dto, nowMs) && !IdTaken(s, newId)
    ensures r.store != s ==>
      && dto.email !in s && dto.email in r.store
      && r.store == s[dto.email := r.store[dto.email]]
      && r.store[dto.email] == NewUser(dto, newId, lib.hash(dto.password),
                                       lib.formatDate(lib.parseDate(dto.datebirth).value))
    // mail goes out only after the row exists, to the registered address, with the current code
    ensures r.mail.Some? <==> r.store != s && cfg.otpKey.Some?
    ensures r.mail.Some? ==>
      r.mail.value == VerificationMail(dto.email, dto.firstName, Totp.Generate(lib.hotp, OtpSecret(cfg.otpKey.value, dto.email), nowMs))
    // success needs the row, the key and delivery; a failed delivery keeps the row
    ensures r.outcome.Ok? <==> r.mail.Some? && delivered
    ensures r.outcome.Ok? ==> r.outcome.value == CodeSent
    ensures r.mail.Some? && !delivered ==> r.outcome == Err(MailFailed)
  {
    if dto.email in s then
      Registration(Err(EmailInUse(dto.email)), s, None)
    else if PhoneTaken(s, dto.phone) then
      Registration(Err(PhoneInUse(dto.phone)), s, None)
    else if lib.parseDate(dto.datebirth).None? then
      Registration(Err(BadDateFormat), s, None)
    else if lib.parseDate(dto.datebirth).value > nowMs then
      Registration(Err(FutureBirthDate), s, None)
    else
      Enrol(s, cfg, lib, dto, newId, lib.formatDate(lib.parseDate(dto.datebirth).value), nowMs, delivered)
  }

  /**
   * The part of `register` after the checks: save the row (with the formatted birth date
   * `datebirth`), then generate the code and mail it.
   */
  function Enrol(s: Store, cfg: Config, lib: Collaborators, dto: RegisterUserDto, newId: string,
                 datebirth: string, nowMs: nat, delivered: bool): (r: Registration)
    requires dto.email !in s
    ensures r.store != s <==> !IdTaken(s, newId)
    ensures r.store != s ==>
      && dto.email in r.store
      && r.store == s[dto.email := r.store[dto.email]]
      && r.store[dto.email] == NewUser(dto, newId, lib.hash(dto.password), datebirth)
    ensures r.mail.Some? <==> r.store != s && cfg.otpKey.Some?
    ensures r.mail.Some? ==>
      r.mail.value == VerificationMail(dto.email, dto.firstName, Totp.Generate(lib.hotp, OtpSecret(cfg.otpKey.value, dto.email), nowMs))
    ensures r.outcome.Ok? <==> r.mail.Some? && delivered
    ensures r.outcome.Ok? ==> r.outcome.value == CodeSent
    ensures r.outcome.Err? ==> r.outcome.error.Kind() == InternalError
    ensures r.mail.Some? && !delivered ==> r.outcome == Err(MailFailed)
  {
    if IdTaken(s, newId) then
      Registration(Err(SaveFailed), s, None)
    else
      var user := NewUser(dto, newId, lib.hash(dto.password), datebirth);
      var s' := s[dto.email := user];
      assert s'[dto.email] == user && dto.email !in s;
      if cfg.otpKey.None? then
        Registration(Err(Unhandled), s', None)
      else
        var mail := VerificationMail(dto.email, dto.firstName, Totp.Generate(lib.hotp, OtpSecret(cfg.otpKey.value, dto.email), nowMs));
        if !delivered then Registration(Err(MailFailed), s', Some(mail))
        else Registration(Ok(CodeSent), s', Some(mail))
  }

  /** The submitted code is the current one for `OTP_KEY + email`. */
  predicate OtpAccepted(cfg: Config, lib: Collaborators, email: string, otp: string, nowMs: nat)
  {
    cfg.otpKey.Some? && Totp.Check(lib.hotp, otp, OtpSecret(cfg.otpKey.value, email), nowMs)
  }

  datatype Transition<T> = Transition(outcome: Result<T>, store: Store)

  /** `activate` at clock reading `nowMs`: the code is checked before the user is looked up. */
  function ActivateOutcome(s: Store, cfg: Config, lib: Collaborators, email: string, otp: string,
                           nowMs: nat): (r: Transition<UserInfo>)
    ensures r.outcome.Fails(BadRequest) <==> cfg.otpKey.Some? && !OtpAccepted(cfg, lib, email, otp, nowMs)
    ensures !OtpAccepted(cfg, lib, email, otp, nowMs) ==> r.outcome.Err? && r.store == s
    ensures OtpAccepted(cfg, lib, email, otp, nowMs) ==> r == PromoteUser(s, email)
  {
    if cfg.otpKey.None? then
      Transition(Err(Unhandled), s)
    else if !Totp.Check(lib.hotp, otp, OtpSecret(cfg.otpKey.value, email), nowMs) then
      Transition(Err(BadOtp), s)
    else
      PromoteUser(s, email)
  }

  /** The part of `activate` after the code is accepted: look the user up and make it ACTIVE. */
  function PromoteUser(s: Store, email: string): (r: Transition<UserInfo>)
    ensures r.outcome.Fails(NotFound) <==> email !in s
    ensures r.outcome.Fails(Forbidden) <==> email in s && s[email].status != ACTIVE && s[email].status != INACTIVE
    ensures r.outcome.Ok? <==> email in s && (s[email].status == ACTIVE || s[email].status == INACTIVE)
    // success hands back the now-active row, without its password
    ensures r.outcome.Ok? ==>
      email in r.store && r.store[email].status == ACTIVE && r.outcome.value == WithoutPassword(r.store[email])
    // the only change ever made: one INACTIVE row becomes ACTIVE
    ensures r.store != s ==>
      email in s && s[email].status == INACTIVE && r.store == s[email := s[email].(status := ACTIVE)]
    ensures !r.outcome.Ok? ==> r.store == s
  {
    if email !in s then
      Transition(Err(UserNotFound(email)), s)
    else if s[email].status == ACTIVE then
      Transition(Ok(WithoutPassword(s[email])), s)
    else if s[email].status != INACTIVE then
      Transition(Err(ActivationRefused(s[email].status)), s)
    else
      var user := s[email].(status := ACTIVE);
      Transition(Ok(WithoutPassword(user)), s[email := user])
  }

  /** `genAccessToken`: sign the payload with the configured secret and lifetime. */
  function GenAccessToken(cfg: Config, lib: Collaborators, payload: AccessTokenPayload): (r: Result<string>)
    ensures r.Ok? <==>
      && cfg.jwtAccessSecret.Some? && cfg.jwtAccessExpiration.Some?
      && lib.sign(payload, cfg.jwtAccessSecret.value, cfg.jwtAccessExpiration.value).Some?
    ensures r.Ok? ==> Some(r.value) == lib.sign(payload, cfg.jwtAccessSecret.value, cfg.jwtAccessExpiration.value)
    ensures r.Err? ==> r == Err(TokenFailed)
  {
    if cfg.jwtAccessSecret.None? || cfg.jwtAccessExpiration.None? then
      Err(TokenFailed)
    else
      match lib.sign(payload, cfg.jwtAccessSecret.value, cfg.jwtAccessExpiration.value)
      case None => Err(TokenFailed)
      case Some(token) => Ok(token)
  }

  datatype LoginResult = LoginResult(accessToken: string, user: UserInfo)

  /** The email names a row and the password matches its digest. */
  predicate CredentialsMatch(s: Store, lib: Collaborators, email: string, password: string)
  {
    email in s && lib.compare(password, s[email].password)
  }

  /** `login`. */
  function LoginOutcome(s: Store, cfg: Config, lib: Collaborators, email: string, password: string): (r: Result<LoginResult>)
    // an unknown email and a wrong password give the very same answer
    ensures !CredentialsMatch(s, lib, email, password) <==> r == Err(BadCredentials)
    ensures r.Fails(Unauthorized) ==> r == Err(BadCredentials)
    // matching credentials on a row that is not ACTIVE are refused
    ensures r.Fails(Forbidden) <==> CredentialsMatch(s, lib, email, password) && s[email].status != ACTIVE
    ensures CredentialsMatch(s, lib, email, password) && s[email].status == INACTIVE ==>
      r == Err(NotActive)
    // success: an ACTIVE row, a token over {id, role, status}, the row without its password
    ensures r.Ok? ==>
      && CredentialsMatch(s, lib, email, password) && s[email].status == ACTIVE
      && r.value.user == WithoutPassword(s[email])
      && GenAccessToken(cfg, lib, AccessTokenPayload(s[email].id, s[email].role, s[email].status)) == Ok(r.value.accessToken)
    // an ACTIVE row with the right password logs in exactly when the token can be signed;
    // a signing failure surfaces as the catch-all login error
    ensures CredentialsMatch(s, lib, email, password) && s[email].status == ACTIVE ==>
      && (r.Ok? <==> GenAccessToken(cfg, lib, AccessTokenPayload(s[email].id, s[email].role, s[email].status)).Ok?)
      && (r.Err? ==> r == Err(LoginFailed))
  {
    if email !in s || !lib.compare(password, s[email].password) then
      Err(BadCredentials)
    else if s[email].status == INACTIVE then
      Err(NotActive)
    else if s[email].status != ACTIVE then
      Err(LoginRefused(s[email].status))
    else
      var user := s[email];
      match GenAccessToken(cfg, lib, AccessTokenPayload(user.id, user.role, user.status))
      case Err(_) => Err(LoginFailed)
      case Ok(token) => Ok(LoginResult(token, WithoutPassword(user)))
  }

  /** The service object: the user table it updates in place, and its fixed configuration. */
  class AuthService {
    var users: Store
    const config: Config
    const lib: Collaborators

    ghost predicate Valid()
      reads this
    {
      ValidStore(users)
    }

    constructor (config: Config, lib: Collaborators)
      ensures Valid() && users == map[]
      ensures this.config == config && this.lib == lib
    {
      this.config := config;
      this.lib := lib;
      users := map[];
    }

    method Register(dto: RegisterUserDto, newId: string, nowMs: nat, delivered: bool)
      returns (r: Result<Notice>, mail: Option<Mail>)
      requires Valid()
      modifies this
      ensures Valid()
      ensures Registration(r, users, mail) == RegisterOutcome(old(users), config, lib, dto, newId, nowMs, delivered)
    {
      mail := None;
      if dto.email in users {
        r := Err(EmailInUse(dto.email));
        return;
      }
      if PhoneTaken(users, dto.phone) {
        r := Err(PhoneInUse(dto.phone));
        return;
      }
      var dob := lib.parseDate(dto.datebirth);
      if dob.None? {
        r := Err(BadDateFormat);
        return;
      }
      if dob.value > nowMs {
        r := Err(FutureBirthDate);
        return;
      }
      var digest := lib.hash(dto.password);
      if IdTaken(users, newId) {
        r := Err(SaveFailed);
        return;
      }
      RegisterKeepsStoreValid(users, config, lib, dto, newId, nowMs, delivered);
      users := users[dto.email := NewUser(dto, newId, digest, lib.formatDate(dob.value))];
      if config.otpKey.None? {
        r := Err(Unhandled);
        return;
      }
      var code := Totp.Generate(lib.hotp, OtpSecret(config.otpKey.value, dto.email), nowMs);
      mail := Some(VerificationMail(dto.email, dto.firstName, code));
      if !delivered {
        r := Err(MailFailed);
        return;
      }
      r := Ok(CodeSent);
    }

    method Activate(email: string, otp: string, nowMs: nat) returns (r: Result<UserInfo>)
      requires Valid()
      modifies this
      ensures Valid()
      ensures Transition(r, users) == ActivateOutcome(old(users), config, lib, email, otp, nowMs)
    {
      if config.otpKey.None? {
        return Err(Unhandled);
      }
      var isCorrect := Totp.Check(lib.hotp, otp, OtpSecret(config.otpKey.value, email), nowMs);
      if !isCorrect {
        return Err(BadOtp);
      }
      if email !in users {
        return Err(UserNotFound(email));
      }
      var user := users[email];
      if user.status == ACTIVE {
        return Ok(WithoutPassword(user));
      }
      if user.status != INACTIVE {
        return Err(ActivationRefused(user.status));
      }
      var updated := user.(status := ACTIVE);
      ActivateKeepsStoreValid(users, config, lib, email, otp, nowMs);
      users := users[email := updated];
      r := Ok(WithoutPassword(updated));
    }

    /** Reads the table and changes nothing. */
    method Login(email: string, password: string) returns (r: Result<LoginResult>)
      ensures r == LoginOutcome(users, config, lib, email, password)
    {
      if email !in users || !lib.compare(password, users[email].password) {
        return Err(BadCredentials);
      }
      var user := users[email];
      if user.status == INACTIVE {
        return Err(NotActive);
      }
      if user.status != ACTIVE {
        return Err(LoginRefused(user.status));
      }
      var token := GenAccessToken(config, lib, AccessTokenPayload(user.id, user.role, user.status));
      if token.Err? {
        return Err(LoginFailed);
      }
      r := Ok(LoginResult(token.value, WithoutPassword(user)));
    }
  }

  /** Registration keeps emails as keys and phones and ids unique. */
  lemma {:induction false} RegisterKeepsStoreValid(s: Store, cfg: Config, lib: Collaborators, dto: RegisterUserDto,
                                                   newId: string, nowMs: nat, delivered: bool)
    requires ValidStore(s)
    ensures ValidStore(RegisterOutcome(s, cfg, lib, dto, newId, nowMs, delivered).store)
  {
    var s' := RegisterOutcome(s, cfg, lib, dto, newId, nowMs, delivered).store;
    if s' != s {
      var u := s'[dto.email];
      forall e | e in s'
        ensures s'[e].email == e
      {
      }
      forall e1, e2 | e1 in s' && e2 in s' && e1 != e2
        ensures s'[e1].phone != s'[e2].phone && s'[e1].id != s'[e2].id
      {
        if e1 == dto.email {
          assert e2 in s;
        } else if e2 == dto.email {
          assert e1 in s;
        }
      }
    }
  }

  /** Activation keeps emails as keys and phones and ids unique. */
  lemma {:induction false} ActivateKeepsStoreValid(s: Store, cfg: Config, lib: Collaborators, email: string,
                                                   otp: string, nowMs: nat)
    requires ValidStore(s)
    ensures ValidStore(ActivateOutcome(s, cfg, lib, email, otp, nowMs).store)
  {
    var s' := ActivateOutcome(s, cfg, lib, email, otp, nowMs).store;
    if s' != s {
      forall e1, e2 | e1 in s' && e2 in s' && e1 != e2
        ensures s'[e1].phone != s'[e2].phone && s'[e1].id != s'[e2].id
      {
        assert s'[e1].phone == s[e1].phone && s'[e1].id == s[e1].id;
        assert s'[e2].phone == s[e2].phone && s'[e2].id == s[e2].id;
      }
    }
  }

  /**
   * The code mailed at registration activates the new account anywhere in the same 300-second
   * window, and the account is then ACTIVE with nothing else changed.
   */
  lemma {:induction false} MailedCodeActivates(s: Store, cfg: Config, lib: Collaborators, dto: RegisterUserDto,
                                               newId: string, t1: nat, delivered: bool, t2: nat)
    requires RegisterOutcome(s, cfg, lib, dto, newId, t1, delivered).mail.Some?
    requires Totp.Counter(t1) == Totp.Counter(t2)
    ensures var reg := RegisterOutcome(s, cfg, lib, dto, newId, t1, delivered);
            var code := Totp.Generate(lib.hotp, OtpSecret(cfg.otpKey.value, dto.email), t1);
            var act := ActivateOutcome(reg.store, cfg, lib, dto.email, code, t2);
            && act.outcome.Ok?
            && act.outcome.value.status == ACTIVE
            && act.store == s[dto.email := reg.store[dto.email].(status := ACTIVE)]
  {
    var reg := RegisterOutcome(s, cfg, lib, dto, newId, t1, delivered);
    var code := Totp.Generate(lib.hotp, OtpSecret(cfg.otpKey.value, dto.email), t1);
    Totp.CheckGenerated(lib.hotp, OtpSecret(cfg.otpKey.value, dto.email), t1, t2);
    assert reg.store[dto.email].status == INACTIVE;
    assert reg.store[dto.email := reg.store[dto.email].(status := ACTIVE)]
        == s[dto.email := reg.store[dto.email].(status := ACTIVE)];
  }

  /** Activating twice is harmless: the second call returns the same user and changes nothing. */
  lemma {:induction false} ActivateIdempotent(s: Store, cfg: Config, lib: Collaborators, email: string,
                                              otp: string, t1: nat, t2: nat)
    requires ActivateOutcome(s, cfg, lib, email, otp, t1).outcome.Ok?
    requires Totp.Counter(t1) == Totp.Counter(t2)
    ensures var first := ActivateOutcome(s, cfg, lib, email, otp, t1);
            var second := ActivateOutcome(first.store, cfg, lib, email, otp, t2);
            second.outcome == first.outcome && second.store == first.store
  {
    var first := ActivateOutcome(s, cfg, lib, email, otp, t1);
    assert Totp.Generate(lib.hotp, OtpSecret(cfg.otpKey.value, email), t1)
        == Totp.Generate(lib.hotp, OtpSecret(cfg.otpKey.value, email), t2);
    assert first.store[email].status == ACTIVE;
  }

  /** Right after registration the password is right but the account is not yet active. */
  lemma {:induction false} LoginBeforeActivationForbidden(s: Store, cfg: Config, lib: Collaborators,
                                                          dto: RegisterUserDto, newId: string, nowMs: nat,
                                                          delivered: bool)
    requires HasherSound(lib)
    requires RegisterOutcome(s, cfg, lib, dto, newId, nowMs, delivered).store != s
    ensures LoginOutcome(RegisterOutcome(s, cfg, lib, dto, newId, nowMs, delivered).store, cfg, lib,
                         dto.email, dto.password) == Err(NotActive)
  {
    var s' := RegisterOutcome(s, cfg, lib, dto, newId, nowMs, delivered).store;
    assert lib.compare(dto.password, lib.hash(dto.password));
    assert CredentialsMatch(s', lib, dto.email, dto.password);
  }

  /**
   * Register, activate with the mailed code in the same window, log in with the same password:
   * with the access-token configuration present and signing succeeding, login returns a token over
   * the new row's id, role USER and status ACTIVE.
   */
  lemma {:induction false} RegisterActivateLogin(s: Store, cfg: Config, lib: Collaborators, dto: RegisterUserDto,
                                                 newId: string, t1: nat, delivered: bool, t2: nat)
    requires HasherSound(lib)
    requires RegisterOutcome(s, cfg, lib, dto, newId, t1, delivered).mail.Some?
    requires Totp.Counter(t1) == Totp.Counter(t2)
    requires cfg.jwtAccessSecret.Some? && cfg.jwtAccessExpiration.Some?
    requires lib.sign(AccessTokenPayload(newId, USER, ACTIVE), cfg.jwtAccessSecret.value,
                      cfg.jwtAccessExpiration.value).Some?
    ensures var reg := RegisterOutcome(s, cfg, lib, dto, newId, t1, delivered);
            var code := Totp.Generate(lib.hotp, OtpSecret(cfg.otpKey.value, dto.email), t1);
            var act := ActivateOutcome(reg.store, cfg, lib, dto.email, code, t2);
            var login := LoginOutcome(act.store, cfg, lib, dto.email, dto.password);
            && login.Ok?
            && Some(login.value.accessToken) == lib.sign(AccessTokenPayload(newId, USER, ACTIVE),
                                                         cfg.jwtAccessSecret.value, cfg.jwtAccessExpiration.value)
            && login.value.user == act.outcome.value
  {
    var reg := RegisterOutcome(s, cfg, lib, dto, newId, t1, delivered);
    var code := Totp.Generate(lib.hotp, OtpSecret(cfg.otpKey.value, dto.email), t1);
    MailedCodeActivates(s, cfg, lib, dto, newId, t1, delivered, t2);
    var act := ActivateOutcome(reg.store, cfg, lib, dto.email, code, t2);
    var u := act.store[dto.email];
    assert u.id == newId && u.role == USER && u.status == ACTIVE;
    assert u.password == lib.hash(dto.password);
    assert lib.compare(dto.password, lib.hash(dto.password));
  }
}
