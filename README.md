# Online shop: accounts and categories

A model of the core of an online-shop back end: the authentication service (registration with
an e-mailed one-time code, activation, login with a signed access token), the category catalogue
(create, list with search, filter, sort and pages, find, update, remove), and the validation rules
of the request bodies and list queries those services take.

The services hold their data in a database; here each service is a class whose field is the
table (`AuthService.AuthService.users`, a map from e-mail to user row;
`CategoryService.CategoryService.categories`, a map from id to category). Each method is proved
against a function of the old table (`RegisterOutcome`, `ActivateOutcome`, `LoginOutcome`,
`CreateOutcome`, `UpdateOutcome`, ...) that returns the outcome together with the new table.
The properties the services promise are proved as lemmas about those functions: the tables stay
well formed, a mailed code activates its account, activation and update are idempotent, login is
refused before activation, and the whole register/activate/login lifecycle yields a token over
the new account.

Errors are values: an `Outcome` (or, in the authentication service, a `Result` over `AuthError`)
carries the HTTP exception kind (`Conflict`, `BadRequest`, `NotFound`, `Unauthorized`,
`Forbidden`, `InternalError`). The authentication service's exact message texts are kept in
`AuthMessages`, which maps each `AuthError` to its text; the category service's messages are in its
own module.

Things the services call but cannot be seen into are parameters:

- bcrypt hashing and comparison;
- the keyed HOTP truncation of the TOTP engine;
- the JWT signer;
- date parsing and formatting;
- whether the mail was handed over;
- the database's sorted enumeration of the category table;
- whether other rows still reference a category;
- fresh ids;
- the clock, read once per call.

Files:

- `outcomes.dfy` — `Option`, the error kinds and `Outcome`.
- `text.dfy` — character classes, ASCII case folding, substring search and string order.
- `arith.dfy` — facts about multiplication and division used by the paging and TOTP proofs.
- `totp.dfy` — TOTP as RFC 6238 defines it, with a 300-second step and 6 digits: generation, checking, and the round trip of the zero-padded code.
- `query_base.dfy` — the common list query: its defaults and its bounds.
- `register_dto.dfy` — the registration body, chiefly the password pattern.
- `reset_password_dto.dfy` — the password-reset body.
- `auth_service.dfy`, `auth_messages.dfy` — the authentication service.
- `category_service.dfy` — the category service.

Two of the rules behave differently from what their messages say; the model follows the rules as
written:

- The password pattern `((?=.*\d)|(?=.*\W+))(?![.\n])(?=.*[A-Z])(?=.*[a-z]).*$`, which is not anchored at the start, does not need both a
  digit and a special character. A digit or a non-word character suffices, so `Abcdefg1` passes.
  A match cannot start at a dot, so dots at the start of the password never count as the special character.
- `@IsNumberString()` on the reset OTP admits a sign and one decimal point, so `+12345` and `1.2345` pass.

## Model

| member | source | states |
|---|---|---|
| QueryBase.Validate | src/common/dto/query-base.dto.ts:4-36 | A query is accepted exactly when every given parameter obeys its decorators; the result is then within bounds (page ≥ 1, 1 ≤ limit ≤ 100, order asc/desc, non-empty search), absent parameters take defaults 1, 10, `createdAt`, `asc`, and given ones are kept; a refusal is a BadRequest |
| QueryBase.DefaultQuery | src/common/dto/query-base.dto.ts:4-8 | An empty query validates to page 1, limit 10, sort by `createdAt`, ascending, no search |
| QueryBase.RejectedQueries | src/common/dto/query-base.dto.ts:11-36 | A fractional page, page 0, limit 101, an order other than asc/desc and an empty search are each refused with BadRequest |
| RegisterDto.AheadOnSingleLine | src/modules/auth/dto/register.dto.ts:29-31 | On a line-break-free suffix, a look-ahead `(?=.*[class])` succeeds exactly when the class occurs in that suffix |
| RegisterDto.PatternCharacterization | src/modules/auth/dto/register.dto.ts:29-31 | The password pattern matches exactly when some non-dot start position begins a line-break-free suffix holding an upper-case letter, a lower-case letter, and a digit or non-word character |
| RegisterDto.PasswordValidNecessary | src/modules/auth/dto/register.dto.ts:26-33 | Every accepted password has at least 8 characters and contains upper case, lower case, and a digit or special character |
| RegisterDto.PasswordPatternOnOneLine | src/modules/auth/dto/register.dto.ts:29-31 | For a one-line password not starting with a dot, the pattern holds exactly when the password has both letter cases and a digit or special character |
| RegisterDto.DigitWithoutSpecialAccepted | src/modules/auth/dto/register.dto.ts:29-31 | `Abcdefg1`, which has no special character, is accepted |
| RegisterDto.LeadingDotDoesNotCount | src/modules/auth/dto/register.dto.ts:29-31 | `.Abcdefgh` has both cases and a special character, yet is refused, because leading dots are skipped |
| RegisterDto.RegisterUserDtoRules | src/modules/auth/dto/register.dto.ts:6-48 | An accepted registration body has non-empty names and date of birth, and a strong password of at least 8 characters; the image is optional |
| ResetPasswordDto.OtpRule | src/modules/auth/dto/reset-password.dto.ts:11-14 | An accepted OTP has 6 characters, ends in a digit and holds only digits, signs and points; every 6-digit string is accepted |
| ResetPasswordDto.SignAndPointAccepted | src/modules/auth/dto/reset-password.dto.ts:11-12 | `+12345` and `1.2345` pass the OTP rule |
| ResetPasswordDto.GeneratedCodesAccepted | src/modules/auth/dto/reset-password.dto.ts:11-14 | Every code the TOTP engine generates passes the OTP rule |
| ResetPasswordDto.NewPasswordRuleIsRegisterRule | src/modules/auth/dto/reset-password.dto.ts:16-23 | The new-password rule accepts exactly the registration passwords, so it too implies length ≥ 8 and strength |
| Totp.PadDecimal | src/modules/auth/auth.service.ts:123-124 | A code is exactly `digits` characters long, all of them decimal digits |
| Totp.Generate | src/modules/auth/auth.service.ts:123-124 | A generated code has 6 decimal digits |
| Totp.PadDecimalRoundTrip | src/modules/auth/auth.service.ts:123-124 | Reading a zero-padded code back gives the number modulo 10^width |
| Totp.CheckGenerated | src/modules/auth/auth.service.ts:149 | A generated code is accepted at another clock reading exactly when both windows' truncations agree in their last 6 digits; it is always accepted within its own 300-second window |
| Totp.SameWindowIsShort | src/modules/auth/auth.service.ts:123 | Two clock readings in the same window are less than 300 seconds apart |
| AuthService.RegisterOutcome | src/modules/auth/auth.service.ts:68-142 | Conflict exactly when the e-mail or the phone is taken, with the e-mail checked first. BadRequest exactly when both are free but the date is unparsable or in the future. The table changes exactly when the body is admissible and the id is free, and then gains one INACTIVE USER row with the hashed password under the e-mail. A mail with the current code goes out exactly when that row exists and an OTP key is configured. The result is Ok exactly when that mail was delivered |
| AuthService.Enrol | src/modules/auth/auth.service.ts:94-141 | For an admissible body: the new row is stored exactly when the id is free; the mail carries the code for the key and e-mail; every failure is an internal error |
| AuthService.ActivateOutcome | src/modules/auth/auth.service.ts:144-152 | BadRequest exactly when a key is configured and the code is not the current one; a refused code leaves the table alone; an accepted code proceeds to the lookup and status change |
| AuthService.PromoteUser | src/modules/auth/auth.service.ts:154-175 | NotFound exactly when the e-mail is unknown; Forbidden exactly when the status is neither ACTIVE nor INACTIVE; otherwise Ok with the row now ACTIVE and returned without its password; only an INACTIVE row changes, and only its status |
| AuthService.GenAccessToken | src/modules/auth/auth.service.ts:44-54 | Ok exactly when the access secret and expiration are configured and signing succeeds, with the signer's token; otherwise an internal error |
| AuthService.LoginOutcome | src/modules/auth/auth.service.ts:186-232 | Unauthorized (one message) exactly when the e-mail is unknown or the password does not match. Forbidden exactly when it matches but the account is not ACTIVE, with INACTIVE giving its own message. Ok only for an ACTIVE account, returning the signer's token over id, role and status, and the row without its password. For an ACTIVE account with the right password, the result is Ok exactly when the token can be signed; otherwise it is the catch-all login error |
| AuthService.AuthService.constructor | src/modules/auth/auth.service.ts:37-42 | The service keeps the configuration and collaborators it is given and starts with an empty, well-formed user table |
| AuthService.AuthService.Register | src/modules/auth/auth.service.ts:68-142 | Result, mail and new table are those of `RegisterOutcome` on the old table; the table stays well formed |
| AuthService.AuthService.Activate | src/modules/auth/auth.service.ts:144-184 | Result and new table are those of `ActivateOutcome` on the old table; the table stays well formed |
| AuthService.AuthService.Login | src/modules/auth/auth.service.ts:186-232 | The result is `LoginOutcome` on the current table, which login does not change |
| AuthService.RegisterKeepsStoreValid | src/modules/auth/auth.service.ts:71-79 | Registration keeps every row under its own e-mail, and keeps phones and ids unique |
| AuthService.ActivateKeepsStoreValid | src/modules/auth/auth.service.ts:169-175 | Activation keeps every row under its own e-mail, and keeps phones and ids unique |
| AuthService.MailedCodeActivates | src/modules/auth/auth.service.ts:120-175 | The mailed code activates the new account anywhere in the same window; the account is then ACTIVE and no other row changes |
| AuthService.ActivateIdempotent | src/modules/auth/auth.service.ts:159-163 | A second activation with the same code in the same window returns the same user and changes nothing |
| AuthService.LoginBeforeActivationForbidden | src/modules/auth/auth.service.ts:198-200 | Right after registration, the correct password is met with the "not active" Forbidden |
| AuthService.RegisterActivateLogin | src/modules/auth/auth.service.ts:216-223 | Register, activate with the mailed code, log in: the token is the signer's over the new id, role USER, status ACTIVE, and the returned user is the one activation returned |
| AuthMessages.MailCarriesCode | src/modules/auth/auth.service.ts:130-139 | The verification mail's body contains the code and the recipient's first name |
| AuthMessages.ConflictMessagesNameTheValue | src/modules/auth/auth.service.ts:71-79 | The two registration conflicts name the taken e-mail or phone |
| AuthMessages.CredentialFailuresLookAlike | src/modules/auth/auth.service.ts:192-196 | An unknown e-mail and a wrong password yield the same message, "Invalid credentials." |
| CategoryService.CreateOutcome | src/modules/category/category.service.ts:17-37 | Conflict exactly when the name is taken. Ok exactly when the name is free and the new id unused, and then the table gains exactly that row. Otherwise (an id collision) BadRequest with the create-failure prefix and an unchanged table |
| CategoryService.FindOneOutcome | src/modules/category/category.service.ts:108-120 | Ok with the row exactly when the id is present, NotFound naming the id otherwise |
| CategoryService.ApplyPatch | src/modules/category/category.service.ts:139-143 | Each field the patch gives is replaced, each it omits is kept, and the id never changes |
| CategoryService.UpdateOutcome | src/modules/category/category.service.ts:122-155 | NotFound for an unknown id. Conflict exactly when a given name belongs to another row, with a non-empty name getting the name-specific message and an empty one the unique-violation message. Otherwise the row is replaced by the patched row and nothing else changes |
| CategoryService.RemoveOutcome | src/modules/category/category.service.ts:157-175 | NotFound for an unknown id; Conflict when other rows reference it; otherwise Ok with the removed row, and the table loses exactly that id |
| CategoryService.SortField | src/modules/category/category.service.ts:49-50 | The sort field is `name` or `description`; a whitelisted field is kept and anything else becomes `name` |
| CategoryService.Filter | src/modules/category/category.service.ts:76-88 | The kept rows are exactly the listing's rows that pass the test, no more of them than the listing has |
| CategoryService.CeilDiv | src/modules/category/category.service.ts:90 | `totalPages` is the least page count covering every item: 0 for no items |
| CategoryService.PageOf | src/modules/category/category.service.ts:52-53 | A page holds at most `limit` rows, exactly the rows from position `(page - 1) * limit` on, and is empty exactly when that position is past the end |
| CategoryService.BuildWhere | src/modules/category/category.service.ts:59-77 | At most two conditions, none exactly when neither parameter is truthy; a row satisfies them all exactly when search occurs in its name or description and filterByName in its name, ignoring case |
| CategoryService.CategoryService.constructor | src/modules/category/category.service.ts:15 | The service starts with an empty, well-formed category table |
| CategoryService.CategoryService.Create | src/modules/category/category.service.ts:17-37 | Result and new table are those of `CreateOutcome` on the old table; the table stays well formed |
| CategoryService.CategoryService.FindAll | src/modules/category/category.service.ts:39-106 | The data is the requested page of the qualifying rows in the database's order: at most `limit` rows, each a current row that qualifies, sorted by the whitelisted field and direction. Every qualifying row is counted once. The meta gives the total, the count, the page size, the page and the ceiling page count |
| CategoryService.CategoryService.FindOne | src/modules/category/category.service.ts:108-120 | The result is `FindOneOutcome` on the current table |
| CategoryService.CategoryService.Update | src/modules/category/category.service.ts:122-155 | Result and new table are those of `UpdateOutcome` on the old table; the table stays well formed |
| CategoryService.CategoryService.Remove | src/modules/category/category.service.ts:157-175 | Result and new table are those of `RemoveOutcome` on the old table; the table stays well formed |
| CategoryService.FilterKeepsSorted | src/modules/category/category.service.ts:80-86 | Filtering a sorted listing keeps it sorted |
| CategoryService.FilterKeepsDistinct | src/modules/category/category.service.ts:80-87 | Filtering a listing without repeated ids yields one without repeated ids |
| CategoryService.SliceKeepsSorted | src/modules/category/category.service.ts:52-53 | A page of a sorted listing is sorted |
| CategoryService.PageCoverage | src/modules/category/category.service.ts:52-53 | Row `j` of the filtered listing is item `j % limit` of page `j / limit + 1`, and that page is at most `totalPages` |
| CategoryService.PagesWithinTotal | src/modules/category/category.service.ts:90 | A page is non-empty exactly when its number is at most `totalPages` |
| CategoryService.FilterMeaning | src/modules/category/category.service.ts:59-77 | Without truthy filters every row qualifies; with them every listed row contains the search term in name or description and the filterByName term in its name, ignoring case; every row that meets both terms is listed |
| CategoryService.ValidatedQueryInBounds | src/modules/category/category.service.ts:40-50 | A query the common DTO accepts is within the listing's bounds; its default sort field, `createdAt`, is not whitelisted and sorts by name |
| CategoryService.CreateKeepsTableValid | src/modules/category/category.service.ts:18-29 | Creation keeps rows under their own ids, with names unique |
| CategoryService.UpdateKeepsTableValid | src/modules/category/category.service.ts:125-143 | Update keeps rows under their own ids, with names unique |
| CategoryService.RemoveKeepsTableValid | src/modules/category/category.service.ts:160-164 | Removal keeps rows under their own ids, with names unique |
| CategoryService.CreateThenFindOne | src/modules/category/category.service.ts:27-30 | After a creation the new id finds the new row, and every other id finds what it found before |
| CategoryService.RenameToOwnName | src/modules/category/category.service.ts:125-137 | Renaming a category to its own current name is no conflict |
| CategoryService.UpdateIdempotent | src/modules/category/category.service.ts:139-143 | Applying the same patch a second time returns the same row and changes nothing |
| CategoryService.RemoveThenFindOne | src/modules/category/category.service.ts:157-164 | After a removal the id is not found, and every other id finds what it found before |

## Left out

- Validation is not enforced. `src/main.ts` installs no validation pipe, so the body and query rules are declared but never applied at run time. The model states them as predicates and functions and does not connect them to the controllers.
- CategoryService.CategoryService.FindAll requires page ≥ 1, 1 ≤ limit ≤ 100 and an order of asc or desc. Without a validation pipe, other values would reach the database unchecked, and query values would arrive as strings. The model takes numbers within the validated bounds.
- CategoryService.CategoryService.FindAll takes the database's sorted enumeration of the table as a parameter. Ordering is by code point (`LexLe`); collation and the order of equal keys are not modelled.
- CategoryService.FilterMeaning: "ignoring case" is ASCII case folding. Unicode case mapping, as the database's insensitive mode does it, is not modelled.
- QueryBase.Validate reports only the first violated rule. Class-validator collects every violation.
- QueryBase.Validate does not model what class-transformer makes of non-numeric strings.
- The e-mail check (`IsEmail`) and the Uzbek phone-number check (`IsPhoneNumber('UZ')`) are library checks. They are parameters.
- Lengths are counted in characters. Validator.js's treatment of surrogate pairs and presentation sequences is not modelled.
- Hashing, HMAC and JWT signing are parameters: their internals, salts and randomness are not modelled.
- The facts the lemmas need about hashing are hypotheses (`HasherSound`): that a password matches its own hash.
- Date parsing and formatting are parameters.
- The branches that exist only for a failing hash (`auth.service.ts:94-101`) or a failing OTP generator (`auth.service.ts:120-128`) are not modelled. Both collaborators are total functions here.
- Database failures are not modelled: the database errors that activation's catch-all (`auth.service.ts:177-183`) and login's catch-all (`auth.service.ts:225-231`) would rewrap, and the generic BadRequest branches of the category service (`category.service.ts:102-105`, `118`, `152-153`, `172-173`). Login's catch-all is modelled for the one failure the model has, a token that cannot be signed (`LoginFailed`).
- The P2025 "not found" branches of update and delete (`category.service.ts:146-148`, `166-168`) are not modelled: they need a concurrent removal between the lookup and the write.
- The races they stand for are not modelled either: each operation is one atomic step.
- CategoryService.CreateOutcome keeps only the fixed prefix of the create-failure message. The database's error text that follows it is not modelled.
- Create fails only on an id that is already in use. Other insert failures are not modelled.
- CategoryService.UpdateOutcome models the update body as a patch of optional name, description and image. `update-category.dto.ts` is not part of this model.
- Remove's foreign-key failure (P2003) is a parameter, `referenced`. The rows that reference categories are not modelled.
- The refresh-token generator (`auth.service.ts:56-66`) is not modelled. Nothing in the modelled core calls it, and sessions are not created.
- Login's client address, user agent and device information (`auth.service.ts:188-189`, `206`) are not modelled: they are read but not used.
- The TOTP options are a process-wide setting that only registration installs (`auth.service.ts:123`). An activation before any registration since start-up would use the library default of a 30-second step. The model always uses 300 seconds and 6 digits.
- The TOTP check allows no clock skew, which is the library's default window of 0.
- Mail delivery is the parameter `delivered`. The mail service (`src/services/mail/mail.service.ts:18-26`) catches and logs every error the transport throws, so registration's mail-failure branch (`auth.service.ts:136-139`) is unreachable as written, except when the transport rejects with `null` or `undefined` and the logging line itself throws. The model keeps the branch (`MailFailed` when `delivered` is false); registrations in practice always have `delivered` true.
- The model does not carry the mail's subject and text through the send call; `AuthMessages.MailBody` gives the text.
- `Math.ceil` over floating point is modelled as exact integer ceiling division. For the page sizes allowed (at most 100), the two agree.
- AuthService.RegisterOutcome reads the clock once (`nowMs`) for both the birth-date check (`auth.service.ts:87`) and code generation (`auth.service.ts:124`). The source reads it twice, with the hashing and the insert in between, so a registration that straddles a 300-second boundary mails the code of the later window; the model does not capture that gap.
- The `gender` enum of the database schema is not part of this model; `RegisterDto.Gender` assumes its members are `MALE` and `FEMALE`, and `@IsEnum(gender)` holds by that type.
