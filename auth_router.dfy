/** The versioned authentication router: `register`, `verify_email`, `login` and
    `reset_password`. They run on the same `users` table as the top-level endpoints and share
    their login rule; they differ in how the end date is computed and in how a decoded
    token is inspected.

    `verifyToken(token)` stands for `verify_token`: the decoded claims, or `None` when the
    token does not decode (that function is not part of this model). */
module AuthRouter {
  import opened Common
  import opened Models
  import opened UserSchemas
  import Accounts

  // ---------------------------------------------------------------------------------------
  // calculate_subscription_end_date, string version

  /** A Python value compared against the literals "monthly" and "quarterly": a string, or a
      member of the `SubscriptionType` enumeration, which is a plain `enum.Enum` and so never
      equals a string. */
  datatype PyValue = PyStr(s: string) | PyEnumMember(member: SubscriptionType)

  /** Python's `==` between the value and a string literal. */
  predicate EqualsLiteral(v: PyValue, literal: string)
  {
    v.PyStr? && v.s == literal
  }

  /** The function as written: 30 days for exactly "monthly", 90 for exactly "quarterly",
      365 for anything else. */
  function EndDateAsWritten(start: int, v: PyValue): (end: int)
    ensures end == start + 30 * Accounts.Day <==> v == PyStr("monthly")
    ensures end == start + 90 * Accounts.Day <==> v == PyStr("quarterly")
    ensures end == start + 365 * Accounts.Day <==> v != PyStr("monthly") && v != PyStr("quarterly")
    ensures v.PyEnumMember? ==> end == start + 365 * Accounts.Day
  {
    if EqualsLiteral(v, "monthly") then start + 30 * Accounts.Day
    else if EqualsLiteral(v, "quarterly") then start + 90 * Accounts.Day
    else start + 365 * Accounts.Day
  }

  /** `register` passes the validated body's `subscription_type`, an enum member: every
      member, monthly and quarterly included, gets a year. */
  lemma EnumMemberAlwaysYearly(start: int, t: SubscriptionType)
    ensures EndDateAsWritten(start, PyEnumMember(t)) == start + 365 * Accounts.Day
    ensures t != Yearly ==> EndDateAsWritten(start, PyEnumMember(t)) != Accounts.EndDate(start, t)
  {
  }

  /** A monthly registration as written ends 365 days after it starts, not 30. */
  lemma MonthlyRegistrationGetsAYear(start: int)
    ensures EndDateAsWritten(start, PyEnumMember(Monthly)) == start + 365 * Accounts.Day
    ensures Accounts.EndDate(start, Monthly) == start + 30 * Accounts.Day
  {
  }

  /** The intended function: the value of an enum member is compared, so a member and its
      string value give the same end date. */
  function EndDateCorrected(start: int, v: PyValue): (end: int)
    ensures v.PyEnumMember? ==> end == Accounts.EndDate(start, v.member)
    ensures v.PyStr? ==> end == EndDateAsWritten(start, v)
  {
    match v
    case PyStr(_) => EndDateAsWritten(start, v)
    case PyEnumMember(t) => EndDateAsWritten(start, PyStr(SubscriptionTypeValue(t)))
  }

  /** The corrected function agrees with the enum version on every member and its value. */
  lemma EndDateCorrectedAgrees(start: int, t: SubscriptionType)
    ensures EndDateCorrected(start, PyEnumMember(t)) == EndDateCorrected(start, PyStr(SubscriptionTypeValue(t)))
    ensures EndDateCorrected(start, PyStr(SubscriptionTypeValue(t))) - start == Accounts.PeriodDays(t) * Accounts.Day
  {
  }

  // ---------------------------------------------------------------------------------------
  // register

  /** `register`: the same checks and row as `create_user`, with the end date from the
      corrected function. */
  function RegisterResult(users: seq<User>, data: Accounts.UserCreate, now: int, hash: string -> string, newId: string)
    : (res: (Accounts.CreateOutcome, seq<User>))
  {
    match ValidatePasswordComplexity(data.password)
    case Err(e) => (Accounts.InvalidPassword(e), users)
    case Ok(_) =>
      if FindByEmail(users, data.email).Some? then (Accounts.EmailRegistered, users)
      else if FindById(users, newId).Some? then (Accounts.CreateFailed, users)
      else
        var end := EndDateCorrected(now, PyEnumMember(data.subscriptionType));
        var u := NewUser(newId, data.name, data.companyName, data.email, hash(data.password), data.contactInfo,
                         data.plan, data.subscriptionType, now, end);
        (Accounts.UserCreated(u), users + [u])
  }

  /** With the end date corrected the two registration endpoints agree, so `register`
      refuses an existing email with 400, creates the user unverified and keeps the table
      valid, as `create_user` does. */
  lemma RegisterIsCreateUser(users: seq<User>, data: Accounts.UserCreate, now: int, hash: string -> string, newId: string)
    requires UsersValid(users)
    ensures RegisterResult(users, data, now, hash, newId) == Accounts.CreateUserResult(users, data, now, hash, newId)
    ensures var (o, users') := RegisterResult(users, data, now, hash, newId);
      && (o.UserCreated? ==> UsersValid(users') && !o.user.isVerified
                             && o.user.subscriptionEndDate == Accounts.EndDate(now, data.subscriptionType))
      && (Acceptable(data.password) ==>
            (o == Accounts.EmailRegistered <==> exists i :: 0 <= i < |users| && users[i].email == data.email))
  {
    Accounts.CreateUserEffect(users, data, now, hash, newId);
  }

  // ---------------------------------------------------------------------------------------
  // verify_email and reset_password

  /** "Email verified successfully", "Email already verified", "Invalid verification token"
      (400), "User not found" (404), or a `KeyError` on a payload without `sub` (500). */
  datatype VerifyOutcome = Verified | AlreadyVerified | InvalidToken | UserNotFound | SubjectMissing

  /** `verify_email` here checks only the type before reading `payload["sub"]`. */
  function VerifyEmailResult(users: seq<User>, token: string, verifyToken: string -> Option<Accounts.Payload>)
    : (res: (VerifyOutcome, seq<User>))
  {
    match verifyToken(token)
    case None => (InvalidToken, users)
    case Some(p) =>
      if p.tokenType != Some("verification") then (InvalidToken, users)
      else if p.sub.None? then (SubjectMissing, users)
      else
        match FindByEmail(users, p.sub.value)
        case None => (UserNotFound, users)
        case Some(k) =>
          if users[k].isVerified then (AlreadyVerified, users)
          else (Verified, users[k := users[k].(isVerified := true)])
  }

  /** A bad payload is refused with 400 before the subject is read; verification only sets
      the flag of one user, keeps the table valid, and a second call changes nothing. */
  lemma VerifyEmailEffect(users: seq<User>, token: string, verifyToken: string -> Option<Accounts.Payload>)
    requires UsersValid(users)
    ensures var (o, users') := VerifyEmailResult(users, token, verifyToken);
      && ((verifyToken(token).None? || verifyToken(token).value.tokenType != Some("verification"))
          <==> o == InvalidToken)
      && (o != Verified ==> users' == users)
      && (o == Verified ==>
            && UsersValid(users')
            && var k := FindByEmail(users, verifyToken(token).value.sub.value).value;
               !users[k].isVerified && users' == users[k := users[k].(isVerified := true)])
      && VerifyEmailResult(users', token, verifyToken).1 == users'
  {
    var (o, users') := VerifyEmailResult(users, token, verifyToken);
    if o == Verified {
      var email := verifyToken(token).value.sub.value;
      var k := FindByEmail(users, email).value;
      ReplaceKeepsValid(users, k, users[k].(isVerified := true));
      FindByEmailReadsEmails(users, users', email);
    }
  }

  /** "Password has been reset successfully", a refused body (422), "Invalid reset token"
      (400), "User not found" (404), or a `KeyError` on a payload without `sub` (500). */
  datatype ResetOutcome = PasswordChanged | ResetInvalid(errors: seq<ResetError>)
                        | InvalidResetToken | ResetUserNotFound | ResetSubjectMissing

  /** `reset_password` here: the body is validated first, then the payload's type. */
  function ResetPasswordResult(users: seq<User>, token: string, newPassword: string, confirmPassword: string,
                               verifyToken: string -> Option<Accounts.Payload>, hash: string -> string)
    : (res: (ResetOutcome, seq<User>))
  {
    match ValidatePasswordReset(token, newPassword, confirmPassword)
    case Err(errors) => (ResetInvalid(errors), users)
    case Ok(_) =>
      match verifyToken(token)
      case None => (InvalidResetToken, users)
      case Some(p) =>
        if p.tokenType != Some("reset") then (InvalidResetToken, users)
        else if p.sub.None? then (ResetSubjectMissing, users)
        else
          match FindByEmail(users, p.sub.value)
          case None => (ResetUserNotFound, users)
          case Some(k) => (PasswordChanged, users[k := Accounts.ClearCredentials(users[k], hash(newPassword))])
  }

  /** A reset needs a valid body and a reset-type token; when it succeeds the token's user
      gets the new hash with the counter and the lock cleared, and nothing else changes. */
  lemma ResetPasswordEffect(users: seq<User>, token: string, newPassword: string, confirmPassword: string,
                            verifyToken: string -> Option<Accounts.Payload>, hash: string -> string)
    requires UsersValid(users)
    ensures var (o, users') := ResetPasswordResult(users, token, newPassword, confirmPassword, verifyToken, hash);
      && (o == PasswordChanged ==>
            && Acceptable(newPassword) && newPassword == confirmPassword
            && verifyToken(token).Some? && verifyToken(token).value.tokenType == Some("reset")
            && UsersValid(users')
            && var k := FindByEmail(users, verifyToken(token).value.sub.value).value;
               var u := users'[k];
               && users' == users[k := u]
               && u.password == hash(newPassword) && u.loginAttempts == 0 && u.lockedUntil.None?
               && u == users[k].(password := u.password, loginAttempts := 0, lockedUntil := None))
      && (o != PasswordChanged ==> users' == users)
  {
    var (o, users') := ResetPasswordResult(users, token, newPassword, confirmPassword, verifyToken, hash);
    ResetValidation(token, newPassword, confirmPassword);
    if o == PasswordChanged {
      var k := FindByEmail(users, verifyToken(token).value.sub.value).value;
      ReplaceKeepsValid(users, k, Accounts.ClearCredentials(users[k], hash(newPassword)));
    }
  }

  /** Where the two reset endpoints part: for a token that does not decode or lacks
      a subject, the top-level one answers 400 "Invalid or expired reset token" or "Invalid
      reset token", this one 400 or 500; on every other token they agree. */
  lemma ResetEndpointsAgree(users: seq<User>, token: string, pw: string, confirm: string,
                            decode: string -> Option<Accounts.Payload>, hash: string -> string)
    requires decode(token).Some? ==> Truthy(decode(token).value.sub)
    ensures var (o1, users1) := Accounts.ResetPasswordResult(users, token, pw, confirm, decode, hash);
            var (o2, users2) := ResetPasswordResult(users, token, pw, confirm, decode, hash);
      && users1 == users2
      && (o1 == Accounts.PasswordChanged <==> o2 == PasswordChanged)
      && (o1 == Accounts.ResetUserNotFound <==> o2 == ResetUserNotFound)
      && (o1.ResetInvalid? <==> o2.ResetInvalid?)
  {
  }

  // ---------------------------------------------------------------------------------------
  // The endpoints on the users table

  /** `register`: checked as `create_user` is, then the row is added. */
  method Register(table: Accounts.UserTable, data: Accounts.UserCreate, now: int, hash: string -> string, newId: string)
    returns (o: Accounts.CreateOutcome)
    requires table.Valid()
    modifies table
    ensures table.Valid()
    ensures (o, table.users) == RegisterResult(old(table.users), data, now, hash, newId)
  {
    RegisterIsCreateUser(table.users, data, now, hash, newId);
    o := table.CreateUser(data, now, hash, newId);
  }

  /** `verify_email` on the table. */
  method VerifyEmail(table: Accounts.UserTable, token: string, verifyToken: string -> Option<Accounts.Payload>)
    returns (o: VerifyOutcome)
    requires table.Valid()
    modifies table
    ensures table.Valid()
    ensures (o, table.users) == VerifyEmailResult(old(table.users), token, verifyToken)
  {
    VerifyEmailEffect(table.users, token, verifyToken);
    var payload := verifyToken(token);
    if payload.None? || payload.value.tokenType != Some("verification") {
      return InvalidToken;
    }
    if payload.value.sub.None? {
      return SubjectMissing;
    }
    var k := FindByEmail(table.users, payload.value.sub.value);
    if k.None? {
      return UserNotFound;
    }
    if table.users[k.value].isVerified {
      return AlreadyVerified;
    }
    table.users := table.users[k.value := table.users[k.value].(isVerified := true)];
    o := Verified;
  }

  /** `login`: the same rule as the top-level endpoint. */
  method Login(table: Accounts.UserTable, email: string, password: string, verify: (string, string) -> bool, now: int)
    returns (o: Accounts.LoginOutcome)
    requires table.Valid()
    modifies table
    ensures table.Valid()
    ensures (o, table.users) == Accounts.LoginResult(old(table.users), email, password, verify, now)
  {
    o := table.Login(email, password, verify, now);
  }

  /** `reset_password` on the table. */
  method ResetPassword(table: Accounts.UserTable, token: string, newPassword: string, confirmPassword: string,
                       verifyToken: string -> Option<Accounts.Payload>, hash: string -> string)
    returns (o: ResetOutcome)
    requires table.Valid()
    modifies table
    ensures table.Valid()
    ensures (o, table.users) == ResetPasswordResult(old(table.users), token, newPassword, confirmPassword, verifyToken, hash)
  {
    ResetPasswordEffect(table.users, token, newPassword, confirmPassword, verifyToken, hash);
    var body := ValidatePasswordReset(token, newPassword, confirmPassword);
    if body.Err? {
      return ResetInvalid(body.error);
    }
    var payload := verifyToken(token);
    if payload.None? || payload.value.tokenType != Some("reset") {
      return InvalidResetToken;
    }
    if payload.value.sub.None? {
      return ResetSubjectMissing;
    }
    var k := FindByEmail(table.users, payload.value.sub.value);
    if k.None? {
      return ResetUserNotFound;
    }
    var user := table.users[k.value];
    user := user.(password := hash(newPassword));
    user := user.(loginAttempts := 0);
    user := user.(lockedUntil := None);
    table.users := table.users[k.value := user];
    o := PasswordChanged;
  }
}
