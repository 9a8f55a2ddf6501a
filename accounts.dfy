/** The account endpoints of the document backend: registration (`create_user`), email
    verification, login with its lockout counter, password reset, `update_user` and the
    bearer-token check `get_current_user`. The `users` table is a `UserTable` whose methods
    change it step by step; each method is tied to a function of the old table that states
    the response and the new table.

    Times are Unix seconds (`now` stands for `datetime.utcnow()`). The JWT decoder, the
    bcrypt hash and its check are parameters: `decode(token)` is `None` when `jwt.decode`
    raises, `hash(p)` is the stored hash of `p`, `verify(p, h)` says whether `p` matches `h`. */
module Accounts {
  import opened Common
  import opened Models
  import opened UserSchemas

  const MaxLoginAttempts := 5
  const LockoutDurationMinutes := 30
  const AccessTokenExpireMinutes := 30
  const Minute := 60
  const Day := 86400

  /** The length of each subscription period, in days. */
  function PeriodDays(t: SubscriptionType): nat
  {
    match t
    case Monthly => 30
    case Quarterly => 90
    case Yearly => 365
  }

  /** `calculate_subscription_end_date` on the enum: 30, 90 or 365 days after the start. */
  function EndDate(start: int, t: SubscriptionType): (end: int)
    ensures end == start + 30 * Day <==> t == Monthly
    ensures end == start + 90 * Day <==> t == Quarterly
    ensures end == start + 365 * Day <==> t == Yearly
  {
    start + PeriodDays(t) * Day
  }

  /** A longer plan always ends later, and the end moves with the start. */
  lemma EndDateOrdered(start: int, shift: int, t: SubscriptionType)
    ensures EndDate(start, Monthly) < EndDate(start, Quarterly) < EndDate(start, Yearly)
    ensures EndDate(start + shift, t) == EndDate(start, t) + shift
    ensures start < EndDate(start, t)
  {
  }

  /** The claims of a decoded token that the endpoints read; `None` is a missing (or null) claim. */
  datatype Payload = Payload(sub: Option<string>, tokenType: Option<string>)

  // ---------------------------------------------------------------------------------------
  // get_current_user

  /** `get_current_user`: the user whose email is the token's `sub`, whatever the token's
      type; `None` stands for the 401 "Could not validate credentials". */
  function CurrentUser(users: seq<User>, token: string, decode: string -> Option<Payload>): (r: Option<User>)
    ensures r.Some? ==> decode(token).Some? && decode(token).value.sub == Some(r.value.email) && r.value in users
  {
    match decode(token)
    case None => None
    case Some(p) =>
      if p.sub.None? then None
      else
        match FindByEmail(users, p.sub.value)
        case None => None
        case Some(k) => Some(users[k])
  }

  /** The token's type is never looked at: a verification or reset token authenticates its
      subject just as an access token does. */
  lemma AnyTokenTypeAuthenticates(users: seq<User>, t1: string, t2: string, decode: string -> Option<Payload>)
    requires decode(t1).Some? && decode(t2).Some? && decode(t1).value.sub == decode(t2).value.sub
    ensures CurrentUser(users, t1, decode) == CurrentUser(users, t2, decode)
    ensures decode(t1).value.sub.Some? && (exists i :: 0 <= i < |users| && users[i].email == decode(t1).value.sub.value)
            ==> CurrentUser(users, t1, decode).Some?
  {
  }

  // ---------------------------------------------------------------------------------------
  // create_user

  /** The body of POST /users. */
  datatype UserCreate = UserCreate(name: string, companyName: string, email: string, password: string,
                                   contactInfo: Option<string>, plan: PlanType, subscriptionType: SubscriptionType)

  /** The created user (200), a refused password (422), "Email already registered" (400), or
      a clash of the generated id (500). */
  datatype CreateOutcome = UserCreated(user: User) | InvalidPassword(reason: PasswordError)
                         | EmailRegistered | CreateFailed

  /** `create_user`: the account is created unverified, its subscription starting now and
      ending one period later; `newId` is the generated id. The verification email is sent
      afterwards and its outcome changes nothing. */
  function CreateUserResult(users: seq<User>, data: UserCreate, now: int, hash: string -> string, newId: string)
    : (res: (CreateOutcome, seq<User>))
  {
    match ValidatePasswordComplexity(data.password)
    case Err(e) => (InvalidPassword(e), users)
    case Ok(_) =>
      if FindByEmail(users, data.email).Some? then (EmailRegistered, users)
      else if FindById(users, newId).Some? then (CreateFailed, users)
      else
        var u := NewUser(newId, data.name, data.companyName, data.email, hash(data.password), data.contactInfo,
                         data.plan, data.subscriptionType, now, EndDate(now, data.subscriptionType));
        (UserCreated(u), users + [u])
  }

  /** A created account is appended with the body's fields, the hashed password, the defaults
      of a new row and an end date one period after now; the table stays valid. An existing
      email is refused and nothing changes. */
  lemma CreateUserEffect(users: seq<User>, data: UserCreate, now: int, hash: string -> string, newId: string)
    requires UsersValid(users)
    ensures var (o, users') := CreateUserResult(users, data, now, hash, newId);
      && (o.UserCreated? ==>
            && users' == users + [o.user] && UsersValid(users')
            && o.user.id == newId && o.user.email == data.email && o.user.password == hash(data.password)
            && o.user.name == data.name && o.user.companyName == data.companyName
            && o.user.contactInfo == data.contactInfo && o.user.plan == data.plan
            && o.user.subscriptionType == data.subscriptionType
            && o.user.isActive == Some(true)
            && !o.user.isVerified && o.user.loginAttempts == 0 && o.user.lockedUntil.None?
            && o.user.subscriptionStartDate == now
            && o.user.subscriptionEndDate == EndDate(now, data.subscriptionType))
      && (!o.UserCreated? ==> users' == users)
      && (Acceptable(data.password) ==>
            (o == EmailRegistered <==> exists i :: 0 <= i < |users| && users[i].email == data.email))
  {
    var (o, users') := CreateUserResult(users, data, now, hash, newId);
    if Acceptable(data.password) && exists i :: 0 <= i < |users| && users[i].email == data.email {
      assert FindByEmail(users, data.email).Some?;
    }
  }

  /** A newly created account can log in with its password at any time up to its end date:
      it is active, unlocked and found by its email. */
  lemma CreateThenLogin(users: seq<User>, data: UserCreate, now: int, hash: string -> string, newId: string,
                        verify: (string, string) -> bool, t: int)
    requires UsersValid(users)
    requires forall p :: verify(p, hash(p))
    requires now <= t <= EndDate(now, data.subscriptionType)
    ensures var (o, users') := CreateUserResult(users, data, now, hash, newId);
      o.UserCreated? ==> LoginResult(users', data.email, data.password, verify, t).0.LoggedIn?
  {
    var (o, users') := CreateUserResult(users, data, now, hash, newId);
    if o.UserCreated? {
      CreateUserEffect(users, data, now, hash, newId);
      var k := |users|;
      assert users'[k] == o.user;
      assert FindByEmail(users', data.email) == Some(k);
      assert verify(data.password, o.user.password);
    }
  }

  // ---------------------------------------------------------------------------------------
  // verify_email

  /** "Email verified successfully", "Email already verified", "Invalid verification token"
      (400), "Invalid or expired verification token" (400), "User not found" (404). */
  datatype VerifyOutcome = Verified | AlreadyVerified | InvalidToken | InvalidOrExpired | UserNotFound

  /** `verify_email`: a decodable verification token naming a user marks that user verified. */
  function VerifyEmailResult(users: seq<User>, token: string, decode: string -> Option<Payload>)
    : (res: (VerifyOutcome, seq<User>))
  {
    match decode(token)
    case None => (InvalidOrExpired, users)
    case Some(p) =>
      if !Truthy(p.sub) || p.tokenType != Some("verification") then (InvalidToken, users)
      else
        match FindByEmail(users, p.sub.value)
        case None => (UserNotFound, users)
        case Some(k) =>
          if users[k].isVerified then (AlreadyVerified, users)
          else (Verified, users[k := users[k].(isVerified := true)])
  }

  /** Verification only ever sets the flag of the token's user, and verifying twice leaves
      the table as verifying once did. */
  lemma VerifyEmailIdempotent(users: seq<User>, token: string, decode: string -> Option<Payload>)
    ensures var (o, users') := VerifyEmailResult(users, token, decode);
      && |users'| == |users|
      && (forall i :: 0 <= i < |users| ==> users'[i] == users[i] || users'[i] == users[i].(isVerified := true))
      && (o != Verified ==> users' == users)
      && var (o2, users'') := VerifyEmailResult(users', token, decode);
         && users'' == users'
         && (o == Verified || o == AlreadyVerified ==> o2 == AlreadyVerified)
  {
    var (o, users') := VerifyEmailResult(users, token, decode);
    if o == Verified {
      var p := decode(token).value;
      var k := FindByEmail(users, p.sub.value).value;
      assert users'[k].email == p.sub.value;
      FindByEmailReadsEmails(users, users', p.sub.value);
    }
  }

  /** A wrong token type is refused even when its subject is a real, unverified user. */
  lemma VerificationNeedsVerificationType(users: seq<User>, token: string, decode: string -> Option<Payload>)
    requires decode(token).Some? && decode(token).value.tokenType != Some("verification")
    ensures VerifyEmailResult(users, token, decode) == (InvalidToken, users)
  {
  }

  // ---------------------------------------------------------------------------------------
  // login

  /** "Account is locked … in N minutes" (403), "Incorrect email or password" (401),
      "Subscription has expired" (403), or an access token for `subject` (200). */
  datatype LoginOutcome = Locked(minutes: int) | BadCredentials | SubscriptionExpired
                        | LoggedIn(subject: string, expiresIn: int)

  function LoginStatus(o: LoginOutcome): int
  {
    match o
    case Locked(_) => 403
    case BadCredentials => 401
    case SubscriptionExpired => 403
    case LoggedIn(_, _) => 200
  }

  /** `locked_until > utcnow()`, strictly. */
  predicate IsLocked(u: User, now: int)
  {
    u.lockedUntil.Some? && u.lockedUntil.value > now
  }

  /** One login attempt on an existing user: the response and the user's new row. */
  function LoginStep(u: User, passwordOk: bool, now: int): (res: (LoginOutcome, User))
  {
    if IsLocked(u, now) then (Locked((u.lockedUntil.value - now) / Minute), u)
    else if !passwordOk then
      var attempts := u.loginAttempts + 1;
      (BadCredentials, u.(loginAttempts := attempts,
                          lockedUntil := if attempts >= MaxLoginAttempts then Some(now + LockoutDurationMinutes * Minute)
                                         else u.lockedUntil))
    else
      var reset := u.(loginAttempts := 0, lockedUntil := None);
      if reset.isActive != Some(true) || now > reset.subscriptionEndDate then (SubscriptionExpired, reset)
      else (LoggedIn(reset.email, AccessTokenExpireMinutes * 60), reset)
  }

  /** `login`: an unknown email is refused without any change; the password is checked only
      for an existing, unlocked user. */
  function LoginResult(users: seq<User>, email: string, password: string, verify: (string, string) -> bool, now: int)
    : (res: (LoginOutcome, seq<User>))
  {
    match FindByEmail(users, email)
    case None => (BadCredentials, users)
    case Some(k) =>
      if IsLocked(users[k], now) then (Locked((users[k].lockedUntil.value - now) / Minute), users)
      else
        var (o, u) := LoginStep(users[k], verify(password, users[k].password), now);
        (o, users[k := u])
  }

  /** A locked account is refused with the whole minutes left, before the password is
      looked at, and nothing changes. */
  lemma LockedRejectsBeforePassword(u: User, ok: bool, now: int)
    requires IsLocked(u, now)
    ensures LoginStep(u, ok, now) == LoginStep(u, !ok, now) == (Locked((u.lockedUntil.value - now) / 60), u)
    ensures LoginStep(u, ok, now).0.minutes >= 0
  {
  }

  /** A wrong password on an unlocked account counts one attempt and, from the fifth on,
      locks the account for 30 minutes from now; no other column changes. */
  lemma FailedAttemptCounts(u: User, now: int)
    requires !IsLocked(u, now)
    ensures var (o, u') := LoginStep(u, false, now);
      && o == BadCredentials
      && u'.loginAttempts == u.loginAttempts + 1
      && u'.lockedUntil == (if u.loginAttempts + 1 >= 5 then Some(now + 1800) else u.lockedUntil)
      && u' == u.(loginAttempts := u'.loginAttempts, lockedUntil := u'.lockedUntil)
  {
  }

  /** A correct password on an unlocked account clears the counter and the lock before the
      subscription is checked, so an inactive or expired account is refused with its
      counters cleared; otherwise a 30-minute token is issued for the user's email. */
  lemma SuccessResets(u: User, now: int)
    requires !IsLocked(u, now)
    ensures var (o, u') := LoginStep(u, true, now);
      && u' == u.(loginAttempts := 0, lockedUntil := None)
      && (o == SubscriptionExpired <==> u.isActive != Some(true) || now > u.subscriptionEndDate)
      && (o != SubscriptionExpired ==> o == LoggedIn(u.email, 1800))
  {
  }

  /** Consecutive wrong-password attempts at the given times. */
  function Failures(u: User, times: seq<int>): (res: (seq<LoginOutcome>, User))
    ensures |res.0| == |times|
  {
    if |times| == 0 then ([], u)
    else
      var (os, v) := Failures(u, times[..|times| - 1]);
      var (o, w) := LoginStep(v, false, times[|times| - 1]);
      (os + [o], w)
  }

  /** Starting unlocked, as long as at most five attempts have been counted every attempt is
      answered 401, and the lock appears exactly with the fifth. */
  lemma {:induction false} FailuresCount(u: User, times: seq<int>)
    requires u.lockedUntil.None? && u.loginAttempts + |times| <= MaxLoginAttempts
    ensures var (os, v) := Failures(u, times);
      && (forall i :: 0 <= i < |os| ==> os[i] == BadCredentials)
      && v == u.(loginAttempts := u.loginAttempts + |times|,
                 lockedUntil := if |times| > 0 && u.loginAttempts + |times| == MaxLoginAttempts
                                then Some(times[|times| - 1] + 1800) else None)
  {
    if |times| > 0 {
      var prefix := times[..|times| - 1];
      FailuresCount(u, prefix);
      var (os, v) := Failures(u, prefix);
      assert v.lockedUntil.None? && v.loginAttempts == u.loginAttempts + |times| - 1;
      var (o, w) := LoginStep(v, false, times[|times| - 1]);
      assert o == BadCredentials;
      assert Failures(u, times) == (os + [o], w);
    }
  }

  /** Five wrong passwords in a row on a fresh account lock it for 30 minutes from the fifth. */
  lemma FiveFailuresLock(u: User, times: seq<int>)
    requires u.lockedUntil.None? && u.loginAttempts == 0 && |times| == 5
    ensures Failures(u, times).1.lockedUntil == Some(times[4] + 1800)
    ensures Failures(u, times).1.loginAttempts == 5
  {
    FailuresCount(u, times);
  }

  /** The counter is not reset when the lock is set: once the lock has run out, the next wrong
      password locks the account again at once. */
  lemma RelockAfterExpiry(u: User, now: int)
    requires u.loginAttempts >= MaxLoginAttempts && u.lockedUntil.Some? && u.lockedUntil.value <= now
    ensures LoginStep(u, false, now) ==
            (BadCredentials, u.(loginAttempts := u.loginAttempts + 1, lockedUntil := Some(now + 1800)))
  {
  }

  /** Login changes at most the row of the email it names, never its key or email, so the
      table stays valid; an unknown email changes nothing. */
  lemma LoginKeepsTable(users: seq<User>, email: string, password: string, verify: (string, string) -> bool, now: int)
    requires UsersValid(users)
    ensures var (o, users') := LoginResult(users, email, password, verify, now);
      && UsersValid(users') && |users'| == |users|
      && (forall i :: 0 <= i < |users| && users[i].email != email ==> users'[i] == users[i])
      && ((forall i :: 0 <= i < |users| ==> users[i].email != email) ==> o == BadCredentials && users' == users)
  {
    match FindByEmail(users, email)
    case None =>
    case Some(k) =>
      var (o, u) := LoginStep(users[k], verify(password, users[k].password), now);
      ReplaceKeepsValid(users, k, u);
  }

  // ---------------------------------------------------------------------------------------
  // reset_password

  /** "Password has been reset successfully", a refused body (422), "Invalid reset token"
      (400), "Invalid or expired reset token" (400), or "User not found" (404). */
  datatype ResetOutcome = PasswordChanged | ResetInvalid(errors: seq<ResetError>)
                        | InvalidResetToken | ExpiredResetToken | ResetUserNotFound

  /** `reset_password` (main.py): the body is validated first; a decodable reset token naming
      a user sets the new hash and clears the counter and the lock. The confirmation email's
      outcome changes nothing. */
  function ResetPasswordResult(users: seq<User>, token: string, newPassword: string, confirmPassword: string,
                         decode: string -> Option<Payload>, hash: string -> string)
    : (res: (ResetOutcome, seq<User>))
  {
    match ValidatePasswordReset(token, newPassword, confirmPassword)
    case Err(errors) => (ResetInvalid(errors), users)
    case Ok(_) =>
      match decode(token)
      case None => (ExpiredResetToken, users)
      case Some(p) =>
        if !Truthy(p.sub) || p.tokenType != Some("reset") then (InvalidResetToken, users)
        else
          match FindByEmail(users, p.sub.value)
          case None => (ResetUserNotFound, users)
          case Some(k) => (PasswordChanged, users[k := ClearCredentials(users[k], hash(newPassword))])
  }

  /** The new password hash, with the failed-attempt counter and the lock cleared: the user
      is unlocked at every time, and putting the three old columns back gives the old row,
      so no other column changes. */
  function ClearCredentials(u: User, hashed: string): (u': User)
    ensures u'.password == hashed && u'.loginAttempts == 0
    ensures forall now :: !IsLocked(u', now)
    ensures u'.(password := u.password, loginAttempts := u.loginAttempts, lockedUntil := u.lockedUntil) == u
  {
    u.(password := hashed, loginAttempts := 0, lockedUntil := None)
  }

  /** A reset that succeeds leaves the user unlocked with the new hash, and the next login
      with the new password is not refused as locked or for the password. */
  lemma ResetThenLogin(users: seq<User>, token: string, pw: string, decode: string -> Option<Payload>,
                       hash: string -> string, verify: (string, string) -> bool, now: int)
    requires UsersValid(users)
    requires forall p :: verify(p, hash(p))
    ensures var (o, users') := ResetPasswordResult(users, token, pw, pw, decode, hash);
      o == PasswordChanged ==>
        && UsersValid(users')
        && var email := decode(token).value.sub.value;
           var (o2, _) := LoginResult(users', email, pw, verify, now);
           o2 == SubscriptionExpired || o2.LoggedIn?
  {
    var (o, users') := ResetPasswordResult(users, token, pw, pw, decode, hash);
    if o == PasswordChanged {
      var email := decode(token).value.sub.value;
      var k := FindByEmail(users, email).value;
      var u := ClearCredentials(users[k], hash(pw));
      assert users' == users[k := u];
      ReplaceKeepsValid(users, k, u);
      FindByEmailReadsEmails(users, users', email);
      assert FindByEmail(users', email) == Some(k) && users'[k] == u;
      assert !IsLocked(u, now) && verify(pw, u.password);
    }
  }

  /** A body that fails validation is refused before the token is decoded. */
  lemma ResetValidatesFirst(users: seq<User>, token: string, newPassword: string, confirmPassword: string,
                            decode: string -> Option<Payload>, hash: string -> string)
    requires !Acceptable(newPassword) || newPassword != confirmPassword
    ensures ResetPasswordResult(users, token, newPassword, confirmPassword, decode, hash).0.ResetInvalid?
    ensures ResetPasswordResult(users, token, newPassword, confirmPassword, decode, hash).1 == users
  {
    ResetValidation(token, newPassword, confirmPassword);
  }

  // ---------------------------------------------------------------------------------------
  // update_user

  /** The ORM object while the sent fields are written into it: the row so far, and whether
      a None has been written into a non-null column (which makes the commit fail). */
  datatype Patching = Patching(user: User, writable: bool)

  /** `setattr(db_user, field, value)`, with the end date recomputed from the stored start
      when a subscription type is written. */
  function Assign(s: Patching, a: Assignment): Patching
  {
    var u := s.user;
    match a
    case SetName(v) => if v.Some? then s.(user := u.(name := v.value)) else s.(writable := false)
    case SetCompanyName(v) => if v.Some? then s.(user := u.(companyName := v.value)) else s.(writable := false)
    case SetEmail(v) => if v.Some? then s.(user := u.(email := v.value)) else s.(writable := false)
    case SetContactInfo(v) => s.(user := u.(contactInfo := v))
    case SetPlan(v) => if v.Some? then s.(user := u.(plan := v.value)) else s.(writable := false)
    case SetSubscriptionType(v) =>
      if v.Some? then s.(user := u.(subscriptionType := v.value,
                                    subscriptionEndDate := EndDate(u.subscriptionStartDate, v.value)))
      else s.(writable := false)
    case SetIsActive(v) => s.(user := u.(isActive := v))
  }

  /** One write changes only the column it names (and, for the subscription type, the end
      date). */
  lemma AssignFrame(s: Patching, a: Assignment)
    ensures var u, u' := s.user, Assign(s, a).user;
      && u'.id == u.id && u'.password == u.password && u'.subscriptionStartDate == u.subscriptionStartDate
      && u'.isVerified == u.isVerified && u'.loginAttempts == u.loginAttempts && u'.lockedUntil == u.lockedUntil
      && (!a.SetName? ==> u'.name == u.name)
      && (!a.SetCompanyName? ==> u'.companyName == u.companyName)
      && (!a.SetEmail? ==> u'.email == u.email)
      && (!a.SetContactInfo? ==> u'.contactInfo == u.contactInfo)
      && (!a.SetPlan? ==> u'.plan == u.plan)
      && (!a.SetSubscriptionType? ==>
            u'.subscriptionType == u.subscriptionType && u'.subscriptionEndDate == u.subscriptionEndDate)
      && (!a.SetIsActive? ==> u'.isActive == u.isActive)
      && (!s.writable ==> !Assign(s, a).writable)
  {
  }

  /** The assignments applied in order. */
  function AssignAll(s: Patching, assignments: seq<Assignment>): Patching
  {
    if |assignments| == 0 then s
    else Assign(AssignAll(s, assignments[..|assignments| - 1]), assignments[|assignments| - 1])
  }

  /** The row `user_id`, patched (200), "User not found" (404), or a failed commit (500). */
  datatype UpdateOutcome = UserUpdated(user: User) | UpdateUserNotFound | UpdateFailed

  /** The HTTP status of an update. A stored `is_active` of None does not fit the response
      model's `bool`, so that update is committed and still answered 500. */
  function UpdateStatus(o: UpdateOutcome): (status: int)
    ensures status == 200 <==> o.UserUpdated? && o.user.isActive.Some?
  {
    match o
    case UserUpdated(u) => if u.isActive.Some? then 200 else 500
    case UpdateUserNotFound => 404
    case UpdateFailed => 500
  }

  /** `update_user`: the sent fields are written in declaration order; the commit fails, and
      nothing is stored, if a None went into a non-null column or the new email is taken. */
  function UpdateUserResult(users: seq<User>, userId: string, update: UserUpdate): (res: (UpdateOutcome, seq<User>))
  {
    match FindById(users, userId)
    case None => (UpdateUserNotFound, users)
    case Some(k) =>
      var s := Patched(users[k], update);
      if !s.writable then (UpdateFailed, users)
      else if exists i :: 0 <= i < |users| && i != k && users[i].email == s.user.email then (UpdateFailed, users)
      else (UserUpdated(s.user), users[k := s.user])
  }

  /** Writing the assignments never touches the key, the password, the start date, the
      verification flag or the login counters, and a column is changed only by an assignment
      to it. */
  lemma {:induction false} AssignAllFrame(s: Patching, assignments: seq<Assignment>)
    ensures var u, u' := s.user, AssignAll(s, assignments).user;
      && u'.id == u.id && u'.password == u.password && u'.subscriptionStartDate == u.subscriptionStartDate
      && u'.isVerified == u.isVerified && u'.loginAttempts == u.loginAttempts && u'.lockedUntil == u.lockedUntil
      && ((forall a :: a in assignments ==> !a.SetName?) ==> u'.name == u.name)
      && ((forall a :: a in assignments ==> !a.SetCompanyName?) ==> u'.companyName == u.companyName)
      && ((forall a :: a in assignments ==> !a.SetEmail?) ==> u'.email == u.email)
      && ((forall a :: a in assignments ==> !a.SetContactInfo?) ==> u'.contactInfo == u.contactInfo)
      && ((forall a :: a in assignments ==> !a.SetPlan?) ==> u'.plan == u.plan)
      && ((forall a :: a in assignments ==> !a.SetSubscriptionType?) ==>
            u'.subscriptionType == u.subscriptionType && u'.subscriptionEndDate == u.subscriptionEndDate)
      && ((forall a :: a in assignments ==> !a.SetIsActive?) ==> u'.isActive == u.isActive)
      && (!s.writable ==> !AssignAll(s, assignments).writable)
  {
    if |assignments| > 0 {
      var prefix := assignments[..|assignments| - 1];
      AssignAllFrame(s, prefix);
      AssignFrame(AssignAll(s, prefix), assignments[|assignments| - 1]);
      assert forall a :: a in prefix ==> a in assignments;
    }
  }

  /** When a subscription type is written, the end date is recomputed from the stored start,
      and it is the only write to those two columns. */
  lemma {:induction false} AssignAllSubscriptionType(s: Patching, assignments: seq<Assignment>, t: SubscriptionType)
    requires Increasing(assignments) && SetSubscriptionType(Some(t)) in assignments
    ensures AssignAll(s, assignments).user.subscriptionType == t
    ensures AssignAll(s, assignments).user.subscriptionEndDate == EndDate(s.user.subscriptionStartDate, t)
  {
    var n := |assignments|;
    var prefix := assignments[..n - 1];
    var last := assignments[n - 1];
    AssignAllKeepsStart(s, prefix);
    if last != SetSubscriptionType(Some(t)) {
      var i :| 0 <= i < n && assignments[i] == SetSubscriptionType(Some(t));
      assert i < n - 1 && FieldIndex(assignments[i]) < FieldIndex(last);
      assert prefix[i] == assignments[i];
      assert Increasing(prefix) by {
        forall i, j | 0 <= i < j < |prefix| ensures FieldIndex(prefix[i]) < FieldIndex(prefix[j]) {
          assert prefix[i] == assignments[i] && prefix[j] == assignments[j];
        }
      }
      AssignAllSubscriptionType(s, prefix, t);
      AssignFrame(AssignAll(s, prefix), last);
    }
  }

  /** No write touches the start date. */
  lemma {:induction false} AssignAllKeepsStart(s: Patching, assignments: seq<Assignment>)
    ensures AssignAll(s, assignments).user.subscriptionStartDate == s.user.subscriptionStartDate
  {
    if |assignments| > 0 {
      AssignAllKeepsStart(s, assignments[..|assignments| - 1]);
    }
  }

  /** A written None into a non-null column is never undone by a later write. */
  lemma {:induction false} AssignAllNull(s: Patching, assignments: seq<Assignment>, a: Assignment)
    requires a in assignments
    requires a in {SetName(None), SetCompanyName(None), SetEmail(None), SetPlan(None), SetSubscriptionType(None)}
    ensures !AssignAll(s, assignments).writable
  {
    var n := |assignments|;
    var prefix := assignments[..n - 1];
    if assignments[n - 1] != a {
      assert a in prefix;
      AssignAllNull(s, prefix, a);
      AssignFrame(AssignAll(s, prefix), assignments[n - 1]);
    }
  }

  /** The `setattr` loop of `update_user`. */
  method WriteFields(u: User, assignments: seq<Assignment>) returns (s: Patching)
    ensures s == AssignAll(Patching(u, true), assignments)
  {
    s := Patching(u, true);
    var i := 0;
    while i < |assignments|
      invariant 0 <= i <= |assignments|
      invariant s == AssignAll(Patching(u, true), assignments[..i])
    {
      assert assignments[..i + 1][..i] == assignments[..i];
      s := Assign(s, assignments[i]);
      i := i + 1;
    }
    assert assignments[..i] == assignments;
  }

  /** Whether another row than `k` already has the email (the unique constraint the commit
      enforces). */
  method EmailTakenElsewhere(users: seq<User>, k: nat, email: string) returns (taken: bool)
    ensures taken <==> exists i :: 0 <= i < |users| && i != k && users[i].email == email
  {
    var j := 0;
    while j < |users|
      invariant 0 <= j <= |users|
      invariant forall m :: 0 <= m < j && m != k ==> users[m].email != email
    {
      if j != k && users[j].email == email {
        return true;
      }
      j := j + 1;
    }
    return false;
  }

  /** The row with the sent fields written into it. */
  function Patched(u: User, update: UserUpdate): Patching
  {
    AssignAll(Patching(u, true), ExcludeUnset(update))
  }

  /** Patching a row never changes its key, password, start date, verification flag or
      login counters, and leaves every field not sent as it was. */
  lemma PatchedFrame(u: User, update: UserUpdate)
    ensures var u' := Patched(u, update).user;
      && u'.id == u.id && u'.password == u.password && u'.subscriptionStartDate == u.subscriptionStartDate
      && u'.isVerified == u.isVerified && u'.loginAttempts == u.loginAttempts && u'.lockedUntil == u.lockedUntil
      && (update.name.Unset? ==> u'.name == u.name)
      && (update.companyName.Unset? ==> u'.companyName == u.companyName)
      && (update.email.Unset? ==> u'.email == u.email)
      && (update.contactInfo.Unset? ==> u'.contactInfo == u.contactInfo)
      && (update.plan.Unset? ==> u'.plan == u.plan)
      && (update.isActive.Unset? ==> u'.isActive == u.isActive)
      && (update.subscriptionType.Unset? ==>
            u'.subscriptionType == u.subscriptionType && u'.subscriptionEndDate == u.subscriptionEndDate)
  {
    AssignAllFrame(Patching(u, true), ExcludeUnset(update));
    UnsetNotWritten(update);
  }

  /** A field that was not sent has no assignment in `exclude_unset`. */
  lemma UnsetNotWritten(update: UserUpdate)
    ensures update.name.Unset? ==> forall a :: a in ExcludeUnset(update) ==> !a.SetName?
    ensures update.companyName.Unset? ==> forall a :: a in ExcludeUnset(update) ==> !a.SetCompanyName?
    ensures update.email.Unset? ==> forall a :: a in ExcludeUnset(update) ==> !a.SetEmail?
    ensures update.contactInfo.Unset? ==> forall a :: a in ExcludeUnset(update) ==> !a.SetContactInfo?
    ensures update.plan.Unset? ==> forall a :: a in ExcludeUnset(update) ==> !a.SetPlan?
    ensures update.subscriptionType.Unset? ==> forall a :: a in ExcludeUnset(update) ==> !a.SetSubscriptionType?
    ensures update.isActive.Unset? ==> forall a :: a in ExcludeUnset(update) ==> !a.SetIsActive?
  {
    forall a | a in ExcludeUnset(update) ensures Matches(update, a) { }
  }

  /** Patching keeps the row's key. */
  lemma PatchedKeepsId(u: User, update: UserUpdate)
    ensures Patched(u, update).user.id == u.id
  {
    AssignAllFrame(Patching(u, true), ExcludeUnset(update));
  }

  /** A None sent for a column that may not be null makes the row unwritable. */
  lemma PatchedNull(u: User, update: UserUpdate)
    requires update.name == Sent(None) || update.companyName == Sent(None) || update.email == Sent(None)
             || update.plan == Sent(None) || update.subscriptionType == Sent(None)
    ensures !Patched(u, update).writable
  {
    var assignments := ExcludeUnset(update);
    var s0 := Patching(u, true);
    if update.name == Sent(None) { AssignAllNull(s0, assignments, SetName(None)); }
    else if update.companyName == Sent(None) { AssignAllNull(s0, assignments, SetCompanyName(None)); }
    else if update.email == Sent(None) { AssignAllNull(s0, assignments, SetEmail(None)); }
    else if update.plan == Sent(None) { AssignAllNull(s0, assignments, SetPlan(None)); }
    else { AssignAllNull(s0, assignments, SetSubscriptionType(None)); }
  }

  /** A sent subscription type is stored with the end date computed from the stored start. */
  lemma PatchedSubscriptionType(u: User, update: UserUpdate, t: SubscriptionType)
    requires update.subscriptionType == Sent(Some(t))
    ensures Patched(u, update).user.subscriptionType == t
    ensures Patched(u, update).user.subscriptionEndDate == EndDate(u.subscriptionStartDate, t)
  {
    AssignAllSubscriptionType(Patching(u, true), ExcludeUnset(update), t);
  }

  /** `update_user` refuses without any change an unknown id and a None sent for a column
      that may not be null. */
  lemma UpdateUserRejections(users: seq<User>, userId: string, update: UserUpdate)
    ensures var (o, users') := UpdateUserResult(users, userId, update);
      && (!o.UserUpdated? ==> users' == users)
      && (o == UpdateUserNotFound <==> forall i :: 0 <= i < |users| ==> users[i].id != userId)
      && (update.name == Sent(None) || update.companyName == Sent(None) || update.email == Sent(None)
          || update.plan == Sent(None) || update.subscriptionType == Sent(None)
          ==> o == UpdateFailed || o == UpdateUserNotFound)
  {
    match FindById(users, userId)
    case None =>
    case Some(k) =>
      if update.name == Sent(None) || update.companyName == Sent(None) || update.email == Sent(None)
         || update.plan == Sent(None) || update.subscriptionType == Sent(None) {
        PatchedNull(users[k], update);
      }
  }

  /** A successful `update_user` writes back the one row, keeps the table valid, leaves the
      fields not sent as they were, and recomputes the end date from the stored start when a
      subscription type is sent. */
  lemma UpdateUserWrites(users: seq<User>, userId: string, update: UserUpdate)
    requires UsersValid(users)
    ensures var (o, users') := UpdateUserResult(users, userId, update);
      o.UserUpdated? ==>
        && UsersValid(users')
        && var k := FindById(users, userId).value;
           var u, u' := users[k], o.user;
           && users' == users[k := u']
           && u'.id == u.id == userId && u'.password == u.password && u'.isVerified == u.isVerified
           && u'.loginAttempts == u.loginAttempts && u'.lockedUntil == u.lockedUntil
           && (update.name.Unset? ==> u'.name == u.name)
           && (update.companyName.Unset? ==> u'.companyName == u.companyName)
           && (update.email.Unset? ==> u'.email == u.email)
           && (update.contactInfo.Unset? ==> u'.contactInfo == u.contactInfo)
           && (update.plan.Unset? ==> u'.plan == u.plan)
           && (update.isActive.Unset? ==> u'.isActive == u.isActive)
           && (update.subscriptionType.Unset? ==>
                 u'.subscriptionType == u.subscriptionType && u'.subscriptionEndDate == u.subscriptionEndDate)
           && (forall t :: update.subscriptionType == Sent(Some(t)) ==>
                 u'.subscriptionType == t && u'.subscriptionEndDate == EndDate(u.subscriptionStartDate, t))
  {
    match FindById(users, userId)
    case None =>
    case Some(k) =>
      PatchedFrame(users[k], update);
      forall t | update.subscriptionType == Sent(Some(t))
        ensures Patched(users[k], update).user.subscriptionType == t
        ensures Patched(users[k], update).user.subscriptionEndDate == EndDate(users[k].subscriptionStartDate, t)
      {
        PatchedSubscriptionType(users[k], update, t);
      }
      var s := Patched(users[k], update);
      if s.writable && !(exists i :: 0 <= i < |users| && i != k && users[i].email == s.user.email) {
        ReplaceKeepsValid(users, k, s.user);
      }
  }

  // ---------------------------------------------------------------------------------------
  // The users table

  /** The `users` table as the endpoints change it. */
  class UserTable {
    var users: seq<User>

    ghost predicate Valid()
      reads this
    {
      UsersValid(users)
    }

    constructor ()
      ensures Valid() && users == []
    {
      users := [];
    }

    method CreateUser(data: UserCreate, now: int, hash: string -> string, newId: string)
      returns (o: CreateOutcome)
      requires Valid()
      modifies this
      ensures Valid()
      ensures (o, users) == CreateUserResult(old(users), data, now, hash, newId)
    {
      CreateUserEffect(users, data, now, hash, newId);
      var checked := ValidatePasswordComplexity(data.password);
      if checked.Err? {
        return InvalidPassword(checked.error);
      }
      if FindByEmail(users, data.email).Some? {
        return EmailRegistered;
      }
      var start := now;
      var end := EndDate(start, data.subscriptionType);
      var user := NewUser(newId, data.name, data.companyName, data.email, hash(data.password), data.contactInfo,
                          data.plan, data.subscriptionType, start, end);
      if FindById(users, newId).Some? {
        return CreateFailed;
      }
      users := users + [user];
      o := UserCreated(user);
    }

    method VerifyEmail(token: string, decode: string -> Option<Payload>) returns (o: VerifyOutcome)
      requires Valid()
      modifies this
      ensures Valid()
      ensures (o, users) == VerifyEmailResult(old(users), token, decode)
    {
      var payload := decode(token);
      if payload.None? {
        return InvalidOrExpired;
      }
      var email, tokenType := payload.value.sub, payload.value.tokenType;
      if !Truthy(email) || tokenType != Some("verification") {
        return InvalidToken;
      }
      var k := FindByEmail(users, email.value);
      if k.None? {
        return UserNotFound;
      }
      if users[k.value].isVerified {
        return AlreadyVerified;
      }
      ReplaceKeepsValid(users, k.value, users[k.value].(isVerified := true));
      users := users[k.value := users[k.value].(isVerified := true)];
      o := Verified;
    }

    method Login(email: string, password: string, verify: (string, string) -> bool, now: int)
      returns (o: LoginOutcome)
      requires Valid()
      modifies this
      ensures Valid()
      ensures (o, users) == LoginResult(old(users), email, password, verify, now)
    {
      LoginKeepsTable(users, email, password, verify, now);
      var k := FindByEmail(users, email);
      if k.Some? && users[k.value].lockedUntil.Some? && users[k.value].lockedUntil.value > now {
        var remaining := (users[k.value].lockedUntil.value - now) / Minute;
        return Locked(remaining);
      }
      if k.None? {
        return BadCredentials;
      }
      var user := users[k.value];
      if !verify(password, user.password) {
        user := user.(loginAttempts := user.loginAttempts + 1);
        if user.loginAttempts >= MaxLoginAttempts {
          user := user.(lockedUntil := Some(now + LockoutDurationMinutes * Minute));
        }
        users := users[k.value := user];
        return BadCredentials;
      }
      user := user.(loginAttempts := 0);
      user := user.(lockedUntil := None);
      users := users[k.value := user];
      if user.isActive != Some(true) || now > user.subscriptionEndDate {
        return SubscriptionExpired;
      }
      o := LoggedIn(user.email, AccessTokenExpireMinutes * 60);
    }

    method ResetPassword(token: string, newPassword: string, confirmPassword: string,
                         decode: string -> Option<Payload>, hash: string -> string)
      returns (o: ResetOutcome)
      requires Valid()
      modifies this
      ensures Valid()
      ensures (o, users) == ResetPasswordResult(old(users), token, newPassword, confirmPassword, decode, hash)
    {
      var body := ValidatePasswordReset(token, newPassword, confirmPassword);
      if body.Err? {
        return ResetInvalid(body.error);
      }
      var payload := decode(token);
      if payload.None? {
        return ExpiredResetToken;
      }
      var email, tokenType := payload.value.sub, payload.value.tokenType;
      if !Truthy(email) || tokenType != Some("reset") {
        return InvalidResetToken;
      }
      var k := FindByEmail(users, email.value);
      if k.None? {
        return ResetUserNotFound;
      }
      var user := ClearCredentials(users[k.value], hash(newPassword));
      ReplaceKeepsValid(users, k.value, user);
      users := users[k.value := user];
      o := PasswordChanged;
    }

    /** `update_user`, writing the sent fields one by one as its loop does. */
    method UpdateUser(userId: string, update: UserUpdate) returns (o: UpdateOutcome)
      requires Valid()
      modifies this
      ensures Valid()
      ensures (o, users) == UpdateUserResult(old(users), userId, update)
    {
      var k := FindById(users, userId);
      if k.None? {
        return UpdateUserNotFound;
      }
      var s := WriteFields(users[k.value], ExcludeUnset(update));
      if !s.writable {
        return UpdateFailed;
      }
      var taken := EmailTakenElsewhere(users, k.value, s.user.email);
      if taken {
        return UpdateFailed;
      }
      PatchedKeepsId(old(users)[k.value], update);
      ReplaceKeepsValid(users, k.value, s.user);
      users := users[k.value := s.user];
      o := UserUpdated(s.user);
    }
  }
}
