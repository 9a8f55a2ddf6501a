/** The request schemas of the user API: the password-complexity validator shared by
    `UserCreate.password` and `PasswordReset.new_password`, the confirm-password check, and
    the all-optional `UserUpdate` with the fields a client actually sent. Character classes
    are ASCII. */
module UserSchemas {
  import opened Common
  import opened Text
  import opened Models

  /** The characters of the class `[!@#$%^&*(),.?":{}|<>]`. */
  const SpecialChars: set<char> :=
    {'!', '@', '#', '$', '%', '^', '&', '*', '(', ')', ',', '.', '?', '"', ':', '{', '}', '|', '<', '>'}

  /** The character classes the validator searches for. */
  datatype CharClass = Upper | Lower | Digit | Special

  predicate InClass(c: char, k: CharClass)
  {
    match k
    case Upper => IsUpper(c)
    case Lower => IsLower(c)
    case Digit => IsDigit(c)
    case Special => c in SpecialChars
  }

  /** `re.search(class, v)` is not None. */
  function Search(v: string, k: CharClass): (found: bool)
    ensures found <==> exists i :: 0 <= i < |v| && InClass(v[i], k)
  {
    if |v| == 0 then false
    else if InClass(v[0], k) then true
    else
      var rest := Search(v[1..], k);
      assert forall i :: 0 < i < |v| ==> v[i] == v[1..][i - 1];
      rest
  }

  /** The reasons a password is refused, each with its message. */
  datatype PasswordError = TooShort | NoUppercase | NoLowercase | NoDigit | NoSpecial

  function Message(e: PasswordError): string
  {
    match e
    case TooShort => "Password must be at least 8 characters long"
    case NoUppercase => "Password must contain at least one uppercase letter"
    case NoLowercase => "Password must contain at least one lowercase letter"
    case NoDigit => "Password must contain at least one number"
    case NoSpecial => "Password must contain at least one special character"
  }

  /** The password policy stated on its own: at least 8 characters, with an upper-case
      letter, a lower-case letter, a digit and a special character somewhere. */
  ghost predicate Acceptable(v: string)
  {
    && |v| >= 8
    && (exists i :: 0 <= i < |v| && IsUpper(v[i]))
    && (exists i :: 0 <= i < |v| && IsLower(v[i]))
    && (exists i :: 0 <= i < |v| && IsDigit(v[i]))
    && (exists i :: 0 <= i < |v| && v[i] in SpecialChars)
  }

  /** `validate_password_complexity`: the password unchanged, or the first rule it breaks,
      the rules being checked in the order length, upper, lower, digit, special. */
  function ValidatePasswordComplexity(v: string): (r: Result<string, PasswordError>)
    ensures r.Ok? <==> Acceptable(v)
    ensures r.Ok? ==> r.value == v
    ensures r == Err(TooShort) <==> |v| < 8
    ensures r == Err(NoUppercase) <==> |v| >= 8 && !Search(v, Upper)
    ensures r == Err(NoLowercase) <==> |v| >= 8 && Search(v, Upper) && !Search(v, Lower)
    ensures r == Err(NoDigit) <==> |v| >= 8 && Search(v, Upper) && Search(v, Lower) && !Search(v, Digit)
    ensures r == Err(NoSpecial) <==>
              |v| >= 8 && Search(v, Upper) && Search(v, Lower) && Search(v, Digit) && !Search(v, Special)
  {
    if |v| < 8 then Err(TooShort)
    else if !Search(v, Upper) then Err(NoUppercase)
    else if !Search(v, Lower) then Err(NoLowercase)
    else if !Search(v, Digit) then Err(NoDigit)
    else if !Search(v, Special) then Err(NoSpecial)
    else Ok(v)
  }

  /** `passwords_match`: `values` holds the fields validated so far. It refuses only when
      `new_password` is among them and differs from the confirmation. */
  function PasswordsMatch(v: string, values: map<string, string>): (r: Result<string, string>)
    ensures r.Err? <==> "new_password" in values && values["new_password"] != v
    ensures r.Ok? ==> r.value == v
  {
    if "new_password" in values && v != values["new_password"] then Err("Passwords do not match") else Ok(v)
  }

  /** A validation error of `PasswordReset`, by field. */
  datatype ResetError = NewPasswordInvalid(reason: PasswordError) | ConfirmMismatch

  datatype PasswordReset = PasswordReset(token: string, newPassword: string, confirmPassword: string)

  /** Validating a `PasswordReset` body: the fields are checked in declaration order, each
      error is collected, and `new_password` enters `values` only once it passed. */
  function ValidatePasswordReset(token: string, newPassword: string, confirmPassword: string)
    : (r: Result<PasswordReset, seq<ResetError>>)
  {
    var first := ValidatePasswordComplexity(newPassword);
    var values: map<string, string> := if first.Ok? then map["token" := token, "new_password" := first.value]
                                       else map["token" := token];
    var errors := (if first.Err? then [NewPasswordInvalid(first.error)] else [])
                  + (if PasswordsMatch(confirmPassword, values).Err? then [ConfirmMismatch] else []);
    if errors == [] then Ok(PasswordReset(token, newPassword, confirmPassword)) else Err(errors)
  }

  /** A reset body is accepted exactly when the new password is acceptable and confirmed;
      a mismatch is reported only when the new password itself passed. */
  lemma ResetValidation(token: string, newPassword: string, confirmPassword: string)
    ensures var r := ValidatePasswordReset(token, newPassword, confirmPassword);
      && (r.Ok? <==> Acceptable(newPassword) && confirmPassword == newPassword)
      && (r.Err? ==> (ConfirmMismatch in r.error <==> Acceptable(newPassword) && confirmPassword != newPassword))
      && (r.Err? ==> (|r.error| == 1 && (r.error[0] == ConfirmMismatch ||
                        r.error[0] == NewPasswordInvalid(ValidatePasswordComplexity(newPassword).error))))
  {
  }

  /** One field of a `UserUpdate`: not sent, or sent with a value that may be null. Reading an
      unsent field gives its default, None. */
  datatype Field<+T> = Unset | Sent(value: Option<T>)

  function Read<T>(f: Field<T>): Option<T>
  {
    if f.Sent? then f.value else None
  }

  datatype UserUpdate = UserUpdate(
    name: Field<string>,
    companyName: Field<string>,
    email: Field<string>,
    contactInfo: Field<string>,
    plan: Field<PlanType>,
    subscriptionType: Field<SubscriptionType>,
    isActive: Field<bool>)

  /** The body `{}`: every field optional, every field None. */
  const EmptyUpdate := UserUpdate(Unset, Unset, Unset, Unset, Unset, Unset, Unset)

  /** One entry of `user_update.dict(exclude_unset=True)`. */
  datatype Assignment =
    | SetName(name: Option<string>)
    | SetCompanyName(companyName: Option<string>)
    | SetEmail(email: Option<string>)
    | SetContactInfo(contactInfo: Option<string>)
    | SetPlan(plan: Option<PlanType>)
    | SetSubscriptionType(subscriptionType: Option<SubscriptionType>)
    | SetIsActive(isActive: Option<bool>)

  /** The position of an assignment's field in the declaration. */
  function FieldIndex(a: Assignment): nat
  {
    match a
    case SetName(_) => 0
    case SetCompanyName(_) => 1
    case SetEmail(_) => 2
    case SetContactInfo(_) => 3
    case SetPlan(_) => 4
    case SetSubscriptionType(_) => 5
    case SetIsActive(_) => 6
  }

  /** A field of the declaration: whether it was sent, and the assignment it makes if so. */
  datatype Declared = Declared(sent: bool, assignment: Assignment)

  /** The fields of a `UserUpdate` in declaration order. */
  function DeclaredFields(u: UserUpdate): (r: seq<Declared>)
    ensures |r| == 7 && forall i :: 0 <= i < 7 ==> FieldIndex(r[i].assignment) == i
  {
    [Declared(u.name.Sent?, SetName(Read(u.name))),
     Declared(u.companyName.Sent?, SetCompanyName(Read(u.companyName))),
     Declared(u.email.Sent?, SetEmail(Read(u.email))),
     Declared(u.contactInfo.Sent?, SetContactInfo(Read(u.contactInfo))),
     Declared(u.plan.Sent?, SetPlan(Read(u.plan))),
     Declared(u.subscriptionType.Sent?, SetSubscriptionType(Read(u.subscriptionType))),
     Declared(u.isActive.Sent?, SetIsActive(Read(u.isActive)))]
  }

  /** The assignments of the sent fields, in order. */
  function SentOnly(ds: seq<Declared>): (r: seq<Assignment>)
    ensures |r| <= |ds|
    ensures forall a :: a in r <==> exists i :: 0 <= i < |ds| && ds[i].sent && ds[i].assignment == a
  {
    if |ds| == 0 then []
    else
      var rest := SentOnly(ds[1..]);
      assert forall i :: 0 < i < |ds| ==> ds[i] == ds[1..][i - 1];
      if ds[0].sent then [ds[0].assignment] + rest else rest
  }

  predicate Increasing(r: seq<Assignment>)
  {
    forall i, j :: 0 <= i < j < |r| ==> FieldIndex(r[i]) < FieldIndex(r[j])
  }

  /** Keeping only the sent fields keeps them in increasing declaration order. */
  lemma {:induction false} SentOnlyIncreasing(ds: seq<Declared>)
    requires forall i, j :: 0 <= i < j < |ds| ==> FieldIndex(ds[i].assignment) < FieldIndex(ds[j].assignment)
    ensures Increasing(SentOnly(ds))
    ensures forall a :: a in SentOnly(ds) && |ds| > 0 ==> FieldIndex(ds[0].assignment) <= FieldIndex(a)
  {
    if |ds| > 0 {
      SentOnlyIncreasing(ds[1..]);
      var rest := SentOnly(ds[1..]);
      forall a | a in rest ensures FieldIndex(ds[0].assignment) < FieldIndex(a) {
        var i :| 0 <= i < |ds[1..]| && ds[1..][i].sent && ds[1..][i].assignment == a;
        assert ds[1..][i] == ds[i + 1];
      }
      if ds[0].sent {
        var r := [ds[0].assignment] + rest;
        forall i, j | 0 <= i < j < |r| ensures FieldIndex(r[i]) < FieldIndex(r[j]) {
          assert r[j] == rest[j - 1];
          if i > 0 { assert r[i] == rest[i - 1]; } else { assert rest[j - 1] in rest; }
        }
      }
    }
  }

  /** What an assignment says about the body it came from: that field was sent with that value. */
  predicate Matches(u: UserUpdate, a: Assignment)
  {
    match a
    case SetName(v) => u.name == Sent(v)
    case SetCompanyName(v) => u.companyName == Sent(v)
    case SetEmail(v) => u.email == Sent(v)
    case SetContactInfo(v) => u.contactInfo == Sent(v)
    case SetPlan(v) => u.plan == Sent(v)
    case SetSubscriptionType(v) => u.subscriptionType == Sent(v)
    case SetIsActive(v) => u.isActive == Sent(v)
  }

  /** `user_update.dict(exclude_unset=True)`: exactly the sent fields with their values, in
      declaration order. */
  function ExcludeUnset(u: UserUpdate): (r: seq<Assignment>)
    ensures Increasing(r)
    ensures forall a :: a in r <==> Matches(u, a)
  {
    var ds := DeclaredFields(u);
    SentOnlyIncreasing(ds);
    forall a ensures a in SentOnly(ds) <==> Matches(u, a) {
      if a in SentOnly(ds) {
        var i :| 0 <= i < |ds| && ds[i].sent && ds[i].assignment == a;
        DeclaredMatches(u, i);
      }
      if Matches(u, a) {
        MatchesDeclared(u, a);
      }
    }
    SentOnly(ds)
  }

  lemma DeclaredMatches(u: UserUpdate, i: nat)
    requires i < 7 && DeclaredFields(u)[i].sent
    ensures Matches(u, DeclaredFields(u)[i].assignment)
  {
  }

  lemma MatchesDeclared(u: UserUpdate, a: Assignment)
    requires Matches(u, a)
    ensures DeclaredFields(u)[FieldIndex(a)] == Declared(true, a)
  {
  }

  /** An empty body reads as None everywhere and sets nothing. */
  lemma EmptyUpdateSetsNothing()
    ensures ExcludeUnset(EmptyUpdate) == []
    ensures Read(EmptyUpdate.name) == None && Read(EmptyUpdate.subscriptionType) == None
    ensures Read(EmptyUpdate.isActive) == None && Read(EmptyUpdate.email) == None
  {
  }
}
