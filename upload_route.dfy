/** The upload gate (POST /api/upload): only a signed-in user whose Subscription row is
    active may have a file forwarded to the document backend, whose answer is relayed.

    The session, the parsed form and the forwarding `fetch` are inputs: `form` is `None`
    when `request.formData()` throws, and `forward(form)` is the backend's status and JSON
    body, or `None` when the fetch or the JSON decoding throws. */
module UploadRoute {
  import opened Common
  import opened Store

  /** The fields of `session.user` the route reads. */
  datatype SessionUser = SessionUser(id: Option<string>, sub: Option<string>)

  datatype Session = Session(user: Option<SessionUser>)

  /** A multipart field's value: an uploaded file (by name) or a plain text value. */
  datatype FormValue = FileValue(name: string) | TextValue(text: string)

  /** The parsed multipart form; `file` is `formData.get('file')`, `None` for null. */
  datatype FormData = FormData(file: Option<FormValue>)

  /** The truthiness of `formData.get('file')`: null is falsy, a File object is always
      truthy, and a text value is falsy exactly when it is the empty string. */
  predicate FileGiven(file: Option<FormValue>)
  {
    file.Some? && (file.value.FileValue? || file.value.text != "")
  }

  /** 401 "Unauthorized", 402 "Subscription required", 400 "No file uploaded", the backend's
      own status and body, or an unhandled rejection (500). */
  datatype Response = Unauthorized | SubscriptionRequired | NoFile | Relayed(status: int, body: string) | ServerError

  function StatusOf(r: Response): int
  {
    match r
    case Unauthorized => 401
    case SubscriptionRequired => 402
    case NoFile => 400
    case Relayed(status, _) => status
    case ServerError => 500
  }

  /** `session?.user?.id || session?.user?.sub`, when truthy. */
  function UserIdOf(session: Option<Session>): (r: Option<string>)
    ensures r.Some? ==> r.value != ""
    ensures r.None? <==> session.None? || session.value.user.None? ||
                         (!Truthy(session.value.user.value.id) && !Truthy(session.value.user.value.sub))
  {
    if session.None? || session.value.user.None? then None
    else if Truthy(session.value.user.value.id) then session.value.user.value.id
    else if Truthy(session.value.user.value.sub) then session.value.user.value.sub
    else None
  }

  /** The route as a function of the Subscription table, which it only reads. */
  function Gate(rows: seq<Subscription>, session: Option<Session>, form: Option<FormData>,
                forward: FormData -> Option<(int, string)>): (r: Response)
  {
    match UserIdOf(session)
    case None => Unauthorized
    case Some(userId) =>
      match FindByUser(rows, userId)
      case None => SubscriptionRequired
      case Some(i) =>
        if rows[i].status != "active" then SubscriptionRequired
        else if form.None? then ServerError
        else if !FileGiven(form.value.file) then NoFile
        else
          match forward(form.value)
          case None => ServerError
          case Some((status, body)) => Relayed(status, body)
  }

  /** The independent statement of who may upload: the user named by the session owns an
      active Subscription row. */
  ghost predicate MayUpload(rows: seq<Subscription>, session: Option<Session>)
  {
    UserIdOf(session).Some? &&
    exists i :: 0 <= i < |rows| && rows[i].userId == UserIdOf(session).value && rows[i].status == "active"
  }

  // ---------------------------------------------------------------------------------------
  // Properties of the gate

  /** The id falls back to `sub` only when `id` is falsy. */
  lemma SubFallback(session: Session, u: SessionUser)
    requires session.user == Some(u)
    ensures Truthy(u.id) ==> UserIdOf(Some(session)) == u.id
    ensures !Truthy(u.id) && Truthy(u.sub) ==> UserIdOf(Some(session)) == u.sub
  {
  }

  /** Under the unique user key, the gate lets a request past 401 and 402 exactly when that
      user may upload. */
  lemma GatePassesIffMayUpload(rows: seq<Subscription>, session: Option<Session>, form: Option<FormData>,
                               forward: FormData -> Option<(int, string)>)
    requires KeysUnique(rows)
    ensures var r := Gate(rows, session, form, forward);
      (r != Unauthorized && r != SubscriptionRequired) <==> MayUpload(rows, session)
  {
    var r := Gate(rows, session, form, forward);
    if UserIdOf(session).Some? {
      var userId := UserIdOf(session).value;
      if MayUpload(rows, session) {
        var i :| 0 <= i < |rows| && rows[i].userId == userId && rows[i].status == "active";
        var k := FindByUser(rows, userId).value;
        assert k == i;
      }
    }
  }

  /** The checks run in a fixed order: 401 before 402 before 400; only after all three is the
      backend called, and its status and body are relayed unchanged. */
  lemma CheckOrder(rows: seq<Subscription>, session: Option<Session>, form: Option<FormData>,
                   forward: FormData -> Option<(int, string)>)
    ensures var r := Gate(rows, session, form, forward);
      && (r == Unauthorized <==> UserIdOf(session).None?)
      && (r == SubscriptionRequired ==> UserIdOf(session).Some?)
      && (r == NoFile ==> UserIdOf(session).Some? && form.Some? && !FileGiven(form.value.file))
      && (r.Relayed? ==> form.Some? && FileGiven(form.value.file) && forward(form.value) == Some((r.status, r.body)))
  {
  }

  /** Past 402, a parsed form is refused with 400 exactly when its `file` field is falsy: absent,
      or an empty text value; any File object is passed on. */
  lemma NoFileIffFalsy(rows: seq<Subscription>, session: Option<Session>, form: FormData,
                       forward: FormData -> Option<(int, string)>)
    requires KeysUnique(rows) && MayUpload(rows, session)
    ensures var r := Gate(rows, session, Some(form), forward);
      && (r == NoFile <==> form.file.None? || form.file == Some(TextValue("")))
      && (form.file.Some? && form.file.value.FileValue? ==> r != NoFile)
  {
    GatePassesIffMayUpload(rows, session, Some(form), forward);
  }

  /** A request that gets past 402 is one whose user has an active row, whatever the form. */
  lemma PastGateIsActive(rows: seq<Subscription>, session: Option<Session>, form: Option<FormData>,
                         forward: FormData -> Option<(int, string)>)
    ensures var r := Gate(rows, session, form, forward);
      !(r == Unauthorized || r == SubscriptionRequired) ==> MayUpload(rows, session)
  {
    var r := Gate(rows, session, form, forward);
    if !(r == Unauthorized || r == SubscriptionRequired) {
      var k := FindByUser(rows, UserIdOf(session).value).value;
      assert rows[k].status == "active";
    }
  }
}
