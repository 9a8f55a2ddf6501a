/** The contact route (POST /api/contact): a complete contact form is stored, then an email
    notification is attempted, and the answer is a success whether or not the email went
    out.

    The email send is a parameter: `sendEmail(form)` is whether the mail was sent
    (`sendContactEmail` catches its own errors and returns false). */
module ContactRoute {
  import opened Common
  import opened Store

  /** The fields of the JSON body the route reads. */
  datatype Body = Body(fullName: Option<string>, email: Option<string>, phone: Option<string>, message: Option<string>)

  /** The four fields of a complete form. */
  datatype ContactForm = ContactForm(fullName: string, email: string, phone: string, message: string)

  /** What the route does to the outside world, in order. */
  datatype Effect = Persisted(record: ContactMessage) | EmailAttempted(form: ContactForm)

  /** `{success: true, message: "Message sent successfully", data}` (200), "Missing required
      fields" (400), or "Internal Server Error" (500). */
  datatype Response = Success(data: ContactMessage) | MissingFields | ServerError

  function StatusOf(r: Response): int
  {
    match r
    case Success(_) => 200
    case MissingFields => 400
    case ServerError => 500
  }

  predicate Complete(b: Body)
  {
    Truthy(b.fullName) && Truthy(b.email) && Truthy(b.phone) && Truthy(b.message)
  }

  /** The route as a function of the ContactMessage table: the response, the new table and
      the effects in order. `body` is `None` when the body is not JSON. The attempt is the
      `EmailAttempted` effect; what `sendEmail` answers is never read. */
  function Handle(records: seq<ContactMessage>, body: Option<Body>, sendEmail: ContactForm -> bool, newId: nat)
    : (res: (Response, seq<ContactMessage>, seq<Effect>))
  {
    if body.None? then (ServerError, records, [])
    else if !Complete(body.value) then (MissingFields, records, [])
    else
      var b := body.value;
      var form := ContactForm(b.fullName.value, b.email.value, b.phone.value, b.message.value);
      var c := ContactMessage(newId, form.fullName, form.email, form.phone, form.message);
      (Success(c), records + [c], [Persisted(c), EmailAttempted(form)])
  }

  /** The route handler, step by step as the source runs it. */
  method Post(db: Database, body: Option<Body>, sendEmail: ContactForm -> bool)
    returns (resp: Response, effects: seq<Effect>)
    requires db.Valid()
    modifies db
    ensures db.Valid()
    ensures (resp, db.contactMessages, effects) == Handle(old(db.contactMessages), body, sendEmail, old(db.nextId))
    ensures db.users == old(db.users) && db.subscriptions == old(db.subscriptions) && db.messages == old(db.messages)
  {
    effects := [];
    if body.None? {
      return ServerError, effects;
    }
    var b := body.value;
    if !Truthy(b.fullName) || !Truthy(b.email) || !Truthy(b.phone) || !Truthy(b.message) {
      return MissingFields, effects;
    }
    var contactMessage := db.CreateContactMessage(b.fullName.value, b.email.value, b.phone.value, b.message.value);
    var form := ContactForm(b.fullName.value, b.email.value, b.phone.value, b.message.value);
    effects := [Persisted(contactMessage), EmailAttempted(form)];
    resp := Success(contactMessage);
  }

  // ---------------------------------------------------------------------------------------
  // Properties of the route

  /** A form with any falsy field is answered 400, nothing is stored and no email is tried. */
  lemma IncompleteRejected(records: seq<ContactMessage>, b: Body, sendEmail: ContactForm -> bool, newId: nat)
    ensures var (resp, records', effects) := Handle(records, Some(b), sendEmail, newId);
      (resp == MissingFields <==> !Complete(b))
      && (resp == MissingFields ==> records' == records && effects == [])
  {
  }

  /** A complete form stores exactly one record holding its four fields, and the email is
      attempted after that, with the same fields. */
  lemma CompletePersistsThenMails(records: seq<ContactMessage>, b: Body, sendEmail: ContactForm -> bool, newId: nat)
    requires Complete(b)
    ensures var (resp, records', effects) := Handle(records, Some(b), sendEmail, newId);
      && resp.Success?
      && records' == records + [resp.data]
      && resp.data.fullName == b.fullName.value && resp.data.email == b.email.value
      && resp.data.phone == b.phone.value && resp.data.message == b.message.value
      && |effects| == 2 && effects[0] == Persisted(resp.data) && effects[1].EmailAttempted?
      && effects[1].form == ContactForm(resp.data.fullName, resp.data.email, resp.data.phone, resp.data.message)
  {
  }

  /** Whether the email was sent changes neither the answer nor the store. */
  lemma EmailOutcomeIgnored(records: seq<ContactMessage>, body: Option<Body>,
                            send1: ContactForm -> bool, send2: ContactForm -> bool, newId: nat)
    ensures Handle(records, body, send1, newId) == Handle(records, body, send2, newId)
  {
  }
}
