/** The chat route (POST /api/chat): a signed-in user posts a message for themselves; the
    message and an echoed reply are stored, in that order, and the reply is returned with
    the ids of both stored messages. */
module ChatRoute {
  import opened Common
  import opened Store

  /** `session.user`, of which the route reads the id. */
  datatype SessionUser = SessionUser(id: Option<string>)

  /** The fields of the JSON body the route reads. */
  datatype Body = Body(message: Option<string>, userId: Option<string>)

  /** `{message, messageId, responseId}` (200), "Unauthorized" (401), "Missing required
      fields" (400), or "Internal Server Error" (500). */
  datatype Response = Reply(message: string, messageId: nat, responseId: nat)
                    | Unauthorized | MissingFields | ServerError

  function StatusOf(r: Response): int
  {
    match r
    case Reply(_, _, _) => 200
    case Unauthorized => 401
    case MissingFields => 400
    case ServerError => 500
  }

  /** The placeholder answer: the message echoed back. */
  function EchoOf(message: string): string
  {
    "Echo: " + message
  }

  /** The route as a function of the Message table: the response and the new table.
      `user` is `session?.user`; `body` is `None` when the body is not JSON; `newId` is the
      next id the database generates. */
  function Handle(messages: seq<Message>, user: Option<SessionUser>, body: Option<Body>, newId: nat)
    : (res: (Response, seq<Message>))
  {
    if user.None? then (Unauthorized, messages)
    else if body.None? then (ServerError, messages)
    else if !Truthy(body.value.message) || !Truthy(body.value.userId) then (MissingFields, messages)
    else if user.value.id != body.value.userId then (Unauthorized, messages)
    else
      var message, userId := body.value.message.value, body.value.userId.value;
      (Reply(EchoOf(message), newId, newId + 1),
       messages + [Message(newId, message, userId, "user"), Message(newId + 1, EchoOf(message), userId, "assistant")])
  }

  /** The route handler, step by step as the source runs it. */
  method Post(db: Database, user: Option<SessionUser>, body: Option<Body>) returns (resp: Response)
    requires db.Valid()
    modifies db
    ensures db.Valid()
    ensures (resp, db.messages) == Handle(old(db.messages), user, body, old(db.nextId))
    ensures db.users == old(db.users) && db.subscriptions == old(db.subscriptions)
    ensures db.contactMessages == old(db.contactMessages)
  {
    if user.None? {
      return Unauthorized;
    }
    if body.None? {
      return ServerError;
    }
    var message, userId := body.value.message, body.value.userId;
    if !Truthy(message) || !Truthy(userId) {
      return MissingFields;
    }
    if user.value.id != userId {
      return Unauthorized;
    }
    var saved := db.CreateMessage(message.value, userId.value, "user");
    var aiResponse := EchoOf(message.value);
    var savedResponse := db.CreateMessage(aiResponse, userId.value, "assistant");
    assert db.messages == old(db.messages) + [saved, savedResponse];
    resp := Reply(aiResponse, saved.id, savedResponse.id);
  }

  // ---------------------------------------------------------------------------------------
  // Properties of the route

  /** Only a successful reply stores anything. */
  lemma RejectionStoresNothing(messages: seq<Message>, user: Option<SessionUser>, body: Option<Body>, newId: nat)
    ensures var (resp, messages') := Handle(messages, user, body, newId);
      !resp.Reply? <==> messages' == messages
  {
  }

  /** Without a session user the answer is 401, whatever the body. */
  lemma NoSessionUnauthorized(messages: seq<Message>, body: Option<Body>, newId: nat)
    ensures Handle(messages, None, body, newId) == (Unauthorized, messages)
  {
  }

  /** Missing fields are reported before the ownership check: a body with a falsy field gets
      400 even when it names someone else; a complete body for someone else gets 401. */
  lemma ValidationBeforeOwnership(messages: seq<Message>, u: SessionUser, b: Body, newId: nat)
    ensures var (resp, _) := Handle(messages, Some(u), Some(b), newId);
      && (resp == MissingFields <==> !Truthy(b.message) || !Truthy(b.userId))
      && (resp == Unauthorized <==> Truthy(b.message) && Truthy(b.userId) && u.id != b.userId)
  {
  }

  /** On success exactly two messages are appended, the user's own first and the echo second,
      both owned by the poster; the reply is the echo and carries both new ids. */
  lemma SuccessAppendsTwo(messages: seq<Message>, user: Option<SessionUser>, body: Option<Body>, newId: nat)
    ensures var (resp, messages') := Handle(messages, user, body, newId);
      resp.Reply? ==>
        && |messages'| == |messages| + 2
        && messages'[..|messages|] == messages
        && var m, r := messages'[|messages|], messages'[|messages| + 1];
           && m.role == "user" && r.role == "assistant"
           && m.content == body.value.message.value
           && r.content == "Echo: " + m.content == resp.message
           && m.userId == r.userId == body.value.userId.value == user.value.id.value
           && resp.messageId == m.id && resp.responseId == r.id && m.id != r.id
  {
  }
}
