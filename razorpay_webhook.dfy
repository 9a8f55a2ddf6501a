/** The Razorpay webhook (POST /api/webhooks/razorpay): the body is parsed, the
    `x-razorpay-signature` header is checked against the hex HMAC-SHA256 of the raw body,
    and the event is applied to the Subscription row whose `razorpaySubscriptionId` it names.

    JSON parsing and the HMAC are parameters: `parse(body)` is `None` when `JSON.parse`
    throws, and `hmac(secret, body)` is the hex digest the route compares with. */
module RazorpayWebhook {
  import opened Common
  import opened Store

  /** `payload.subscription.entity`. Times are taken over as they come (no unit conversion). */
  datatype SubscriptionEntity = SubscriptionEntity(id: string, status: string, currentStart: int, currentEnd: int)

  /** `payload.payment.entity`; `amount` is in paise. */
  datatype PaymentEntity = PaymentEntity(id: string, subscriptionId: string, amount: int, createdAt: int, errorDescription: string)

  /** A parsed webhook body; an entity missing from the payload is `None`. */
  datatype Event = Event(event: string, subscription: Option<SubscriptionEntity>, payment: Option<PaymentEntity>)

  datatype Request = Request(body: string, signature: Option<string>)

  /** `{received: true}` (200), `{error}` with 400, or `{error: "Webhook handler failed"}` with 500. */
  datatype Response = Received | BadRequest(error: string) | ServerError

  function StatusOf(r: Response): int
  {
    match r
    case Received => 200
    case BadRequest(_) => 400
    case ServerError => 500
  }

  /** What an event type asks of the store: nothing, an update of the row keyed by a
      Razorpay subscription id, or (the entity being absent) a TypeError. */
  datatype Action = Ignore | UpdateRow(key: string, patch: Patch) | Crash

  /** `handleSubscriptionActivated`: status and period taken from the entity. */
  function ActivatedPatch(s: SubscriptionEntity): Patch
  {
    NoChange.(status := Some(s.status), currentPeriodStart := Some(s.currentStart), currentPeriodEnd := Some(s.currentEnd))
  }

  /** `handleSubscriptionCancelled`: marked cancelled now. */
  function CancelledPatch(now: int): Patch
  {
    NoChange.(status := Some("cancelled"), cancelledAt := Some(now))
  }

  /** `handleSubscriptionCharged`: the payment, its amount converted from paise to rupees. */
  function ChargedPatch(p: PaymentEntity): Patch
  {
    NoChange.(lastPaymentId := Some(p.id), lastPaymentAmount := Some(p.amount as real / 100.0),
              lastPaymentDate := Some(p.createdAt))
  }

  /** `handlePaymentFailed`: marked failed with the provider's error description. */
  function FailedPatch(p: PaymentEntity): Patch
  {
    NoChange.(status := Some("failed"), lastPaymentError := Some(p.errorDescription))
  }

  const Handled: set<string> := {"subscription.activated", "subscription.cancelled", "subscription.charged", "payment.failed"}

  /** The `switch (event.event)` of the route. */
  function Dispatch(e: Event, now: int): (a: Action)
    ensures e.event !in Handled <==> a == Ignore
  {
    if e.event == "subscription.activated" then
      (if e.subscription.Some? then UpdateRow(e.subscription.value.id, ActivatedPatch(e.subscription.value)) else Crash)
    else if e.event == "subscription.cancelled" then
      (if e.subscription.Some? then UpdateRow(e.subscription.value.id, CancelledPatch(now)) else Crash)
    else if e.event == "subscription.charged" then
      (if e.payment.Some? then UpdateRow(e.payment.value.subscriptionId, ChargedPatch(e.payment.value)) else Crash)
    else if e.event == "payment.failed" then
      (if e.payment.Some? then UpdateRow(e.payment.value.subscriptionId, FailedPatch(e.payment.value)) else Crash)
    else Ignore
  }

  /** The signature check: a truthy header equal to the hex HMAC of the exact raw body. */
  predicate Authentic(req: Request, secret: string, hmac: (string, string) -> string)
  {
    Truthy(req.signature) && req.signature.value == hmac(secret, req.body)
  }

  /** The whole route as a function of the Subscription table: the response and the new table. */
  function Handle(rows: seq<Subscription>, req: Request, secret: string,
                  parse: string -> Option<Event>, hmac: (string, string) -> string, now: int)
    : (res: (Response, seq<Subscription>))
  {
    match parse(req.body)
    case None => (ServerError, rows)
    case Some(e) =>
      if !Truthy(req.signature) then (BadRequest("No signature found"), rows)
      else if req.signature.value != hmac(secret, req.body) then (BadRequest("Invalid signature"), rows)
      else
        match Dispatch(e, now)
        case Ignore => (Received, rows)
        case Crash => (ServerError, rows)
        case UpdateRow(key, p) =>
          match UpdateByRazorpayId(rows, key, p)
          case None => (ServerError, rows)
          case Some(rows') => (Received, rows')
  }

  /** The route handler, step by step as the source runs it. */
  method Post(db: Database, req: Request, secret: string,
              parse: string -> Option<Event>, hmac: (string, string) -> string, now: int)
    returns (resp: Response)
    requires db.Valid()
    modifies db
    ensures db.Valid()
    ensures (resp, db.subscriptions) == Handle(old(db.subscriptions), req, secret, parse, hmac, now)
    ensures db.users == old(db.users) && db.messages == old(db.messages)
    ensures db.contactMessages == old(db.contactMessages)
  {
    var logged := parse(req.body);
    if logged.None? {
      return ServerError;
    }
    if !Truthy(req.signature) {
      return BadRequest("No signature found");
    }
    var expected := hmac(secret, req.body);
    if req.signature.value != expected {
      return BadRequest("Invalid signature");
    }
    var e := parse(req.body).value;
    var ok := true;
    if e.event == "subscription.activated" {
      if e.subscription.None? { return ServerError; }
      ok := HandleSubscriptionActivated(db, e.subscription.value);
    } else if e.event == "subscription.cancelled" {
      if e.subscription.None? { return ServerError; }
      ok := HandleSubscriptionCancelled(db, e.subscription.value, now);
    } else if e.event == "subscription.charged" {
      if e.payment.None? { return ServerError; }
      ok := HandleSubscriptionCharged(db, e.payment.value);
    } else if e.event == "payment.failed" {
      if e.payment.None? { return ServerError; }
      ok := HandlePaymentFailed(db, e.payment.value);
    }
    resp := if ok then Received else ServerError;
  }

  /** Each handler is one `subscription.update` by Razorpay id; `false` when it throws. */
  method HandleSubscriptionActivated(db: Database, s: SubscriptionEntity) returns (ok: bool)
    requires db.Valid()
    modifies db
    ensures db.Valid()
    ensures ok == UpdateByRazorpayId(old(db.subscriptions), s.id, ActivatedPatch(s)).Some?
    ensures db.subscriptions == if ok then UpdateByRazorpayId(old(db.subscriptions), s.id, ActivatedPatch(s)).value
                                else old(db.subscriptions)
    ensures db.users == old(db.users) && db.messages == old(db.messages)
    ensures db.contactMessages == old(db.contactMessages)
  {
    ok := db.UpdateSubscriptionByRazorpayId(s.id, ActivatedPatch(s));
  }

  method HandleSubscriptionCancelled(db: Database, s: SubscriptionEntity, now: int) returns (ok: bool)
    requires db.Valid()
    modifies db
    ensures db.Valid()
    ensures ok == UpdateByRazorpayId(old(db.subscriptions), s.id, CancelledPatch(now)).Some?
    ensures db.subscriptions == if ok then UpdateByRazorpayId(old(db.subscriptions), s.id, CancelledPatch(now)).value
                                else old(db.subscriptions)
    ensures db.users == old(db.users) && db.messages == old(db.messages)
    ensures db.contactMessages == old(db.contactMessages)
  {
    ok := db.UpdateSubscriptionByRazorpayId(s.id, CancelledPatch(now));
  }

  method HandleSubscriptionCharged(db: Database, p: PaymentEntity) returns (ok: bool)
    requires db.Valid()
    modifies db
    ensures db.Valid()
    ensures ok == UpdateByRazorpayId(old(db.subscriptions), p.subscriptionId, ChargedPatch(p)).Some?
    ensures db.subscriptions == if ok then UpdateByRazorpayId(old(db.subscriptions), p.subscriptionId, ChargedPatch(p)).value
                                else old(db.subscriptions)
    ensures db.users == old(db.users) && db.messages == old(db.messages)
    ensures db.contactMessages == old(db.contactMessages)
  {
    ok := db.UpdateSubscriptionByRazorpayId(p.subscriptionId, ChargedPatch(p));
  }

  method HandlePaymentFailed(db: Database, p: PaymentEntity) returns (ok: bool)
    requires db.Valid()
    modifies db
    ensures db.Valid()
    ensures ok == UpdateByRazorpayId(old(db.subscriptions), p.subscriptionId, FailedPatch(p)).Some?
    ensures db.subscriptions == if ok then UpdateByRazorpayId(old(db.subscriptions), p.subscriptionId, FailedPatch(p)).value
                                else old(db.subscriptions)
    ensures db.users == old(db.users) && db.messages == old(db.messages)
    ensures db.contactMessages == old(db.contactMessages)
  {
    ok := db.UpdateSubscriptionByRazorpayId(p.subscriptionId, FailedPatch(p));
  }

  // ---------------------------------------------------------------------------------------
  // Properties of the route

  /** Every response other than `{received: true}` leaves the table as it was, and a
      response of 200 requires an authentic signature. */
  lemma FailureLeavesStore(rows: seq<Subscription>, req: Request, secret: string,
                           parse: string -> Option<Event>, hmac: (string, string) -> string, now: int)
    ensures var (resp, rows') := Handle(rows, req, secret, parse, hmac, now);
      && (resp != Received ==> rows' == rows)
      && (resp == Received ==> Authentic(req, secret, hmac) && parse(req.body).Some?)
  {
  }

  /** The body is parsed before the signature is looked at: a malformed body gives 500
      whether or not a signature is present; a missing header gives 400 only for a body that parses. */
  lemma MalformedBodyIs500(rows: seq<Subscription>, req: Request, secret: string,
                           parse: string -> Option<Event>, hmac: (string, string) -> string, now: int)
    ensures parse(req.body).None? ==> Handle(rows, req, secret, parse, hmac, now) == (ServerError, rows)
    ensures parse(req.body).Some? && !Truthy(req.signature) ==>
              Handle(rows, req, secret, parse, hmac, now) == (BadRequest("No signature found"), rows)
    ensures parse(req.body).Some? && Truthy(req.signature) && req.signature.value != hmac(secret, req.body) ==>
              Handle(rows, req, secret, parse, hmac, now) == (BadRequest("Invalid signature"), rows)
  {
  }

  /** A verified event of any other type changes nothing and is acknowledged. */
  lemma UnknownEventIgnored(rows: seq<Subscription>, req: Request, secret: string,
                            parse: string -> Option<Event>, hmac: (string, string) -> string, now: int)
    requires parse(req.body).Some? && parse(req.body).value.event !in Handled
    requires Authentic(req, secret, hmac)
    ensures Handle(rows, req, secret, parse, hmac, now) == (Received, rows)
  {
  }

  /** For a verified event that asks for an update of the row keyed `key`: when such a row
      exists the route answers 200 and that row, and only that row, is changed by `p`;
      otherwise the update throws and the route answers 500 with the table unchanged. */
  lemma UpdateOutcome(rows: seq<Subscription>, req: Request, secret: string,
                      parse: string -> Option<Event>, hmac: (string, string) -> string, now: int,
                      key: string, p: Patch)
    requires KeysUnique(rows)
    requires parse(req.body).Some? && Authentic(req, secret, hmac)
    requires Dispatch(parse(req.body).value, now) == UpdateRow(key, p)
    ensures var (resp, rows') := Handle(rows, req, secret, parse, hmac, now);
      && ((exists i :: 0 <= i < |rows| && rows[i].razorpaySubscriptionId == Some(key)) <==> resp == Received)
      && (resp == ServerError ==> rows' == rows)
      && |rows'| == |rows|
      && (forall i :: 0 <= i < |rows| ==>
            rows'[i] == if rows[i].razorpaySubscriptionId == Some(key) then ApplyPatch(rows[i], p) else rows[i])
  {
    UpdateByRazorpayIdEffect(rows, key, p);
  }

  /** `subscription.activated` sets exactly the status and the period, as given; no other
      column of the row changes. */
  lemma ActivatedSetsExactly(row: Subscription, s: SubscriptionEntity)
    ensures ApplyPatch(row, ActivatedPatch(s)) ==
      row.(status := s.status, currentPeriodStart := Some(s.currentStart), currentPeriodEnd := Some(s.currentEnd))
  {
  }

  /** `subscription.cancelled` sets exactly the status "cancelled" and the cancellation time. */
  lemma CancelledSetsExactly(row: Subscription, now: int)
    ensures ApplyPatch(row, CancelledPatch(now)) == row.(status := "cancelled", cancelledAt := Some(now))
  {
  }

  /** `subscription.charged` sets exactly the last-payment columns; the status is untouched. */
  lemma ChargedSetsExactly(row: Subscription, p: PaymentEntity)
    ensures ApplyPatch(row, ChargedPatch(p)) ==
      row.(lastPaymentId := Some(p.id), lastPaymentAmount := Some(p.amount as real / 100.0),
           lastPaymentDate := Some(p.createdAt))
    ensures ApplyPatch(row, ChargedPatch(p)).status == row.status
  {
  }

  /** `payment.failed` sets exactly the status "failed" and the error description. */
  lemma FailedSetsExactly(row: Subscription, p: PaymentEntity)
    ensures ApplyPatch(row, FailedPatch(p)) == row.(status := "failed", lastPaymentError := Some(p.errorDescription))
  {
  }

  /** Replaying a delivery whose update does not depend on the clock (activated, charged,
      failed) leaves the table as the first delivery left it. */
  lemma ReplayIdempotent(rows: seq<Subscription>, req: Request, secret: string,
                         parse: string -> Option<Event>, hmac: (string, string) -> string, now: int, now2: int)
    requires KeysUnique(rows)
    requires parse(req.body).Some? && parse(req.body).value.event != "subscription.cancelled"
    ensures var once := Handle(rows, req, secret, parse, hmac, now).1;
            Handle(once, req, secret, parse, hmac, now2).1 == once
  {
    var e := parse(req.body).value;
    if Authentic(req, secret, hmac) && Dispatch(e, now).UpdateRow? {
      var key, p := Dispatch(e, now).key, Dispatch(e, now).patch;
      assert Dispatch(e, now2) == Dispatch(e, now);
      UpdateByRazorpayIdEffect(rows, key, p);
      var once := Handle(rows, req, secret, parse, hmac, now).1;
      if UpdateByRazorpayId(rows, key, p).Some? {
        UpdateByRazorpayIdEffect(once, key, p);
        forall i | 0 <= i < |once| ensures UpdateByRazorpayId(once, key, p).value[i] == once[i] {
          PatchIdempotent(rows[i], p);
        }
      }
    }
  }

  /** Replaying `subscription.charged` leaves the last payment as the first delivery set it. */
  lemma ChargedReplayIdempotent(rows: seq<Subscription>, req: Request, secret: string,
                                parse: string -> Option<Event>, hmac: (string, string) -> string, now: int)
    requires KeysUnique(rows)
    requires parse(req.body).Some? && parse(req.body).value.event == "subscription.charged"
    ensures var once := Handle(rows, req, secret, parse, hmac, now).1;
            Handle(once, req, secret, parse, hmac, now).1 == once
  {
    ReplayIdempotent(rows, req, secret, parse, hmac, now, now);
  }

  /** Replaying `subscription.cancelled` at a later time moves `cancelledAt` to that time:
      the cancellation timestamp is not preserved across redeliveries. */
  lemma CancelledReplayMovesTimestamp(rows: seq<Subscription>, req: Request, secret: string,
                                      parse: string -> Option<Event>, hmac: (string, string) -> string,
                                      now: int, now2: int, i: nat)
    requires KeysUnique(rows)
    requires parse(req.body).Some? && Authentic(req, secret, hmac)
    requires parse(req.body).value.event == "subscription.cancelled" && parse(req.body).value.subscription.Some?
    requires i < |rows| && rows[i].razorpaySubscriptionId == Some(parse(req.body).value.subscription.value.id)
    ensures var once := Handle(rows, req, secret, parse, hmac, now).1;
            var twice := Handle(once, req, secret, parse, hmac, now2).1;
            && once[i].cancelledAt == Some(now) && twice[i].cancelledAt == Some(now2)
            && twice[i].status == "cancelled"
  {
    var key := parse(req.body).value.subscription.value.id;
    UpdateOutcome(rows, req, secret, parse, hmac, now, key, CancelledPatch(now));
    var once := Handle(rows, req, secret, parse, hmac, now).1;
    UpdateByRazorpayIdEffect(rows, key, CancelledPatch(now));
    UpdateOutcome(once, req, secret, parse, hmac, now2, key, CancelledPatch(now2));
  }

  /** The concrete scenario: a verified `payment.failed` for "sub_1" with "insufficient_funds"
      marks that row failed with that error and is acknowledged. */
  lemma PaymentFailedScenario(rows: seq<Subscription>, req: Request, secret: string,
                              parse: string -> Option<Event>, hmac: (string, string) -> string, now: int, i: nat)
    requires KeysUnique(rows)
    requires parse(req.body) == Some(Event("payment.failed", None,
               Some(PaymentEntity("pay_1", "sub_1", 0, 0, "insufficient_funds"))))
    requires Authentic(req, secret, hmac)
    requires i < |rows| && rows[i].razorpaySubscriptionId == Some("sub_1")
    ensures var (resp, rows') := Handle(rows, req, secret, parse, hmac, now);
            && resp == Received && rows'[i].status == "failed"
            && rows'[i].lastPaymentError == Some("insufficient_funds")
  {
    UpdateOutcome(rows, req, secret, parse, hmac, now, "sub_1",
                  FailedPatch(PaymentEntity("pay_1", "sub_1", 0, 0, "insufficient_funds")));
  }
}
