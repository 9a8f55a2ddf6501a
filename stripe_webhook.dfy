/** The Stripe webhook (POST /api/stripe/webhook): the event is verified by the Stripe
    library, then a completed checkout session upserts the user's Subscription row, and a
    subscription update or deletion updates every row of that Stripe customer.

    Stripe's `constructEvent` is a parameter: it returns the verified event, or the message
    of the error it throws. */
module StripeWebhook {
  import opened Common
  import opened Store

  /** `event.data.object`: a checkout session, a subscription (`currentPeriodEnd` in Unix
      seconds), or any other object. */
  datatype StripeObject =
    | CheckoutSession(customer: Option<string>, subscription: Option<string>, metadataUserId: Option<string>)
    | StripeSubscription(customerId: string, status: string, currentPeriodEnd: int)
    | OtherObject

  datatype Event = Event(eventType: string, data: StripeObject)

  datatype Verification = Verified(event: Event) | Rejected(message: string)

  datatype Request = Request(body: string, signature: Option<string>)

  /** `{received: true}` (200), `{error: "Webhook Error: …"}` (400), or an unhandled
      rejection (500). */
  datatype Response = Received | WebhookError(error: string) | ServerError

  function StatusOf(r: Response): int
  {
    match r
    case Received => 200
    case WebhookError(_) => 400
    case ServerError => 500
  }

  const Handled: set<string> :=
    {"checkout.session.completed", "customer.subscription.updated", "customer.subscription.deleted"}

  /** The columns a completed checkout writes, on update and on create alike. */
  function SessionPatch(customerId: string, subscriptionId: string, now: int): Patch
  {
    NoChange.(stripeCustomerId := Some(customerId), stripeSubscriptionId := Some(subscriptionId),
              status := Some("active"), currentPeriodEnd := Some(now))
  }

  /** The columns a subscription update or deletion writes; Stripe's seconds become milliseconds. */
  function SubscriptionPatch(status: string, currentPeriodEnd: int): Patch
  {
    NoChange.(status := Some(status), currentPeriodEnd := Some(currentPeriodEnd * 1000))
  }

  /** The route as a function of the Subscription table: the response and the new table.
      `newId` is the id the database would give a created row; `now` is `new Date()`. */
  function Handle(rows: seq<Subscription>, req: Request, construct: (string, Option<string>) -> Verification,
                  now: int, newId: nat): (res: (Response, seq<Subscription>))
  {
    match construct(req.body, req.signature)
    case Rejected(m) => (WebhookError("Webhook Error: " + m), rows)
    case Verified(e) =>
      if e.eventType == "checkout.session.completed" then
        match e.data
        case CheckoutSession(c, s, u) =>
          if Truthy(u) && Truthy(c) && Truthy(s) then
            (Received, UpsertByUser(rows, u.value, SessionPatch(c.value, s.value, now),
                                    SessionPatch(c.value, s.value, now), newId))
          else (Received, rows)
        case _ => (Received, rows)
      else if e.eventType == "customer.subscription.updated" || e.eventType == "customer.subscription.deleted" then
        match e.data
        case StripeSubscription(c, status, end) =>
          (Received, UpdateManyByStripeCustomer(rows, c, SubscriptionPatch(status, end)))
        case _ => (ServerError, rows)
      else (Received, rows)
  }

  /** The route handler, step by step as the source runs it. */
  method Post(db: Database, req: Request, construct: (string, Option<string>) -> Verification, now: int)
    returns (resp: Response)
    requires db.Valid()
    modifies db
    ensures db.Valid()
    ensures (resp, db.subscriptions) == Handle(old(db.subscriptions), req, construct, now, old(db.nextId))
    ensures db.users == old(db.users) && db.messages == old(db.messages)
    ensures db.contactMessages == old(db.contactMessages)
  {
    var v := construct(req.body, req.signature);
    if v.Rejected? {
      return WebhookError("Webhook Error: " + v.message);
    }
    var event := v.event;
    if event.eventType == "checkout.session.completed" {
      if event.data.CheckoutSession? {
        var customerId := event.data.customer;
        var subscriptionId := event.data.subscription;
        var userId := event.data.metadataUserId;
        if Truthy(userId) && Truthy(customerId) && Truthy(subscriptionId) {
          var p := SessionPatch(customerId.value, subscriptionId.value, now);
          db.UpsertSubscriptionByUser(userId.value, p, p);
        }
      }
    } else if event.eventType == "customer.subscription.updated" || event.eventType == "customer.subscription.deleted" {
      if !event.data.StripeSubscription? {
        return ServerError;
      }
      var s := event.data;
      db.UpdateManySubscriptionsByStripeCustomer(s.customerId, SubscriptionPatch(s.status, s.currentPeriodEnd));
    }
    resp := Received;
  }

  // ---------------------------------------------------------------------------------------
  // Properties of the route

  /** A failed verification answers 400 with the library's message and changes nothing. */
  lemma RejectedLeavesStore(rows: seq<Subscription>, req: Request, construct: (string, Option<string>) -> Verification,
                            now: int, newId: nat)
    requires construct(req.body, req.signature).Rejected?
    ensures Handle(rows, req, construct, now, newId) ==
            (WebhookError("Webhook Error: " + construct(req.body, req.signature).message), rows)
  {
  }

  /** Every verified event whose object has the shape its type announces is acknowledged;
      events of other types change nothing. */
  lemma VerifiedIsReceived(rows: seq<Subscription>, req: Request, construct: (string, Option<string>) -> Verification,
                           now: int, newId: nat)
    requires construct(req.body, req.signature).Verified?
    ensures var e := construct(req.body, req.signature).event;
            var (resp, rows') := Handle(rows, req, construct, now, newId);
            && (resp == Received || resp == ServerError)
            && (resp == ServerError ==> rows' == rows && !e.data.StripeSubscription?)
            && (e.eventType !in Handled ==> resp == Received && rows' == rows)
  {
  }

  /** A completed checkout without a truthy user id, customer and subscription changes nothing. */
  lemma IncompleteSessionSkipped(rows: seq<Subscription>, req: Request, construct: (string, Option<string>) -> Verification,
                                 now: int, newId: nat, c: Option<string>, s: Option<string>, u: Option<string>)
    requires construct(req.body, req.signature) == Verified(Event("checkout.session.completed", CheckoutSession(c, s, u)))
    requires !(Truthy(u) && Truthy(c) && Truthy(s))
    ensures Handle(rows, req, construct, now, newId) == (Received, rows)
  {
  }

  /** A complete checkout leaves exactly one row for the user, active, holding the Stripe ids
      and ending now; rows of other users are untouched and the keys stay unique. */
  lemma SessionUpsertsOneRow(rows: seq<Subscription>, req: Request, construct: (string, Option<string>) -> Verification,
                             now: int, newId: nat, c: string, s: string, u: string)
    requires KeysUnique(rows)
    requires construct(req.body, req.signature) ==
             Verified(Event("checkout.session.completed", CheckoutSession(Some(c), Some(s), Some(u))))
    requires c != "" && s != "" && u != ""
    ensures var (resp, rows') := Handle(rows, req, construct, now, newId);
      && resp == Received
      && KeysUnique(rows')
      && |rows| <= |rows'| <= |rows| + 1
      && (forall i :: 0 <= i < |rows| && rows[i].userId != u ==> rows'[i] == rows[i])
      && (exists k :: 0 <= k < |rows'| && rows'[k].userId == u
            && rows'[k].stripeCustomerId == Some(c) && rows'[k].stripeSubscriptionId == Some(s)
            && rows'[k].status == "active" && rows'[k].currentPeriodEnd == Some(now)
            && forall j :: 0 <= j < |rows'| && j != k ==> rows'[j].userId != u)
  {
    var p := SessionPatch(c, s, now);
    var rows' := UpsertByUser(rows, u, p, p, newId);
    match FindByUser(rows, u)
    case Some(k) =>
      assert rows'[k].userId == u;
    case None =>
      var k := |rows|;
      assert rows'[k] == ApplyPatch(BlankRow(newId, u), p);
      assert forall j :: 0 <= j < |rows| ==> rows'[j] == rows[j];
  }

  /** `customer.subscription.updated` and `customer.subscription.deleted` are handled alike. */
  lemma UpdatedDeletedAlike(rows: seq<Subscription>, body: string, sig: Option<string>,
                            obj: StripeObject, now: int, newId: nat,
                            c1: (string, Option<string>) -> Verification, c2: (string, Option<string>) -> Verification)
    requires c1(body, sig) == Verified(Event("customer.subscription.updated", obj))
    requires c2(body, sig) == Verified(Event("customer.subscription.deleted", obj))
    ensures Handle(rows, Request(body, sig), c1, now, newId) == Handle(rows, Request(body, sig), c2, now, newId)
  {
  }

  /** An update or deletion sets the status and the period end (seconds times 1000) on every
      row of that customer and on no other; no matching row is not an error. */
  lemma UpdateManyEffect(rows: seq<Subscription>, req: Request, construct: (string, Option<string>) -> Verification,
                         now: int, newId: nat, t: string, c: string, status: string, end: int)
    requires t == "customer.subscription.updated" || t == "customer.subscription.deleted"
    requires construct(req.body, req.signature) == Verified(Event(t, StripeSubscription(c, status, end)))
    ensures var (resp, rows') := Handle(rows, req, construct, now, newId);
      && resp == Received && |rows'| == |rows|
      && forall i :: 0 <= i < |rows| ==>
           rows'[i] == if rows[i].stripeCustomerId == Some(c)
                       then rows[i].(status := status, currentPeriodEnd := Some(end * 1000))
                       else rows[i]
  {
  }

  /** Replaying the same update or deletion leaves the table as the first delivery left it. */
  lemma UpdateReplayIdempotent(rows: seq<Subscription>, req: Request, construct: (string, Option<string>) -> Verification,
                               now: int, now2: int, newId: nat, newId2: nat, t: string, c: string, status: string, end: int)
    requires t == "customer.subscription.updated" || t == "customer.subscription.deleted"
    requires construct(req.body, req.signature) == Verified(Event(t, StripeSubscription(c, status, end)))
    ensures var once := Handle(rows, req, construct, now, newId).1;
            Handle(once, req, construct, now2, newId2).1 == once
  {
    var once := Handle(rows, req, construct, now, newId).1;
    var twice := Handle(once, req, construct, now2, newId2).1;
    forall i | 0 <= i < |rows| ensures twice[i] == once[i] {
      PatchIdempotent(rows[i], SubscriptionPatch(status, end));
    }
  }
}
