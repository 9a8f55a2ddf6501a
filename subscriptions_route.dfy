/** The checkout initiator (POST /api/subscriptions): checks the body, looks the user up,
    creates a Razorpay customer and a Razorpay subscription, and stores the new
    Subscription row.

    The two provider calls are parameters: each returns the created object, or `None`
    when the SDK throws. The route records, in order, the provider calls it made. */
module SubscriptionsRoute {
  import opened Common
  import opened Store

  /** The fields of the JSON body the route reads. */
  datatype Body = Body(userId: Option<string>, planId: Option<string>)

  /** The argument of `createCustomer`. */
  datatype CustomerRequest = CustomerRequest(name: string, email: string, contact: string)

  /** The argument of `createSubscription`; `notesUserId` is `notes.userId`. */
  datatype SubscriptionRequest = SubscriptionRequest(planId: string, customerId: string, totalCount: int, notesUserId: string)

  /** The subscription the provider returns; the period is taken over as it comes. */
  datatype ProviderSubscription = ProviderSubscription(id: string, status: string, currentStart: int, currentEnd: int)

  /** A call made to the payment provider. */
  datatype ProviderCall = CreateCustomer(customer: CustomerRequest) | CreateSubscription(subscription: SubscriptionRequest)

  /** `{success: true, subscription}` (200), "Missing required fields" (400),
      "User not found" (404), or "Internal Server Error" (500). */
  datatype Response = Created(subscription: ProviderSubscription) | MissingFields | UserNotFound | ServerError

  function StatusOf(r: Response): int
  {
    match r
    case Created(_) => 200
    case MissingFields => 400
    case UserNotFound => 404
    case ServerError => 500
  }

  /** The number of billing cycles every subscription is requested for. */
  const TotalCount := 12

  function CustomerFor(u: AppUser): CustomerRequest
  {
    CustomerRequest(if Truthy(u.name) then u.name.value else "", u.email, if Truthy(u.phone) then u.phone.value else "")
  }

  function SubscriptionFor(u: AppUser, planId: string, customerId: string): SubscriptionRequest
  {
    SubscriptionRequest(planId, customerId, TotalCount, u.id)
  }

  /** The row the route asks the database to create (its id is generated on insert). */
  function RowFor(u: AppUser, planId: string, customerId: string, s: ProviderSubscription): Subscription
  {
    BlankRow(0, u.id).(razorpaySubscriptionId := Some(s.id), razorpayCustomerId := Some(customerId),
                       planId := Some(planId), status := s.status,
                       currentPeriodStart := Some(s.currentStart), currentPeriodEnd := Some(s.currentEnd))
  }

  /** The route as a function of the store: the response, the new Subscription table and
      the provider calls made. `body` is `None` when the body is not JSON; `newId` is the
      id the database would give the row. */
  function Handle(users: seq<AppUser>, rows: seq<Subscription>, body: Option<Body>,
                  createCustomer: CustomerRequest -> Option<string>,
                  createSubscription: SubscriptionRequest -> Option<ProviderSubscription>, newId: nat)
    : (res: (Response, seq<Subscription>, seq<ProviderCall>))
  {
    if body.None? then (ServerError, rows, [])
    else if !Truthy(body.value.userId) || !Truthy(body.value.planId) then (MissingFields, rows, [])
    else
      match FindUserIn(users, body.value.userId.value)
      case None => (UserNotFound, rows, [])
      case Some(u) =>
        var planId := body.value.planId.value;
        var cr := CustomerFor(u);
        match createCustomer(cr)
        case None => (ServerError, rows, [CreateCustomer(cr)])
        case Some(customerId) =>
          var sr := SubscriptionFor(u, planId, customerId);
          var calls := [CreateCustomer(cr), CreateSubscription(sr)];
          match createSubscription(sr)
          case None => (ServerError, rows, calls)
          case Some(s) =>
            match CreateRow(rows, RowFor(u, planId, customerId, s).(id := newId))
            case None => (ServerError, rows, calls)
            case Some(rows') => (Created(s), rows', calls)
  }

  /** The route handler, step by step as the source runs it. */
  method Post(db: Database, body: Option<Body>,
              createCustomer: CustomerRequest -> Option<string>,
              createSubscription: SubscriptionRequest -> Option<ProviderSubscription>)
    returns (resp: Response, calls: seq<ProviderCall>)
    requires db.Valid()
    modifies db
    ensures db.Valid()
    ensures (resp, db.subscriptions, calls) ==
            Handle(old(db.users), old(db.subscriptions), body, createCustomer, createSubscription, old(db.nextId))
    ensures db.users == old(db.users) && db.messages == old(db.messages)
    ensures db.contactMessages == old(db.contactMessages)
  {
    calls := [];
    if body.None? {
      return ServerError, calls;
    }
    var userId, planId := body.value.userId, body.value.planId;
    if !Truthy(userId) || !Truthy(planId) {
      return MissingFields, calls;
    }
    var found := db.FindUser(userId.value);
    if found.None? {
      return UserNotFound, calls;
    }
    var user := found.value;
    var cr := CustomerFor(user);
    calls := [CreateCustomer(cr)];
    var customer := createCustomer(cr);
    if customer.None? {
      return ServerError, calls;
    }
    var sr := SubscriptionFor(user, planId.value, customer.value);
    calls := [CreateCustomer(cr), CreateSubscription(sr)];
    var subscription := createSubscription(sr);
    if subscription.None? {
      return ServerError, calls;
    }
    var created := db.CreateSubscription(RowFor(user, planId.value, customer.value, subscription.value));
    if created.None? {
      return ServerError, calls;
    }
    resp := Created(subscription.value);
  }

  // ---------------------------------------------------------------------------------------
  // Properties of the route

  /** A falsy `userId` or `planId` is rejected before any lookup or provider call. */
  lemma MissingFieldsFirst(users: seq<AppUser>, rows: seq<Subscription>, b: Body,
                           cc: CustomerRequest -> Option<string>,
                           cs: SubscriptionRequest -> Option<ProviderSubscription>, newId: nat)
    ensures var (resp, rows', calls) := Handle(users, rows, Some(b), cc, cs, newId);
      (resp == MissingFields <==> !Truthy(b.userId) || !Truthy(b.planId))
      && (resp == MissingFields ==> rows' == rows && calls == [])
  {
  }

  /** An unknown user is answered 404 without a provider call or a new row. */
  lemma UnknownUserNoCalls(users: seq<AppUser>, rows: seq<Subscription>, b: Body,
                           cc: CustomerRequest -> Option<string>,
                           cs: SubscriptionRequest -> Option<ProviderSubscription>, newId: nat)
    requires Truthy(b.userId) && Truthy(b.planId)
    requires forall i :: 0 <= i < |users| ==> users[i].id != b.userId.value
    ensures Handle(users, rows, Some(b), cc, cs, newId) == (UserNotFound, rows, [])
  {
  }

  /** For a known user the first provider call creates a customer from the user's name and
      phone (empty when falsy) and email; a second call, made only once that succeeded,
      asks for 12 cycles of the plan and records the user's id in the notes. */
  lemma ProviderRequests(users: seq<AppUser>, rows: seq<Subscription>, b: Body,
                         cc: CustomerRequest -> Option<string>,
                         cs: SubscriptionRequest -> Option<ProviderSubscription>, newId: nat, u: AppUser)
    requires Truthy(b.userId) && Truthy(b.planId)
    requires FindUserIn(users, b.userId.value) == Some(u)
    ensures var (resp, rows', calls) := Handle(users, rows, Some(b), cc, cs, newId);
      var cr := calls[0].customer;
      && 1 <= |calls| <= 2
      && calls[0].CreateCustomer?
      && cr.email == u.email
      && (cr.name == if u.name.Some? then u.name.value else "")
      && (cr.contact == if u.phone.Some? then u.phone.value else "")
      && (|calls| == 2 <==> cc(cr).Some?)
      && (|calls| == 2 ==>
            calls[1] == CreateSubscription(SubscriptionRequest(b.planId.value, cc(cr).value, 12, b.userId.value)))
  {
  }

  /** A 200 answer means exactly one row was added: keyed by the user, holding the provider's
      subscription id, status and period, the customer id and the plan; the keys stay unique. */
  lemma CreatedRow(users: seq<AppUser>, rows: seq<Subscription>, b: Body,
                   cc: CustomerRequest -> Option<string>,
                   cs: SubscriptionRequest -> Option<ProviderSubscription>, newId: nat)
    requires KeysUnique(rows)
    ensures var (resp, rows', calls) := Handle(users, rows, Some(b), cc, cs, newId);
      resp.Created? ==>
        && |calls| == 2
        && var s := resp.subscription;
           var customerId := calls[1].subscription.customerId;
           && cs(calls[1].subscription) == Some(s)
           && rows' == rows + [rows'[|rows|]]
           && KeysUnique(rows')
           && rows'[|rows|] == BlankRow(newId, b.userId.value).(
                razorpaySubscriptionId := Some(s.id), razorpayCustomerId := Some(customerId),
                planId := b.planId, status := s.status,
                currentPeriodStart := Some(s.currentStart), currentPeriodEnd := Some(s.currentEnd))
  {
    var (resp, rows', calls) := Handle(users, rows, Some(b), cc, cs, newId);
    if resp.Created? {
      var u := FindUserIn(users, b.userId.value).value;
      var customerId := cc(CustomerFor(u)).value;
      CreateRowKeepsKeys(rows, RowFor(u, b.planId.value, customerId, resp.subscription).(id := newId));
    }
  }

  /** Every failure leaves the Subscription table as it was, though provider objects created
      before the failure are not rolled back: a failed subscription call or insert follows a
      customer that was created. */
  lemma FailureCreatesNoRow(users: seq<AppUser>, rows: seq<Subscription>, body: Option<Body>,
                            cc: CustomerRequest -> Option<string>,
                            cs: SubscriptionRequest -> Option<ProviderSubscription>, newId: nat)
    ensures var (resp, rows', calls) := Handle(users, rows, body, cc, cs, newId);
      && (!resp.Created? ==> rows' == rows)
      && (resp == ServerError && |calls| == 2 ==> cc(calls[0].customer).Some?)
  {
  }

  /** A user who already has a Subscription row cannot start a second checkout: the insert
      violates the unique user key and the route answers 500 after both provider calls. */
  lemma SecondCheckoutFails(users: seq<AppUser>, rows: seq<Subscription>, b: Body,
                            cc: CustomerRequest -> Option<string>,
                            cs: SubscriptionRequest -> Option<ProviderSubscription>, newId: nat, k: nat)
    requires k < |rows| && Truthy(b.userId) && Truthy(b.planId) && rows[k].userId == b.userId.value
    ensures var (resp, rows', calls) := Handle(users, rows, Some(b), cc, cs, newId);
      resp != MissingFields && !resp.Created? && rows' == rows
  {
    assert FindByUser(rows, b.userId.value).Some?;
  }
}
