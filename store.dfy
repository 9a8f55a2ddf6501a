/** The web application's relational store, as the API routes use it through the ORM:
    the Subscription table and its unique keys, the User table (read only here), the chat
    Message table and the ContactMessage table. Row ids that the database generates are
    drawn from one counter. */
module Store {
  import opened Common

  /** A row of the Subscription table. Times are milliseconds since the epoch; the last
      payment amount is in major currency units (rupees). */
  datatype Subscription = Subscription(
    id: nat,
    userId: string,
    stripeCustomerId: Option<string>,
    stripeSubscriptionId: Option<string>,
    razorpayCustomerId: Option<string>,
    razorpaySubscriptionId: Option<string>,
    planId: Option<string>,
    status: string,
    currentPeriodStart: Option<int>,
    currentPeriodEnd: Option<int>,
    cancelledAt: Option<int>,
    lastPaymentId: Option<string>,
    lastPaymentAmount: Option<real>,
    lastPaymentDate: Option<int>,
    lastPaymentError: Option<string>)

  /** The columns of a user that the routes read. */
  datatype AppUser = AppUser(id: string, name: Option<string>, email: string, phone: Option<string>)

  /** A chat message; `role` is "user" or "assistant". */
  datatype Message = Message(id: nat, content: string, userId: string, role: string)

  /** A message sent through the contact form. */
  datatype ContactMessage = ContactMessage(id: nat, fullName: string, email: string, phone: string, message: string)

  /** The `data` of an ORM update: the columns it sets (`Some`) and those it leaves alone (`None`).
      The keys (`id`, `userId`, the Razorpay ids, `planId`) are never updated by any route. */
  datatype Patch = Patch(
    stripeCustomerId: Option<string>,
    stripeSubscriptionId: Option<string>,
    status: Option<string>,
    currentPeriodStart: Option<int>,
    currentPeriodEnd: Option<int>,
    cancelledAt: Option<int>,
    lastPaymentId: Option<string>,
    lastPaymentAmount: Option<real>,
    lastPaymentDate: Option<int>,
    lastPaymentError: Option<string>)

  const NoChange := Patch(None, None, None, None, None, None, None, None, None, None)

  function Or<T>(given: Option<T>, current: Option<T>): Option<T>
  {
    if given.Some? then given else current
  }

  /** What a row looks like after the update `p`: every column `p` names holds the new value,
      every other column keeps its value. */
  function ApplyPatch(s: Subscription, p: Patch): (r: Subscription)
    ensures r.id == s.id && r.userId == s.userId && r.planId == s.planId
    ensures r.razorpayCustomerId == s.razorpayCustomerId && r.razorpaySubscriptionId == s.razorpaySubscriptionId
    ensures r.status == if p.status.Some? then p.status.value else s.status
    ensures (p.stripeCustomerId.Some? ==> r.stripeCustomerId == p.stripeCustomerId)
            && (p.stripeCustomerId.None? ==> r.stripeCustomerId == s.stripeCustomerId)
    ensures (p.stripeSubscriptionId.Some? ==> r.stripeSubscriptionId == p.stripeSubscriptionId)
            && (p.stripeSubscriptionId.None? ==> r.stripeSubscriptionId == s.stripeSubscriptionId)
    ensures (p.currentPeriodStart.Some? ==> r.currentPeriodStart == p.currentPeriodStart)
            && (p.currentPeriodStart.None? ==> r.currentPeriodStart == s.currentPeriodStart)
    ensures (p.currentPeriodEnd.Some? ==> r.currentPeriodEnd == p.currentPeriodEnd)
            && (p.currentPeriodEnd.None? ==> r.currentPeriodEnd == s.currentPeriodEnd)
    ensures (p.cancelledAt.Some? ==> r.cancelledAt == p.cancelledAt)
            && (p.cancelledAt.None? ==> r.cancelledAt == s.cancelledAt)
    ensures (p.lastPaymentId.Some? ==> r.lastPaymentId == p.lastPaymentId)
            && (p.lastPaymentId.None? ==> r.lastPaymentId == s.lastPaymentId)
    ensures (p.lastPaymentAmount.Some? ==> r.lastPaymentAmount == p.lastPaymentAmount)
            && (p.lastPaymentAmount.None? ==> r.lastPaymentAmount == s.lastPaymentAmount)
    ensures (p.lastPaymentDate.Some? ==> r.lastPaymentDate == p.lastPaymentDate)
            && (p.lastPaymentDate.None? ==> r.lastPaymentDate == s.lastPaymentDate)
    ensures (p.lastPaymentError.Some? ==> r.lastPaymentError == p.lastPaymentError)
            && (p.lastPaymentError.None? ==> r.lastPaymentError == s.lastPaymentError)
    ensures p == NoChange ==> r == s
  {
    s.(stripeCustomerId := Or(p.stripeCustomerId, s.stripeCustomerId),
       stripeSubscriptionId := Or(p.stripeSubscriptionId, s.stripeSubscriptionId),
       status := if p.status.Some? then p.status.value else s.status,
       currentPeriodStart := Or(p.currentPeriodStart, s.currentPeriodStart),
       currentPeriodEnd := Or(p.currentPeriodEnd, s.currentPeriodEnd),
       cancelledAt := Or(p.cancelledAt, s.cancelledAt),
       lastPaymentId := Or(p.lastPaymentId, s.lastPaymentId),
       lastPaymentAmount := Or(p.lastPaymentAmount, s.lastPaymentAmount),
       lastPaymentDate := Or(p.lastPaymentDate, s.lastPaymentDate),
       lastPaymentError := Or(p.lastPaymentError, s.lastPaymentError))
  }

  /** Applying the same update twice gives the same row as applying it once. */
  lemma PatchIdempotent(s: Subscription, p: Patch)
    ensures ApplyPatch(ApplyPatch(s, p), p) == ApplyPatch(s, p)
  {
  }

  /** A row created with only its id and owner; every other column is empty. */
  function BlankRow(id: nat, userId: string): Subscription
  {
    Subscription(id, userId, None, None, None, None, None, "", None, None, None, None, None, None, None)
  }

  /** The unique keys of the Subscription table: `userId`, and `razorpaySubscriptionId`
      where it is set. */
  ghost predicate KeysUnique(rows: seq<Subscription>)
  {
    && (forall i, j :: 0 <= i < j < |rows| ==> rows[i].userId != rows[j].userId)
    && (forall i, j :: 0 <= i < j < |rows| && rows[i].razorpaySubscriptionId.Some? ==>
          rows[i].razorpaySubscriptionId != rows[j].razorpaySubscriptionId)
  }

  /** `findUnique({where: {userId}})`: the index of the row owned by `userId`, if any. */
  function FindByUser(rows: seq<Subscription>, userId: string): (r: Option<nat>)
    ensures r.Some? ==> r.value < |rows| && rows[r.value].userId == userId
    ensures r.None? ==> forall i :: 0 <= i < |rows| ==> rows[i].userId != userId
  {
    if |rows| == 0 then None
    else if rows[|rows| - 1].userId == userId then Some(|rows| - 1)
    else FindByUser(rows[..|rows| - 1], userId)
  }

  /** The index of the row whose `razorpaySubscriptionId` is `key`, if any. */
  function FindByRazorpayId(rows: seq<Subscription>, key: string): (r: Option<nat>)
    ensures r.Some? ==> r.value < |rows| && rows[r.value].razorpaySubscriptionId == Some(key)
    ensures r.None? ==> forall i :: 0 <= i < |rows| ==> rows[i].razorpaySubscriptionId != Some(key)
  {
    if |rows| == 0 then None
    else if rows[|rows| - 1].razorpaySubscriptionId == Some(key) then Some(|rows| - 1)
    else FindByRazorpayId(rows[..|rows| - 1], key)
  }

  /** `update({where: {razorpaySubscriptionId: key}, data: p})`: fails (`None`) when no row
      has that key; otherwise the matching row is updated. */
  function UpdateByRazorpayId(rows: seq<Subscription>, key: string, p: Patch): Option<seq<Subscription>>
  {
    match FindByRazorpayId(rows, key)
    case None => None
    case Some(i) => Some(rows[i := ApplyPatch(rows[i], p)])
  }

  /** Under the table's unique keys, a successful update by Razorpay id touches exactly the
      row with that key, and a failed one means no row has it. */
  lemma UpdateByRazorpayIdEffect(rows: seq<Subscription>, key: string, p: Patch)
    requires KeysUnique(rows)
    ensures var r := UpdateByRazorpayId(rows, key, p);
      && (r.None? <==> forall i :: 0 <= i < |rows| ==> rows[i].razorpaySubscriptionId != Some(key))
      && (r.Some? ==>
            && |r.value| == |rows| && KeysUnique(r.value)
            && (forall i :: 0 <= i < |rows| ==>
                  r.value[i] == if rows[i].razorpaySubscriptionId == Some(key) then ApplyPatch(rows[i], p) else rows[i]))
  {
    var r := UpdateByRazorpayId(rows, key, p);
    if r.Some? {
      var k := FindByRazorpayId(rows, key).value;
      forall i | 0 <= i < |rows|
        ensures r.value[i] == if rows[i].razorpaySubscriptionId == Some(key) then ApplyPatch(rows[i], p) else rows[i]
      {
      }
    }
  }

  /** `updateMany({where: {stripeCustomerId: customerId}, data: p})`: every row with that
      customer id is updated, every other row is kept; no match is not an error. */
  function UpdateManyByStripeCustomer(rows: seq<Subscription>, customerId: string, p: Patch): (r: seq<Subscription>)
    ensures |r| == |rows|
  {
    seq(|rows|, i requires 0 <= i < |rows| =>
      if rows[i].stripeCustomerId == Some(customerId) then ApplyPatch(rows[i], p) else rows[i])
  }

  /** `upsert({where: {userId}, update, create})`: the row owned by `userId` is updated, or,
      when there is none, a new row with id `newId` is created from `create`. */
  function UpsertByUser(rows: seq<Subscription>, userId: string, update: Patch, create: Patch, newId: nat): seq<Subscription>
  {
    match FindByUser(rows, userId)
    case Some(i) => rows[i := ApplyPatch(rows[i], update)]
    case None => rows + [ApplyPatch(BlankRow(newId, userId), create)]
  }

  /** `create({data: row})`: fails (`None`) on a unique-key violation. */
  function CreateRow(rows: seq<Subscription>, row: Subscription): Option<seq<Subscription>>
  {
    if FindByUser(rows, row.userId).Some? then None
    else if row.razorpaySubscriptionId.Some? && FindByRazorpayId(rows, row.razorpaySubscriptionId.value).Some? then None
    else Some(rows + [row])
  }

  /** A successful create keeps the keys unique, and it fails exactly on a clash. */
  lemma CreateRowKeepsKeys(rows: seq<Subscription>, row: Subscription)
    requires KeysUnique(rows)
    ensures var r := CreateRow(rows, row);
      && (r.None? <==>
            exists i :: 0 <= i < |rows| && (rows[i].userId == row.userId ||
              (row.razorpaySubscriptionId.Some? && rows[i].razorpaySubscriptionId == row.razorpaySubscriptionId)))
      && (r.Some? ==> r.value == rows + [row] && KeysUnique(r.value))
  {
    var r := CreateRow(rows, row);
    if r.None? {
      var u := FindByUser(rows, row.userId);
      if u.Some? {
        assert rows[u.value].userId == row.userId;
      } else {
        var k := FindByRazorpayId(rows, row.razorpaySubscriptionId.value).value;
        assert rows[k].razorpaySubscriptionId == row.razorpaySubscriptionId;
      }
    }
  }

  /** The store the routes read and write. */
  class Database {
    var users: seq<AppUser>
    var subscriptions: seq<Subscription>
    var messages: seq<Message>
    var contactMessages: seq<ContactMessage>
    var nextId: nat

    /** The unique keys hold, and every generated id is below the counter. */
    ghost predicate Valid()
      reads this
    {
      && KeysUnique(subscriptions)
      && (forall i :: 0 <= i < |subscriptions| ==> subscriptions[i].id < nextId)
      && (forall i :: 0 <= i < |messages| ==> messages[i].id < nextId)
      && (forall i :: 0 <= i < |contactMessages| ==> contactMessages[i].id < nextId)
    }

    constructor (users: seq<AppUser>)
      ensures Valid()
      ensures this.users == users && subscriptions == [] && messages == [] && contactMessages == []
    {
      this.users := users;
      subscriptions, messages, contactMessages := [], [], [];
      nextId := 0;
    }

    /** `user.findUnique({where: {id}})`. */
    function FindUser(id: string): (r: Option<AppUser>)
      reads this
      ensures r.Some? ==> r.value in users && r.value.id == id
      ensures r.None? ==> forall i :: 0 <= i < |users| ==> users[i].id != id
    {
      FindUserIn(users, id)
    }

    /** `subscription.findUnique({where: {userId}})`. */
    function SubscriptionOf(userId: string): (r: Option<Subscription>)
      reads this
      ensures r.Some? ==> r.value in subscriptions && r.value.userId == userId
      ensures r.None? ==> forall i :: 0 <= i < |subscriptions| ==> subscriptions[i].userId != userId
    {
      match FindByUser(subscriptions, userId)
      case None => None
      case Some(i) => Some(subscriptions[i])
    }

    method UpdateSubscriptionByRazorpayId(key: string, p: Patch) returns (found: bool)
      requires Valid()
      modifies this
      ensures Valid()
      ensures found == UpdateByRazorpayId(old(subscriptions), key, p).Some?
      ensures subscriptions == if found then UpdateByRazorpayId(old(subscriptions), key, p).value else old(subscriptions)
      ensures users == old(users) && messages == old(messages) && contactMessages == old(contactMessages)
      ensures nextId == old(nextId)
    {
      UpdateByRazorpayIdEffect(subscriptions, key, p);
      var k := FindByRazorpayId(subscriptions, key);
      found := k.Some?;
      if found {
        subscriptions := subscriptions[k.value := ApplyPatch(subscriptions[k.value], p)];
      }
    }

    method UpdateManySubscriptionsByStripeCustomer(customerId: string, p: Patch)
      requires Valid()
      modifies this
      ensures Valid()
      ensures subscriptions == UpdateManyByStripeCustomer(old(subscriptions), customerId, p)
      ensures users == old(users) && messages == old(messages) && contactMessages == old(contactMessages)
      ensures nextId == old(nextId)
    {
      var i := 0;
      while i < |subscriptions|
        invariant 0 <= i <= |subscriptions| == |old(subscriptions)|
        invariant forall j :: 0 <= j < |subscriptions| ==>
          subscriptions[j] == if j < i && old(subscriptions)[j].stripeCustomerId == Some(customerId)
                              then ApplyPatch(old(subscriptions)[j], p) else old(subscriptions)[j]
        invariant Valid()
        invariant users == old(users) && messages == old(messages) && contactMessages == old(contactMessages)
        invariant nextId == old(nextId)
      {
        if subscriptions[i].stripeCustomerId == Some(customerId) {
          subscriptions := subscriptions[i := ApplyPatch(subscriptions[i], p)];
        }
        i := i + 1;
      }
    }

    method UpsertSubscriptionByUser(userId: string, update: Patch, create: Patch)
      requires Valid()
      modifies this
      ensures Valid()
      ensures subscriptions == UpsertByUser(old(subscriptions), userId, update, create, old(nextId))
      ensures nextId == if |subscriptions| > |old(subscriptions)| then old(nextId) + 1 else old(nextId)
      ensures users == old(users) && messages == old(messages) && contactMessages == old(contactMessages)
    {
      var k := FindByUser(subscriptions, userId);
      if k.Some? {
        subscriptions := subscriptions[k.value := ApplyPatch(subscriptions[k.value], update)];
      } else {
        subscriptions := subscriptions + [ApplyPatch(BlankRow(nextId, userId), create)];
        nextId := nextId + 1;
      }
    }

    /** Creates a subscription row from `row` with a generated id; `None` on a unique-key clash. */
    method CreateSubscription(row: Subscription) returns (created: Option<Subscription>)
      requires Valid()
      modifies this
      ensures Valid()
      ensures var data := row.(id := old(nextId));
        && created == (if CreateRow(old(subscriptions), data).Some? then Some(data) else None)
        && subscriptions == (if created.Some? then old(subscriptions) + [data] else old(subscriptions))
        && nextId == if created.Some? then old(nextId) + 1 else old(nextId)
      ensures users == old(users) && messages == old(messages) && contactMessages == old(contactMessages)
    {
      var data := row.(id := nextId);
      CreateRowKeepsKeys(subscriptions, data);
      var r := CreateRow(subscriptions, data);
      if r.Some? {
        subscriptions := r.value;
        nextId := nextId + 1;
        created := Some(data);
      } else {
        created := None;
      }
    }

    method CreateMessage(content: string, userId: string, role: string) returns (m: Message)
      requires Valid()
      modifies this
      ensures Valid()
      ensures m == Message(old(nextId), content, userId, role)
      ensures messages == old(messages) + [m]
      ensures nextId == old(nextId) + 1
      ensures users == old(users) && subscriptions == old(subscriptions) && contactMessages == old(contactMessages)
    {
      m := Message(nextId, content, userId, role);
      messages := messages + [m];
      nextId := nextId + 1;
    }

    method CreateContactMessage(fullName: string, email: string, phone: string, message: string)
      returns (c: ContactMessage)
      requires Valid()
      modifies this
      ensures Valid()
      ensures c == ContactMessage(old(nextId), fullName, email, phone, message)
      ensures contactMessages == old(contactMessages) + [c]
      ensures nextId == old(nextId) + 1
      ensures users == old(users) && subscriptions == old(subscriptions) && messages == old(messages)
    {
      c := ContactMessage(nextId, fullName, email, phone, message);
      contactMessages := contactMessages + [c];
      nextId := nextId + 1;
    }
  }

  function FindUserIn(users: seq<AppUser>, id: string): (r: Option<AppUser>)
    ensures r.Some? ==> r.value in users && r.value.id == id
    ensures r.None? ==> forall i :: 0 <= i < |users| ==> users[i].id != id
  {
    if |users| == 0 then None
    else if users[0].id == id then Some(users[0])
    else FindUserIn(users[1..], id)
  }
}
