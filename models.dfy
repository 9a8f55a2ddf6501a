/** The backend's relational schema: the subscription and plan enumerations, the User
    record with its defaults, and the Document, DocumentChunk and Embedding records with
    their non-null and unique columns. Times are Unix seconds. */
module Models {
  import opened Common

  datatype SubscriptionType = Monthly | Quarterly | Yearly

  /** The stored value of a subscription type. */
  function SubscriptionTypeValue(t: SubscriptionType): string
  {
    match t
    case Monthly => "monthly"
    case Quarterly => "quarterly"
    case Yearly => "yearly"
  }

  /** `SubscriptionType(value)`: the member with that value, if any. */
  function ParseSubscriptionType(s: string): (r: Option<SubscriptionType>)
    ensures r.Some? <==> s in {"monthly", "quarterly", "yearly"}
  {
    if s == "monthly" then Some(Monthly)
    else if s == "quarterly" then Some(Quarterly)
    else if s == "yearly" then Some(Yearly)
    else None
  }

  /** The values are exactly "monthly", "quarterly" and "yearly", one per member. */
  lemma SubscriptionTypeValues(t: SubscriptionType, s: string)
    ensures ParseSubscriptionType(SubscriptionTypeValue(t)) == Some(t)
    ensures ParseSubscriptionType(s).Some? ==> SubscriptionTypeValue(ParseSubscriptionType(s).value) == s
  {
  }

  datatype PlanType = Basic | Pro | Enterprise

  function PlanTypeValue(p: PlanType): string
  {
    match p
    case Basic => "basic"
    case Pro => "pro"
    case Enterprise => "enterprise"
  }

  function ParsePlanType(s: string): (r: Option<PlanType>)
    ensures r.Some? <==> s in {"basic", "pro", "enterprise"}
  {
    if s == "basic" then Some(Basic)
    else if s == "pro" then Some(Pro)
    else if s == "enterprise" then Some(Enterprise)
    else None
  }

  /** The values are exactly "basic", "pro" and "enterprise", one per member. */
  lemma PlanTypeValues(p: PlanType, s: string)
    ensures ParsePlanType(PlanTypeValue(p)) == Some(p)
    ensures ParsePlanType(s).Some? ==> PlanTypeValue(ParsePlanType(s).value) == s
  {
  }

  /** A row of the `users` table. Columns declared `nullable=False` are plain values;
      `contact_info`, `locked_until` and `is_active` may hold NULL (`is_active` is nullable
      in the schema and `update_user` can store None in it). `password` is the hash. */
  datatype User = User(
    id: string,
    name: string,
    companyName: string,
    email: string,
    password: string,
    contactInfo: Option<string>,
    plan: PlanType,
    subscriptionType: SubscriptionType,
    subscriptionStartDate: int,
    subscriptionEndDate: int,
    isActive: Option<bool>,
    isVerified: bool,
    loginAttempts: nat,
    lockedUntil: Option<int>)

  /** A User created with only the columns the code passes; the others take their
      column defaults. */
  function NewUser(id: string, name: string, companyName: string, email: string, password: string,
                   contactInfo: Option<string>, plan: PlanType, subscriptionType: SubscriptionType,
                   start: int, end: int): (u: User)
    ensures u.isActive == Some(true) && !u.isVerified && u.loginAttempts == 0 && u.lockedUntil.None?
    ensures u.id == id && u.email == email && u.password == password
    ensures u.name == name && u.companyName == companyName && u.contactInfo == contactInfo
    ensures u.plan == plan && u.subscriptionType == subscriptionType
    ensures u.subscriptionStartDate == start && u.subscriptionEndDate == end
  {
    User(id, name, companyName, email, password, contactInfo, plan, subscriptionType, start, end,
         Some(true), false, 0, None)
  }

  /** `email` is unique, and `id` is the primary key. */
  ghost predicate UsersValid(users: seq<User>)
  {
    && (forall i, j :: 0 <= i < j < |users| ==> users[i].email != users[j].email)
    && (forall i, j :: 0 <= i < j < |users| ==> users[i].id != users[j].id)
  }

  /** `db.query(User).filter(User.email == email).first()`. */
  function FindByEmail(users: seq<User>, email: string): (r: Option<nat>)
    ensures r.Some? ==> r.value < |users| && users[r.value].email == email
    ensures r.None? ==> forall i :: 0 <= i < |users| ==> users[i].email != email
  {
    if |users| == 0 then None
    else if users[|users| - 1].email == email then Some(|users| - 1)
    else FindByEmail(users[..|users| - 1], email)
  }

  /** `db.query(User).filter(User.id == id).first()`. */
  function FindById(users: seq<User>, id: string): (r: Option<nat>)
    ensures r.Some? ==> r.value < |users| && users[r.value].id == id
    ensures r.None? ==> forall i :: 0 <= i < |users| ==> users[i].id != id
  {
    if |users| == 0 then None
    else if users[|users| - 1].id == id then Some(|users| - 1)
    else FindById(users[..|users| - 1], id)
  }

  /** The lookup by email reads nothing but the emails. */
  lemma {:induction false} FindByEmailReadsEmails(users: seq<User>, users': seq<User>, email: string)
    requires |users| == |users'| && forall i :: 0 <= i < |users| ==> users[i].email == users'[i].email
    ensures FindByEmail(users, email) == FindByEmail(users', email)
  {
    if |users| > 0 {
      FindByEmailReadsEmails(users[..|users| - 1], users'[..|users| - 1], email);
    }
  }

  /** Writing back a row with its key and email unchanged, or with an email no other row
      has, keeps the table valid. */
  lemma ReplaceKeepsValid(users: seq<User>, k: nat, u: User)
    requires UsersValid(users) && k < |users| && u.id == users[k].id
    requires forall i :: 0 <= i < |users| && i != k ==> users[i].email != u.email
    ensures UsersValid(users[k := u])
  {
  }

  /** A row of the `documents` table; every column but the timestamp is non-null. */
  datatype Document = Document(id: string, userId: string, filename: string, content: string)

  /** A row of the `document_chunks` table: `document_id`, `content` and `chunk_index` are non-null. */
  datatype DocumentChunk = DocumentChunk(id: string, documentId: string, content: string, chunkIndex: int)

  /** A row of the `embeddings` table (the vector itself is not modelled). */
  datatype Embedding = Embedding(id: string, userId: string, chunkId: string)

  /** `chunk_id` is unique: a chunk has at most one embedding. */
  ghost predicate OneEmbeddingPerChunk(embeddings: seq<Embedding>)
  {
    forall i, j :: 0 <= i < j < |embeddings| ==> embeddings[i].chunkId != embeddings[j].chunkId
  }

  /** Inserting an embedding: rejected (`None`) when its chunk already has one. */
  function AddEmbedding(embeddings: seq<Embedding>, e: Embedding): (r: Option<seq<Embedding>>)
  {
    if exists i :: 0 <= i < |embeddings| && embeddings[i].chunkId == e.chunkId then None
    else Some(embeddings + [e])
  }

  /** An insert succeeds exactly when the chunk has no embedding yet, and the uniqueness of
      `chunk_id` is kept. */
  lemma AddEmbeddingKeepsUnique(embeddings: seq<Embedding>, e: Embedding)
    requires OneEmbeddingPerChunk(embeddings)
    ensures var r := AddEmbedding(embeddings, e);
      && (r.Some? <==> forall i :: 0 <= i < |embeddings| ==> embeddings[i].chunkId != e.chunkId)
      && (r.Some? ==> r.value == embeddings + [e] && OneEmbeddingPerChunk(r.value))
  {
  }
}
