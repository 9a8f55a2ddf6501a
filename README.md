# knowtix core, modelled in Dafny

knowtix is a document question-answering service. It has two parts:

- **A Next.js front end.** Its API routes handle payments and a few simple forms:
  - the Razorpay webhook and the Stripe webhook, which update Subscription rows;
  - the checkout initiator, which creates a Razorpay customer and subscription;
  - the upload gate, which forwards a file only for a user with an active subscription;
  - the chat route (message plus echo) and the contact form.
- **A FastAPI back end.** It covers:
  - accounts: registration with a password policy, email verification, login with a lockout counter, password reset, partial user updates and bearer-token authentication;
  - document ingestion, which splits text into overlapping 1000-character chunks every 900 characters;
  - the question endpoint, which concatenates a language model's line-delimited JSON stream;
  - the Postman collection generator.

The project models each of these, and proves what each promises, in these modules:

| file | module | what it holds |
|---|---|---|
| common.dfy | `Common` | `Option`, `Result`, JavaScript truthiness |
| text.dfy | `Text` | the Python string operations used: strip, split/join, lower, title, replace, `in` |
| store.dfy | `Store` | the front end's Prisma tables (a `Database` class) and the ORM operations the routes call |
| razorpay_webhook.dfy | `RazorpayWebhook` | POST /api/webhooks/razorpay |
| stripe_webhook.dfy | `StripeWebhook` | POST /api/stripe/webhook |
| subscriptions_route.dfy | `SubscriptionsRoute` | POST /api/subscriptions |
| upload_route.dfy | `UploadRoute` | POST /api/upload |
| chat_route.dfy | `ChatRoute` | POST /api/chat |
| contact_route.dfy | `ContactRoute` | POST /api/contact |
| models.dfy | `Models` | the back end's SQLAlchemy schema: enums, User, Document, DocumentChunk, Embedding |
| user_schemas.dfy | `UserSchemas` | the password validators and `UserUpdate` with `exclude_unset` |
| accounts.dfy | `Accounts` | the account endpoints of `backend/main.py` on a `UserTable` class |
| auth_router.dfy | `AuthRouter` | the versioned auth router `app/api/v1/endpoints/auth.py` |
| documents.dfy | `Documents` | `process_file` on a `DocumentStore` class |
| query.dfy | `Query` | `ask_question` |
| postman.dfy | `Postman` | `generate_postman_collection` |

Each route or endpoint is modelled in the same way:

- **A pure function.** It maps the old tables and the request to the response and the new tables (`Handle`, `...Result`).
- **A method.** Its class is `Store.Database`, `Accounts.UserTable` or `Documents.DocumentStore`. It runs the source's steps, including its loops. Its postcondition ties the method to the function.
- **Lemmas.** They state the route's promises about the function.

Several things the code calls become parameters of the model:

- JSON parsing, HMAC, Stripe's `constructEvent`, the Razorpay SDK, JWT decoding and bcrypt;
- text extraction, generated ids, the language model call, and the clock (`now`).

Times are integers: milliseconds in the front end, seconds in the back end.

## Model

| member | source | states |
|---|---|---|
| Common.Min | backend/main.py:511-512 | the minimum of two naturals is below both and equals one of them (the clamp used by the slice `text[i:i+1000]`) |
| Text.TrimStart | backend/main.py:630 | the result is a suffix of the input; everything dropped is in the drop set; the result does not start with a dropped character |
| Text.TrimEnd | backend/main.py:630 | the result is a prefix of the input; everything dropped is in the drop set; the result does not end with a dropped character |
| Text.Strip | backend/main.py:630 | `str.strip`: the result is the input with the longest dropped prefix and suffix removed, and neither of its ends is in the drop set |
| Text.Split | backend/main.py:630 | `str.split(sep)` gives at least one part, and no part contains the separator |
| Text.JoinSplit | backend/generate_postman.py:79 | joining the parts of a split with the separator gives back the string |
| Text.SplitJoin | backend/generate_postman.py:79 | splitting a join of separator-free parts gives back the parts |
| Text.Lower | backend/main.py:481 | `str.lower` on ASCII capitals: the length is kept and no capital is left; each capital becomes the small letter whose capital it is, and every other character is kept |
| Text.LowerIdempotent | backend/main.py:481 | lowering an already lowered name changes nothing |
| Text.Replace | backend/generate_postman.py:61 | `replace("_", " ")` keeps the length, leaves no `_` behind when the two characters differ, and keeps every character that is not `_` |
| Text.ReplaceRoundTrip | backend/generate_postman.py:61 | on a string without spaces, replacing the spaces back by `_` undoes the replacement |
| Text.Title | backend/generate_postman.py:61 | `str.title`: a letter is upper-cased exactly when the character before it is not a letter, otherwise lower-cased; other characters are kept |
| Text.TitleIdempotent | backend/generate_postman.py:72 | title-casing twice gives the same as title-casing once |
| Store.ApplyPatch | src/app/api/webhooks/razorpay/route.ts:66-75 | an ORM `update`'s `data`, column by column: a column the patch names takes the patch's value and every other column keeps its old one; the keys never change; an empty patch changes nothing |
| Store.PatchIdempotent | src/app/api/webhooks/razorpay/route.ts:66-112 | applying the same update twice gives the row of applying it once |
| Store.FindByUser | src/app/api/upload/route.ts:16-18 | `findUnique({where: {userId}})` finds a row with that owner, or reports correctly that there is none |
| Store.FindByRazorpayId | src/app/api/webhooks/razorpay/route.ts:67-69 | the lookup by `razorpaySubscriptionId` finds a row with that key, or reports correctly that there is none |
| Store.UpdateByRazorpayIdEffect | src/app/api/webhooks/razorpay/route.ts:66-75 | under the unique keys, `update` fails exactly when no row has the key; otherwise it changes exactly that row, by the patch, and keeps the keys unique |
| Store.UpdateManyByStripeCustomer | src/app/api/stripe/webhook/route.ts:57-60 | `updateMany` keeps the number of rows |
| Store.CreateRowKeepsKeys | src/app/api/subscriptions/route.ts:41-51 | `create` fails exactly on a clash of the user key or the Razorpay key; otherwise it appends the row and keeps the keys unique |
| Store.Database.constructor | src/app/api/chat/route.ts:26-44 | a new store holds the given users and empty tables, and is valid |
| Store.Database.FindUser | src/app/api/subscriptions/route.ts:15-21 | `user.findUnique({where: {id}})` returns a user with that id, or reports correctly that there is none |
| Store.Database.SubscriptionOf | src/app/api/upload/route.ts:16-18 | returns the user's Subscription row, or reports correctly that there is none |
| Store.Database.UpdateSubscriptionByRazorpayId | src/app/api/webhooks/razorpay/route.ts:66-75 | the new table is `UpdateByRazorpayId` of the old one; the other tables and the id counter are unchanged |
| Store.Database.UpdateManySubscriptionsByStripeCustomer | src/app/api/stripe/webhook/route.ts:57-60 | the loop over the rows leaves the table as `UpdateManyByStripeCustomer` of the old one; the other tables and the id counter are unchanged |
| Store.Database.UpsertSubscriptionByUser | src/app/api/stripe/webhook/route.ts:32-47 | `upsert` updates the user's row, or creates one from `create` with the next generated id |
| Store.Database.CreateSubscription | src/app/api/subscriptions/route.ts:41-51 | `create` inserts the row with a generated id unless a unique key clashes, in which case nothing changes |
| Store.Database.CreateMessage | src/app/api/chat/route.ts:26-32 | appends exactly one message with the next id |
| Store.Database.CreateContactMessage | src/app/api/contact/route.ts:15-22 | appends exactly one contact record with the next id |
| Store.FindUserIn | src/app/api/subscriptions/route.ts:15-17 | finds a user with the id, or reports correctly that there is none |
| RazorpayWebhook.Dispatch | src/app/api/webhooks/razorpay/route.ts:40-53 | an event type outside the four handled ones is ignored, and those four are not |
| RazorpayWebhook.Post | src/app/api/webhooks/razorpay/route.ts:7-63 | the handler's response and new Subscription table are `Handle` of the old table; the other tables are unchanged |
| RazorpayWebhook.HandleSubscriptionActivated | src/app/api/webhooks/razorpay/route.ts:65-76 | one update by Razorpay id with the entity's status and period; it fails when no row has the id |
| RazorpayWebhook.HandleSubscriptionCancelled | src/app/api/webhooks/razorpay/route.ts:78-88 | one update setting "cancelled" and the cancellation time |
| RazorpayWebhook.HandleSubscriptionCharged | src/app/api/webhooks/razorpay/route.ts:90-101 | one update of the last-payment columns, keyed by the payment's subscription id |
| RazorpayWebhook.HandlePaymentFailed | src/app/api/webhooks/razorpay/route.ts:103-113 | one update setting "failed" and the error description |
| RazorpayWebhook.FailureLeavesStore | src/app/api/webhooks/razorpay/route.ts:7-63 | every response other than `{received: true}` leaves the table as it was; a 200 needs a body that parses and an authentic signature |
| RazorpayWebhook.MalformedBodyIs500 | src/app/api/webhooks/razorpay/route.ts:12-35 | the body is parsed before the signature is checked: a malformed body gives 500, a missing header 400 "No signature found", a wrong one 400 "Invalid signature" |
| RazorpayWebhook.UnknownEventIgnored | src/app/api/webhooks/razorpay/route.ts:40-55 | a verified event of any other type is acknowledged and changes nothing |
| RazorpayWebhook.UpdateOutcome | src/app/api/webhooks/razorpay/route.ts:40-62 | for a verified event that updates the row keyed `key`: 200 exactly when such a row exists, and only that row changes; otherwise 500 and nothing changes |
| RazorpayWebhook.ActivatedSetsExactly | src/app/api/webhooks/razorpay/route.ts:65-76 | activation sets exactly the status and the period |
| RazorpayWebhook.CancelledSetsExactly | src/app/api/webhooks/razorpay/route.ts:78-88 | cancellation sets exactly the status "cancelled" and `cancelledAt` |
| RazorpayWebhook.ChargedSetsExactly | src/app/api/webhooks/razorpay/route.ts:90-101 | a charge sets exactly the last-payment columns (the amount divided by 100) and leaves the status alone |
| RazorpayWebhook.FailedSetsExactly | src/app/api/webhooks/razorpay/route.ts:103-113 | a failed payment sets exactly the status "failed" and the error |
| RazorpayWebhook.ReplayIdempotent | src/app/api/webhooks/razorpay/route.ts:40-53 | redelivering any event other than a cancellation leaves the table as the first delivery left it |
| RazorpayWebhook.ChargedReplayIdempotent | src/app/api/webhooks/razorpay/route.ts:90-101 | redelivering `subscription.charged` leaves the last payment as it was set |
| RazorpayWebhook.CancelledReplayMovesTimestamp | src/app/api/webhooks/razorpay/route.ts:78-88 | redelivering a cancellation later moves `cancelledAt` to the later time |
| RazorpayWebhook.PaymentFailedScenario | src/app/api/webhooks/razorpay/route.ts:50-51 | a verified `payment.failed` for "sub_1" with "insufficient_funds" marks that row failed with that error and answers 200 |
| StripeWebhook.Post | src/app/api/stripe/webhook/route.ts:9-69 | the handler's response and new table are `Handle` of the old table |
| StripeWebhook.RejectedLeavesStore | src/app/api/stripe/webhook/route.ts:14-22 | a failed verification answers 400 "Webhook Error: " plus the message, and changes nothing |
| StripeWebhook.VerifiedIsReceived | src/app/api/stripe/webhook/route.ts:24-68 | every verified event is acknowledged or answers 500; a 500 changes nothing and can only come from an object of the wrong shape; event types outside the three handled ones are acknowledged with no change |
| StripeWebhook.IncompleteSessionSkipped | src/app/api/stripe/webhook/route.ts:26-31 | a completed checkout without a truthy user id, customer and subscription changes nothing |
| StripeWebhook.SessionUpsertsOneRow | src/app/api/stripe/webhook/route.ts:31-47 | a complete checkout leaves exactly one row for the user, active, with the Stripe ids and the end set to now; other users' rows are untouched |
| StripeWebhook.UpdatedDeletedAlike | src/app/api/stripe/webhook/route.ts:51-52 | `customer.subscription.updated` and `.deleted` are handled identically |
| StripeWebhook.UpdateManyEffect | src/app/api/stripe/webhook/route.ts:53-60 | an update sets the status and the period end (seconds × 1000) on every row of the customer and no other; no match is no error |
| StripeWebhook.UpdateReplayIdempotent | src/app/api/stripe/webhook/route.ts:51-61 | replaying an update leaves the table unchanged |
| SubscriptionsRoute.Post | src/app/api/subscriptions/route.ts:5-61 | the handler's response, new table and provider calls are `Handle` of the old store |
| SubscriptionsRoute.MissingFieldsFirst | src/app/api/subscriptions/route.ts:10-12 | a falsy `userId` or `planId` gives 400 before any lookup or provider call |
| SubscriptionsRoute.UnknownUserNoCalls | src/app/api/subscriptions/route.ts:15-21 | an unknown user gives 404 with no provider call and no row |
| SubscriptionsRoute.ProviderRequests | src/app/api/subscriptions/route.ts:24-38 | the customer is created from name, email and phone (`""` when falsy); only after that succeeds is a 12-cycle subscription requested, with the user id in its notes |
| SubscriptionsRoute.CreatedRow | src/app/api/subscriptions/route.ts:41-56 | a 200 means exactly one new row holding the user, the provider's ids, status and period, and the plan; the keys stay unique |
| SubscriptionsRoute.FailureCreatesNoRow | src/app/api/subscriptions/route.ts:57-60 | every failure leaves the table as it was, although a customer already created is not rolled back |
| SubscriptionsRoute.SecondCheckoutFails | src/app/api/subscriptions/route.ts:41-51 | a user who already has a row gets 500 after both provider calls, because the insert violates the user key |
| UploadRoute.UserIdOf | src/app/api/upload/route.ts:10 | the user id is `id` when truthy, otherwise `sub` when truthy |
| UploadRoute.SubFallback | src/app/api/upload/route.ts:10 | `sub` is used only when `id` is falsy |
| UploadRoute.GatePassesIffMayUpload | src/app/api/upload/route.ts:8-21 | under the unique user key, a request passes the 401 and 402 checks exactly when the session's user owns an active row |
| UploadRoute.CheckOrder | src/app/api/upload/route.ts:11-37 | 401 comes before 402, which comes before 400 for a falsy `file` field; the backend is called only after all three, and its status and body are relayed unchanged |
| UploadRoute.NoFileIffFalsy | src/app/api/upload/route.ts:24-28 | for a user who may upload, 400 comes exactly when `file` is absent or the empty text value; a File object always passes |
| UploadRoute.PastGateIsActive | src/app/api/upload/route.ts:19-21 | any request past 402 belongs to a user with an active row |
| ChatRoute.Post | src/app/api/chat/route.ts:6-56 | the handler's response and new Message table are `Handle` of the old table |
| ChatRoute.RejectionStoresNothing | src/app/api/chat/route.ts:9-23 | only a success stores anything |
| ChatRoute.NoSessionUnauthorized | src/app/api/chat/route.ts:9-11 | without a session user the answer is 401 |
| ChatRoute.ValidationBeforeOwnership | src/app/api/chat/route.ts:16-23 | a falsy field gives 400 even for someone else's id; a complete body for someone else gives 401 |
| ChatRoute.SuccessAppendsTwo | src/app/api/chat/route.ts:26-51 | a success appends the user's message and then "Echo: " plus the message, both owned by the poster, and returns both ids |
| ContactRoute.Post | src/app/api/contact/route.ts:5-46 | the handler's response, new table and effects are `Handle` of the old table |
| ContactRoute.IncompleteRejected | src/app/api/contact/route.ts:10-12 | a falsy field gives 400, stores nothing and sends no email |
| ContactRoute.CompletePersistsThenMails | src/app/api/contact/route.ts:15-30 | a complete form stores one record with its four fields, and only then is the email attempted, with the same fields |
| ContactRoute.EmailOutcomeIgnored | src/app/api/contact/route.ts:32-41 | whether the email went out changes neither the answer nor the store |
| Models.ParseSubscriptionType | backend/models.py:7-10 | constructing the enum from a value succeeds exactly for a member's value |
| Models.SubscriptionTypeValues | backend/models.py:7-10 | the values are exactly "monthly", "quarterly" and "yearly", one per member |
| Models.ParsePlanType | backend/models.py:12-15 | constructing the enum from a value succeeds exactly for a member's value |
| Models.PlanTypeValues | backend/models.py:12-15 | the values are exactly "basic", "pro" and "enterprise", one per member |
| Models.NewUser | backend/models.py:22-35 | a row created with only the passed columns holds exactly the values passed, and the column defaults for the others: active, unverified, no login attempts, not locked |
| Models.FindByEmail | backend/models.py:25 | `filter(User.email == email).first()` finds a row with that email, or reports correctly that there is none |
| Models.FindById | backend/models.py:22 | the lookup by primary key finds a row with that id, or reports correctly that there is none |
| Models.FindByEmailReadsEmails | backend/models.py:25 | the lookup by email depends only on the emails of the rows |
| Models.ReplaceKeepsValid | backend/models.py:22-25 | writing back a row with its id kept and an email no other row has keeps the primary and unique keys |
| Models.AddEmbeddingKeepsUnique | backend/models.py:73 | inserting an embedding succeeds exactly when its chunk has none, and keeps `chunk_id` unique |
| UserSchemas.Search | backend/app/schemas/user.py:22-29 | `re.search(class, v)` holds exactly when some character of `v` is in the class |
| UserSchemas.ValidatePasswordComplexity | backend/app/schemas/user.py:18-30 | a password is accepted, unchanged, exactly when it meets the whole policy; otherwise the error is the first rule broken, in the order length, upper, lower, digit, special |
| UserSchemas.PasswordsMatch | backend/app/schemas/user.py:69-73 | the confirmation is refused exactly when `new_password` passed and differs from it |
| UserSchemas.ResetValidation | backend/app/schemas/user.py:64-87 | a reset body is accepted exactly when the new password is acceptable and confirmed; a mismatch is reported only when the new password itself passed |
| UserSchemas.DeclaredFields | backend/app/schemas/user.py:47-54 | the seven fields of `UserUpdate`, each at its declaration position |
| UserSchemas.SentOnly | backend/app/schemas/user.py:47-54 | keeping the sent fields keeps exactly their assignments, and no more than there are fields |
| UserSchemas.SentOnlyIncreasing | backend/app/schemas/user.py:47-54 | the fields kept stay in declaration order |
| UserSchemas.ExcludeUnset | backend/main.py:459 | `dict(exclude_unset=True)` holds exactly the sent fields with their values (None included), in declaration order |
| UserSchemas.EmptyUpdateSetsNothing | backend/app/schemas/user.py:47-54 | an empty body reads as None everywhere and sets nothing |
| Accounts.EndDate | backend/main.py:249-255 | the end is 30 days after the start exactly for monthly, 90 days exactly for quarterly and 365 days exactly for yearly |
| Accounts.EndDateOrdered | backend/main.py:249-255 | a longer type ends later, the end moves with the start, and it is always after the start |
| Accounts.CurrentUser | backend/main.py:142-159 | an authenticated user is a row of the table whose email is the decoded token's `sub`; a token that does not decode or has no `sub` authenticates nobody |
| Accounts.AnyTokenTypeAuthenticates | backend/main.py:148-158 | the token type is never checked: two decodable tokens with the same subject authenticate the same user, and a subject naming an existing row always authenticates |
| Accounts.CreateUserEffect | backend/main.py:258-310 | with an acceptable password, 400 exactly when the email exists; a created user is appended with the new id, the body's name, company name, email, contact info, plan and subscription type and the hashed password; it is active and unverified, with no attempts and no lock, and its end date is one period after now; the table stays valid; any other outcome changes nothing |
| Accounts.CreateThenLogin | backend/main.py:338-380 | a newly created account logs in with its own password at any time from its creation up to its end date |
| Accounts.VerifyEmailIdempotent | backend/main.py:312-336 | verification changes at most the verification flag of rows; anything but success changes nothing; a second call with the same token changes nothing and, after success, answers "Email already verified" |
| Accounts.VerificationNeedsVerificationType | backend/main.py:320-321 | a wrong token type gives 400 even for a real, unverified user |
| Accounts.LockedRejectsBeforePassword | backend/main.py:344-349 | a locked account is refused with 403 and the whole minutes left, before the password is checked, with no change |
| Accounts.FailedAttemptCounts | backend/main.py:351-363 | a wrong password on an unlocked account adds one attempt and, from the fifth on, locks the account for 30 minutes; no other column changes |
| Accounts.SuccessResets | backend/main.py:365-382 | a right password clears the counter and the lock before the subscription check; an inactive or expired account then gets 403; otherwise a token for the email, expiring in 1800 seconds |
| Accounts.Failures | backend/main.py:351-363 | consecutive wrong-password attempts give one answer each |
| Accounts.FailuresCount | backend/main.py:351-363 | starting unlocked, every attempt is answered 401 while the count reaches five, and the lock appears exactly at the fifth |
| Accounts.FiveFailuresLock | backend/main.py:353-356 | five wrong passwords in a row on a fresh account lock it for 30 minutes from the fifth |
| Accounts.RelockAfterExpiry | backend/main.py:353-356 | the counter is not reset by the lock, so once the lock expires the next wrong password locks again at once |
| Accounts.LoginKeepsTable | backend/main.py:338-382 | login changes at most the row of its email, never its id or email; an unknown email changes nothing |
| Accounts.ResetThenLogin | backend/main.py:411-445 | after a successful reset the user is unlocked, and a login with the new password is refused neither as locked nor for the password |
| Accounts.ResetValidatesFirst | backend/main.py:223-247 | a body that fails validation gives 422 before the token is decoded, with no change |
| Accounts.AssignFrame | backend/main.py:459-466 | one `setattr` changes only its own column (the end date goes with the subscription type); it never touches the id, the password, the start date, the verification flag or the login counters; an unwritable row stays unwritable |
| Accounts.UpdateStatus | backend/main.py:447-470 | the answer is 200 exactly when the update succeeded and the stored `is_active` is not None; otherwise the response model fails |
| Accounts.AssignAllFrame | backend/main.py:459-466 | the writes never touch the id, the password, the start date, the verification flag or the login counters; a column changes only through a write to it |
| Accounts.AssignAllSubscriptionType | backend/main.py:460-466 | when a subscription type is written, the end date is recomputed from the stored start |
| Accounts.AssignAllNull | backend/main.py:466-468 | a None written into a non-null column makes the commit fail, and no later write undoes that |
| Accounts.PatchedFrame | backend/main.py:459-466 | patching leaves every unsent field, and the key and login columns, as they were |
| Accounts.PatchedNull | backend/main.py:466-468 | a None sent for a non-null column makes the row unwritable |
| Accounts.PatchedSubscriptionType | backend/main.py:460-465 | a sent subscription type is stored with the end date computed from the stored start |
| Accounts.UpdateUserRejections | backend/main.py:454-456 | an unknown id gives 404, and a None sent for a non-null column gives a failed commit; neither changes anything |
| Accounts.UpdateUserWrites | backend/main.py:447-470 | a successful update writes back one row, keeps the table valid, keeps the unsent fields, and recomputes the end date from the stored start when a type is sent |
| Accounts.WriteFields | backend/main.py:459-466 | the `setattr` loop over the sent fields writes them in order, as `AssignAll` |
| Accounts.EmailTakenElsewhere | backend/main.py:466-468 | the scan reports a clash exactly when another row already has the email, which the unique email column refuses at commit |
| Accounts.UnsetNotWritten | backend/main.py:459 | a field not sent produces no write |
| Accounts.UserTable.constructor | backend/models.py:19-37 | a fresh table is empty and valid |
| Accounts.UserTable.CreateUser | backend/main.py:258-310 | the outcome and the new table are `CreateUserResult` of the old table; the table stays valid |
| Accounts.UserTable.VerifyEmail | backend/main.py:312-336 | the outcome and the new table are `VerifyEmailResult` of the old table |
| Accounts.UserTable.Login | backend/main.py:338-382 | the outcome and the new table are `LoginResult` of the old table |
| Accounts.UserTable.ResetPassword | backend/main.py:411-445 | the outcome and the new table are `ResetPasswordResult` of the old table |
| Accounts.UserTable.UpdateUser | backend/main.py:447-470 | the loop over the sent fields and the email check give `UpdateUserResult` of the old table |
| AuthRouter.EndDateAsWritten | backend/app/api/v1/endpoints/auth.py:35-41 | 30 days exactly when the value is the string "monthly", 90 days exactly when it is the string "quarterly", and 365 days otherwise, so an enum member always gets 365 |
| AuthRouter.EnumMemberAlwaysYearly | backend/app/api/v1/endpoints/auth.py:50 | the enum member that `register` passes always gets 365 days, monthly and quarterly included |
| AuthRouter.MonthlyRegistrationGetsAYear | backend/app/api/v1/endpoints/auth.py:35-50 | as written, a monthly registration ends 365 days after it starts |
| AuthRouter.EndDateCorrected | backend/app/api/v1/endpoints/auth.py:35-41 | comparing by member: an enum member gets its type's period, as in the top-level function, and a string is compared as before |
| AuthRouter.EndDateCorrectedAgrees | backend/main.py:249-255 | the corrected function gives a member and its value string the same end date, 30, 90 or 365 days after the start |
| AuthRouter.RegisterIsCreateUser | backend/app/api/v1/endpoints/auth.py:43-74 | with the corrected end date, `register` is `create_user`: 400 on an existing email, otherwise a new unverified user, and the table stays valid |
| AuthRouter.VerifyEmailEffect | backend/app/api/v1/endpoints/auth.py:76-92 | 400 exactly when the token does not verify or is not a verification token; anything but success changes nothing; success sets the flag of exactly one unverified row, the table stays valid, and a second call changes nothing |
| AuthRouter.ResetPasswordEffect | backend/app/api/v1/endpoints/auth.py:150-167 | a success needs an acceptable, confirmed password and a reset-type token; it sets the new hash on one row and clears its counter and lock, and nothing else changes; any other outcome changes nothing |
| AuthRouter.ResetEndpointsAgree | backend/app/api/v1/endpoints/auth.py:153-160 | when every decodable token has a truthy subject, the two reset endpoints leave the same table and agree on success, not found and invalid input |
| AuthRouter.Register | backend/app/api/v1/endpoints/auth.py:43-74 | the outcome and the new table are `RegisterResult` of the old table |
| AuthRouter.VerifyEmail | backend/app/api/v1/endpoints/auth.py:76-92 | the outcome and the new table are `VerifyEmailResult` of the old table |
| AuthRouter.Login | backend/app/api/v1/endpoints/auth.py:94-133 | the same rule as the top-level login: the outcome and the new table are `LoginResult` |
| AuthRouter.ResetPassword | backend/app/api/v1/endpoints/auth.py:150-167 | the outcome and the new table are `ResetPasswordResult` of the old table |
| Documents.ChunkCount | backend/main.py:511 | the count of `range(0, n, 900)`: the least c with 900·c ≥ n, so zero for an empty text |
| Documents.ChunkCountExact | backend/main.py:511 | the k-th start 900·k is below n exactly when k is below the count |
| Documents.Slice | backend/main.py:512 | `text[i:i+1000]`: for a start within the text, a prefix of the text from i whose length is the smaller of 1000 and what remains; past the end, empty |
| Documents.ChunkShape | backend/main.py:511-512 | every chunk is a non-empty piece of the text starting at 900·k, 1000 characters long unless it reaches the end |
| Documents.ChunksOverlap | backend/main.py:508-512 | what a chunk has past 900 characters begins the next one; that is 100 characters when the chunk is full, and otherwise the next chunk is exactly that tail |
| Documents.LastChunkRedundant | backend/main.py:511-512 | when the text ends at most 100 characters past a multiple of 900, the last chunk is the tail of the one before it |
| Documents.HeadsPrefix | backend/main.py:511-512 | the first 900 characters of the first m chunks, joined, are a prefix of the text |
| Documents.ChunksCoverText | backend/main.py:511-519 | the chunker loses nothing: the heads of all the chunks make up the whole text |
| Documents.ChunkRowsShape | backend/main.py:511-518 | no rows exactly for an empty text; row k carries the file's id, `chunk_index = k`, its own id and a non-empty piece of the text starting at 900·k, 1000 characters long unless it reaches the end |
| Documents.ChunksOf | backend/main.py:527 | the query returns the rows carrying the file's id and no others, and never more rows than the table has |
| Documents.ChunksOfNone | backend/main.py:527 | the query finds nothing when no row carries the id |
| Documents.ChunksOfAppended | backend/main.py:518-527 | with a fresh file id, the query returns exactly the rows just added |
| Documents.DocumentStore.constructor | backend/models.py:43-75 | the three tables start empty |
| Documents.DocumentStore.ProcessFile | backend/main.py:480-540 | a name not ending in .pdf, .doc or .docx (case-insensitively) gives 400 and stores nothing; otherwise the new tables are the old ones plus the document row, the chunk rows and the embeddings, and the answer is the chunk count |
| Documents.DocumentStore.AddChunks | backend/main.py:508-521 | the loop appends exactly `ChunkRows` and counts them |
| Documents.DocumentStore.AddEmbeddings | backend/main.py:524-535 | the zip loop appends exactly `EmbeddingRows` of the file's rows |
| Documents.EmbeddingsFollowChunks | backend/main.py:511-535 | with a fresh file id and fresh, distinct chunk ids, every new chunk gets exactly one embedding, in chunk order, and `chunk_id` stays unique |
| Query.LineFragment | backend/main.py:630-637 | what one line adds to the answer: nothing when empty, not JSON or without `response`; its fragment otherwise; a raise when unusable |
| Query.CollectedAppend | backend/main.py:629-637 | the collected answer of two runs of lines is the first's followed by the second's, and a raising line anywhere fails the whole |
| Query.SkippedLine | backend/main.py:631-637 | removing an empty line, a non-JSON line or a line without `response` changes nothing |
| Query.CollectedFragments | backend/main.py:633-635 | lines that all carry fragments give the fragments concatenated in order |
| Query.StreamLines | backend/main.py:630 | the stripped body split on newlines has at least one line |
| Query.StreamAnswer | backend/main.py:629-640 | an answer exists exactly when no line raises, and it is the collected text stripped, neither end whitespace |
| Query.ReadStream | backend/main.py:629-641 | the accumulation loop gives exactly `StreamAnswer` |
| Query.AskQuestion | backend/main.py:565-642 | the endpoint's outcome is `AskResult`, with the embeddings scan done as a loop |
| Query.AskChecks | backend/main.py:573-642 | 403 exactly when the ids differ; 400 exactly when the user has no embeddings; an answer needs status 200 and the stream answer, and echoes a truthy session id or else uses a fresh one |
| Query.FragmentsConcatenate | backend/main.py:629-640 | two fragment lines give their concatenation, stripped |
| Postman.FirstSeen | backend/generate_postman.py:50-56 | the dict's keys: each tag once, and exactly the tags that occur |
| Postman.FirstIndex | backend/generate_postman.py:54 | the first position of a tag |
| Postman.FirstSeenOrder | backend/generate_postman.py:54-55 | the keys come in the order their tags first occur |
| Postman.Repeat | backend/generate_postman.py:53-56 | a route listed once per occurrence of the tag |
| Postman.CountPositive | backend/generate_postman.py:53 | a tag occurs at least once exactly when it is among the route's tags |
| Postman.RoutesUnderAppend | backend/generate_postman.py:51-56 | grouping keeps the input order: the group of a concatenation is the concatenation of the groups |
| Postman.RoutesUnderMembers | backend/generate_postman.py:51-56 | a route is in the group of a tag exactly when it carries the tag, so untagged routes are left out; a tag has a group exactly when some route carries it |
| Postman.RoutesUnderUnseen | backend/generate_postman.py:54-55 | a tag never seen has an empty group |
| Postman.DisplayName | backend/generate_postman.py:61 | `replace("_", " ").title()` keeps the length and leaves no underscore |
| Postman.ExampleEntries | backend/generate_postman.py:118-131 | the example has one entry per field, in field order, named after the field; its value is the default when that is not None, otherwise "string", 0, False, [] or None by field type |
| Postman.UploadOverride | backend/generate_postman.py:94-112 | the `/upload` route gets exactly one Authorization header and the form-data body with key `files`, whatever its dependencies |
| Postman.RawBodyOnlyForPostAndPut | backend/generate_postman.py:113-136 | a raw body appears exactly for a non-upload route whose method set is exactly {POST, PUT} and that has a body model; its entries follow the fields |
| Postman.ItemFails | backend/generate_postman.py:74-117 | a route fails only through an empty method set, or through a {POST, PUT} route whose body field is None |
| Postman.ItemUrl | backend/generate_postman.py:70-91 | the name has no underscore; the method is the first of the route's methods; the url is `{{base_url}}` plus the path, whose segments joined by `/` give the path stripped of `/`; outside `/upload` the auth header appears exactly when a dependency mentions `get_user` |
| Postman.ItemsForFails | backend/generate_postman.py:65-68 | a group fails exactly when the item of one of its routes with a method set fails |
| Postman.ItemsForAll | backend/generate_postman.py:65-138 | every route with methods has its item in the group, and every item comes from such a route |
| Postman.ItemsForFailsFrom | backend/generate_postman.py:65-138 | the first failing route makes the group fail with its error |
| Postman.FoldersForShape | backend/generate_postman.py:59-140 | one folder per tag, named after it, holding the items of the routes carrying it |
| Postman.FoldersForFailsAt | backend/generate_postman.py:59-140 | the first failing group makes the generator fail with its error |
| Postman.CollectionShape | backend/generate_postman.py:16-140 | the collection has the fixed info and variables, and one folder per distinct tag, each holding its routes' items |
| Postman.TagsOfOrder | backend/generate_postman.py:50-59 | the folders are the distinct tags, each once, in order of first appearance |
| Postman.BuildExample | backend/generate_postman.py:118-131 | the example loop gives exactly `Example` of the fields |
| Postman.BuildItem | backend/generate_postman.py:70-136 | the item built step by step, with the header list overwritten for `/upload`, is `ItemFor` |
| Postman.AddRoute | backend/generate_postman.py:52-56 | adding one route keeps the keys equal to `TagsOf` and every list equal to `RoutesUnder` |
| Postman.GroupByTag | backend/generate_postman.py:49-56 | the grouping loop gives the tags in first-seen order and each tag's routes |
| Postman.BuildItems | backend/generate_postman.py:65-138 | the per-group loop gives exactly `ItemsFor` |
| Postman.GenerateCollection | backend/generate_postman.py:5-140 | the generator gives exactly `CollectionFor` of the routes |

## Left out

- The Razorpay route's logging of the body is kept only as the parse the route performs first. The HMAC, the JSON parser and Stripe's `constructEvent` are parameters, not implementations.
- The Razorpay and Stripe SDK calls, `fetch` to the back end, `getServerSession` and `sendContactEmail` are parameters or inputs. Their network behaviour and time-outs are not modelled.
- Dates are integers. Time zones, `Date` parsing of provider values and JavaScript's floating-point division are not modelled. The paise amount is divided exactly, as a real.
- In `backend/main.py`, the email sending, the SMTP templates, `request_password_reset` and `upload_files` are left out. `upload_files`, the verified-user check plus a loop of `process_file` calls, is not modelled on its own.
- The token creation functions and `jwt.decode` are not part of this model. A token is what the decoder parameter returns for it, and expiry is the decoder answering `None`.
- `bcrypt` is the pair of parameters `hash` and `verify`. `Accounts.ResetThenLogin` and `Accounts.CreateThenLogin` assume that `verify(p, hash(p))` holds.
- Retrieval in `ask_question` is not modelled: FAISS, the embedding model, the chunk lookup and the prompt. The language model call is its status and body.
- Store writes and text extraction never fail in this model. These calls can throw in the source, and each would then give a 500 or an unhandled error part-way through:
  - the chat route's second `message.create` (src/app/api/chat/route.ts:39), after the first has already been stored;
  - the contact route's `contactMessage.create` (src/app/api/contact/route.ts:15);
  - the Stripe webhook's `upsert` and `updateMany` (src/app/api/stripe/webhook/route.ts:32 and 57);
  - the upload gate's `findUnique` (src/app/api/upload/route.ts:16);
  - `extract_text_from_pdf` and `extract_text_from_doc` (backend/main.py:492-495).
- ChatRoute.RejectionStoresNothing: says nothing about a failure of the second `message.create`, which can leave the user's message stored without the echo; writes never fail in this model.
- Documents.ChunksOfAppended: the query at backend/main.py:527 has no `ORDER BY`, so the database may return the rows in any order. The model returns them in insertion order.
- Documents.EmbeddingsFollowChunks: "in chunk order" holds only under the insertion order of the query above. With another order, every chunk would still get exactly one embedding, but `zip` could pair it with the vector computed for another chunk.
- In `process_file`, the file system is left out: the temporary file, its path and its removal. The embedding vectors are left out too: `embedding_model.encode` is assumed to return one vector per chunk.
- `UserSchemas.Search`: character classes are ASCII. Python's `\d` also matches other Unicode digits, which this model does not.
- `Text.Strip`: `str.strip()` is modelled with the ASCII whitespace set. Python also strips other Unicode whitespace.
- `Text.Title`: `str.title` is modelled for ASCII letters only. Other characters count as uncased.
- `Text.Lower`: only the ASCII capitals A–Z are lowered. Python also lowers other Unicode capitals, and for some of them (`İ`) the length changes. The suffixes compared after lowering (`.pdf`, `.doc`, `.docx`) are ASCII, and no other capital lowers to one of their letters.
- `EmailStr` validation is not modelled: emails are plain strings. So are the pydantic errors other than the password rules.
- The `users` rows' `created_at` and `updated_at` columns are not modelled. Neither are the relationships between tables.
- In the Postman generator:
  - the OpenAPI schema is computed but never used, so it is not modelled;
  - `json.dumps` and the file write are not modelled: the collection is a value;
  - the raw body holds the example as entries rather than an indented JSON string;
  - `backend/app/main.py:32` and `backend/generate_postman.py:147` call the generator without its `app` argument, which raises a `TypeError`; this model takes the routes as its argument.
- The Next.js pages, the front-end auth helpers, the Prisma client setup and `backend/main-openai.py` are not part of this model.

## Findings

| source | as written | input that shows it | evidently intended | confidence | as-written member | corrected member |
|---|---|---|---|---|---|---|
| backend/app/api/v1/endpoints/auth.py:35-41 | `calculate_subscription_end_date` compares `subscription_type` with the strings "monthly" and "quarterly". `register` passes the validated enum member, which never equals a string, since `SubscriptionType` is a plain `enum.Enum` (backend/models.py:7). So every registration gets 365 days. | `register` with `subscription_type = "monthly"` gives an end date 365 days after the start | 30 days for monthly and 90 for quarterly, as in backend/main.py:249-255 | not executed | AuthRouter.EndDateAsWritten (shown by AuthRouter.MonthlyRegistrationGetsAYear) | AuthRouter.EndDateCorrected |

In the rest of the model, `AuthRouter.RegisterResult` uses the corrected function. `backend/app/api/v1/endpoints/auth.py` imports `SubscriptionType` from `app.models`. That module is not part of this model, so it is taken to declare the same enumeration as `backend/models.py`.
