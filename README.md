# Print-order backend: identity, orders, payments and admin routes

This project models the request handlers of a small print-shop backend: an
Express server over SQLite.

- **Identity** (`server/src/auth.routes.js`). Customers sign up with email,
  password, name, phone and address. They verify their email with a six-digit
  one-time code (OTP), then log in with a password. The configured
  administrator (`ADMIN_EMAIL`) logs in with a code only.
- **Orders** (`server/src/orders.routes.js`). Customers upload images or PDFs
  with an order form, and list their own orders.
- **Payments** (`server/src/payments.routes.js`). A provider order is created
  for an order's total. A payment receipt is accepted only when its HMAC
  signature checks out.
- **Admin** (`server/src/admin.routes.js`). The administrator lists every
  order with a status filter, a text search and a sort. The administrator can
  change an order's status and mark it paid or unpaid offline.
- **SMS** (`server/src/sms.js`, lines 3-23). A stored phone number is turned
  into the E.164 destination given to the SMS gateway.

## How the model is organised

The database is three tables (`Store.Tables`):

- users, keyed by normalised email;
- OTP challenges, in insertion order;
- orders, in insertion order.

The class `Store.Db` holds these tables as fields.

Each state-changing handler is modelled twice:

- a pure function `XStep`, from the tables and the request to an `Outcome`
  (the reply plus the new tables). Its postconditions state the handler's
  guards in the source's order, the status codes and what an accepted request
  writes;
- a `method X` on a `Db`, written statement by statement like the handler. It
  is proved to leave exactly the state and reply that `XStep` describes, and to
  keep the table keys unique (`Db.Valid`).

Lemmas relate the handlers to each other. Examples:

- signup, then login;
- request-otp, then verify-otp;
- five wrong codes, then lock-out;
- create, then verify payment;
- placing an order, then charging it;
- the admin's offline override, then the card payment route.

The parts of SQL the handlers rely on are modelled in `Listing`:

- the WHERE filter;
- SQLite's `LIKE`;
- `ORDER BY` as a stable insertion sort.

Modules, one per file:

| module | file | models |
|---|---|---|
| `Wrappers` | wrappers.dfy | `Option`, the `Reply` of a handler |
| `Text` | text.dfy | JavaScript `trim`, ASCII `toLowerCase`, `replace(/\D/g, '')`, decimal strings |
| `Store` | store.dfy | the rows of `users`, `otp_logins`, `orders`, their key constraints, the `Db` class |
| `Identity` | identity.dfy | auth.routes.js handlers |
| `AuthScenarios` | auth_scenarios.dfy | properties across several identity requests |
| `Listing` | listing.dfy | WHERE, LIKE, ORDER BY |
| `Orders` | orders.dfy | orders.routes.js: file names, upload filter and error replies, `esc`, order intake, `/my` |
| `Payments` | payments.dfy | payments.routes.js |
| `Admin` | admin.dfy | admin.routes.js |
| `Lifecycle` | order_lifecycle.dfy | orders, payments and admin handlers acting on one order |
| `Sms` | sms.dfy | the E.164 formatting in sms.js |

## Model

| member | source | states |
|---|---|---|
| `Text.Trim` | server/src/auth.routes.js:34-36 | The result of JavaScript `trim` has no leading or trailing whitespace and is no longer than the input |
| `Text.TrimRemovesOnlySpaces` | server/src/auth.routes.js:34-36 | `trim` removes only whitespace: what it drops at either end is whitespace, and what is left is a contiguous slice of the input |
| `Text.TrimEmptyIffAllSpaces` | server/src/payments.routes.js:8-10 | A string trims to "" exactly when every character is whitespace |
| `Text.TrimIdempotent` | server/src/auth.routes.js:34-36 | Trimming twice is trimming once |
| `Text.Lower` | server/src/auth.routes.js:34-36 | `toLowerCase` keeps the length and leaves no upper-case letter |
| `Text.LowerIdempotent` | server/src/auth.routes.js:34-36 | Lower-casing twice is lower-casing once |
| `Text.TrimLowerCommute` | server/src/auth.routes.js:34-36 | Trimming and lower-casing commute, so `trim().toLowerCase()` equals `toLowerCase().trim()` |
| `Text.DigitsOnly` | server/src/auth.routes.js:38-40 | `replace(/\D/g, '')` leaves only digits |
| `Text.DigitsOnlyKeepsDigits` | server/src/auth.routes.js:38-40 | The result is a subsequence of the input, with every digit kept as often as it occurs and no other character |
| `Text.DigitsOnlyAppend` | server/src/sms.js:11-12 | Removing non-digits distributes over concatenation |
| `Text.DigitsOnlyIdempotent` | server/src/auth.routes.js:38-40 | Removing non-digits twice is doing it once |
| `Text.DecimalString` | server/src/orders.routes.js:35 | `String(n)` of a natural number is all digits, denotes `n`, and has no leading zero unless `n` is 0 |
| `Text.DecimalStringLength` | server/src/auth.routes.js:64-67 | A number in `[10^(k-1), 10^k)` is written with exactly `k` digits |
| `Store.SameUserKeysKeepValid` | server/src/auth.routes.js:53-62 | An update that keeps every row's email and id keeps both uniqueness constraints of `users` |
| `Store.InsertUserKeepsValid` | server/src/auth.routes.js:111-113 | Inserting a row with a fresh email and a fresh id keeps `users` keyed by email with unique ids |
| `Store.SameOtpIdsKeepValid` | server/src/auth.routes.js:233-245 | An update that keeps every challenge id keeps the ids unique |
| `Store.AppendOtpKeepsValid` | server/src/auth.routes.js:76-79 | Inserting a challenge with a fresh id keeps the ids unique |
| `Store.SameOrderIdsKeepValid` | server/src/admin.routes.js:48 | An update that keeps every order id keeps the ids unique |
| `Store.AppendOrderKeepsValid` | server/src/orders.routes.js:83-91 | Inserting an order with a fresh id keeps the ids unique |
| `Identity.NormalizeEmail` | server/src/auth.routes.js:34-36 | A normalised email is trimmed, has no upper-case letter and is no longer than the input |
| `Identity.NormalizeEmailIdempotent` | server/src/auth.routes.js:34-36 | Normalising an already normalised email changes nothing |
| `Identity.NormalizeEmailIgnoresCase` | server/src/auth.routes.js:34-36 | Emails that differ only in letter case name the same account |
| `Identity.NormalizePhone` | server/src/auth.routes.js:38-40 | A normalised phone is digits only |
| `Identity.NormalizePhoneKeepsDigits` | server/src/auth.routes.js:38-40 | A normalised phone holds exactly the input's digits, in order and with their multiplicities |
| `Identity.NormalizePhoneIdempotent` | server/src/auth.routes.js:38-40 | Normalising a normalised phone changes nothing |
| `Identity.AdminDerivationsAgree` | server/src/auth.routes.js:42-62 | The trimmed-and-lower-cased admin email and the lower-cased one agree exactly when `ADMIN_EMAIL` has no surrounding whitespace |
| `Identity.AdminEmailNorm` | server/src/auth.routes.js:42-44 | The normalised admin email has no surrounding whitespace and no upper-case letter |
| `Identity.AdminEmailLower` | server/src/auth.routes.js:54 | The lower-cased admin email keeps the length of `ADMIN_EMAIL`, has no upper-case letter, and keeps its surrounding whitespace, if any |
| `Identity.ShouldBeAdmin` | server/src/auth.routes.js:54-55 | An email calls for the admin flag only while `ADMIN_EMAIL` has no surrounding whitespace |
| `Identity.IsAdminEmail` | server/src/auth.routes.js:47-51 | When `ADMIN_EMAIL` has no surrounding whitespace, is-admin-email answers true exactly for the emails the admin-flag rule flags |
| `Identity.OtpCode` | server/src/auth.routes.js:64-67 | A one-time code is six digits whose value is 100000 plus the random draw, so it lies in 100000..999999 |
| `Identity.NewestUnconsumed` | server/src/auth.routes.js:224-227 | A selected row exists in the table, is for the given email and is not consumed |
| `Identity.NewestUnconsumedIsNewest` | server/src/auth.routes.js:224-227 | The row selected is an unconsumed challenge for the email with no unconsumed challenge for that email created later, among equal creation times the model takes the last inserted one (see "Left out"); nothing is selected only when there is no such challenge |
| `Identity.NewestInAgrees` | server/src/auth.routes.js:224-227 | The selection depends only on the email, consumed and created columns |
| `Identity.CheckChallenge` | server/src/auth.routes.js:229-237 | The verdict on a challenge is blocked iff it has 5 or more attempts; expired iff not blocked and past its expiry; mismatch iff neither and the code does not match; accepted iff none of these |
| `Identity.BumpAttempts` | server/src/auth.routes.js:235 | Counting a failed attempt keeps every challenge id |
| `Identity.BumpAttemptsAt` | server/src/auth.routes.js:235 | With unique ids, the update by id adds one attempt to that row and changes nothing else |
| `Identity.ConsumeChallenge` | server/src/auth.routes.js:239 | Consuming a challenge keeps every challenge id |
| `Identity.ConsumeChallengeAt` | server/src/auth.routes.js:239 | With unique ids, consuming by id sets that row's consumed time and changes nothing else |
| `Identity.SetUserAdmin` | server/src/auth.routes.js:58 | The admin-flag update keeps every user's key and id |
| `Identity.SetUserAdminAt` | server/src/auth.routes.js:58 | With unique ids, the update by id changes the flag of that user only |
| `Identity.SetUserEmailVerified` | server/src/auth.routes.js:240 | Marking an email verified keeps every user's key and id |
| `Identity.SetUserEmailVerifiedAt` | server/src/auth.routes.js:240 | With unique ids, the update by id verifies that user only |
| `Identity.SetUserProfile` | server/src/auth.routes.js:282 | The profile update keeps every user's key and id |
| `Identity.SyncAdminFlag` | server/src/auth.routes.js:53-62 | The user returned carries the admin flag its email calls for; the table is written only when the stored flag disagrees, and then only that flag by id |
| `Identity.SyncAdminFlagIdempotent` | server/src/auth.routes.js:53-62 | A second synchronisation changes neither the table nor the user |
| `Identity.SyncAdminFlagRow` | server/src/auth.routes.js:53-62 | Synchronising a user loaded from a table with unique ids rewrites exactly that user's row |
| `Identity.SyncAdminFlagForUser` | server/src/auth.routes.js:53-62 | The method leaves `otp_logins` and `orders` alone and ends in the user and table the synchronisation function gives |
| `Identity.SignupStep` | server/src/auth.routes.js:96-125 | Signup answers 400 for each missing field in the handler's order, then 409 for a registered email. It succeeds exactly when the fields are present and the email and the new ids are free. On success it inserts one unverified user under the normalised email and one challenge, and returns the development code |
| `Identity.Signup` | server/src/auth.routes.js:96-125 | The handler ends in the reply and tables `SignupStep` describes, and keeps the key constraints |
| `Identity.IssueEmailOtp` | server/src/auth.routes.js:69-94 | Issuing a code appends one challenge for the user, expiring five minutes after issue, and returns the code outside production only; users and orders are untouched |
| `Identity.CheckUser` | server/src/auth.routes.js:128-143 | 400 exactly when email or phone normalise to ""; an account is reported exactly when it exists and its stored phone's digits are non-empty and equal the given phone's digits, with its email-verified flag |
| `Identity.LoginStep` | server/src/auth.routes.js:145-174 | Login answers 400 for missing fields and 403 for the admin email before any lookup. An unknown email and a wrong password both get 401. A matching password on an account whose email is not verified gets 403. It succeeds exactly for a verified account whose password matches; it then returns the session with the synchronised admin flag and writes nothing else |
| `Identity.Login` | server/src/auth.routes.js:145-174 | The handler ends in the reply and tables `LoginStep` describes, and keeps the key constraints |
| `Identity.RequestOtpStep` | server/src/auth.routes.js:177-211 | 400 for an empty email, 404 for an unknown non-admin email. It succeeds exactly for a known account or the admin, and the admin's account is created on first use. On success exactly one challenge is appended and the development code returned |
| `Identity.RequestOtp` | server/src/auth.routes.js:177-211 | The handler ends in the reply and tables `RequestOtpStep` describes, and keeps the key constraints |
| `Identity.VerifyOtpOutcomes` | server/src/auth.routes.js:214-250 | Verify-otp answers 400 for missing fields, 401 with no account or no pending challenge, 429 for a blocked challenge, 401 for an expired one, and 401 for a wrong code (without touching users); it succeeds exactly when the selected challenge accepts the code, and the session is then email-verified |
| `Identity.VerifyOtpStep` | server/src/auth.routes.js:214-250 | Verify-otp never touches orders; every refusal leaves users unchanged; a session it returns is email-verified |
| `Identity.VerifyChallenge` | server/src/auth.routes.js:229-245 | On the selected challenge, a refusal leaves users unchanged, orders are never touched, and a session returned is email-verified |
| `Identity.ChallengeVerdicts` | server/src/auth.routes.js:229-245 | Each verdict on the selected challenge gets the reply the handler writes for it |
| `Identity.VerifyOtpSelects` | server/src/auth.routes.js:224-228 | Past the field and account checks, the reply is decided by the newest unconsumed challenge |
| `Identity.VerifyOtpMismatch` | server/src/auth.routes.js:233-237 | A wrong code adds one attempt to the selected challenge and changes nothing else |
| `Identity.ChallengeMismatch` | server/src/auth.routes.js:233-237 | A wrong code on a live challenge is answered 401 and counted against it |
| `Identity.VerifiedUserRow` | server/src/auth.routes.js:240-242 | Marking the account verified and then synchronising its admin flag rewrites that account's row and no other |
| `Identity.ChallengeAccepted` | server/src/auth.routes.js:239-245 | A matching code on a live challenge consumes it, verifies the account, synchronises the flag and signs the user in |
| `Identity.VerifyOtpAccepted` | server/src/auth.routes.js:239-245 | A correct code consumes exactly the selected challenge, marks exactly that account verified with the admin flag its email calls for, and returns its session |
| `Identity.VerifyOtpKeepsValid` | server/src/auth.routes.js:214-250 | Verify-otp keeps the key constraints of users and challenges |
| `Identity.VerifyOtp` | server/src/auth.routes.js:214-250 | The handler ends in the reply and tables `VerifyOtpStep` describes, and keeps the key constraints |
| `Identity.JudgeChallenge` | server/src/auth.routes.js:229-245 | The part of the handler after the challenge row is loaded ends as `VerifyChallenge` describes |
| `Identity.UpdateProfileStep` | server/src/auth.routes.js:275-290 | 401 without a session, 400 for a missing field. Otherwise it succeeds, rewrites the session user's name, digits-only phone and address, and clears phone verification; the returned session shows the same |
| `Identity.UpdateProfile` | server/src/auth.routes.js:275-290 | The handler ends in the reply and tables `UpdateProfileStep` describes, and keeps the key constraints |
| `AuthScenarios.SignupThenLoginNeedsOtp` | server/src/auth.routes.js:163-165 | A freshly signed-up account cannot log in with its password before verifying its email; for a non-admin email, logging in with the signup password gets 403 |
| `AuthScenarios.SignupIsRecognised` | server/src/auth.routes.js:128-143 | After signup, check-user reports the account, with the signup phone, as not yet verified |
| `AuthScenarios.FreshChallengeSelected` | server/src/auth.routes.js:224-227 | A newly appended challenge that no stored one postdates is the one verify-otp selects |
| `AuthScenarios.CodeIsTrimmed` | server/src/auth.routes.js:64-67 | An issued code is unchanged by the trimming verify-otp applies |
| `AuthScenarios.RequestThenVerify` | server/src/auth.routes.js:177-250 | The code request-otp issues signs the account in within five minutes and is refused as expired after that |
| `AuthScenarios.Missed` | server/src/auth.routes.js:235 | Wrong codes only add attempts: ids, users and orders are unchanged |
| `AuthScenarios.MissedKeepsSelection` | server/src/auth.routes.js:224-227 | Wrong codes do not change which challenge is selected |
| `AuthScenarios.OneMoreMiss` | server/src/auth.routes.js:233-237 | A challenge that has already taken some wrong codes takes one more attempt on the next wrong code |
| `AuthScenarios.MissesCountUp` | server/src/auth.routes.js:233-237 | After `n` wrong codes in a row, the selected challenge carries `n` attempts and nothing else has changed |
| `AuthScenarios.FiveMissesLockOut` | server/src/auth.routes.js:230 | After five wrong codes, the next attempt is refused with 429 whatever code it carries, the right one included |
| `AuthScenarios.CodeIsSingleUse` | server/src/auth.routes.js:239 | A code that signed the account in is never selected again; replaying it gets 401 when no other code is pending |
| `AuthScenarios.VerifiedAccountLogsIn` | server/src/auth.routes.js:145-174 | Once verified by a code, a non-admin account logs in with its password |
| `AuthScenarios.LowerKeepsUntrimmed` | server/src/auth.routes.js:53-62 | Lower-casing does not remove surrounding whitespace |
| `AuthScenarios.PaddedAdminEmailNeverFlagged` | server/src/auth.routes.js:42-62 | With whitespace around `ADMIN_EMAIL`, is-admin-email still recognises the admin, but the admin-flag rule that signup, login and verify-otp apply calls for the flag on no email. Request-otp's first-use provisioning still inserts the admin with the flag set (see `Identity.RequestOtpStep`), and the next synchronisation clears it |
| `AuthScenarios.UpdatedPhoneIsRecognised` | server/src/auth.routes.js:275-290 | After a profile update, check-user recognises the account with the new phone in any format |
| `Listing.TextLeTotal` | server/src/admin.routes.js:26 | Any two statuses are comparable under SQLite's BINARY collation |
| `Listing.TextLeTransitive` | server/src/admin.routes.js:26 | The BINARY collation is transitive |
| `Listing.InOrderTotal` | server/src/admin.routes.js:26 | Each of the four sort keys orders any two rows one way or the other |
| `Listing.InOrderTransitive` | server/src/admin.routes.js:26 | Each of the four sort keys is transitive |
| `Listing.Insert` | server/src/admin.routes.js:30 | Insertion adds exactly the one row to the rows |
| `Listing.InsertSorted` | server/src/admin.routes.js:30 | Inserting a row into a sorted list keeps it sorted |
| `Listing.SortBy` | server/src/admin.routes.js:30 | `ORDER BY` returns a permutation of the rows |
| `Listing.SortBySorted` | server/src/admin.routes.js:30 | `ORDER BY` returns the same rows, in key order |
| `Listing.Select` | server/src/admin.routes.js:29 | The WHERE clause returns no more rows than the table has |
| `Listing.SelectKeepsMatches` | server/src/admin.routes.js:29 | The WHERE clause returns exactly the rows that satisfy it, each as often as in the table |
| `Listing.LikeAnything` | server/src/admin.routes.js:24 | `'%'` matches every string |
| `Listing.OccursAtSuffix` | server/src/admin.routes.js:24 | An occurrence at position `i` is an occurrence at the start of the suffix from `i` |
| `Listing.LikePrefix` | server/src/admin.routes.js:24 | A wildcard-free pattern followed by `'%'` matches exactly the strings that start with it, ignoring ASCII case |
| `Listing.LikeLeadingPercent` | server/src/admin.routes.js:24 | A leading `'%'` matches when the rest matches some suffix |
| `Listing.LikeContains` | server/src/admin.routes.js:24 | `s LIKE '%q%'` for a wildcard-free `q` holds exactly when `q` occurs in `s`, ignoring ASCII case |
| `Listing.Like` | server/src/admin.routes.js:24 | A pattern without `%` or `_` matches exactly the strings of its length equal to it up to ASCII letter case |
| `Listing.LiteralStep` | server/src/admin.routes.js:24 | A wildcard-free pattern matches at the start of a string exactly when its first character matches and the rest matches at the start of the rest |
| `Orders.SafeChar` | server/src/orders.routes.js:34 | Each character becomes a file-name character, and a file-name character stays itself |
| `Orders.SafeName` | server/src/orders.routes.js:34 | The sanitised name has the original's length and only `[A-Za-z0-9._-]` |
| `Orders.SafeNameReplaces` | server/src/orders.routes.js:34 | Allowed characters stay in place, and every other character becomes '_' |
| `Orders.SafeNameFixes` | server/src/orders.routes.js:34 | A name is unchanged exactly when it is already safe, so sanitising is idempotent |
| `Orders.StoredFilename` | server/src/orders.routes.js:35 | The stored name is the timestamp's digits, a '-' and the sanitised name |
| `Orders.StoredFilenameParts` | server/src/orders.routes.js:33-36 | The stored name splits at its first '-' into the upload time and the sanitised original name. It uses only file-name characters, so it cannot leave the upload directory, and it is never "." or ".." |
| `Orders.FileFilter` | server/src/orders.routes.js:42-46 | An accepted type is "application/pdf" or starts with "image/"; PDF and the common image types are accepted; every other "application/" type is refused |
| `Orders.FilterFailure` | server/src/orders.routes.js:42-46 | The filter raises an error exactly for files that are neither images nor PDFs |
| `Orders.UploadErrorReply` | server/src/orders.routes.js:173-181 | The error handler answers exactly the upload library's own errors and passes every other error on |
| `Orders.UploadErrorStatuses` | server/src/orders.routes.js:173-181 | Every upload error is answered: 413 exactly for an oversized file, 400 otherwise, and an unknown code is echoed after "Upload error: " |
| `Orders.RefusedTypeReply` | server/src/orders.routes.js:42-46 | A refused file type is answered 400 with the image/PDF message |
| `Orders.Esc` | server/src/orders.routes.js:96 | Escaping never shortens the text |
| `Orders.UnescapeEscChar` | server/src/orders.routes.js:96 | Decoding undoes the escape of one character |
| `Orders.EscRoundTrip` | server/src/orders.routes.js:96 | Escaping loses nothing: decoding the three entities gives the text back |
| `Orders.EscIsSafe` | server/src/orders.routes.js:96 | Escaped text contains no '<' or '>', and text without '&', '<' or '>' is left as it is |
| `Orders.FileEntry` | server/src/orders.routes.js:55 | A file's public path is "/uploads/" followed by its stored name |
| `Orders.FileEntries` | server/src/orders.routes.js:55 | There is one file entry per uploaded file |
| `Orders.NewOrder` | server/src/orders.routes.js:57-80 | The new row has the given id, owner and time, status "pending" and an unpaid payment, the form's fields with their defaults ("print", "vinyl", "deliver", quantity 1, total 0), and one stored-file entry per upload, in order, under "/uploads/" |
| `Orders.PlaceOrderStep` | server/src/orders.routes.js:49-155 | A rejected upload is answered before the session is checked and writes nothing. Without a session the reply is 401. The order is placed exactly when the upload is accepted, there is a session and the id is free; it then appends one row and returns its id. Every error leaves the tables unchanged |
| `Orders.PlacedOrderRow` | server/src/orders.routes.js:57-80 | The new row is owned by the session user, with the form's defaults, status "pending", an unpaid payment with no provider data, and the uploaded files in order |
| `Orders.UploadFailureFirst` | server/src/orders.routes.js:173-181 | A rejected upload gets the error handler's answer, whatever the session |
| `Orders.PlaceOrderKeepsValid` | server/src/orders.routes.js:83-91 | Placing an order keeps order ids unique |
| `Orders.PlaceOrder` | server/src/orders.routes.js:49-155 | The handler ends in the reply and tables `PlaceOrderStep` describes, and keeps the key constraints |
| `Orders.MyOrders` | server/src/orders.routes.js:157-168 | The list is refused with 401 exactly when there is no session |
| `Orders.MyOrdersAreMine` | server/src/orders.routes.js:161 | Every listed order belongs to the session user, and each of that user's orders is listed as often as it is stored |
| `Orders.MyOrdersNewestFirst` | server/src/orders.routes.js:161 | The list is newest first |
| `Payments.IsConfiguredMeansNonBlank` | server/src/payments.routes.js:8-10 | Payments are configured exactly when key id and secret each contain a non-whitespace character |
| `Payments.IsConfigured` | server/src/payments.routes.js:8-10 | A configured key id and secret are both non-empty |
| `Payments.FindOwnedOrder` | server/src/payments.routes.js:28-31 | A row found has the requested id and belongs to the session user |
| `Payments.FindOwnedOrderIsFirst` | server/src/payments.routes.js:28-31 | The query finds a row exactly when the user owns an order with that id, and it finds the first such row |
| `Payments.FindOwnedOrderAt` | server/src/payments.routes.js:28-31 | With unique order ids, the row found is the only row with that id |
| `Payments.RecordIntent` | server/src/payments.routes.js:56-59 | Recording the provider order keeps every order id |
| `Payments.RecordIntentAt` | server/src/payments.routes.js:56-59 | With unique ids, recording the provider order rewrites only the owned row |
| `Payments.RecordPayment` | server/src/payments.routes.js:109-119 | Recording a payment keeps every order id |
| `Payments.RecordPaymentAt` | server/src/payments.routes.js:109-119 | With unique ids, recording a payment rewrites only the owned row |
| `Payments.CreateIntentStep` | server/src/payments.routes.js:19-73 | Create answers 401 without a session, 501 when unconfigured, 400 for a blank order id and 404 for an order the user does not own, in that order, and calls the provider in none of these cases. It never touches users or challenges |
| `Payments.IsPaid` | server/src/payments.routes.js:36 | An order counts as paid only when its payment status is a 4-letter string, and a status of exactly "paid" always counts |
| `Payments.ChargeOrder` | server/src/payments.routes.js:34-71 | On the row found, the handler calls the provider at most once and keeps every order id |
| `Payments.CreateIntentKeepsValid` | server/src/payments.routes.js:19-73 | Create keeps the key constraints |
| `Payments.CreateIntentCharges` | server/src/payments.routes.js:28-34 | Past the guards, create acts on the row the query finds |
| `Payments.CreateIntentRefuses` | server/src/payments.routes.js:34-38 | An order with no positive total, or already paid, is refused with 400 and no provider call |
| `Payments.CreateIntentReuses` | server/src/payments.routes.js:41-45 | An order that already has a provider order gets that id back with its total as the amount, without calling the provider or writing |
| `Payments.Intended` | server/src/payments.routes.js:56-59 | Recording the provider order keeps every order id |
| `Payments.CreateIntentCreates` | server/src/payments.routes.js:45-71 | Otherwise exactly one provider request is made for the total in INR with receipt "order_<id>". If it succeeds, the provider order is recorded as 'created' and returned with the provider's amount; if it throws, the reply is 500 and nothing is written |
| `Payments.IntentIsUnpaid` | server/src/payments.routes.js:58 | An order with status 'created' does not count as paid |
| `Payments.CreateIntentIdempotent` | server/src/payments.routes.js:40-60 | A second create for the same order returns the same provider order without calling the provider or changing the tables |
| `Payments.CreateIntent` | server/src/payments.routes.js:19-73 | The handler ends in the reply, tables and provider calls `CreateIntentStep` describes, and keeps the key constraints |
| `Payments.ChargeRow` | server/src/payments.routes.js:34-71 | The part of the handler after the row is found ends as `ChargeOrder` describes |
| `Payments.VerifyPaymentStep` | server/src/payments.routes.js:75-126 | Verify answers 401, 501, 400 for a missing field and 400 for a bad signature, in that order, and writes nothing in these cases. It never touches users or challenges |
| `Payments.SignedMessage` | server/src/payments.routes.js:91 | The signed text splits back at its first vertical bar into the provider order id and the payment id, whenever the order id has no vertical bar |
| `Payments.SignatureValid` | server/src/payments.routes.js:81-96 | A receipt's signature checks out exactly when its trimmed signature is the HMAC, under the trimmed secret, of its trimmed provider order id and payment id joined by a vertical bar |
| `Payments.SignatureIgnoresPadding` | server/src/payments.routes.js:81-96 | Whitespace around the receipt's fields never changes the verdict on its signature |
| `Payments.SettleOrder` | server/src/payments.routes.js:98-121 | Past the signature check, verify keeps every order id and touches only orders |
| `Payments.VerifyPaymentKeepsValid` | server/src/payments.routes.js:75-126 | Verify keeps the key constraints |
| `Payments.VerifyPaymentSettles` | server/src/payments.routes.js:98-121 | A signed receipt is judged by the order lookup alone |
| `Payments.Settled` | server/src/payments.routes.js:109-119 | A recorded payment counts as paid |
| `Payments.Receipted` | server/src/payments.routes.js:109-119 | Recording a receipt keeps every order id |
| `Payments.VerifyPaymentRecords` | server/src/payments.routes.js:104-121 | A signed receipt for an owned order is refused with 400 when the order holds a different provider order id. Otherwise it is recorded as paid on exactly that row with the trimmed ids, the signature and the time |
| `Payments.VerifyPaymentNotFound` | server/src/payments.routes.js:104 | A signed receipt for an order the user does not own gets 404 and writes nothing |
| `Payments.VerifyPayment` | server/src/payments.routes.js:75-126 | The handler ends in the reply and tables `VerifyPaymentStep` describes, and keeps the key constraints |
| `Payments.SettleRow` | server/src/payments.routes.js:98-121 | The part of the handler after the signature check ends as `SettleOrder` describes |
| `Payments.PaidOrderRefusesCreate` | server/src/payments.routes.js:36-38 | After a successful verify, create refuses the order with 400 and calls no provider |
| `Payments.ReverifyOverwrites` | server/src/payments.routes.js:105-119 | Verifying a paid order again with the same provider order id succeeds and overwrites the payment id, signature and time |
| `Payments.CreateThenVerify` | server/src/payments.routes.js:19-126 | Create followed by a signed receipt for the provider order it created records it 'created' and then 'paid' with that provider order, never touching the order's own status |
| `Admin.AdminGuardMatchesFlag` | server/src/admin.routes.js:6-12 | For a user with a normalised email and a synchronised flag, the admin guard passes exactly when the email is the configured admin's |
| `Admin.IsAdminSession` | server/src/admin.routes.js:6-12 | The guard passes only for a session flagged admin whose email has the length of `ADMIN_EMAIL`, and always passes for a flagged session whose email is the lower-cased `ADMIN_EMAIL` |
| `Admin.SortKeyOf` | server/src/admin.routes.js:26 | Any `sort` other than the three named ones sorts newest first |
| `Admin.BuildFilter` | server/src/admin.routes.js:19-25 | The WHERE clauses pushed, with their parameters, hold for a row exactly when its status equals the requested one (if given) and the search text occurs in its email, name or order id (if given) |
| `Admin.UserWithId` | server/src/admin.routes.js:28 | A user is found exactly when one has that id, and it is that user |
| `Admin.Join` | server/src/admin.routes.js:28 | The join has no more rows than there are orders |
| `Admin.JoinRows` | server/src/admin.routes.js:28 | Every joined row is an order with an owner, carrying that owner's email, name and phone; each order with an owner appears as often as it is stored, and an order without one does not appear |
| `Admin.ListedRows` | server/src/admin.routes.js:15-38 | The list has no more rows than there are orders, and every row is a stored order the filter wants |
| `Admin.ListedRowsFromOrders` | server/src/admin.routes.js:15-38 | Every row of the filtered, sorted join is a stored order the filter wants |
| `Admin.ListedRowsAreWanted` | server/src/admin.routes.js:15-38 | The list holds exactly the joined rows the filter wants, each as often as in the join, in the requested order |
| `Admin.SearchIsSubstring` | server/src/admin.routes.js:22-24 | A wildcard-free search finds a row exactly when the text occurs, ignoring ASCII case, in the customer's email, the customer's name or the order id, and the row has the requested status if one is given |
| `Admin.ListOrders` | server/src/admin.routes.js:6-38 | The list is refused with 403 exactly for a non-admin session, and otherwise is the filtered, joined and sorted rows |
| `Admin.SelectAgrees` | server/src/admin.routes.js:29 | Two filters that agree on every row select the same rows |
| `Admin.SetStatus` | server/src/admin.routes.js:48 | The status update keeps every order id |
| `Admin.UpdateStatusStep` | server/src/admin.routes.js:41-54 | 403 for a non-admin, then 400 for a status outside the six allowed; it succeeds exactly for an admin with an allowed status, and touches only orders |
| `Admin.UpdateStatusRows` | server/src/admin.routes.js:48 | An accepted update gives every row with that id the new status and leaves the others unchanged; an unknown id changes nothing |
| `Admin.UpdateStatusKeepsValid` | server/src/admin.routes.js:41-54 | The status update keeps the key constraints |
| `Admin.UpdateStatus` | server/src/admin.routes.js:41-54 | The handler ends in the reply and tables `UpdateStatusStep` describes, and keeps the key constraints |
| `Admin.PaidOffline` | server/src/admin.routes.js:65-71 | Marking paid offline keeps the provider order id, payment id and signature |
| `Admin.SetPayment` | server/src/admin.routes.js:65-80 | The payment update keeps every order id |
| `Admin.UpdatePaymentStep` | server/src/admin.routes.js:57-87 | 403 for a non-admin, then 400 unless the lower-cased status is "paid" or "unpaid"; it succeeds exactly otherwise, and touches only orders |
| `Admin.MarkPaidRows` | server/src/admin.routes.js:65-71 | Marking paid sets status "paid", provider "offline" and the time on the rows with that id, keeps their provider ids and changes nothing else |
| `Admin.MarkUnpaidRows` | server/src/admin.routes.js:72-80 | Marking unpaid clears every provider column of the rows with that id and changes nothing else; doing it again changes nothing |
| `Admin.UpdatePaymentKeepsValid` | server/src/admin.routes.js:57-87 | The payment update keeps the key constraints |
| `Admin.UpdatePayment` | server/src/admin.routes.js:57-87 | The handler ends in the reply and tables `UpdatePaymentStep` describes, and keeps the key constraints |
| `Lifecycle.PlacedOrderIsChargeable` | server/src/payments.routes.js:41-51 | A freshly placed order with a positive total, charged by its owner, leads to exactly one provider request for its total |
| `Lifecycle.OfflinePaidBlocksCharge` | server/src/payments.routes.js:36-38 | After the admin marks an order paid, the card payment route refuses it with 400 and calls no provider |
| `Lifecycle.OfflineUnpaidStartsOver` | server/src/payments.routes.js:45-51 | After the admin marks an order unpaid, the next card payment asks the provider for a new order for its total |
| `Sms.HasCountry` | server/src/sms.js:18 | A number carrying the country has the country digits as a prefix; a number of 10 digits or fewer never carries it |
| `Sms.ToE164` | server/src/sms.js:3-23 | No destination exactly when no number is stored |
| `Sms.PlusNumberVerbatim` | server/src/sms.js:14-15 | A number starting with '+' is used as stored |
| `Sms.OtherNumberShape` | server/src/sms.js:16-23 | Any other number becomes its digits behind '+', when no country code is set or the number already carries it, and otherwise behind the configured country code |
| `Sms.FormattedDigits` | server/src/sms.js:10-23 | The formatted number's digits are the stored digits, preceded by the country's digits exactly when the code was prepended; the country code is never doubled |
| `Sms.FormatIsStable` | server/src/sms.js:14-15 | Formatting a formatted '+' number again changes nothing |
| `Sms.PlusCountryCodeGivesE164` | server/src/sms.js:16-23 | With a country code of the form '+digits', every number ends in E.164 form: '+' followed by digits only |

## Left out

- Network, sessions and I/O. Express routing, cookies, rate limiters, the
  mailer (`notify.js`), the HTML of the order notification and the SMS
  gateway call are not part of this model. The session user is an
  `Option<SessionUser>` input. `esc` is modelled, but the HTML template it
  feeds is not.
- GET /me (`server/src/auth.routes.js:258-272`) is not modelled. It reloads
  the session user and re-synchronises the admin flag as login does
  (`Identity.SyncAdminFlag`), then rewrites the session. POST /logout only
  drops the session.
- bcrypt, uuid, `Math.random`, the clock and HMAC-SHA256 become parameters:
  - bcrypt hashing and comparison, as hash and matcher functions;
  - the uuids;
  - the random draw;
  - one clock reading per request;
  - HMAC-SHA256, as an uninterpreted function.
- The payment provider is an oracle from the request to its order, or to
  nothing when the call throws.
- Other database failures: the only thrown error modelled is a key collision
  on insert, answered 500. The database is assumed to answer otherwise.
- Timestamps are integer milliseconds, not ISO strings. ISO strings of the
  same length order as their times.
- Amounts are integer minor units. `Number(...)` parsing, NaN and floating
  point are not modelled: numeric form fields arrive as `Option<int>`, and
  `Math.round(total * 100)` is the stored total itself.
- Request bodies whose fields are not strings are not modelled: every body
  field is a string, with "" for a missing one.
- Case conversion: `toLowerCase` is modelled for ASCII letters only. This is
  exact for the constants "paid" and "unpaid".
- `Text.Lower` and `Identity.NormalizeEmail`: JavaScript's `toLowerCase` also
  lower-cases non-ASCII letters ('É' to 'é', the Kelvin sign U+212A to 'k').
  In the model such letters keep their case. Emails that differ only in them
  are then distinct accounts, where the server merges them
  (`server/src/auth.routes.js:35`). Such an email also never matches
  `ADMIN_EMAIL` when only the letter case differs
  (`server/src/auth.routes.js:54`, `server/src/admin.routes.js:7-8`).
- `Identity.NewestUnconsumed` and `AuthScenarios.FreshChallengeSelected`: when
  two unconsumed challenges for an email share `created_at`, SQLite may
  return either. The model takes the later-inserted one, and
  `FreshChallengeSelected` relies on that choice when its challenge ties with
  a stored one.
- `Orders.SafeName`: a character outside the Basic Multilingual Plane becomes
  one '_' here, but two in JavaScript, which works on UTF-16 code units.
- The `files` column is stored as a list, not as JSON text. Stringify then
  parse is taken to be the identity. The model does not keep
  `absolutePath`, which the stored JSON holds.
- The upload middleware. Its outcome is an input: the stored files, or the
  error it raises. The order in which it checks limits is not modelled.
  Files already written to disk before an error are left out.
- `Listing.SortBy`: SQLite leaves the order of rows with equal keys open.
  The model keeps them in table order.
- `Admin.UserWithId` requires unique user ids. The `users` table's primary
  key guarantees them.
- LIKE on NULL columns: a user's name is always a string here.
- The OTP phone column of `otp_logins` is not modelled; it is only written.
- `Identity.VerifyOtpMismatch` and `AuthScenarios.FiveMissesLockOut` require
  unique challenge ids. The table's primary key guarantees them.
- `Payments.CreateIntentIdempotent` assumes the provider returns a non-empty
  order id. An empty id would not be reused (the handler tests it for
  truthiness).
- `Payments.CreateIntentReuses`: a reused provider order is returned with
  the stored total as its amount, as the handler does. It is not compared
  with what the provider first confirmed.
- The Express default error handler, reached by errors the upload error
  handler passes on, is modelled as a 500 reply "Internal Server Error".
- The schema in `db.js` is modelled by `Store` (three tables and their keys).
  The migrations, the backup script and the reset script are not part of
  this model.
