# Lead-capture payment backend, modelled in Dafny

This project models the core of a small Express/Mongoose backend. The backend signs up a course applicant, asks the Razorpay gateway for an order, and sends the browser to Razorpay's hosted checkout. Razorpay's callbacks then settle the payment. Four request handlers and the form validator are modelled:

- `validateUser` (`validation.dfy`) validates the sign-up form against a Joi schema. It reports every field's error, or replaces the body with the sanitised value (trimmed name and city, unknown keys dropped).
- `submitFormAndCreatePayment` (`user_controller.dfy`) runs one transaction. It refuses a duplicate email or mobile. Otherwise it saves the user, creates the gateway order, saves the payment, links the user to the payment and commits. The response is a 303 to the checkout URL.
- `getUserDetails` (`user_controller.dfy`) looks a user up with its payment populated.
- `verifyPayment` and `handlePaymentFailure` (`payment_controller.dfy`) are Razorpay's success and cancel callbacks.
  - `verifyPayment` checks the HMAC-SHA256 signature. It finds the user through the order's notes. In one transaction it either marks the payment paid and the user completed, or marks both failed.
  - `handlePaymentFailure` marks the payment cancelled and the user failed.
  - Both redirect to the frontend with a marker in the query.

How the layers fit together:

- **The database** is a class `Store.Db`. It holds the two collections as maps, plus the snapshot an open transaction would restore on abort. The controllers are imperative methods on it.
- **Specification functions** (`VerifyOutcome`, `FailureOutcome`, `SubmitOutcome`) say what each handler does to the collections and what it answers. Each handler method is proved to agree with its specification function. Their contracts say, path by path, what is written and what the answer is, error paths included. Separate lemmas state the properties that relate several calls.
- **Outside calls are parameters:** the HMAC, the two Razorpay calls, the random receipt suffix and the ids the driver assigns. A driver call that throws is named by a `fault: Option<DbStep>` parameter.
- **JavaScript semantics are written out:** `trim`, UTF-16 `length`, `parseInt(s, 10)` with NaN as `None`, and `Buffer.toString('hex')` in `js_text.dfy`; `||` defaults (`OrDefault`) and `undefined` in template literals (`Interpolated`) in `records.dfy`.

The two callbacks overwrite a payment's status whatever it currently is. A payment already `paid` becomes `failed` after a later callback with a bad signature, or `cancelled` after a later cancel callback (`ForgedCallbackOverwritesPaid`, `CancelOverwritesPaid`). Nothing in the code treats `paid`, `failed` or `cancelled` as final, and the model follows the code. What does hold is idempotence: the same callback delivered twice has the effect of delivering it once (`VerifyIdempotent`, `FailureIdempotent`).

## Model

| member | source | states |
|---|---|---|
| JsText.SkipSpace | src/middleware/validation.js:4-8 | the index found is the first one at or after the start that is not ECMAScript white space, or the end |
| JsText.TrimStart | src/middleware/validation.js:4-8 | the result is the suffix left after dropping a prefix made only of ECMAScript white space, and does not itself start with white space |
| JsText.TrimEnd | src/middleware/validation.js:4-8 | the result is the prefix left after dropping a suffix made only of white space, and does not itself end with white space |
| JsText.Trim | src/middleware/validation.js:4-8 | the trimmed value is no longer than the input and has no white space left at either end |
| JsText.TrimKeepsMiddle | src/middleware/validation.js:4-8 | the trimmed value is a contiguous middle part of the input, with only white space cut on either side |
| JsText.TrimOfTrimmed | src/middleware/validation.js:31-35 | a string with no white space at its ends is left unchanged by trimming |
| JsText.TrimIdempotent | src/middleware/validation.js:31-35 | trimming twice is trimming once |
| JsText.Utf16Length | src/middleware/validation.js:6-7 | the length Joi's `min` and `max` compare is between the number of characters and twice that |
| JsText.Utf16LengthOfBasicPlane | src/middleware/validation.js:6-7 | text within the basic multilingual plane has as many UTF-16 code units as characters |
| JsText.Utf16LengthOfAstral | src/middleware/validation.js:33-34 | one character above U+FFFF is one character but two code units, so it alone meets a minimum of 2 |
| JsText.SkipDigits | src/controllers/userController.js:37 | `parseInt` reads the longest run of decimal digits: everything up to the index found is a digit, and a non-digit or the end follows |
| JsText.ParseInt | src/controllers/userController.js:37 | `parseInt(s, 10)` is NaN exactly when no decimal digit follows the leading white space and the optional sign; a negative result comes only after a minus sign |
| JsText.DigitsValueOfDecimal | src/controllers/userController.js:37 | the value read from the decimal rendering of n is n |
| JsText.ParseIntOfDecimal | src/controllers/userController.js:37 | `parseInt(s, 10)` reads back the decimal rendering of every natural number |
| JsText.ParseIntOfNumeral | src/controllers/userController.js:37 | text made of white space, one optional `+` or `-` and then a run of digits ended by a non-digit or the end parses to the value of those digits, negated after a minus; what follows the run is ignored |
| JsText.ParseIntOfNonNumeric | src/controllers/userController.js:37 | text that starts with neither white space, a sign nor a digit (such as `"undefined"`) is NaN |
| JsText.TrimStartSkipsSpace | src/middleware/validation.js:4-8 | leading white space before a non-space character is exactly what trimming the start removes |
| JsText.HexOfBytes | src/controllers/userController.js:38 | the hex encoding has two characters per byte, all lower-case hex digits |
| JsText.HexOfBytesInjective | src/controllers/userController.js:38 | equal hex encodings come from equal bytes |
| Records.UpdatePaymentByOrder | src/controllers/paymentController.js:53-61 | `findOneAndUpdate` by order id changes only the payment filed under that order id, whatever its status, and is a no-op when none exists |
| Records.SetUserStatus | src/controllers/paymentController.js:63 | `findByIdAndUpdate` changes only that user's status and is a no-op for an unknown id |
| Records.OrDefault | src/controllers/paymentController.js:28 | `value \|\| fallback`: an undefined or empty variable falls back to the default URL |
| Records.Interpolated | src/controllers/userController.js:56-57 | a set variable is interpolated as its value, an unset one as the text `undefined` |
| Records.CancelUrlsDistinct | src/controllers/paymentController.js:81-87 | distinct outcomes redirect to distinct cancel URLs |
| Records.RedirectUrl | src/controllers/paymentController.js:28-132 | the redirect is the configured success page followed by `?payment_id=` and the payment id, or the configured cancel page followed by `?` and the marker's query, and each part reads back from the URL |
| Store.Db.StartTransaction | src/controllers/paymentController.js:9-10 | the session remembers the collections as they are at the start |
| Store.Db.CommitTransaction | src/controllers/paymentController.js:65 | a commit keeps every write and closes the transaction; a commit that throws leaves it open |
| Store.Db.AbortTransaction | src/controllers/paymentController.js:85 | an abort restores both collections to their state at the start |
| Store.Db.EndSession | src/controllers/paymentController.js:88-89 | ending the session aborts a transaction still open and otherwise changes nothing |
| Store.Db.FindOneAndUpdatePayment | src/controllers/paymentController.js:53-61 | the payments become `UpdatePaymentByOrder` of the old ones, unless the call throws; users and the snapshot are untouched |
| Store.Db.FindByIdAndUpdateUser | src/controllers/paymentController.js:63 | the users become `SetUserStatus` of the old ones, unless the call throws; payments and the snapshot are untouched |
| Store.Db.InsertUser | src/controllers/userController.js:26-35 | the user is added under its id, or the save throws (a fault or a duplicate id) and nothing changes |
| Store.Db.InsertPayment | src/controllers/userController.js:59-68 | the payment is added under its order id, or the save throws (a fault, a taken order id or a taken document id) and nothing changes |
| Store.Db.SetUserPaymentId | src/controllers/userController.js:71-72 | the saved user now points at the payment, or the save throws and nothing changes |
| PaymentController.ReadCallback | src/controllers/paymentController.js:20-25 | the callback is read from the query on GET and from the body otherwise, and is accepted exactly when all three fields are truthy |
| PaymentController.NotesUserId | src/controllers/paymentController.js:43-49 | a user id is found exactly when an order came back with a truthy `notes.userId` |
| PaymentController.SignedMessage | src/controllers/paymentController.js:32 | the signed message is the order id, one `\|`, then the payment id, each recoverable from it |
| PaymentController.SignedMessageInjective | src/controllers/paymentController.js:32-38 | for order ids without `\|` (as the gateway issues them), equal signed messages come from the same order and payment ids, so the signature `IsAuthentic` compares covers both ids |
| PaymentController.Settle | src/controllers/paymentController.js:53-63 | both writes of a settling callback: no record is added or removed; the order's payment gets the update and the user only its new status; every other payment and user is unchanged; an absent order or user is left alone |
| PaymentController.VerifyOutcome | src/controllers/paymentController.js:8-92 | missing params and invalid orders change nothing, whatever the signature. Success exactly when the callback is well formed, tied to a user, authentic and written without error; it then carries the payment id and has written the payment paid with the gateway's ids and the user completed. `signature_failed` exactly when all that holds but the signature does not match; it has then written the payment and the user failed. A throwing fetch, write or commit answers `server_error` and writes nothing. Every other answer writes nothing. |
| PaymentController.SettleInTransaction | src/controllers/paymentController.js:53-65 | without a throw both writes are committed and the transaction closed; with one the transaction stays open for the caller to abort |
| PaymentController.VerifyPayment | src/controllers/paymentController.js:8-92 | the handler leaves the collections and redirects exactly as `VerifyOutcome` says, with the session closed |
| PaymentController.FailureOutcome | src/controllers/paymentController.js:95-136 | always a cancel redirect; `missing_order_id` exactly when the query has no truthy `orderId`; with a user in the notes and no error the payment is cancelled, the user failed and `user_cancelled` sent; without one, nothing is written and `user_cancelled` is still sent; `server_error` exactly when the fetch, a write or the commit throws, and then nothing is written |
| PaymentController.HandlePaymentFailure | src/controllers/paymentController.js:95-136 | the handler leaves the collections and redirects exactly as `FailureOutcome` says, with the session closed |
| PaymentController.ApplyPaymentUpdateIdempotent | src/controllers/paymentController.js:53-61 | applying a payment update twice is applying it once |
| PaymentController.SettleIdempotent | src/controllers/paymentController.js:51-82 | settling an order twice with the same writes is settling it once |
| PaymentController.SettlePreservesValid | src/controllers/paymentController.js:51-82 | settling keeps the collection invariant: records under their own keys, unique contacts and payment ids, every payment linked to its user both ways |
| PaymentController.VerifyIdempotent | src/controllers/paymentController.js:8-92 | delivering the same verify callback again changes nothing and gives the same redirect |
| PaymentController.FailureIdempotent | src/controllers/paymentController.js:95-136 | delivering the same cancel callback again changes nothing and gives the same redirect |
| PaymentController.VerifyPreservesValid | src/controllers/paymentController.js:8-92 | the verify callback keeps the collection invariant |
| PaymentController.FailurePreservesValid | src/controllers/paymentController.js:95-136 | the cancel callback keeps the collection invariant |
| PaymentController.ForgedNeverPays | src/controllers/paymentController.js:51-82 | a callback whose signature does not match never makes any payment paid that was not paid before |
| PaymentController.ForgedCallbackOverwritesPaid | src/controllers/paymentController.js:70-82 | a callback with a bad signature for an order already paid turns the payment to failed, keeping the payment id stored earlier, and fails its user |
| PaymentController.CancelOverwritesPaid | src/controllers/paymentController.js:112-123 | a cancel callback for an order already paid turns the payment to cancelled |
| UserController.Amount | src/controllers/userController.js:37 | the amount is the parsed `PAYMENT_AMOUNT` when that is a non-zero number, and 50000 when it is NaN (unset or non-numeric) or zero |
| UserController.AmountOfConfigured | src/controllers/userController.js:37 | a configured positive amount is used as it is |
| UserController.AmountOfNumeral | src/controllers/userController.js:37 | a value with leading white space, an optional sign and digits followed by a non-digit or the end is used as that signed number (`-100`, ` 500`, `+500`, `500abc`), and falls back to 50000 when the number is zero (`00`, `-0`, ` 0`) |
| UserController.AmountFallsBack | src/controllers/userController.js:37 | an unset variable and "0" both give 50000 |
| UserController.Receipt | src/controllers/userController.js:38-39 | the receipt is `rcpt_`, the user id, `_` and six lower-case hex digits |
| UserController.ReceiptDeterminesRandom | src/controllers/userController.js:38-39 | two receipts of one user are equal only for equal random bytes |
| UserController.OrderOptionsFor | src/controllers/userController.js:41-50 | the order asks for the configured amount in INR, with the receipt and notes naming the new user |
| UserController.Checkout | src/controllers/userController.js:76-88 | the checkout page has eight parameters, each name set once |
| UserController.CheckoutParams | src/controllers/userController.js:76-88 | under its own name, the page carries the key id, the order id, the course name, the form's name, email and mobile, this backend's verify route as `callback_url`, and its failure route with the order id as `cancel_url` |
| UserController.CancelOrderId | src/controllers/userController.js:57 | a URL on the failure route carries the text after the route prefix as its `orderId`, and prefix plus that text is the URL |
| UserController.CancelUrlCarriesOrder | src/controllers/userController.js:85 | the `cancel_url` of a checkout page carries back exactly that page's order id |
| UserController.NewUser | src/controllers/userController.js:26-32 | a new user holds the form's five fields, status pending and no payment |
| UserController.DuplicateCheckGuardsUniqueness | src/controllers/userController.js:15-24 | `HasDuplicate`, the duplicate lookup, is exactly the guard uniqueness needs: a new user keeps every email and mobile unique if and only if no registered user shares the form's email or mobile |
| UserController.SubmitOutcome | src/controllers/userController.js:8-96 | 400 with the duplicate message exactly when the lookup succeeds and finds a user with the same email or mobile. A lookup, insert, order creation, link or commit that throws, or a taken id, passes the error on and writes nothing. Any answer other than the redirect leaves the collections unchanged. The redirect means the gateway created an order, one new user and one new payment for it exist and are linked to each other, and the location is that order's checkout URL. When nothing fails, the call succeeds. |
| UserController.CreateLinkedRecords | src/controllers/userController.js:35-74 | throws exactly on a fault, a taken id or a failed order creation; otherwise the user and the payment are added, linked and committed |
| UserController.SavePaymentAndLink | src/controllers/userController.js:59-74 | saves the payment, links its user to it and commits, or throws with the transaction open |
| UserController.SubmitFormAndCreatePayment | src/controllers/userController.js:8-96 | the handler leaves the collections and answers exactly as `SubmitOutcome` says, with the session closed |
| UserController.SubmitPreservesValid | src/controllers/userController.js:15-74 | sign-up keeps the collection invariant, in particular no two users sharing an email or a mobile |
| UserController.AddUserKeepsContactsUnique | src/controllers/userController.js:15-35 | saving a user whose email and mobile are both unregistered keeps contacts unique |
| UserController.AddPaymentKeepsIdsUnique | src/controllers/userController.js:59-68 | saving a payment under a new order id with an unused document id keeps payment ids unique |
| UserController.AddLinkedPairKeepsLinks | src/controllers/userController.js:59-72 | a new user and a new payment pointing at each other keep every payment linked to its user both ways |
| UserController.SignUpThenAuthenticCallbackPays | src/controllers/paymentController.js:42-68 | after a successful sign-up, an authentic callback for the new order marks its payment paid with the gateway payment id and its user completed, and redirects to success |
| UserController.SignUpThenCancelCancels | src/controllers/paymentController.js:95-127 | after a successful sign-up, the cancel destination names the new order, and the failure callback with that id cancels its payment, fails its user and reports `user_cancelled` |
| UserController.GetUserDetails | src/controllers/userController.js:99-120 | 404 "User not found" exactly when the lookup succeeds and no such user exists; 200 with that user otherwise; the populated payment is present exactly when the user's `paymentId` names a stored payment, and is that payment |
| Validation.TrimmedLengthMessages | src/middleware/validation.js:4-13 | a trimmed string field passes exactly when present with a trimmed UTF-16 length within bounds; absent gives the required message, empty after trimming the empty message, too short the minimum message, too long the maximum message |
| Validation.MobileMessages | src/middleware/validation.js:15-21 | the mobile passes exactly when it matches the pattern; absent gives the required message, empty `Mobile number is required`, any other mismatch the Indian-mobile message |
| Validation.EmailMessages | src/middleware/validation.js:23-29 | the email passes exactly when non-empty and valid; absent gives the required message, empty `Email is required`, an invalid address the valid-email message |
| Validation.ExperienceMessages | src/middleware/validation.js:42-48 | the experience passes exactly when it is one of the four levels; absent gives the required message; empty gives the invalid-level message and then `Experience is required`; any other value the invalid-level message alone |
| Validation.MobilePatternIsRange | src/middleware/validation.js:16 | `MatchesMobilePattern`, the pattern `/^[6-9]\d{9}$/`, accepts exactly the ten-digit numerals worth at least 6000000000 |
| Validation.Check | src/middleware/validation.js:3-49 | a field has no message exactly when it is present and satisfies its rule; an absent schema key gets `"<key>" is required`; only an empty experience gets two messages, every other failure one |
| Validation.CollectErrors | src/middleware/validation.js:51-61 | with `abortEarly: false` every entry names a listed field and one of that field's messages |
| Validation.CollectErrorsPerField | src/middleware/validation.js:52-61 | each listed field is reported with exactly its own messages, in order, and any other field not at all |
| Validation.NoErrorsWhenAllPass | src/middleware/validation.js:52-57 | fields that all pass produce no error |
| Validation.PassesIffFollowsRules | src/middleware/validation.js:3-49 | the per-key schema check agrees with the five field rules written out: name and city within bounds once trimmed, a ten-digit mobile starting 6-9, a non-empty valid email, an allowed experience |
| Validation.PassesIffAllKeysPass | src/middleware/validation.js:3-49 | the body passes the schema exactly when no key's check reports an error |
| Validation.NoErrorsIffPasses | src/middleware/validation.js:52-57 | there are no errors exactly when the body passes the schema |
| Validation.Sanitised | src/middleware/validation.js:52-55 | the sanitised value keeps only the five schema keys; name and city lose their edge white space and nothing else; mobile, email and experience are kept as sent |
| Validation.SanitisedKeepsRules | src/middleware/validation.js:70 | the sanitised form keeps every rule: name and city within bounds and trimmed, a valid mobile, a valid email, an allowed experience |
| Validation.ValidateUser | src/middleware/validation.js:51-72 | the body is accepted exactly when it passes the schema; it then follows every field rule and is replaced by the sanitised form. Otherwise the answer is 400 "Validation failed" with a non-empty list in which every field has exactly its own messages, in order, and a passing field none. |
| Validation.AcceptedWhenFollowsRules | src/middleware/validation.js:51-72 | a body following every field rule is accepted, and the next handler gets its sanitised form |
| Validation.HeldFormAccepted | src/middleware/validation.js:3-49 | a body holding the fields of a form that keeps every rule, whatever other keys it has, is accepted as exactly that form |
| Validation.SanitisedBodyRevalidates | src/middleware/validation.js:70-71 | any body holding the sanitised fields installed for the next handler, whatever other keys it has, is accepted again with the same form |

## Left out

- Logging (`console.log`/`console.error`) and the HTTP plumbing (`res.status`, `res.json`, `res.redirect`) are left out. A handler's answer is a value.
- The HMAC-SHA256 digest is a function parameter. Its cryptography is not modelled, and `ForgedNeverPays` is stated about the digest's output, not about the difficulty of forging it.
- `RAZORPAY_KEY_SECRET` is a set string in the model. `src/config/razorpay.js` throws at load time when the key id or the secret is unset, so no handler runs without them.
- The Razorpay API calls (`orders.fetch`, `orders.create`) and the network behind them are function parameters.
- The random bytes and the ids MongoDB assigns are parameters. Razorpay returning the `notes` it was given is an assumption of `SignUpThenAuthenticCallbackPays`.
- The Mongoose models (`src/models/User.js`, `src/models/Payment.js`) are not part of this model. Three behaviours are assumed:
  - a new user's status is `pending`;
  - an insert under a taken id or order id throws a duplicate-key error;
  - the status enums hold the values the controllers write.
- Concurrency is not modelled. In particular the duplicate lookup in sign-up runs outside the session, and two sign-ups can race between that lookup and the insert. Each call is modelled as running alone.
- The MongoDB driver's own rules for aborting after a failed commit are not modelled. An abort after a throwing commit is treated as restoring the snapshot.
- A Mongoose `CastError` for a user id that is not an ObjectId is covered only as a thrown lookup (`throws`) in `GetUserDetails`, and as no match in the callbacks.
- Strings are sequences of Unicode scalar values. A JavaScript string holding an unpaired surrogate cannot be represented; lengths are still counted in UTF-16 code units (`Utf16Length`).
- JSON body values other than strings are not modelled, and neither are Joi's conversions of them. The body is a map from strings to strings.
- Joi's `.email()` check is a predicate parameter. Its address grammar is not modelled.
- URL encoding of the checkout query parameters is not modelled. `CheckoutUrl` keeps them as a list of pairs.
- The interpolated callback and redirect URLs are plain concatenation: the payment id and order id are not escaped.
- `parseInt` returns a JavaScript number. The model uses unbounded integers, so amounts beyond 2^53 and the `Infinity`/float cases are not captured.
- The routes (`src/routes/*.js`), `server.js` and `src/config/razorpay.js` are wiring only and are not part of this model.
- The routes send the verify callback only by POST, so the `GET` branch of `CallbackParams` is modelled but not reachable through them.
