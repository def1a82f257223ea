# veo3factory checkout, webhook, countdown and access gate in Dafny

This project models the parts of the veo3factory sales site whose decisions can be stated exactly. It then proves what those parts promise.

- **Checkout session creator** (`supabase/functions/stripe-checkout/index.ts`).
  - `validateParameters` is a loop method, proved against a recursive "first failing field" function.
  - `corsResponse` is a function.
  - The request handler is the class `StripeCheckout.CheckoutBackend`. Its fields are the `stripe_customers` and `stripe_subscriptions` tables, the payment provider's customers, the provider's customer counter and the provider's checkout sessions.
  - Every external call becomes one step. Whether that step succeeds is an input, the `Outcomes` record.
  - `Handle` states, for each branch, the response and the exact new state. It also keeps a store invariant:
    - at most one non-deleted mapping per user, each with a non-empty customer id;
    - at most one subscription row per customer;
    - fresh provider ids.
- **Webhook reconciler** (`supabase/functions/stripe-webhook/index.ts`).
  - The class `StripeWebhook.WebhookStore` holds the `users` and `payments` tables.
  - The envelope checks and the reading of the event are pure functions (`Envelope`, `Classify`).
  - `Handle` applies the writes the event asks for, swallowing datastore failures.
- **Landing-page countdown** (`src/components/HomePage.tsx`). The split of the remaining milliseconds into hours, minutes and seconds, and the two-character padding.
- **Access gate** (`src/components/ProtectedRoute.tsx`). The choice among four views.

Supporting modules:
- `Wrappers`: `Option`/`Result`.
- `Decimal`: decimal numerals and `padStart`.
- `Json`: JavaScript values and how the code reads them.
  - `== null`, truthiness;
  - property access that throws on `null`/`undefined`, and `?.`;
  - a last-binding-wins object lookup;
  - `JSON.stringify`, which writes an object's own properties in JavaScript's order (array-index keys first in ascending order, then the other keys where each was first set, a repeated key once with its last value), with a string-literal reader that inverts its escaping.
- `CheckoutToWebhook`: a lemma connecting the sessions the checkout opens to what the webhook does with them.

Modelling choices:
- JavaScript numbers are integers here.
- The provider names its `n`-th customer `cus_<n>` and its `n`-th session `cs_<n>`.
- The message of a thrown exception is an input string.
- The identity provider is a map from tokens to users.
- Details of the code that the model keeps:
  - the webhook answers `OPTIONS` with status 200 (the `Response` default, source line 12), while the checkout answers it with 204;
  - the webhook does not check that the method is `POST`;
  - a mapping row whose `customer_id` is empty counts as no mapping (source line 95), so a new customer and mapping are created for that user.

## Model

| member | source | states |
|---|---|---|
| Decimal.FromNat | src/components/HomePage.tsx:40-42 | `n.toString()` is a non-empty string of decimal digits |
| Decimal.ToNatFromNat | src/components/HomePage.tsx:40-42 | the numeral of `n` reads back as `n` |
| Decimal.FromNatInjective | src/components/HomePage.tsx:40-42 | distinct numbers have distinct numerals |
| Decimal.FromNatLength | src/components/HomePage.tsx:40-42 | a numeral has one digit iff `n < 10`, two iff `10 <= n < 100`, three or more iff `n >= 100` |
| Decimal.PadStart | src/components/HomePage.tsx:40-42 | `padStart`: the length is the larger of the width and the input's length, the input is a suffix, and everything before it is the fill character |
| Decimal.ToNatPadZeros | src/components/HomePage.tsx:40-42 | zero padding keeps a numeral all digits and keeps its value |
| Json.Lookup | supabase/functions/stripe-checkout/index.ts:46 | an absent property reads as `undefined`; a present one reads as the value of one of the key's members |
| Json.LookupLastWins | supabase/functions/stripe-checkout/index.ts:46 | the value of a key's last member is the one read, whatever members with other keys follow it |
| Json.Keys | supabase/functions/stripe-checkout/index.ts:242 | an object's keys, each exactly once: no repeats, and exactly the keys some member has |
| Json.FirstIndex | supabase/functions/stripe-checkout/index.ts:242 | the position of the first member with the key, and the object's length when no member has it |
| Json.KeysInFirstSetOrder | supabase/functions/stripe-checkout/index.ts:242 | `Keys` lists every key in the order it was first set: a key listed earlier has its first member earlier |
| Json.NamedKeysInFirstSetOrder | supabase/functions/stripe-checkout/index.ts:242 | leaving out the array-index keys keeps the remaining keys in the order they were first set |
| Json.SortIndexKeys | supabase/functions/stripe-checkout/index.ts:242 | the array-index keys in ascending numeric order, the same keys, still without repeats |
| Json.InsertIndexAscending | supabase/functions/stripe-checkout/index.ts:242 | inserting an index key into an ascending list keeps it ascending |
| Json.InsertIndexDistinct | supabase/functions/stripe-checkout/index.ts:242 | inserting a new index key into a list without repeats keeps it without repeats |
| Json.PropertyOrderIsOwnKeys | supabase/functions/stripe-checkout/index.ts:242 | the order `JSON.stringify` writes an object's properties in (`PropertyOrder`): each key of the object exactly once, every array-index key before every other key, the array-index keys ascending, the other keys in the order they were first set |
| Json.StringifyRepeatedKey | supabase/functions/stripe-checkout/index.ts:242 | setting a key that is already present writes the object as if its earlier members held the new value, in their places |
| Json.StringifyRepeatedKeyExample | supabase/functions/stripe-checkout/index.ts:242 | `{"a":1,"a":2}` is written `{"a":2}` |
| Json.StringifyIndexKeysFirst | supabase/functions/stripe-checkout/index.ts:242 | `{"b":1,"1":2}` is written `{"1":2,"b":1}` |
| Json.Member | supabase/functions/stripe-webhook/index.ts:42 | `v.key` throws exactly when `v` is `null` or `undefined`, and otherwise reads the property |
| Json.OptionalMember | supabase/functions/stripe-webhook/index.ts:43 | `v?.key` is `undefined` on `null`/`undefined` and otherwise reads the property |
| Json.EscapePlain | supabase/functions/stripe-checkout/index.ts:242 | `JSON.stringify` leaves strings without quotes, backslashes or control characters unchanged |
| Json.UnescapeEscapeChar | supabase/functions/stripe-checkout/index.ts:242 | reading one escaped character back gives that character and consumes exactly its escape |
| Json.UnescapeEscape | supabase/functions/stripe-checkout/index.ts:242 | `JSON.stringify`'s escaping of a string is inverted by the string-literal reader, for every string |
| Json.StringifyStringRoundTrip | supabase/functions/stripe-checkout/index.ts:242 | the JSON text of a string is quoted and its contents read back as the string |
| CheckoutValidation.FirstErrorIsFirstFailure | supabase/functions/stripe-checkout/index.ts:232-252 | validation returns undefined iff every field passes; otherwise it returns the message of the first failing field, all earlier fields having passed |
| CheckoutValidation.ValidateParameters | supabase/functions/stripe-checkout/index.ts:232-252 | the `for…in` loop with early return yields exactly the first failing field's message, or none |
| CheckoutValidation.StringParameter | supabase/functions/stripe-checkout/index.ts:237-243 | a `'string'` field passes iff its value is a string, the empty string included; `null`/`undefined` gives "Missing required parameter <name>"; any other value gives "Expected parameter <name> to be a string got <JSON text>" |
| CheckoutValidation.ModeParameter | supabase/functions/stripe-checkout/index.ts:244-247 | `mode` passes iff it is exactly `'payment'` or `'subscription'`; otherwise the message is "Expected parameter mode to be one of payment, subscription" |
| CheckoutValidation.CheckoutValues | supabase/functions/stripe-checkout/index.ts:48-55 | the checked object has an expectation for each of its four fields |
| CheckoutValidation.CheckoutValidationOrder | supabase/functions/stripe-checkout/index.ts:48-56 | the fields are checked in the order price_id, success_url, cancel_url, mode, and the first failure's message is returned |
| CheckoutValidation.CheckoutValidIff | supabase/functions/stripe-checkout/index.ts:48-56 | a request passes iff the three URLs and the price are strings and the mode is one of the two allowed values |
| StripeCheckout.CorsResponse | supabase/functions/stripe-checkout/index.ts:15-34 | every response carries the three CORS headers and the given status; a 204 has no body and no Content-Type; any other status has the JSON text of the body and `Content-Type: application/json` |
| StripeCheckout.Identify | supabase/functions/stripe-checkout/index.ts:63-76 | a user is signed in iff a non-empty Authorization header's token is accepted; a missing header or a rejected token means the guest path, never an error |
| StripeCheckout.BearerToken | supabase/functions/stripe-checkout/index.ts:67 | stripping the first `Bearer ` from a bearer header yields the token |
| StripeCheckout.FreshCustomerId | supabase/functions/stripe-checkout/index.ts:97-102 | an id issued before index `n` differs from the id of the `n`-th customer |
| StripeCheckout.ActiveMappings | supabase/functions/stripe-checkout/index.ts:83-88 | the mapping query's rows are exactly the user's rows with no `deleted_at` |
| StripeCheckout.SubscriptionsOf | supabase/functions/stripe-checkout/index.ts:144-148 | the subscription query's rows are exactly the rows of that customer |
| StripeCheckout.WithoutSubscriptionsOfKeepsOthers | supabase/functions/stripe-checkout/index.ts:115 | the delete keeps exactly the rows of other customers |
| StripeCheckout.MaybeSingle | supabase/functions/stripe-checkout/index.ts:88 | `.maybeSingle()` fails iff the query fails or several rows match, finds nothing iff none match, and otherwise returns the one row |
| StripeCheckout.GuestCustomer | supabase/functions/stripe-checkout/index.ts:170-178 | a guest's customer gets the email and the guest_checkout/checkout_email metadata only when an email was given |
| StripeCheckout.SessionMetadata | supabase/functions/stripe-checkout/index.ts:202-209 | session metadata is set iff the caller is a guest who gave an email |
| StripeCheckout.GuestMetadataAgrees | supabase/functions/stripe-checkout/index.ts:170-209 | a guest's customer and session both get metadata or neither does; the session's metadata is the customer's plus should_create_user; a signed-in user's session has none |
| StripeCheckout.SessionFor | supabase/functions/stripe-checkout/index.ts:188-209 | the session names the customer, has one line item of the price with quantity 1, and takes mode, URLs and metadata from the request |
| StripeCheckout.BodyValues | supabase/functions/stripe-checkout/index.ts:46-49 | the destructured body gives an expectation for each field it checks |
| StripeCheckout.ReadCheckout | supabase/functions/stripe-checkout/index.ts:46-60 | after validation the mode is `payment` or `subscription` |
| StripeCheckout.EarlyAnswerCases | supabase/functions/stripe-checkout/index.ts:36-60 | OPTIONS gets 204 with no body, any other non-POST 405, an unreadable or null body 500 with the thrown message, and a validation error 400 with its message; every early answer allows any origin; a request goes on to the customer steps iff it is accepted, and only a validation error is answered 400 |
| StripeCheckout.CheckRequest | supabase/functions/stripe-checkout/index.ts:38-60 | the checks up to validation, with the validation loop, give exactly the early answer, or none for an accepted request |
| StripeCheckout.UnusableMappingIsAbsent | supabase/functions/stripe-checkout/index.ts:90-95 | in a valid store, a successful lookup that yields no usable mapping found no row at all |
| StripeCheckout.MappedIdIssued | supabase/functions/stripe-checkout/index.ts:140-141 | in a valid store a mapped customer id was issued by the provider |
| StripeCheckout.ActiveMappingsAppend | supabase/functions/stripe-checkout/index.ts:106-109 | inserting a mapping adds it to its user's active mappings and to no other user's |
| StripeCheckout.SubscriptionsOfAppend | supabase/functions/stripe-checkout/index.ts:123-126 | inserting a subscription row adds it to its customer's rows and to no other customer's |
| StripeCheckout.SubscriptionsOfWithout | supabase/functions/stripe-checkout/index.ts:115 | after the rollback's delete the customer has no subscription rows and every other customer keeps its own |
| StripeCheckout.FreshIdHasNoSubscriptions | supabase/functions/stripe-checkout/index.ts:113-115 | a just-created customer has no subscription row, so the rollback's delete removes nothing |
| StripeCheckout.WithoutNothing | supabase/functions/stripe-checkout/index.ts:115 | deleting the rows of a customer that has none leaves the table unchanged |
| StripeCheckout.CreateAddsOne | supabase/functions/stripe-checkout/index.ts:97-102 | creating a customer under a fresh index adds exactly one provider customer |
| StripeCheckout.CreateKeepsValid | supabase/functions/stripe-checkout/index.ts:97-102 | creating a customer keeps the store invariant |
| StripeCheckout.DeleteKeepsValid | supabase/functions/stripe-checkout/index.ts:114 | deleting a provider customer keeps the store invariant |
| StripeCheckout.CleanupKeepsValid | supabase/functions/stripe-checkout/index.ts:115 | deleting a customer's subscription rows keeps the store invariant |
| StripeCheckout.NewMappingKeepsValid | supabase/functions/stripe-checkout/index.ts:106-109 | a mapping to the newest customer, for a user without an active mapping, keeps at most one active mapping per user |
| StripeCheckout.NewSubscriptionKeepsValid | supabase/functions/stripe-checkout/index.ts:156-159 | a `not_started` row for an issued customer without one keeps at most one row per customer |
| StripeCheckout.CheckoutBackend.CreateCustomer | supabase/functions/stripe-checkout/index.ts:97-102 | creates exactly one provider customer under a fresh id and writes no table |
| StripeCheckout.CheckoutBackend.OpenSession | supabase/functions/stripe-checkout/index.ts:211-215 | either appends exactly one session and answers 200 with its id and url, or the provider throws and the answer is 500 with the message |
| StripeCheckout.CheckoutBackend.DeleteCustomer | supabase/functions/stripe-checkout/index.ts:114 | removes that provider customer, nothing else |
| StripeCheckout.CheckoutBackend.DeleteSubscriptions | supabase/functions/stripe-checkout/index.ts:115 | removes that customer's subscription rows, nothing else |
| StripeCheckout.CheckoutBackend.InsertMapping | supabase/functions/stripe-checkout/index.ts:106-109 | appends one mapping row, nothing else |
| StripeCheckout.CheckoutBackend.InsertSubscription | supabase/functions/stripe-checkout/index.ts:123-126 | appends one `not_started` row, nothing else |
| StripeCheckout.CheckoutBackend.UndoCustomer | supabase/functions/stripe-checkout/index.ts:113-118 | the customer is deleted unless the deletion throws, and then its subscription rows unless that delete throws; the mapping table is untouched and the store invariant is preserved |
| StripeCheckout.CheckoutBackend.CreateMappedCustomer | supabase/functions/stripe-checkout/index.ts:95-139 | when `customers.create` throws: a 500 with its message, and neither tables nor provider change. Otherwise one customer with the user's email and `userId` metadata. A failed mapping insert then deletes the customer and that customer's subscription rows, unless the deletion throws, and answers 500. Otherwise one mapping is added; in subscription mode a failed subscription insert deletes only the customer, keeps the mapping and answers 500 |
| StripeCheckout.CheckoutBackend.ReuseCustomer | supabase/functions/stripe-checkout/index.ts:140-166 | the mapped customer is used and no customer is created; in subscription mode a `not_started` row is inserted only when the customer has none, with the source's 500 messages on failure |
| StripeCheckout.CheckoutBackend.HandleGuest | supabase/functions/stripe-checkout/index.ts:168-215 | no table is written. When `customers.create` throws, the answer is 500 with its message and the provider is unchanged; otherwise exactly one guest customer is created, then one session with a 200, or no session and a 500 |
| StripeCheckout.CheckoutBackend.HandleUser | supabase/functions/stripe-checkout/index.ts:81-167 | a failed mapping lookup is a 500 with no writes; otherwise the mapped or the unmapped path, as above |
| StripeCheckout.CheckoutBackend.HandleAccepted | supabase/functions/stripe-checkout/index.ts:62-215 | a missing header or rejected token takes the guest path; an identified user takes the signed-in path; the answer is 200 or 500 and the store invariant is preserved |
| StripeCheckout.CheckoutBackend.Handle | supabase/functions/stripe-checkout/index.ts:36-220 | every answer allows any origin. Each early answer (OPTIONS, other methods, unreadable body, validation error) is given with no table or provider change, and 400 occurs exactly for validation errors. An accepted request takes the guest or the signed-in path with its exact effects. The store invariant is preserved |
| StripeWebhook.Envelope | supabase/functions/stripe-webhook/index.ts:16-30 | the event is read iff the signature header is non-empty, the secret is set and the body parses; otherwise the thrown message |
| StripeWebhook.ActivateMatching | supabase/functions/stripe-webhook/index.ts:52-58 | exactly the rows with that id become `active`; their `stripe_customer_id` becomes the session's customer, or stays as it was when the session has no `customer` (the JSON update body leaves an undefined field out); every other field and row is unchanged |
| StripeWebhook.MarkMatchingFailed | supabase/functions/stripe-webhook/index.ts:87-90 | exactly the rows whose intent id equals a non-null, defined id become `failed`; a null or undefined id matches nothing; the others are unchanged |
| StripeWebhook.WebhookStore.UpdateUser | supabase/functions/stripe-webhook/index.ts:52-62 | the activation update, or no change when the datastore fails; `payments` is untouched |
| StripeWebhook.WebhookStore.InsertPayment | supabase/functions/stripe-webhook/index.ts:65-77 | appends the payment row, or no change when the datastore fails; `users` is untouched |
| StripeWebhook.WebhookStore.MarkFailed | supabase/functions/stripe-webhook/index.ts:87-94 | the failed-status update, or no change when the datastore fails; `users` is untouched |
| StripeWebhook.WebhookStore.Handle | supabase/functions/stripe-webhook/index.ts:10-121 | OPTIONS answers with the headers and no body. A failed envelope check or a thrown TypeError gives 400 and writes nothing. A completed session with a user id attempts the user update and the payment insert independently and answers 200. A failed payment marks matching rows and answers 200. Other events and a missing user id write nothing and answer 200 |
| StripeWebhook.Redeliver | supabase/functions/stripe-webhook/index.ts:65-73 | delivering the same completed event twice appends the payment row twice, with the same 200 answer each time |
| StripeWebhook.SignatureNotVerified | supabase/functions/stripe-webhook/index.ts:16-30 | any two non-empty signature values lead to the same outcome: the signature is never checked |
| StripeWebhook.EventMembers | supabase/functions/stripe-webhook/index.ts:40-42 | an event's last `type` and `data` members are its type and data, whatever members precede or follow them |
| StripeWebhook.CompletedWithoutUserIdWritesNothing | supabase/functions/stripe-webhook/index.ts:41-49 | for any event of type `checkout.session.completed` with a readable session, no write is asked for iff the session's `metadata?.user_id` is falsy |
| StripeWebhook.CompletedWithUserId | supabase/functions/stripe-webhook/index.ts:41-73 | for any event of that type with a readable session and a truthy user id, that user is activated with the session's customer and a succeeded payment is recorded with its intent, amount and currency |
| StripeWebhook.FailedPaymentMarksIntent | supabase/functions/stripe-webhook/index.ts:83-90 | for any event of type `payment_intent.payment_failed` with a readable intent, the rows of the intent's `id` are marked |
| StripeWebhook.UnreadableEventRejected | supabase/functions/stripe-webhook/index.ts:41-42 | for either handled type, an event whose `data.object` cannot be read, or is `null`, is a TypeError |
| StripeWebhook.OtherTypesUnhandled | supabase/functions/stripe-webhook/index.ts:100-101 | any event whose `type` is neither handled type is left unhandled, whatever else it holds |
| StripeWebhook.MarkFailedOnlyMatching | supabase/functions/stripe-webhook/index.ts:83-97 | a failed payment adds no row, marks every row matching a non-null id failed, and changes nothing when no row matches or the id is null or undefined |
| StripeWebhook.MissingCustomerKept | supabase/functions/stripe-webhook/index.ts:54-58 | a session without `customer` leaves every stored customer id as it was |
| StripeWebhook.UpdatesIdempotent | supabase/functions/stripe-webhook/index.ts:52-58 | the two updates give the same result when applied twice |
| StripeWebhook.ActivatedUserPassesGate | supabase/functions/stripe-webhook/index.ts:54-55 | an activated user passes the paid route's gate |
| CheckoutToWebhook.NoUserIdInSessionMetadata | supabase/functions/stripe-checkout/index.ts:202-209 | the checkout never puts `user_id` into session metadata |
| CheckoutToWebhook.CompletedCheckoutNeverActivates | supabase/functions/stripe-webhook/index.ts:43-49 | any completed-session event whose session metadata has only keys the checkout set, for a guest or a signed-in user, activates nobody |
| Countdown.ComponentsInRange | src/components/HomePage.tsx:35-37 | minutes and seconds are each in [0, 59] |
| Countdown.Reconstruction | src/components/HomePage.tsx:35-37 | h·3,600,000 + m·60,000 + s·1,000 ≤ t < that sum + 1,000 |
| Countdown.HoursAtMostDay | src/components/HomePage.tsx:22-23 | with the end 24 hours after mounting and the clock not running backwards, the hours never exceed 24 |
| Countdown.ExpiredShowsZeros | src/components/HomePage.tsx:29-33 | the timer stops iff the end time is reached, and then every field is `00` |
| Countdown.FieldFormat | src/components/HomePage.tsx:39-43 | a field is all digits, at least two characters long, exactly two below 100, and it reads back as the number |
| Countdown.TickShowsRemaining | src/components/HomePage.tsx:25-44 | a running tick shows digit strings, the minutes and seconds two characters each, whose values reconstruct the remaining time to the second |
| ProtectedRoute.Gate | src/components/ProtectedRoute.tsx:10-67 | loading wins; no user gives the sign-in prompt; payment is required iff a user is present, payment is demanded and the status is not exactly `active`; the children iff not loading, a user, and no payment demanded or status `active` |
| ProtectedRoute.DefaultRequiresPayment | src/components/ProtectedRoute.tsx:10 | `requiresPayment` defaults to true |
| ProtectedRoute.UnpaidStatusBlocked | src/components/ProtectedRoute.tsx:48-65 | any status other than exactly `active` blocks a signed-in user |
| ProtectedRoute.PaymentRequirementOnlyRestricts | src/components/ProtectedRoute.tsx:48-67 | dropping the payment requirement never takes access away and never shows the payment view |

## Left out

- SDK calls and HTTP plumbing (`Deno.serve`, `serve`, `req.json`, `req.text`, environment lookups, `console.*`) are not modelled. Each call's success or failure, its thrown message and the session URL are inputs.
- `JSON.parse` and `req.json()` are not modelled; what they yield (a value or a thrown message) is an input.
- Authentication is reduced to a map from tokens to users. The identity provider's own checks are not modelled.
- Cryptographic signature checking is not modelled, because the webhook does none.
- Concurrency is not modelled: races between checkout calls for the same user, and redelivery timing. Each request runs alone.
- Numbers are integers. Fractions, `NaN` and `Infinity` are not modelled, nor the exponent form JavaScript writes from 10^21 up, nor the rounding `JSON.parse` applies above 2^53.
- Json.NumberText: writes every integer in plain decimal, so it agrees with JavaScript only for integers below 10^21 in magnitude that a double holds exactly.
- CheckoutValidation.StringParameter: the JSON text in its message is exact for strings, booleans, `null`, arrays, objects and such integers; for other numbers it inherits the gap of `Json.NumberText`.
- `JSON.stringify` is modelled for strings with code points in the basic plane. Lone surrogates, non-integer numbers and inherited or prototype properties are not modelled.
- `shouldCreateUserAfterPayment` (supabase/functions/stripe-checkout/index.ts:79, 182) is not modelled, because it is never read.
- The broken duplicate `validateParameters` at supabase/functions/stripe-checkout/index.ts:222-227 is not part of this model.
- Datastore type coercion is not modelled. A user id is matched against a row's id by strict equality of values.
- StripeWebhook.WebhookStore.InsertPayment: a payment field that is undefined (for example `payment_intent` or `amount_total` missing from the session) is stored as the value `undefined`, where the datastore stores NULL. The `eq` filter treats the two alike, so no later update depends on the difference.
- In HomePage.tsx the interval and its clearing, `new Date()`, the gallery, FAQ and links are not modelled. The clock readings are parameters.
- ProtectedRoute's auth modal state and all rendering are not modelled.
- The client pages CheckoutPage.tsx and Checkout.tsx, the dashboard, the success and thank-you pages, the signup page and App.tsx are not part of this model.
