/** The webhook reconciler (supabase/functions/stripe-webhook/index.ts):
    envelope checks, then a dispatch on the event type that writes to the
    `users` and `payments` tables. Datastore failures are logged and
    swallowed; only a thrown error turns the answer into a 400. */
module StripeWebhook {
  import opened Wrappers
  import opened Json
  import ProtectedRoute

  const CorsHeaders: map<string, string> := map[
    "Access-Control-Allow-Origin" := "*",
    "Access-Control-Allow-Headers" := "authorization, x-client-info, apikey, content-type, stripe-signature",
    "Access-Control-Allow-Methods" := "POST, OPTIONS"]

  datatype Response = Response(status: int, headers: map<string, string>, body: Option<string>)

  function JsonResponse(body: Value, status: int): Response {
    Response(status, CorsHeaders["Content-Type" := "application/json"], Some(Stringify(body)))
  }

  const Received: Value := Obj([("received", Bool(true))])

  function ErrorBody(message: string): Value {
    Obj([("error", Str(message))])
  }

  /** An incoming delivery. `body` is what `JSON.parse` makes of the raw
      text: a value, or the message of the SyntaxError it throws. */
  datatype Request = Request(verb: string, signature: Option<string>, body: Result<Value, string>)

  /** What the datastore and the runtime do during one delivery. */
  datatype Outcomes = Outcomes(
    typeErrorMessage: string,   // message of a TypeError from reading a property of null/undefined
    userUpdateFails: bool,
    paymentInsertFails: bool,
    paymentUpdateFails: bool)

  /** A row of `users`; only the columns the handler writes matter. */
  datatype UserRow = UserRow(id: string, email: Value, subscriptionStatus: Value, stripeCustomerId: Value)

  /** A row of `payments`. Its fields are copied from the event as they are. */
  datatype PaymentRow = PaymentRow(userId: Value, paymentIntentId: Value, amount: Value, currency: Value, status: string)

  /** What the event asks for, read off the payload before any write. */
  datatype Action =
    | CompleteCheckout(userId: Value, customer: Value, payment: PaymentRow)
    | NoUserId
    | FailPayment(paymentIntentId: Value)
    | Unhandled(eventType: Value)

  /** Checks before the event is read: a non-empty `stripe-signature`
      header, a non-empty `STRIPE_WEBHOOK_SECRET`, and a body that parses.
      The signature's value is not compared with anything. */
  function Envelope(req: Request, webhookSecret: Option<string>): (r: Result<Value, string>)
    ensures r.Ok? <==> req.signature.Some? && req.signature.value != "" &&
                       webhookSecret.Some? && webhookSecret.value != "" && req.body.Ok?
    ensures r.Ok? ==> r.value == req.body.value
  {
    if req.signature.None? || req.signature.value == "" then Err("No Stripe signature found")
    else if webhookSecret.None? || webhookSecret.value == "" then Err("Webhook secret not configured")
    else if req.body.Err? then Err(req.body.error)
    else Ok(req.body.value)
  }

  /** `event.data.object`; None when a TypeError is thrown. */
  function EventObject(event: Value): Option<Value> {
    match Member(event, "data")
    case None => None
    case Some(data) => Member(data, "object")
  }

  /** The `switch (event.type)` and the property reads of each case.
      None is a TypeError, which the handler's catch turns into a 400. */
  function Classify(event: Value): Option<Action> {
    match Member(event, "type")
    case None => None
    case Some(eventType) =>
      if eventType == Str("checkout.session.completed") then
        match EventObject(event)
        case None => None
        case Some(session) =>
          match Member(session, "metadata")
          case None => None
          case Some(metadata) =>
            var userId := OptionalMember(metadata, "user_id");
            var paymentIntentId := Get(session, "payment_intent");
            if !Truthy(userId) then Some(NoUserId)
            else Some(CompleteCheckout(userId, Get(session, "customer"),
                        PaymentRow(userId, paymentIntentId, Get(session, "amount_total"),
                                   Get(session, "currency"), "succeeded")))
      else if eventType == Str("payment_intent.payment_failed") then
        match EventObject(event)
        case None => None
        case Some(paymentIntent) =>
          match Member(paymentIntent, "id")
          case None => None
          case Some(id) => Some(FailPayment(id))
      else Some(Unhandled(eventType))
  }

  // ---- The two table updates, as the datastore applies them ----

  /** The update body is sent as JSON, so a `stripe_customer_id` that is
      undefined is left out and the column keeps its value. */
  function Activate(row: UserRow, customer: Value): UserRow {
    if customer.Undefined? then row.(subscriptionStatus := Str("active"))
    else row.(subscriptionStatus := Str("active"), stripeCustomerId := customer)
  }

  /** `update({subscription_status: 'active', stripe_customer_id}).eq('id', userId)`. */
  function ActivateMatching(rows: seq<UserRow>, userId: Value, customer: Value): (r: seq<UserRow>)
    ensures |r| == |rows|
    ensures forall i :: 0 <= i < |rows| && Str(rows[i].id) != userId ==> r[i] == rows[i]
    ensures forall i :: 0 <= i < |rows| && Str(rows[i].id) == userId ==>
              && r[i].id == rows[i].id
              && r[i].subscriptionStatus == Str("active")
              && r[i].stripeCustomerId == (if customer.Undefined? then rows[i].stripeCustomerId else customer)
              && r[i] == rows[i].(subscriptionStatus := r[i].subscriptionStatus, stripeCustomerId := r[i].stripeCustomerId)
  {
    seq(|rows|, i requires 0 <= i < |rows| =>
          if Str(rows[i].id) == userId then Activate(rows[i], customer) else rows[i])
  }

  /** The filter `.eq(column, id)`: with a null or undefined id the filter
      reads `eq.null` or `eq.undefined`, which no stored value equals, and a
      NULL column never equals anything. */
  predicate EqMatches(column: Value, id: Value) {
    !Nullish(id) && column == id
  }

  /** `update({status: 'failed'}).eq('stripe_payment_intent_id', id)`. */
  function MarkMatchingFailed(rows: seq<PaymentRow>, id: Value): (r: seq<PaymentRow>)
    ensures |r| == |rows|
    ensures forall i :: 0 <= i < |rows| ==>
              r[i] == if EqMatches(rows[i].paymentIntentId, id) then rows[i].(status := "failed") else rows[i]
  {
    seq(|rows|, i requires 0 <= i < |rows| =>
          if EqMatches(rows[i].paymentIntentId, id) then rows[i].(status := "failed") else rows[i])
  }

  class WebhookStore {
    var users: seq<UserRow>
    var payments: seq<PaymentRow>

    constructor (users: seq<UserRow>, payments: seq<PaymentRow>)
      ensures this.users == users && this.payments == payments
    {
      this.users := users;
      this.payments := payments;
    }

    method UpdateUser(userId: Value, customer: Value, fails: bool)
      modifies this
      ensures payments == old(payments)
      ensures users == if fails then old(users) else ActivateMatching(old(users), userId, customer)
    {
      if !fails {
        users := ActivateMatching(users, userId, customer);
      }
    }

    method InsertPayment(row: PaymentRow, fails: bool)
      modifies this
      ensures users == old(users)
      ensures payments == if fails then old(payments) else old(payments) + [row]
    {
      if !fails {
        payments := payments + [row];
      }
    }

    method MarkFailed(id: Value, fails: bool)
      modifies this
      ensures users == old(users)
      ensures payments == if fails then old(payments) else MarkMatchingFailed(old(payments), id)
    {
      if !fails {
        payments := MarkMatchingFailed(payments, id);
      }
    }

    /** One delivery of an event. */
    method Handle(req: Request, webhookSecret: Option<string>, oc: Outcomes) returns (resp: Response)
      modifies this
      ensures req.verb == "OPTIONS" ==>
                resp == Response(200, CorsHeaders, None) && users == old(users) && payments == old(payments)
      ensures req.verb != "OPTIONS" && Envelope(req, webhookSecret).Err? ==>
                resp == JsonResponse(ErrorBody(Envelope(req, webhookSecret).error), 400) &&
                users == old(users) && payments == old(payments)
      ensures req.verb != "OPTIONS" && Envelope(req, webhookSecret).Ok? ==>
                match Classify(Envelope(req, webhookSecret).value)
                case None =>
                  resp == JsonResponse(ErrorBody(oc.typeErrorMessage), 400) &&
                  users == old(users) && payments == old(payments)
                case Some(CompleteCheckout(userId, customer, payment)) =>
                  resp == JsonResponse(Received, 200) &&
                  users == (if oc.userUpdateFails then old(users) else ActivateMatching(old(users), userId, customer)) &&
                  payments == (if oc.paymentInsertFails then old(payments) else old(payments) + [payment])
                case Some(FailPayment(id)) =>
                  resp == JsonResponse(Received, 200) && users == old(users) &&
                  payments == (if oc.paymentUpdateFails then old(payments) else MarkMatchingFailed(old(payments), id))
                case Some(_) =>
                  resp == JsonResponse(Received, 200) && users == old(users) && payments == old(payments)
    {
      if req.verb == "OPTIONS" {
        return Response(200, CorsHeaders, None);
      }
      var envelope := Envelope(req, webhookSecret);
      if envelope.Err? {
        return JsonResponse(ErrorBody(envelope.error), 400);
      }
      var action := Classify(envelope.value);
      match action {
        case None =>
          return JsonResponse(ErrorBody(oc.typeErrorMessage), 400);
        case Some(CompleteCheckout(userId, customer, payment)) =>
          UpdateUser(userId, customer, oc.userUpdateFails);
          InsertPayment(payment, oc.paymentInsertFails);
        case Some(FailPayment(id)) =>
          MarkFailed(id, oc.paymentUpdateFails);
        case Some(_) =>
      }
      resp := JsonResponse(Received, 200);
    }
  }

  /** Delivering the same completed event twice records the payment twice:
      the handler is not idempotent. */
  method Redeliver(store: WebhookStore, req: Request, webhookSecret: Option<string>, oc: Outcomes)
    returns (first: Response, second: Response)
    requires req.verb != "OPTIONS" && Envelope(req, webhookSecret).Ok?
    requires Classify(Envelope(req, webhookSecret).value).Some?
    requires Classify(Envelope(req, webhookSecret).value).value.CompleteCheckout?
    requires !oc.paymentInsertFails
    modifies store
    ensures var p := Classify(Envelope(req, webhookSecret).value).value.payment;
            store.payments == old(store.payments) + [p, p]
    ensures first == second && first.status == 200
  {
    ghost var p := Classify(Envelope(req, webhookSecret).value).value.payment;
    first := store.Handle(req, webhookSecret, oc);
    assert store.payments == old(store.payments) + [p];
    second := store.Handle(req, webhookSecret, oc);
    assert store.payments == old(store.payments) + [p] + [p];
  }

  // ---- Properties of the pure parts ----

  /** The signature header's value plays no part: any two non-empty
      signatures lead to the same envelope outcome. */
  lemma SignatureNotVerified(req: Request, a: string, b: string, webhookSecret: Option<string>)
    requires a != "" && b != ""
    ensures Envelope(req.(signature := Some(a)), webhookSecret) == Envelope(req.(signature := Some(b)), webhookSecret)
  {
  }

  /** A completed session asks for nothing exactly when its
      `metadata.user_id` is missing or falsy. */
  lemma CompletedWithoutUserIdWritesNothing(event: Value, session: Value)
    requires Member(event, "type") == Some(Str("checkout.session.completed"))
    requires EventObject(event) == Some(session) && !Nullish(session)
    ensures Classify(event) == Some(NoUserId) <==> !Truthy(OptionalMember(Get(session, "metadata"), "user_id"))
  {
  }

  /** A completed session with a user id activates that user and records a
      succeeded payment with the session's intent, amount and currency. */
  lemma CompletedWithUserId(event: Value, session: Value, userId: Value)
    requires Member(event, "type") == Some(Str("checkout.session.completed"))
    requires EventObject(event) == Some(session) && !Nullish(session)
    requires Truthy(userId) && OptionalMember(Get(session, "metadata"), "user_id") == userId
    ensures Classify(event) ==
            Some(CompleteCheckout(userId, Get(session, "customer"),
                   PaymentRow(userId, Get(session, "payment_intent"), Get(session, "amount_total"),
                              Get(session, "currency"), "succeeded")))
  {
  }

  /** A completed or failed-payment event whose `data.object` cannot be
      read, or a completed one whose session is null, is a TypeError. */
  lemma UnreadableEventRejected(event: Value, t: string)
    requires Member(event, "type") == Some(Str(t))
    requires t == "checkout.session.completed" || t == "payment_intent.payment_failed"
    requires EventObject(event).None? || Nullish(EventObject(event).value)
    ensures Classify(event).None?
  {
  }

  /** A failed payment marks the rows of the intent's id. */
  lemma FailedPaymentMarksIntent(event: Value, intent: Value)
    requires Member(event, "type") == Some(Str("payment_intent.payment_failed"))
    requires EventObject(event) == Some(intent) && !Nullish(intent)
    ensures Classify(event) == Some(FailPayment(Get(intent, "id")))
  {
  }

  /** Any other event type is left unhandled. */
  lemma OtherTypesUnhandled(event: Value, eventType: Value)
    requires Member(event, "type") == Some(eventType)
    requires eventType != Str("checkout.session.completed") && eventType != Str("payment_intent.payment_failed")
    ensures Classify(event) == Some(Unhandled(eventType))
  {
  }

  /** A Stripe event, whatever else it carries, has its last `type` and
      `data` members as its type and data. */
  lemma EventMembers(members: seq<(string, Value)>, t: Value, data: Value, rest: seq<(string, Value)>)
    requires forall j :: 0 <= j < |rest| ==> rest[j].0 != "type" && rest[j].0 != "data"
    ensures Member(Obj(members + [("type", t)] + [("data", data)] + rest), "type") == Some(t)
    ensures Member(Obj(members + [("type", t)] + [("data", data)] + rest), "data") == Some(data)
  {
    assert "data" != "type" by { assert "data"[0] != "type"[0]; }
    var later := [("data", data)] + rest;
    assert members + [("type", t)] + [("data", data)] + rest == members + [("type", t)] + later;
    assert forall j :: 0 <= j < |later| ==> later[j].0 != "type";
    LookupLastWins(members, "type", t, later);
    LookupLastWins(members + [("type", t)], "data", data, rest);
  }

  /** Marking failed touches only rows with the intent id, never adds a row,
      and changes nothing when no row has that id or the id is null or
      undefined (a null payment intent, as subscription sessions record,
      is never marked). */
  lemma MarkFailedOnlyMatching(rows: seq<PaymentRow>, id: Value)
    ensures |MarkMatchingFailed(rows, id)| == |rows|
    ensures forall i :: 0 <= i < |rows| && rows[i].paymentIntentId == id && !Nullish(id) ==>
              MarkMatchingFailed(rows, id)[i].status == "failed"
    ensures (forall i :: 0 <= i < |rows| ==> rows[i].paymentIntentId != id) ==> MarkMatchingFailed(rows, id) == rows
    ensures Nullish(id) ==> MarkMatchingFailed(rows, id) == rows
  {
  }

  /** A session without a `customer` activates the user and leaves the
      stored customer id as it was. */
  lemma MissingCustomerKept(rows: seq<UserRow>, userId: Value)
    ensures forall i :: 0 <= i < |rows| ==>
              ActivateMatching(rows, userId, Undefined)[i].stripeCustomerId == rows[i].stripeCustomerId
  {
  }

  /** The two updates are idempotent, unlike the payment insert. */
  lemma UpdatesIdempotent(users: seq<UserRow>, userId: Value, customer: Value, payments: seq<PaymentRow>, id: Value)
    ensures ActivateMatching(ActivateMatching(users, userId, customer), userId, customer) == ActivateMatching(users, userId, customer)
    ensures MarkMatchingFailed(MarkMatchingFailed(payments, id), id) == MarkMatchingFailed(payments, id)
  {
  }

  /** After activation the user's row lets them through the paid route. */
  lemma ActivatedUserPassesGate(users: seq<UserRow>, userId: Value, customer: Value, i: nat)
    requires i < |users| && Str(users[i].id) == userId
    ensures var row := ActivateMatching(users, userId, customer)[i];
            ProtectedRoute.Gate(false, Some(ProtectedRoute.User(row.subscriptionStatus))) == ProtectedRoute.Children
  {
  }
}
