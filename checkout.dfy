/** The checkout session creator (supabase/functions/stripe-checkout/index.ts):
    validates the request, resolves or creates the payment provider's
    customer (through the `stripe_customers` mapping for a signed-in user,
    directly for a guest), records a `not_started` subscription where the
    mode asks for one, and opens exactly one checkout session. The two
    tables, the provider's customers and its sessions are fields of
    `CheckoutBackend`; whether each external call succeeds is an input. */
module StripeCheckout {
  import opened Wrappers
  import opened Json
  import Decimal
  import opened CheckoutValidation

  // ---- corsResponse ----

  const CorsHeaders: map<string, string> := map[
    "Access-Control-Allow-Origin" := "*",
    "Access-Control-Allow-Methods" := "POST, OPTIONS",
    "Access-Control-Allow-Headers" := "*"]

  datatype Response = Response(status: int, headers: map<string, string>, body: Option<string>)

  /** A response with the CORS headers; a 204 carries no body and no
      Content-Type, any other status the JSON text of `body`. */
  function CorsResponse(body: Value, status: int := 200): (r: Response)
    ensures r.status == status
    ensures forall k :: k in CorsHeaders ==> k in r.headers && r.headers[k] == CorsHeaders[k]
    ensures status == 204 ==> r.body.None? && "Content-Type" !in r.headers
    ensures status != 204 ==> r.body == Some(Stringify(body)) && "Content-Type" in r.headers && r.headers["Content-Type"] == "application/json"
  {
    if status == 204 then Response(status, CorsHeaders, None)
    else Response(status, CorsHeaders["Content-Type" := "application/json"], Some(Stringify(body)))
  }

  /** The CORS header every answer carries. */
  predicate AllowsAnyOrigin(r: Response) {
    "Access-Control-Allow-Origin" in r.headers && r.headers["Access-Control-Allow-Origin"] == "*"
  }

  function ErrorBody(message: string): Value {
    Obj([("error", Str(message))])
  }

  // ---- Requests and the outcomes of external calls ----

  /** An incoming request. `body` is what `req.json()` yields, None when it
      throws. */
  datatype Request = Request(verb: string, authorization: Option<string>, body: Option<Value>)

  /** A user as the identity provider reports one. */
  datatype AuthUser = AuthUser(id: string, email: Value)

  /** Whether each external call of one request succeeds, and what the
      provider answers. At most one exception reaches the handler's catch,
      so one message stands for it. */
  datatype Outcomes = Outcomes(
    customerLookupFails: bool,       // select on stripe_customers returns an error
    customerCreateFails: bool,       // stripe.customers.create throws
    mappingInsertFails: bool,        // insert into stripe_customers returns an error
    customerDeleteFails: bool,       // stripe.customers.del throws during a rollback
    subscriptionCleanupFails: bool,  // delete on stripe_subscriptions returns an error
    subscriptionLookupFails: bool,   // select on stripe_subscriptions returns an error
    subscriptionInsertFails: bool,   // insert into stripe_subscriptions returns an error
    sessionCreateFails: bool,        // stripe.checkout.sessions.create throws
    sessionUrl: Value,               // the url of the created session
    thrownMessage: string)           // message of the exception the catch receives

  /** `s.replace(pattern, replacement)` with a string pattern: only the first
      occurrence is replaced. */
  function ReplaceFirst(s: string, pattern: string, replacement: string): (r: string)
    requires pattern != []
    ensures |s| < |pattern| ==> r == s
    decreases |s|
  {
    if |s| < |pattern| then s
    else if s[..|pattern|] == pattern then replacement + s[|pattern|..]
    else [s[0]] + ReplaceFirst(s[1..], pattern, replacement)
  }

  function Token(header: string): string {
    ReplaceFirst(header, "Bearer ", "")
  }

  /** The signed-in user, if any: a non-empty Authorization header whose
      token the identity provider (`identities`) accepts. A missing header
      and a rejected token both mean a guest. */
  function Identify(authorization: Option<string>, identities: map<string, AuthUser>): (u: Option<AuthUser>)
    ensures authorization.None? ==> u.None?
    ensures u.Some? <==> authorization.Some? && authorization.value != "" && Token(authorization.value) in identities
    ensures u.Some? ==> u.value == identities[Token(authorization.value)]
  {
    if authorization.None? || authorization.value == "" then None
    else
      var token := Token(authorization.value);
      if token in identities then Some(identities[token]) else None
  }

  /** A bearer header yields the token after the prefix. */
  lemma BearerToken(token: string)
    ensures Token("Bearer " + token) == token
  {
    var s := "Bearer " + token;
    assert s[..7] == "Bearer ";
    assert s[7..] == token;
  }

  // ---- Rows, provider records and their lookups ----

  /** A row of `stripe_customers`. */
  datatype CustomerRow = CustomerRow(userId: string, customerId: string, deletedAt: Option<string>)

  /** A row of `stripe_subscriptions`. */
  datatype SubscriptionRow = SubscriptionRow(customerId: string, status: string)

  /** A customer as the payment provider holds it. */
  datatype ProviderCustomer = ProviderCustomer(email: Value, metadata: Option<map<string, Value>>)

  datatype LineItem = LineItem(price: string, quantity: nat)

  /** A checkout session as the payment provider holds it. */
  datatype Session = Session(
    customer: string,
    paymentMethodTypes: seq<string>,
    lineItems: seq<LineItem>,
    mode: string,
    successUrl: string,
    cancelUrl: string,
    metadata: Option<map<string, Value>>)

  /** The provider's id for the `n`-th customer it creates. */
  function CustomerId(n: nat): string {
    "cus_" + Decimal.FromNat(n)
  }

  /** The provider's id for the `n`-th session it creates. */
  function SessionId(n: nat): string {
    "cs_" + Decimal.FromNat(n)
  }

  /** Which customer an id names, if the provider issued it. */
  function CustomerIndex(id: string): Option<nat> {
    if |id| > 4 && id[..4] == "cus_" && Decimal.AllDigits(id[4..]) then Some(Decimal.ToNat(id[4..]))
    else None
  }

  lemma CustomerIndexOfId(n: nat)
    ensures CustomerIndex(CustomerId(n)) == Some(n)
  {
    var id := CustomerId(n);
    assert id[..4] == "cus_" && id[4..] == Decimal.FromNat(n);
    Decimal.ToNatFromNat(n);
  }

  /** `id` is not one the provider issues from index `n` on. */
  predicate IssuedBefore(id: string, n: nat) {
    CustomerIndex(id).None? || CustomerIndex(id).value < n
  }

  lemma FreshCustomerId(id: string, n: nat)
    requires IssuedBefore(id, n)
    ensures id != CustomerId(n)
  {
    CustomerIndexOfId(n);
  }

  /** The non-deleted mappings of a user. */
  function ActiveMappings(rows: seq<CustomerRow>, userId: string): (r: seq<CustomerRow>)
    ensures forall x :: x in r <==> x in rows && x.userId == userId && x.deletedAt.None?
    decreases |rows|
  {
    if rows == [] then []
    else
      var last := rows[|rows| - 1];
      ActiveMappings(rows[..|rows| - 1], userId) + (if last.userId == userId && last.deletedAt.None? then [last] else [])
  }

  /** The subscription rows of a customer. */
  function SubscriptionsOf(rows: seq<SubscriptionRow>, customerId: string): (r: seq<SubscriptionRow>)
    ensures forall x :: x in r <==> x in rows && x.customerId == customerId
    decreases |rows|
  {
    if rows == [] then []
    else
      var last := rows[|rows| - 1];
      SubscriptionsOf(rows[..|rows| - 1], customerId) + (if last.customerId == customerId then [last] else [])
  }

  /** `delete().eq('customer_id', customerId)` on `stripe_subscriptions`. */
  function WithoutSubscriptionsOf(rows: seq<SubscriptionRow>, customerId: string): seq<SubscriptionRow>
    decreases |rows|
  {
    if rows == [] then []
    else
      var last := rows[|rows| - 1];
      WithoutSubscriptionsOf(rows[..|rows| - 1], customerId) + (if last.customerId != customerId then [last] else [])
  }

  /** The delete keeps exactly the rows of other customers. */
  lemma {:induction false} WithoutSubscriptionsOfKeepsOthers(rows: seq<SubscriptionRow>, customerId: string)
    ensures forall x :: x in WithoutSubscriptionsOf(rows, customerId) <==> x in rows && x.customerId != customerId
    decreases |rows|
  {
    if rows != [] {
      var init, last := rows[..|rows| - 1], rows[|rows| - 1];
      WithoutSubscriptionsOfKeepsOthers(init, customerId);
      assert rows == init + [last];
    }
  }

  datatype QueryResult<T> = LookupFailed | Absent | Found(row: T)

  /** `.maybeSingle()`: an error when the query fails or matches several
      rows, nothing when it matches none. */
  function MaybeSingle<T>(rows: seq<T>, fails: bool): (l: QueryResult<T>)
    ensures l.LookupFailed? <==> fails || |rows| > 1
    ensures l.Absent? <==> !fails && rows == []
    ensures l.Found? ==> |rows| == 1 && l.row == rows[0]
  {
    if fails || |rows| > 1 then LookupFailed else if rows == [] then Absent else Found(rows[0])
  }

  /** The mapped customer id a lookup yields; a row with an empty id counts
      as no mapping. */
  function MappedCustomer(l: QueryResult<CustomerRow>): Option<string> {
    if l.Found? && l.row.customerId != "" then Some(l.row.customerId) else None
  }

  // ---- What the handler sends to the provider ----

  /** The request after validation: the four checked fields as strings. */
  datatype CheckoutRequest = CheckoutRequest(priceId: string, successUrl: string, cancelUrl: string, mode: string, customerEmail: Value)

  /** The customer created for a signed-in user: their email, and their id
      in the metadata under `userId`. */
  function UserCustomer(u: AuthUser): ProviderCustomer {
    ProviderCustomer(u.email, Some(map["userId" := Str(u.id)]))
  }

  /** The customer created for a guest: contact details and guest flags
      only when an email was given. */
  function GuestCustomer(email: Value): (c: ProviderCustomer)
    ensures Truthy(email) ==> c.email == email && c.metadata == Some(map["guest_checkout" := Str("true"), "checkout_email" := email])
    ensures !Truthy(email) ==> c.email == Undefined && c.metadata.None?
  {
    if Truthy(email) then ProviderCustomer(email, Some(map["guest_checkout" := Str("true"), "checkout_email" := email]))
    else ProviderCustomer(Undefined, None)
  }

  /** Session metadata is set only for a guest who gave an email. */
  function SessionMetadata(user: Option<AuthUser>, email: Value): (m: Option<map<string, Value>>)
    ensures m.Some? <==> user.None? && Truthy(email)
    ensures m.Some? ==> m.value == map["guest_checkout" := Str("true"), "checkout_email" := email,
                                       "should_create_user" := Str("true")]
  {
    if user.None? && Truthy(email) then
      Some(map["guest_checkout" := Str("true"), "checkout_email" := email, "should_create_user" := Str("true")])
    else None
  }

  /** The guest's session repeats the guest's customer metadata and adds
      `should_create_user`; a signed-in user's session has none. */
  lemma GuestMetadataAgrees(email: Value, u: AuthUser)
    ensures GuestCustomer(email).metadata.Some? <==> SessionMetadata(None, email).Some?
    ensures SessionMetadata(None, email).Some? ==>
              SessionMetadata(None, email).value ==
              GuestCustomer(email).metadata.value["should_create_user" := Str("true")]
    ensures SessionMetadata(Some(u), email).None?
  {
    if Truthy(email) {
      var c := map["guest_checkout" := Str("true"), "checkout_email" := email];
      assert c["should_create_user" := Str("true")] ==
             map["guest_checkout" := Str("true"), "checkout_email" := email, "should_create_user" := Str("true")];
    }
  }

  function SessionFor(customerId: string, co: CheckoutRequest, user: Option<AuthUser>): (s: Session)
    ensures s.customer == customerId && s.lineItems == [LineItem(co.priceId, 1)]
    ensures s.mode == co.mode && s.successUrl == co.successUrl && s.cancelUrl == co.cancelUrl
    ensures s.metadata == SessionMetadata(user, co.customerEmail)
  {
    Session(customerId, ["card"], [LineItem(co.priceId, 1)], co.mode, co.successUrl, co.cancelUrl,
            SessionMetadata(user, co.customerEmail))
  }

  function SuccessResponse(sessionIndex: nat, url: Value): Response {
    CorsResponse(Obj([("sessionId", Str(SessionId(sessionIndex))), ("url", url)]))
  }

  // ---- Reading the request body ----

  predicate Parsed(req: Request) {
    req.body.Some? && !Nullish(req.body.value)
  }

  /** The values object the handler validates, built by destructuring. */
  function BodyValues(body: Value): (vs: seq<(string, Value)>)
    ensures Covered(vs, CheckoutExpectations())
  {
    CheckoutValues(Get(body, "price_id"), Get(body, "success_url"), Get(body, "cancel_url"), Get(body, "mode"))
  }

  function ValidationError(body: Value): Option<string> {
    FirstError(BodyValues(body), CheckoutExpectations())
  }

  function ReadCheckout(body: Value): (co: CheckoutRequest)
    requires ValidationError(body).None?
    ensures co.mode == "payment" || co.mode == "subscription"
  {
    CheckoutValidIff(Get(body, "price_id"), Get(body, "success_url"), Get(body, "cancel_url"), Get(body, "mode"));
    CheckoutRequest(Get(body, "price_id").s, Get(body, "success_url").s, Get(body, "cancel_url").s,
                    Get(body, "mode").s, Get(body, "customer_email"))
  }

  /** A POST whose body parses and passes validation. */
  predicate Accepted(req: Request) {
    req.verb == "POST" && Parsed(req) && ValidationError(req.body.value).None?
  }

  /** The answers given before any external call: to OPTIONS, to another
      method, to a body that does not parse, and to a validation error. */
  function EarlyAnswer(req: Request, oc: Outcomes): Option<Response> {
    if req.verb == "OPTIONS" then Some(CorsResponse(Obj([]), 204))
    else if req.verb != "POST" then Some(CorsResponse(ErrorBody("Method not allowed"), 405))
    else if !Parsed(req) then Some(CorsResponse(ErrorBody(oc.thrownMessage), 500))
    else if ValidationError(req.body.value).Some? then
      Some(CorsResponse(ErrorBody(ValidationError(req.body.value).value), 400))
    else None
  }

  /** OPTIONS gets 204 with no body, any other non-POST 405, an unreadable
      body 500 and a validation error 400 with its message; every other
      request goes on, and only a validation error is answered 400. */
  lemma EarlyAnswerCases(req: Request, oc: Outcomes)
    ensures EarlyAnswer(req, oc).None? <==> Accepted(req)
    ensures EarlyAnswer(req, oc).Some? ==> AllowsAnyOrigin(EarlyAnswer(req, oc).value)
    ensures req.verb == "OPTIONS" ==>
              EarlyAnswer(req, oc) == Some(CorsResponse(Obj([]), 204)) && EarlyAnswer(req, oc).value.body.None?
    ensures req.verb != "OPTIONS" && req.verb != "POST" ==>
              EarlyAnswer(req, oc) == Some(CorsResponse(ErrorBody("Method not allowed"), 405))
    ensures req.verb == "POST" && !Parsed(req) ==>
              EarlyAnswer(req, oc) == Some(CorsResponse(ErrorBody(oc.thrownMessage), 500))
    ensures req.verb == "POST" && Parsed(req) && ValidationError(req.body.value).Some? ==>
              EarlyAnswer(req, oc) == Some(CorsResponse(ErrorBody(ValidationError(req.body.value).value), 400))
    ensures EarlyAnswer(req, oc).Some? ==>
              (EarlyAnswer(req, oc).value.status == 400 <==>
               req.verb == "POST" && Parsed(req) && ValidationError(req.body.value).Some?)
  {
  }

  /** The checks of the handler up to validation, with the validation loop. */
  method CheckRequest(req: Request, oc: Outcomes) returns (early: Option<Response>)
    ensures early == EarlyAnswer(req, oc)
  {
    if req.verb == "OPTIONS" {
      return Some(CorsResponse(Obj([]), 204));
    }
    if req.verb != "POST" {
      return Some(CorsResponse(ErrorBody("Method not allowed"), 405));
    }
    if !Parsed(req) {
      return Some(CorsResponse(ErrorBody(oc.thrownMessage), 500));
    }
    var error := ValidateParameters(BodyValues(req.body.value), CheckoutExpectations());
    if error.Some? {
      return Some(CorsResponse(ErrorBody(error.value), 400));
    }
    return None;
  }

  // ---- The invariant the handler keeps ----

  /** Provider ids are fresh, ids in the tables were issued before
      `nextCustomer`, there is at most one non-deleted mapping per user, each
      with a non-empty customer id, and at most one subscription row per
      customer. */
  ghost predicate ValidState(customers: seq<CustomerRow>, subscriptions: seq<SubscriptionRow>,
                             provider: map<nat, ProviderCustomer>, nextCustomer: nat)
  {
    && (forall n :: n in provider ==> n < nextCustomer)
    && (forall r :: r in subscriptions ==> IssuedBefore(r.customerId, nextCustomer))
    && (forall r :: r in customers ==> IssuedBefore(r.customerId, nextCustomer))
    && (forall r :: r in customers && r.deletedAt.None? ==> r.customerId != "")
    && (forall u :: |ActiveMappings(customers, u)| <= 1)
    && (forall c :: |SubscriptionsOf(subscriptions, c)| <= 1)
  }

  lemma ActiveMappingsAppend(rows: seq<CustomerRow>, row: CustomerRow, u: string)
    ensures ActiveMappings(rows + [row], u) ==
            ActiveMappings(rows, u) + (if row.userId == u && row.deletedAt.None? then [row] else [])
  {
    assert (rows + [row])[..|rows|] == rows;
  }

  lemma SubscriptionsOfAppend(rows: seq<SubscriptionRow>, row: SubscriptionRow, c: string)
    ensures SubscriptionsOf(rows + [row], c) == SubscriptionsOf(rows, c) + (if row.customerId == c then [row] else [])
  {
    assert (rows + [row])[..|rows|] == rows;
  }

  /** After the rollback's delete a customer has no subscription rows and
      every other customer keeps its own. */
  lemma {:induction false} SubscriptionsOfWithout(rows: seq<SubscriptionRow>, removed: string, c: string)
    ensures SubscriptionsOf(WithoutSubscriptionsOf(rows, removed), c) ==
            if c == removed then [] else SubscriptionsOf(rows, c)
    decreases |rows|
  {
    if rows != [] {
      var init, last := rows[..|rows| - 1], rows[|rows| - 1];
      SubscriptionsOfWithout(init, removed, c);
      var w := WithoutSubscriptionsOf(init, removed);
      if last.customerId != removed {
        assert WithoutSubscriptionsOf(rows, removed) == w + [last];
        SubscriptionsOfAppend(w, last, c);
      } else {
        assert WithoutSubscriptionsOf(rows, removed) == w;
      }
    }
  }

  /** A customer id the provider has not issued yet has no subscription
      row, so the rollback's delete removes nothing. */
  lemma FreshIdHasNoSubscriptions(rows: seq<SubscriptionRow>, n: nat)
    requires forall r :: r in rows ==> IssuedBefore(r.customerId, n)
    ensures SubscriptionsOf(rows, CustomerId(n)) == []
    ensures WithoutSubscriptionsOf(rows, CustomerId(n)) == rows
  {
    var s := SubscriptionsOf(rows, CustomerId(n));
    if s != [] {
      var x := s[0];
      FreshCustomerId(x.customerId, n);
    }
    forall i | 0 <= i < |rows| ensures rows[i].customerId != CustomerId(n) {
      FreshCustomerId(rows[i].customerId, n);
    }
    WithoutNothing(rows, CustomerId(n));
  }

  lemma {:induction false} WithoutNothing(rows: seq<SubscriptionRow>, removed: string)
    requires forall i :: 0 <= i < |rows| ==> rows[i].customerId != removed
    ensures WithoutSubscriptionsOf(rows, removed) == rows
    decreases |rows|
  {
    if rows != [] {
      var init := rows[..|rows| - 1];
      assert forall i :: 0 <= i < |init| ==> init[i] == rows[i];
      WithoutNothing(init, removed);
      assert rows == init + [rows[|rows| - 1]];
    }
  }

  /** Creating a customer under a fresh index adds exactly one. */
  lemma CreateAddsOne(provider: map<nat, ProviderCustomer>, n: nat, c: ProviderCustomer)
    requires forall k :: k in provider ==> k < n
    ensures |provider[n := c]| == |provider| + 1
  {
    assert n !in provider;
  }

  /** In a valid store a lookup that succeeds but yields no usable mapping
      found no row at all. */
  lemma UnusableMappingIsAbsent(cs: seq<CustomerRow>, ss: seq<SubscriptionRow>, p: map<nat, ProviderCustomer>,
                                n: nat, u: string, fails: bool)
    requires ValidState(cs, ss, p, n)
    requires !MaybeSingle(ActiveMappings(cs, u), fails).LookupFailed?
    requires MappedCustomer(MaybeSingle(ActiveMappings(cs, u), fails)).None?
    ensures ActiveMappings(cs, u) == []
  {
  }

  /** In a valid store a mapped customer id was issued by the provider. */
  lemma MappedIdIssued(cs: seq<CustomerRow>, ss: seq<SubscriptionRow>, p: map<nat, ProviderCustomer>,
                       n: nat, u: string, fails: bool)
    requires ValidState(cs, ss, p, n)
    requires MaybeSingle(ActiveMappings(cs, u), fails).Found?
    ensures IssuedBefore(MaybeSingle(ActiveMappings(cs, u), fails).row.customerId, n)
  {
    var rows := ActiveMappings(cs, u);
    assert rows[0] in rows;
  }

  lemma CreateKeepsValid(cs: seq<CustomerRow>, ss: seq<SubscriptionRow>, p: map<nat, ProviderCustomer>, n: nat,
                         c: ProviderCustomer)
    requires ValidState(cs, ss, p, n)
    ensures ValidState(cs, ss, p[n := c], n + 1)
  {
  }

  lemma DeleteKeepsValid(cs: seq<CustomerRow>, ss: seq<SubscriptionRow>, p: map<nat, ProviderCustomer>, n: nat, k: nat)
    requires ValidState(cs, ss, p, n)
    ensures ValidState(cs, ss, p - {k}, n)
  {
  }

  lemma CleanupKeepsValid(cs: seq<CustomerRow>, ss: seq<SubscriptionRow>, p: map<nat, ProviderCustomer>, n: nat,
                          removed: string)
    requires ValidState(cs, ss, p, n)
    ensures ValidState(cs, WithoutSubscriptionsOf(ss, removed), p, n)
  {
    WithoutSubscriptionsOfKeepsOthers(ss, removed);
    forall c ensures |SubscriptionsOf(WithoutSubscriptionsOf(ss, removed), c)| <= 1 {
      SubscriptionsOfWithout(ss, removed, c);
    }
  }

  lemma NewMappingKeepsValid(cs: seq<CustomerRow>, ss: seq<SubscriptionRow>, p: map<nat, ProviderCustomer>, n: nat,
                             u: string)
    requires ValidState(cs, ss, p, n + 1)
    requires ActiveMappings(cs, u) == []
    ensures ValidState(cs + [CustomerRow(u, CustomerId(n), None)], ss, p, n + 1)
  {
    var row := CustomerRow(u, CustomerId(n), None);
    CustomerIndexOfId(n);
    forall v ensures |ActiveMappings(cs + [row], v)| <= 1 {
      ActiveMappingsAppend(cs, row, v);
    }
  }

  lemma NewSubscriptionKeepsValid(cs: seq<CustomerRow>, ss: seq<SubscriptionRow>, p: map<nat, ProviderCustomer>,
                                  n: nat, id: string)
    requires ValidState(cs, ss, p, n)
    requires IssuedBefore(id, n) && SubscriptionsOf(ss, id) == []
    ensures ValidState(cs, ss + [SubscriptionRow(id, "not_started")], p, n)
  {
    var row := SubscriptionRow(id, "not_started");
    forall c ensures |SubscriptionsOf(ss + [row], c)| <= 1 {
      SubscriptionsOfAppend(ss, row, c);
    }
  }

  // ---- The tables and the provider ----

  class CheckoutBackend {
    var customers: seq<CustomerRow>          // stripe_customers
    var subscriptions: seq<SubscriptionRow>  // stripe_subscriptions
    var provider: map<nat, ProviderCustomer> // the provider's live customers, by creation index
    var nextCustomer: nat                    // how many customers the provider has created
    var sessions: seq<Session>               // the provider's checkout sessions, in creation order

    ghost predicate Valid()
      reads this
    {
      ValidState(customers, subscriptions, provider, nextCustomer)
    }

    constructor ()
      ensures Valid()
      ensures customers == [] && subscriptions == [] && provider == map[] && nextCustomer == 0 && sessions == []
    {
      customers, subscriptions, provider, nextCustomer, sessions := [], [], map[], 0, [];
    }

    twostate predicate TablesUnchanged()
      reads this
    {
      customers == old(customers) && subscriptions == old(subscriptions)
    }

    twostate predicate ProviderUnchanged()
      reads this
    {
      provider == old(provider) && nextCustomer == old(nextCustomer) && sessions == old(sessions)
    }

    /** Exactly one session opened for `customerId`, or the 500 of a failed
        provider call with no session. */
    twostate predicate SessionOutcome(resp: Response, customerId: string, co: CheckoutRequest,
                                      user: Option<AuthUser>, oc: Outcomes)
      reads this
    {
      if oc.sessionCreateFails then
        sessions == old(sessions) && resp == CorsResponse(ErrorBody(oc.thrownMessage), 500)
      else
        sessions == old(sessions) + [SessionFor(customerId, co, user)] &&
        resp == SuccessResponse(|old(sessions)|, oc.sessionUrl)
    }

    /** `stripe.customers.create`. */
    method CreateCustomer(c: ProviderCustomer) returns (id: string)
      modifies this
      ensures id == CustomerId(old(nextCustomer))
      ensures provider == old(provider)[old(nextCustomer) := c] && nextCustomer == old(nextCustomer) + 1
      ensures TablesUnchanged() && sessions == old(sessions)
      ensures old(Valid()) ==> Valid()
    {
      if Valid() {
        CreateKeepsValid(customers, subscriptions, provider, nextCustomer, c);
      }
      id := CustomerId(nextCustomer);
      provider := provider[nextCustomer := c];
      nextCustomer := nextCustomer + 1;
    }

    /** `stripe.checkout.sessions.create` and the 200 answer. */
    method OpenSession(customerId: string, co: CheckoutRequest, user: Option<AuthUser>, oc: Outcomes)
      returns (resp: Response)
      modifies this
      ensures SessionOutcome(resp, customerId, co, user, oc)
      ensures AllowsAnyOrigin(resp) && (resp.status == 200 || resp.status == 500)
      ensures TablesUnchanged() && provider == old(provider) && nextCustomer == old(nextCustomer)
      ensures old(Valid()) ==> Valid()
    {
      if oc.sessionCreateFails {
        return CorsResponse(ErrorBody(oc.thrownMessage), 500);
      }
      var k := |sessions|;
      sessions := sessions + [SessionFor(customerId, co, user)];
      resp := SuccessResponse(k, oc.sessionUrl);
    }

    /** `stripe.customers.del`. */
    method DeleteCustomer(n: nat)
      modifies this
      ensures provider == old(provider) - {n}
      ensures TablesUnchanged() && nextCustomer == old(nextCustomer) && sessions == old(sessions)
      ensures old(Valid()) ==> Valid()
    {
      if Valid() {
        DeleteKeepsValid(customers, subscriptions, provider, nextCustomer, n);
      }
      provider := provider - {n};
    }

    /** `delete().eq('customer_id', id)` on `stripe_subscriptions`. */
    method DeleteSubscriptions(id: string)
      modifies this
      ensures subscriptions == WithoutSubscriptionsOf(old(subscriptions), id)
      ensures customers == old(customers) && ProviderUnchanged()
      ensures old(Valid()) ==> Valid()
    {
      if Valid() {
        CleanupKeepsValid(customers, subscriptions, provider, nextCustomer, id);
      }
      subscriptions := WithoutSubscriptionsOf(subscriptions, id);
    }

    /** Insert into `stripe_customers`; valid when the user had no
        non-deleted mapping and the id is the customer created last. */
    method InsertMapping(userId: string, n: nat)
      modifies this
      ensures customers == old(customers) + [CustomerRow(userId, CustomerId(n), None)]
      ensures subscriptions == old(subscriptions) && ProviderUnchanged()
      ensures old(Valid()) && nextCustomer == n + 1 && ActiveMappings(old(customers), userId) == [] ==> Valid()
    {
      if Valid() && nextCustomer == n + 1 && ActiveMappings(customers, userId) == [] {
        NewMappingKeepsValid(customers, subscriptions, provider, n, userId);
      }
      customers := customers + [CustomerRow(userId, CustomerId(n), None)];
    }

    /** Insert a `not_started` row into `stripe_subscriptions`; valid when
        the customer has none yet. */
    method InsertSubscription(id: string)
      modifies this
      ensures subscriptions == old(subscriptions) + [SubscriptionRow(id, "not_started")]
      ensures customers == old(customers) && ProviderUnchanged()
      ensures old(Valid()) && IssuedBefore(id, nextCustomer) && SubscriptionsOf(old(subscriptions), id) == [] ==> Valid()
    {
      if Valid() && IssuedBefore(id, nextCustomer) && SubscriptionsOf(subscriptions, id) == [] {
        NewSubscriptionKeepsValid(customers, subscriptions, provider, nextCustomer, id);
      }
      subscriptions := subscriptions + [SubscriptionRow(id, "not_started")];
    }

    /** The undo after a failed mapping insert: delete the customer and then
        its subscription rows, each step only when the one before it worked. */
    method UndoCustomer(n: nat, oc: Outcomes)
      modifies this
      ensures customers == old(customers) && nextCustomer == old(nextCustomer) && sessions == old(sessions)
      ensures provider == if oc.customerDeleteFails then old(provider) else old(provider) - {n}
      ensures subscriptions == if oc.customerDeleteFails || oc.subscriptionCleanupFails then old(subscriptions)
                               else WithoutSubscriptionsOf(old(subscriptions), CustomerId(n))
      ensures old(Valid()) ==> Valid()
    {
      if !oc.customerDeleteFails {
        DeleteCustomer(n);
        if !oc.subscriptionCleanupFails {
          DeleteSubscriptions(CustomerId(n));
        }
      }
    }

    /** A signed-in user without a usable mapping: create the customer,
        record the mapping and, in subscription mode, a `not_started` row;
        undo the customer when a later step fails. */
    method CreateMappedCustomer(u: AuthUser, mode: string, oc: Outcomes) returns (r: Result<string, Response>)
      modifies this
      ensures r.Err? ==> AllowsAnyOrigin(r.error) && r.error.status == 500
      ensures sessions == old(sessions)
      ensures old(Valid()) && ActiveMappings(old(customers), u.id) == [] ==> Valid()
      ensures oc.customerCreateFails ==>
                r == Err(CorsResponse(ErrorBody(oc.thrownMessage), 500)) && TablesUnchanged() &&
                provider == old(provider) && nextCustomer == old(nextCustomer)
      ensures !oc.customerCreateFails ==>
                var n := old(nextCustomer);
                var created := old(provider)[n := UserCustomer(u)];
                var rolledBack := if oc.customerDeleteFails then created else created - {n};
                && nextCustomer == n + 1
                && (oc.mappingInsertFails ==>
                      && r == Err(CorsResponse(ErrorBody("Failed to create customer mapping"), 500))
                      && customers == old(customers)
                      && provider == rolledBack
                      && subscriptions == (if oc.customerDeleteFails || oc.subscriptionCleanupFails then old(subscriptions)
                                           else WithoutSubscriptionsOf(old(subscriptions), CustomerId(n))))
                && (!oc.mappingInsertFails ==>
                      && customers == old(customers) + [CustomerRow(u.id, CustomerId(n), None)]
                      && (mode == "subscription" && oc.subscriptionInsertFails ==>
                            && r == Err(CorsResponse(ErrorBody("Unable to save the subscription in the database"), 500))
                            && subscriptions == old(subscriptions) && provider == rolledBack)
                      && (mode == "subscription" && !oc.subscriptionInsertFails ==>
                            r == Ok(CustomerId(n)) && provider == created &&
                            subscriptions == old(subscriptions) + [SubscriptionRow(CustomerId(n), "not_started")])
                      && (mode != "subscription" ==>
                            r == Ok(CustomerId(n)) && provider == created && subscriptions == old(subscriptions)))
    {
      if oc.customerCreateFails {
        return Err(CorsResponse(ErrorBody(oc.thrownMessage), 500));
      }
      var n := nextCustomer;
      if Valid() {
        FreshIdHasNoSubscriptions(subscriptions, n);
      }
      var id := CreateCustomer(UserCustomer(u));
      if oc.mappingInsertFails {
        UndoCustomer(n, oc);
        return Err(CorsResponse(ErrorBody("Failed to create customer mapping"), 500));
      }
      InsertMapping(u.id, n);
      if mode == "subscription" {
        if oc.subscriptionInsertFails {
          if !oc.customerDeleteFails {
            DeleteCustomer(n);
          }
          return Err(CorsResponse(ErrorBody("Unable to save the subscription in the database"), 500));
        }
        CustomerIndexOfId(n);
        InsertSubscription(id);
      }
      return Ok(id);
    }

    /** A signed-in user with a mapping: reuse its customer and, in
        subscription mode, add a `not_started` row only if the customer has
        none. */
    method ReuseCustomer(customerId: string, mode: string, oc: Outcomes) returns (r: Result<string, Response>)
      modifies this
      ensures r.Err? ==> AllowsAnyOrigin(r.error) && r.error.status == 500
      ensures customers == old(customers) && ProviderUnchanged()
      ensures old(Valid()) && IssuedBefore(customerId, old(nextCustomer)) ==> Valid()
      ensures mode != "subscription" ==> r == Ok(customerId) && subscriptions == old(subscriptions)
      ensures mode == "subscription" ==>
                match MaybeSingle(SubscriptionsOf(old(subscriptions), customerId), oc.subscriptionLookupFails)
                case LookupFailed =>
                  r == Err(CorsResponse(ErrorBody("Failed to fetch subscription information"), 500)) &&
                  subscriptions == old(subscriptions)
                case Found(_) =>
                  r == Ok(customerId) && subscriptions == old(subscriptions)
                case Absent =>
                  if oc.subscriptionInsertFails then
                    r == Err(CorsResponse(ErrorBody("Failed to create subscription record for existing customer"), 500)) &&
                    subscriptions == old(subscriptions)
                  else
                    r == Ok(customerId) && subscriptions == old(subscriptions) + [SubscriptionRow(customerId, "not_started")]
    {
      if mode == "subscription" {
        var subscription := MaybeSingle(SubscriptionsOf(subscriptions, customerId), oc.subscriptionLookupFails);
        if subscription.LookupFailed? {
          return Err(CorsResponse(ErrorBody("Failed to fetch subscription information"), 500));
        }
        if subscription.Absent? {
          if oc.subscriptionInsertFails {
            return Err(CorsResponse(ErrorBody("Failed to create subscription record for existing customer"), 500));
          }
          InsertSubscription(customerId);
        }
      }
      return Ok(customerId);
    }

    /** The guest path: no mapping or subscription row; a customer, with
        contact details only when an email was given, then one session. */
    twostate predicate GuestEffects(resp: Response, co: CheckoutRequest, oc: Outcomes)
      reads this
    {
      && TablesUnchanged()
      && (oc.customerCreateFails ==>
            resp == CorsResponse(ErrorBody(oc.thrownMessage), 500) && ProviderUnchanged())
      && (!oc.customerCreateFails ==>
            && provider == old(provider)[old(nextCustomer) := GuestCustomer(co.customerEmail)]
            && nextCustomer == old(nextCustomer) + 1
            && SessionOutcome(resp, CustomerId(old(nextCustomer)), co, None, oc))
    }

    /** A signed-in user with mapped customer `c`: no customer is created,
        `c` is used, and a `not_started` row is added only when `c` has no
        subscription row. */
    twostate predicate MappedEffects(resp: Response, u: AuthUser, c: string, co: CheckoutRequest, oc: Outcomes)
      reads this
    {
      && customers == old(customers)
      && provider == old(provider) && nextCustomer == old(nextCustomer)
      && (co.mode != "subscription" ==>
            subscriptions == old(subscriptions) && SessionOutcome(resp, c, co, Some(u), oc))
      && (co.mode == "subscription" ==>
            match MaybeSingle(SubscriptionsOf(old(subscriptions), c), oc.subscriptionLookupFails)
            case LookupFailed =>
              resp == CorsResponse(ErrorBody("Failed to fetch subscription information"), 500) &&
              subscriptions == old(subscriptions) && sessions == old(sessions)
            case Found(_) =>
              subscriptions == old(subscriptions) && SessionOutcome(resp, c, co, Some(u), oc)
            case Absent =>
              if oc.subscriptionInsertFails then
                resp == CorsResponse(ErrorBody("Failed to create subscription record for existing customer"), 500) &&
                subscriptions == old(subscriptions) && sessions == old(sessions)
              else
                subscriptions == old(subscriptions) + [SubscriptionRow(c, "not_started")] &&
                SessionOutcome(resp, c, co, Some(u), oc))
    }

    /** A signed-in user without a usable mapping: one customer tagged with
        the user's id and one mapping row; a failed mapping insert deletes
        the customer and its subscription rows, a failed subscription insert
        deletes only the customer and keeps the mapping. */
    twostate predicate UnmappedEffects(resp: Response, u: AuthUser, co: CheckoutRequest, oc: Outcomes)
      reads this
    {
      var n := old(nextCustomer);
      var id := CustomerId(n);
      var created := old(provider)[n := UserCustomer(u)];
      var rolledBack := if oc.customerDeleteFails then created else created - {n};
      && (oc.customerCreateFails ==>
            resp == CorsResponse(ErrorBody(oc.thrownMessage), 500) && TablesUnchanged() && ProviderUnchanged())
      && (!oc.customerCreateFails ==> nextCustomer == n + 1)
      && (!oc.customerCreateFails && oc.mappingInsertFails ==>
            && resp == CorsResponse(ErrorBody("Failed to create customer mapping"), 500)
            && customers == old(customers) && provider == rolledBack && sessions == old(sessions)
            && subscriptions == (if oc.customerDeleteFails || oc.subscriptionCleanupFails then old(subscriptions)
                                 else WithoutSubscriptionsOf(old(subscriptions), id)))
      && (!oc.customerCreateFails && !oc.mappingInsertFails ==>
            && customers == old(customers) + [CustomerRow(u.id, id, None)]
            && (co.mode == "subscription" && oc.subscriptionInsertFails ==>
                  && resp == CorsResponse(ErrorBody("Unable to save the subscription in the database"), 500)
                  && subscriptions == old(subscriptions) && provider == rolledBack && sessions == old(sessions))
            && (co.mode == "subscription" && !oc.subscriptionInsertFails ==>
                  subscriptions == old(subscriptions) + [SubscriptionRow(id, "not_started")] &&
                  provider == created && SessionOutcome(resp, id, co, Some(u), oc))
            && (co.mode != "subscription" ==>
                  subscriptions == old(subscriptions) && provider == created &&
                  SessionOutcome(resp, id, co, Some(u), oc)))
    }

    /** The signed-in path, by what the mapping lookup finds. */
    twostate predicate UserEffects(resp: Response, u: AuthUser, co: CheckoutRequest, oc: Outcomes)
      reads this
    {
      var mapping := MaybeSingle(ActiveMappings(old(customers), u.id), oc.customerLookupFails);
      if mapping.LookupFailed? then
        resp == CorsResponse(ErrorBody("Failed to fetch customer information"), 500) &&
        TablesUnchanged() && ProviderUnchanged()
      else if MappedCustomer(mapping).Some? then MappedEffects(resp, u, MappedCustomer(mapping).value, co, oc)
      else UnmappedEffects(resp, u, co, oc)
    }

    method HandleGuest(co: CheckoutRequest, oc: Outcomes) returns (resp: Response)
      modifies this
      ensures GuestEffects(resp, co, oc)
      ensures AllowsAnyOrigin(resp) && (resp.status == 200 || resp.status == 500)
      ensures old(Valid()) ==> Valid()
    {
      if oc.customerCreateFails {
        return CorsResponse(ErrorBody(oc.thrownMessage), 500);
      }
      var customerId := CreateCustomer(GuestCustomer(co.customerEmail));
      resp := OpenSession(customerId, co, None, oc);
    }

    method HandleUser(u: AuthUser, co: CheckoutRequest, oc: Outcomes) returns (resp: Response)
      modifies this
      ensures UserEffects(resp, u, co, oc)
      ensures AllowsAnyOrigin(resp) && (resp.status == 200 || resp.status == 500)
      ensures old(Valid()) ==> Valid()
    {
      var mapping := MaybeSingle(ActiveMappings(customers, u.id), oc.customerLookupFails);
      if mapping.LookupFailed? {
        return CorsResponse(ErrorBody("Failed to fetch customer information"), 500);
      }
      var r;
      if MappedCustomer(mapping).None? {
        if Valid() {
          UnusableMappingIsAbsent(customers, subscriptions, provider, nextCustomer, u.id, oc.customerLookupFails);
        }
        r := CreateMappedCustomer(u, co.mode, oc);
      } else {
        if Valid() {
          MappedIdIssued(customers, subscriptions, provider, nextCustomer, u.id, oc.customerLookupFails);
        }
        r := ReuseCustomer(mapping.row.customerId, co.mode, oc);
      }
      if r.Err? {
        return r.error;
      }
      resp := OpenSession(r.value, co, Some(u), oc);
    }

    /** An accepted request: the guest or the signed-in path. */
    method HandleAccepted(body: Value, authorization: Option<string>, identities: map<string, AuthUser>, oc: Outcomes)
      returns (resp: Response)
      requires ValidationError(body).None?
      modifies this
      ensures AllowsAnyOrigin(resp) && (resp.status == 200 || resp.status == 500)
      ensures old(Valid()) ==> Valid()
      ensures Identify(authorization, identities).None? ==> GuestEffects(resp, ReadCheckout(body), oc)
      ensures Identify(authorization, identities).Some? ==>
                UserEffects(resp, Identify(authorization, identities).value, ReadCheckout(body), oc)
    {
      var co := ReadCheckout(body);
      var user := Identify(authorization, identities);
      if user.Some? {
        resp := HandleUser(user.value, co, oc);
      } else {
        resp := HandleGuest(co, oc);
      }
    }

    /** The request handler. */
    method Handle(req: Request, identities: map<string, AuthUser>, oc: Outcomes) returns (resp: Response)
      modifies this
      // Every answer carries the CORS headers, and the store stays valid.
      ensures AllowsAnyOrigin(resp)
      ensures old(Valid()) ==> Valid()
      // Method, body and validation outcomes: nothing is created.
      ensures EarlyAnswer(req, oc).Some? ==>
                resp == EarlyAnswer(req, oc).value && TablesUnchanged() && ProviderUnchanged()
      ensures resp.status == 400 <==> req.verb == "POST" && Parsed(req) && ValidationError(req.body.value).Some?
      // An accepted request takes the guest or the signed-in path.
      ensures Accepted(req) && Identify(req.authorization, identities).None? ==>
                GuestEffects(resp, ReadCheckout(req.body.value), oc)
      ensures Accepted(req) && Identify(req.authorization, identities).Some? ==>
                UserEffects(resp, Identify(req.authorization, identities).value, ReadCheckout(req.body.value), oc)
    {
      EarlyAnswerCases(req, oc);
      var early := CheckRequest(req, oc);
      if early.Some? {
        return early.value;
      }
      resp := HandleAccepted(req.body.value, req.authorization, identities, oc);
    }
  }
}
