/** How the two functions meet: the sessions the checkout opens and the
    `checkout.session.completed` events the webhook then receives. */
module CheckoutToWebhook {
  import opened Wrappers
  import opened Json
  import StripeCheckout
  import StripeWebhook

  /** The metadata of a session, as the provider hands it back, has only
      the keys the checkout set, and none when it set no metadata. */
  predicate FromSession(members: seq<(string, Value)>, user: Option<StripeCheckout.AuthUser>, email: Value) {
    match StripeCheckout.SessionMetadata(user, email)
    case None => members == []
    case Some(m) => forall i :: 0 <= i < |members| ==> members[i].0 in m
  }

  /** The checkout never writes `user_id` into the session metadata. */
  lemma NoUserIdInSessionMetadata(members: seq<(string, Value)>, user: Option<StripeCheckout.AuthUser>, email: Value)
    requires FromSession(members, user, email)
    ensures Lookup(members, "user_id") == Undefined
  {
    assert "user_id" != "guest_checkout" by { assert "user_id"[0] != "guest_checkout"[0]; }
    assert "user_id" != "checkout_email" by { assert "user_id"[0] != "checkout_email"[0]; }
    assert "user_id" != "should_create_user" by { assert "user_id"[0] != "should_create_user"[0]; }
    var m := StripeCheckout.SessionMetadata(user, email);
    if m.Some? {
      assert "user_id" !in m.value;
    }
  }

  /** Completing a session the checkout opened, for a guest or for a
      signed-in user, never activates a user: the webhook classifies the
      event as one without a user id. */
  lemma CompletedCheckoutNeverActivates(event: Value, session: Value, user: Option<StripeCheckout.AuthUser>, email: Value)
    requires Member(event, "type") == Some(Str("checkout.session.completed"))
    requires StripeWebhook.EventObject(event) == Some(session)
    requires Get(session, "metadata").Obj?
    requires FromSession(Get(session, "metadata").members, user, email)
    ensures StripeWebhook.Classify(event) == Some(StripeWebhook.NoUserId)
  {
    NoUserIdInSessionMetadata(Get(session, "metadata").members, user, email);
    StripeWebhook.CompletedWithoutUserIdWritesNothing(event, session);
  }
}
