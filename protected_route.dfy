/** The access gate in front of the dashboard
    (src/components/ProtectedRoute.tsx): a choice among four views from
    the auth context's `loading` and `user` and the route's
    `requiresPayment` flag. */
module ProtectedRoute {
  import opened Wrappers
  import opened Json

  /** The part of the signed-in user the gate reads. */
  datatype User = User(subscriptionStatus: Value)

  datatype View = Loading | SignInPrompt | PaymentRequired | Children

  /** `user.subscription_status !== 'active'` is strict: only the string
      `active` counts as paid. */
  predicate Paid(u: User) {
    u.subscriptionStatus == Str("active")
  }

  /** The chain of guarded returns; `requiresPayment` defaults to true. */
  function Gate(loading: bool, user: Option<User>, requiresPayment: bool := true): (v: View)
    ensures loading ==> v == Loading
    ensures !loading && user.None? ==> v == SignInPrompt
    ensures v == PaymentRequired <==> !loading && user.Some? && requiresPayment && !Paid(user.value)
    ensures v == Children <==> !loading && user.Some? && (!requiresPayment || Paid(user.value))
  {
    if loading then Loading
    else if user.None? then SignInPrompt
    else if requiresPayment && !Paid(user.value) then PaymentRequired
    else Children
  }

  /** Leaving `requiresPayment` out is the same as passing true. */
  lemma DefaultRequiresPayment(loading: bool, user: Option<User>)
    ensures Gate(loading, user) == Gate(loading, user, true)
  {
  }

  /** Any status other than exactly 'active' (absent, null, 'not_started',
      'canceled', a non-string) keeps a signed-in user out of a paid route. */
  lemma UnpaidStatusBlocked(status: Value)
    requires status != Str("active")
    ensures Gate(false, Some(User(status))) == PaymentRequired
  {
  }

  /** Dropping the payment requirement never takes access away. */
  lemma PaymentRequirementOnlyRestricts(loading: bool, user: Option<User>)
    ensures Gate(loading, user, true) == Children ==> Gate(loading, user, false) == Children
    ensures Gate(loading, user, false) != PaymentRequired
  {
  }
}
