/** `validateParameters` of the checkout function
    (supabase/functions/stripe-checkout/index.ts): a walk over the request
    parameters in order that stops at the first one that does not meet its
    expectation and returns that parameter's message. */
module CheckoutValidation {
  import opened Wrappers
  import opened Json

  /** `ExpectedType`: the string `'string'`, or `{ values: [...] }`. */
  datatype Expectation = IsString | OneOf(values: seq<string>)

  /** One iteration of the loop: the message for `name`, or None when the
      value meets the expectation. `includes` uses strict equality, so only
      a string can be one of the listed values. */
  function CheckParameter(name: string, expectation: Expectation, value: Value): Option<string> {
    match expectation
    case IsString =>
      if Nullish(value) then Some("Missing required parameter " + name)
      else if !value.Str? then Some("Expected parameter " + name + " to be a string got " + Stringify(value))
      else None
    case OneOf(values) =>
      if value.Str? && value.s in values then None
      else Some("Expected parameter " + name + " to be one of " + Join(values, ", "))
  }

  /** Every parameter has an expectation (the `Expectations<T>` type asks it). */
  predicate Covered(values: seq<(string, Value)>, expected: map<string, Expectation>) {
    forall i :: 0 <= i < |values| ==> values[i].0 in expected
  }

  function CheckAt(values: seq<(string, Value)>, expected: map<string, Expectation>, i: nat): Option<string>
    requires Covered(values, expected) && i < |values|
  {
    CheckParameter(values[i].0, expected[values[i].0], values[i].1)
  }

  /** The message of the first parameter that fails, in the order given. */
  function FirstError(values: seq<(string, Value)>, expected: map<string, Expectation>): Option<string>
    requires Covered(values, expected)
    decreases |values|
  {
    if values == [] then None
    else
      var here := CheckParameter(values[0].0, expected[values[0].0], values[0].1);
      if here.Some? then here else FirstError(values[1..], expected)
  }

  /** FirstError is None exactly when every parameter passes, and otherwise
      is the message of a failing parameter all of whose predecessors pass. */
  lemma {:induction false} FirstErrorIsFirstFailure(values: seq<(string, Value)>, expected: map<string, Expectation>)
    requires Covered(values, expected)
    ensures FirstError(values, expected).None? <==>
            forall i :: 0 <= i < |values| ==> CheckAt(values, expected, i).None?
    ensures FirstError(values, expected).Some? ==>
            exists k :: 0 <= k < |values| && CheckAt(values, expected, k) == FirstError(values, expected) &&
                        forall j :: 0 <= j < k ==> CheckAt(values, expected, j).None?
    decreases |values|
  {
    if values != [] {
      var tail := values[1..];
      FirstErrorIsFirstFailure(tail, expected);
      assert forall i :: 1 <= i < |values| ==> CheckAt(values, expected, i) == CheckAt(tail, expected, i - 1);
      if CheckAt(values, expected, 0).None? && FirstError(values, expected).Some? {
        var k :| 0 <= k < |tail| && CheckAt(tail, expected, k) == FirstError(tail, expected) &&
                 forall j :: 0 <= j < k ==> CheckAt(tail, expected, j).None?;
        assert CheckAt(values, expected, k + 1) == FirstError(values, expected);
      }
    }
  }

  /** The `for ... in` loop with its early return. */
  method ValidateParameters(values: seq<(string, Value)>, expected: map<string, Expectation>)
    returns (error: Option<string>)
    requires Covered(values, expected)
    ensures error == FirstError(values, expected)
  {
    var i := 0;
    while i < |values|
      invariant 0 <= i <= |values|
      invariant FirstError(values, expected) == FirstError(values[i..], expected)
    {
      var parameter := values[i].0;
      var expectation := expected[parameter];
      var value := values[i].1;
      var message := CheckParameter(parameter, expectation, value);
      if message.Some? {
        return message;
      }
      assert values[i..][1..] == values[i + 1..];
      i := i + 1;
    }
    return None;
  }

  /** What a `'string'` parameter accepts and the two messages it can give. */
  lemma StringParameter(name: string, value: Value)
    ensures CheckParameter(name, IsString, value).None? <==> value.Str?
    ensures CheckParameter(name, IsString, Str("")).None?
    ensures Nullish(value) ==> CheckParameter(name, IsString, value) == Some("Missing required parameter " + name)
    ensures !Nullish(value) && !value.Str? ==>
            CheckParameter(name, IsString, value) ==
            Some("Expected parameter " + name + " to be a string got " + Stringify(value))
  {
  }

  // ---- The checkout request's own parameters ----

  const Modes: seq<string> := ["payment", "subscription"]

  /** The expectations object of the handler; its key order plays no part,
      since the loop walks the values object. */
  function CheckoutExpectations(): map<string, Expectation> {
    map["cancel_url" := IsString, "price_id" := IsString, "success_url" := IsString, "mode" := OneOf(Modes)]
  }

  /** The values object `{ price_id, success_url, cancel_url, mode }`, in
      the order the loop visits it. */
  function CheckoutValues(priceId: Value, successUrl: Value, cancelUrl: Value, mode: Value): (vs: seq<(string, Value)>)
    ensures Covered(vs, CheckoutExpectations())
  {
    [("price_id", priceId), ("success_url", successUrl), ("cancel_url", cancelUrl), ("mode", mode)]
  }

  /** `mode` passes only as exactly 'payment' or 'subscription'; anything
      else, absence included, names both allowed values. */
  lemma ModeParameter(mode: Value)
    ensures CheckParameter("mode", OneOf(Modes), mode).None? <==> mode == Str("payment") || mode == Str("subscription")
    ensures CheckParameter("mode", OneOf(Modes), mode).Some? ==>
            CheckParameter("mode", OneOf(Modes), mode) ==
            Some("Expected parameter mode to be one of payment, subscription")
  {
    ModesText();
    if !(mode.Str? && mode.s in Modes) {
      assert CheckParameter("mode", OneOf(Modes), mode) ==
             Some("Expected parameter " + "mode" + " to be one of " + "payment, subscription");
    }
  }

  lemma ModesText()
    ensures Join(Modes, ", ") == "payment, subscription"
    ensures "Expected parameter " + "mode" + " to be one of " + "payment, subscription" ==
            "Expected parameter mode to be one of payment, subscription"
  {
    assert Join(Modes, ", ") == "payment, subscription" by {
      assert Modes[1..] == ["subscription"];
      assert Join(Modes[1..], ", ") == "subscription";
      assert Join(Modes, ", ") == "payment" + ", " + "subscription";
    }
    ModeMessageText();
  }

  lemma ModeMessageText()
    ensures "Expected parameter " + "mode" + " to be one of " + "payment, subscription" ==
            "Expected parameter mode to be one of payment, subscription"
  {
  }

  /** The checkout request is validated field by field in the order
      price_id, success_url, cancel_url, mode, and the first failing
      field's message is the result. */
  lemma CheckoutValidationOrder(priceId: Value, successUrl: Value, cancelUrl: Value, mode: Value)
    ensures var r := FirstError(CheckoutValues(priceId, successUrl, cancelUrl, mode), CheckoutExpectations());
            var p := CheckParameter("price_id", IsString, priceId);
            var s := CheckParameter("success_url", IsString, successUrl);
            var c := CheckParameter("cancel_url", IsString, cancelUrl);
            var m := CheckParameter("mode", OneOf(Modes), mode);
            && (p.Some? ==> r == p)
            && (p.None? && s.Some? ==> r == s)
            && (p.None? && s.None? && c.Some? ==> r == c)
            && (p.None? && s.None? && c.None? ==> r == m)
  {
    var e := CheckoutExpectations();
    assert e["price_id"] == IsString && e["success_url"] == IsString && e["cancel_url"] == IsString;
    assert e["mode"] == OneOf(Modes);
    var m := CheckParameter("mode", OneOf(Modes), mode);
    var c := CheckParameter("cancel_url", IsString, cancelUrl);
    var s := CheckParameter("success_url", IsString, successUrl);
    var v3 := [("mode", mode)];
    assert v3[1..] == [];
    assert FirstError(v3, e) == m;
    var v2 := [("cancel_url", cancelUrl), ("mode", mode)];
    assert v2[1..] == v3;
    assert FirstError(v2, e) == if c.Some? then c else m;
    var v1 := [("success_url", successUrl), ("cancel_url", cancelUrl), ("mode", mode)];
    assert v1[1..] == v2;
    assert FirstError(v1, e) == if s.Some? then s else FirstError(v2, e);
    var vs := CheckoutValues(priceId, successUrl, cancelUrl, mode);
    assert vs[1..] == v1;
  }

  /** A checkout request passes validation exactly when the three URLs and
      the price are strings and the mode is one of the two allowed ones. */
  lemma CheckoutValidIff(priceId: Value, successUrl: Value, cancelUrl: Value, mode: Value)
    ensures FirstError(CheckoutValues(priceId, successUrl, cancelUrl, mode), CheckoutExpectations()).None? <==>
            priceId.Str? && successUrl.Str? && cancelUrl.Str? && (mode == Str("payment") || mode == Str("subscription"))
  {
    CheckoutValidationOrder(priceId, successUrl, cancelUrl, mode);
    ModeParameter(mode);
  }
}
