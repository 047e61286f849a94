/** Facts that relate the handlers to each other and to the coercions they use. */
module ControllerProperties {
  import opened Optional
  import opened JsValues
  import opened Upstream
  import opened RechargeController

  // ---------------------------------------------------------------------
  // Ownership

  /** With ids as exact integers, a customer who sends their own id in
      decimal passes the subscription ownership check, and any other decimal
      id fails it. */
  lemma OwnershipByDecimalId(owner: int, other: int, quantity: Json)
    requires other != owner
    ensures OwnsSubscription(Subscription(Num(owner), quantity), IntToString(owner))
    ensures !OwnsSubscription(Subscription(Num(owner), quantity), IntToString(other))
  {
    ParseIntRoundTrip(owner);
    ParseIntRoundTrip(other);
  }

  /** A customer who sends their own id in decimal passes the charge
      ownership check too: `Number` reads it back as the owner id. */
  lemma ChargeOwnershipByDecimalId(c: Charge, owner: int)
    requires c.customer == Some(Num(owner))
    ensures ChargeOwner(c) == NumberString(IntToString(owner))
  {
    NumberRoundTrip(owner);
  }

  /** Every signed decimal numeral the product addition accepts as the
      owner's id (through `Number`) the subscription handlers accept too
      (through `parseInt`). */
  lemma ChargeCheckImpliesSubscriptionCheck(owner: int, customerId: string, quantity: Json)
    requires customerId != "" && NumberString(customerId) == Some(owner)
    ensures OwnsSubscription(Subscription(Num(owner), quantity), customerId)
  {
    NumberThenParseInt(customerId);
  }

  /** Not conversely: with a trailing non-digit, `parseInt` still reads the
      owner id and `Number` reads NaN, so "42abc" passes the subscription
      check for customer 42 and fails the charge check. */
  lemma SubscriptionCheckLooserThanChargeCheck(quantity: Json)
    ensures OwnsSubscription(Subscription(Num(42), quantity), "42abc")
    ensures NumberString("42abc") != Some(42)
  {
    assert AllDigits("42");
    assert DigitsValue("42") == 42 by {
      assert "42"[..1] == "4";
      assert "4"[..0] == "";
    }
    assert "42abc" == "42" + "abc";
    ParseIntIgnoresTrailing("42", "abc");
  }

  // ---------------------------------------------------------------------
  // Validation

  /** The update runs the read's checks plus the quantity check: whatever
      passes the update's checks passes the read's, and a request that the
      read refuses for a missing field the update refuses the same way. */
  lemma UpdateChecksExtendGetChecks(sid: Option<string>, cid: Option<string>, q: Json, cfg: Config)
    ensures ValidateUpdate(UpdateRequest(sid, cid, q), cfg).None? ==> ValidateGet(GetRequest(sid, cid), cfg).None?
    ensures ValidateGet(GetRequest(sid, cid), cfg).Some? && ValidateGet(GetRequest(sid, cid), cfg).value.status == 400 ==>
      ValidateUpdate(UpdateRequest(sid, cid, q), cfg) == ValidateGet(GetRequest(sid, cid), cfg)
    ensures !QuantityRejected(q) ==> ValidateUpdate(UpdateRequest(sid, cid, q), cfg) == ValidateGet(GetRequest(sid, cid), cfg)
  {
  }

  /** An omitted quantity in the product addition stands for 1 and passes
      its check; an explicit `null` does not. */
  lemma OmittedQuantityIsOne()
    ensures !QuantityRejected(EffectiveQuantity(Undefined)) && ToNumber(EffectiveQuantity(Undefined)) == Some(1)
    ensures QuantityRejected(EffectiveQuantity(Null))
  {
  }

  /** A non-empty quantity string that is not a number passes the check
      (NaN is not below 1); the update then writes `parseInt` of it, and
      the addition writes NaN. */
  lemma NonNumericQuantityPasses(s: string)
    requires s != "" && NumberString(s).None?
    ensures !QuantityRejected(Str(s))
    ensures ToNumber(EffectiveQuantity(Str(s))).None?
  {
  }

  /** For instance "abc": accepted, and NaN for both `parseInt` and `Number`. */
  lemma AbcQuantityPasses()
    ensures !QuantityRejected(Str("abc"))
    ensures ParseInt(Str("abc")).None? && ToNumber(Str("abc")).None?
  {
  }

  // ---------------------------------------------------------------------
  // Catch blocks

  /** The read and the update map every failure to the same status; their
      responses differ only on an upstream 422, where only the message differs. */
  lemma ReadAndUpdateFailuresAgree(f: Failure, subscriptionId: string)
    ensures GetFailure(f, subscriptionId).status == UpdateFailure(f, subscriptionId).status
    ensures GetFailure(f, subscriptionId) == UpdateFailure(f, subscriptionId) <==> !(f.HttpError? && f.status == 422)
    ensures f.HttpError? && f.status == 422 ==>
      GetFailure(f, subscriptionId).body == ErrorDetails(RechargeApiError, f.data)
      && UpdateFailure(f, subscriptionId).body == ErrorDetails(InvalidRequestData, f.data)
  {
  }

  /** An upstream 401 gives the same fixed 401 response from the read, the
      update and the addition; the customer test passes it through with
      the upstream data instead. */
  lemma UnauthorizedIsUniform(f: Failure, subscriptionId: string, chargeId: string, customerId: string)
    requires f.HttpError? && f.status == 401
    ensures GetFailure(f, subscriptionId) == Response(401, Error(InvalidApiToken))
    ensures UpdateFailure(f, subscriptionId) == Response(401, Error(InvalidApiToken))
    ensures AddProductFailure(f, chargeId) == Response(401, Error(InvalidApiToken))
    ensures TestFailure(f, customerId) == Response(401, CustomerAccessFailed(401, f.data, customerId))
  {
  }

  /** A request that got no answer is 503 from the read, the update and the
      addition, and 500 from the customer test, which has no such branch. */
  lemma NoAnswerMapping(subscriptionId: string, chargeId: string, customerId: string)
    ensures GetFailure(NoResponse, subscriptionId) == Response(503, Error(Unreachable))
    ensures UpdateFailure(NoResponse, subscriptionId) == Response(503, Error(Unreachable))
    ensures AddProductFailure(NoResponse, chargeId) == Response(503, Error(Unreachable))
    ensures TestFailure(NoResponse, customerId).status == 500
  {
  }

  /** The customer test keeps the common status table except on a missing answer. */
  lemma TestFailureStatus(f: Failure, customerId: string)
    ensures TestFailure(f, customerId).status == FailureStatus(f) <==> !f.NoResponse?
  {
  }

  /** No catch block turns a failure into a success. */
  lemma FailuresAreNeverSuccess(f: Failure, id: string)
    ensures UpdateFailure(f, id).status != 200 && GetFailure(f, id).status != 200
    ensures AddProductFailure(f, id).status != 200 && TestFailure(f, id).status != 200
  {
  }
}
