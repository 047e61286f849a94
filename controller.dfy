/** The four request handlers of the subscription controller. Each one checks
    its inputs in a fixed order, reads the resource it concerns from the
    upstream API, checks that the caller owns it, and only then writes.
    A handler receives the request fields, the two configuration flags and
    the scripted upstream answers; it returns the calls it issued, in order,
    and the response it sent. */
module RechargeController {
  import opened Optional
  import opened JsValues
  import opened Upstream

  // ---------------------------------------------------------------------
  // Inputs and outputs

  /** Whether the access token and the API version are configured. */
  datatype Config = Config(tokenConfigured: bool, versionConfigured: bool)

  /** PUT /:subscriptionId/quantity?customer_id= with body `{quantity}`. */
  datatype UpdateRequest = UpdateRequest(subscriptionId: Option<string>, customerId: Option<string>, quantity: Json)

  /** GET /:subscriptionId?customer_id=. */
  datatype GetRequest = GetRequest(subscriptionId: Option<string>, customerId: Option<string>)

  /** POST /charge/:charge_id/next-order?customer_id= with body
      `{product_id, variant_id, quantity}`; an omitted quantity is `Undefined`. */
  datatype AddProductRequest = AddProductRequest(
    chargeId: Option<string>,
    customerId: Option<string>,
    productId: Json,
    variantId: Json,
    quantity: Json)

  /** The JSON body of a response, one variant per shape the handlers send.
      Variants other than `Error` and `ErrorDetails` carry a fixed `error` or
      `message` text, named in their comment. */
  datatype Body =
    | Error(error: string)
    | ErrorDetails(error: string, details: Json)
      /** "Subscription not found" */
    | SubscriptionNotFound(subscriptionId: string)
      /** "Unauthorized: Customer ID does not match subscription owner" */
    | SubscriptionOwnerMismatch(providedCustomerId: string, subscriptionCustomerId: Json)
      /** "Subscription retrieved successfully" */
    | SubscriptionRetrieved(subscription: Subscription)
    | QuantityReport(
        message: string,
        subscriptionId: string,
        quantity: Json,
        requestedQuantity: Option<int>,
        quantityUpdated: bool,
        subscription: Subscription)
      /** "Charge data not found in response" */
    | ChargeDataMissing(chargeId: Option<int>, responseData: Payload)
    | ChargeIncomplete(error: string, chargeId: Option<int>)
      /** "Unauthorized: Customer ID does not match charge owner" */
    | ChargeOwnerMismatch(providedCustomerNumber: Option<int>, chargeCustomerId: int, chargeId: Option<int>)
      /** "Charge not found", with a fixed suggestion text */
    | ChargeNotFound(chargeIdParam: string, details: Json)
      /** "Product added to next order successfully" */
    | ProductAdded(chargeId: Option<int>, customerId: int, addressId: int, onetime: Option<Onetime>)
      /** "Internal server error", with the fault's message */
    | InternalError(message: string)
      /** "Customer access test successful" */
    | CustomerAccess(customerNumber: Option<int>, customer: Option<Customer>, hasDefaultAddress: bool)
      /** "Customer access test failed" */
    | CustomerAccessFailed(status: int, details: Json, customerIdParam: string)

  datatype Response = Response(status: int, body: Body)

  const SubscriptionIdRequired := "Subscription ID is required"
  const CustomerIdQueryRequired := "Customer ID is required as query parameter"
  const QuantityRequired := "Valid quantity (minimum 1) is required"
  const TokenNotConfigured := "Recharge API token not configured"
  const VersionNotConfigured := "Recharge API version not configured"
  const ChargeIdRequired := "Charge ID is required"
  const ProductIdRequired := "Product ID is required"
  const VariantIdRequired := "Variant ID is required"
  const CustomerIdRequired := "Customer ID is required"
  const ChargeHasNoCustomer := "Charge does not have a customer_id"
  const ChargeHasNoAddress := "Charge does not have an address_id"
  const InvalidRequestData := "Invalid request data"
  const InvalidApiToken := "Unauthorized - Invalid API token"
  const RechargeApiError := "Recharge API error"
  const Unreachable := "Unable to connect to Recharge API"
  const InternalServerError := "Internal server error"
  const CustomerTestInternal := "Internal server error during customer test"
  const QuantityUpdatedMessage := "Quantity updated successfully"
  const QuantityNotAppliedMessage := "Quantity update may not have been applied"
  /** Stands for the message of the TypeError thrown when a handler reads a
      field of a payload object that is not there, such as "Cannot read
      properties of undefined (reading 'id')" or its `null` form. */
  const MissingProperty := "Cannot read properties of undefined"

  // ---------------------------------------------------------------------
  // Validation

  /** `!quantity || quantity < 1`; `Number(quantity) < 1` compares the same way.
      NaN is not below 1, so a non-numeric quantity is not rejected. */
  predicate QuantityRejected(q: Json)
    ensures q.Undefined? || q.Null? ==> QuantityRejected(q)
    ensures q.Num? ==> (QuantityRejected(q) <==> q.n < 1)
    ensures q.Bool? ==> (QuantityRejected(q) <==> !q.b)
    ensures q.Obj? ==> !QuantityRejected(q)
  {
    !Truthy(q) || (ToNumber(q).Some? && ToNumber(q).value < 1)
  }

  /** The destructuring default `quantity = 1`, which applies to `undefined` only. */
  function EffectiveQuantity(q: Json): (r: Json)
    ensures !q.Undefined? ==> r == q
    ensures !r.Undefined? && (q.Undefined? ==> ToNumber(r) == Some(1))
  {
    if q.Undefined? then Num(1) else q
  }

  /** The two configuration checks, token first. */
  function CheckConfig(cfg: Config): (r: Option<Response>)
    ensures r.None? <==> cfg.tokenConfigured && cfg.versionConfigured
    ensures r.Some? ==> r.value.status == 500 && r.value.body.Error?
    ensures r.Some? ==> r.value.body.error == (if cfg.tokenConfigured then VersionNotConfigured else TokenNotConfigured)
  {
    if !cfg.tokenConfigured then Some(Response(500, Error(TokenNotConfigured)))
    else if !cfg.versionConfigured then Some(Response(500, Error(VersionNotConfigured)))
    else None
  }

  /** The checks of the quantity update, in their order; `None` when all pass. */
  function ValidateUpdate(req: UpdateRequest, cfg: Config): (r: Option<Response>)
    ensures r.None? <==>
      Present(req.subscriptionId) && Present(req.customerId) && !QuantityRejected(req.quantity)
      && cfg.tokenConfigured && cfg.versionConfigured
    // a bad input is reported as 400 whatever the configuration
    ensures r.Some? ==>
      (r.value.body.Error? &&
       (r.value.status == 400 <==>
         !Present(req.subscriptionId) || !Present(req.customerId) || QuantityRejected(req.quantity)))
    ensures r.Some? && r.value.status != 400 ==> r == CheckConfig(cfg)
    ensures !Present(req.subscriptionId) ==> r == Some(Response(400, Error(SubscriptionIdRequired)))
    ensures Present(req.subscriptionId) && !Present(req.customerId) ==>
      r == Some(Response(400, Error(CustomerIdQueryRequired)))
    ensures Present(req.subscriptionId) && Present(req.customerId) && QuantityRejected(req.quantity) ==>
      r == Some(Response(400, Error(QuantityRequired)))
  {
    if !Present(req.subscriptionId) then Some(Response(400, Error(SubscriptionIdRequired)))
    else if !Present(req.customerId) then Some(Response(400, Error(CustomerIdQueryRequired)))
    else if QuantityRejected(req.quantity) then Some(Response(400, Error(QuantityRequired)))
    else CheckConfig(cfg)
  }

  /** The checks of the subscription read, in their order. */
  function ValidateGet(req: GetRequest, cfg: Config): (r: Option<Response>)
    ensures r.None? <==>
      Present(req.subscriptionId) && Present(req.customerId) && cfg.tokenConfigured && cfg.versionConfigured
    ensures r.Some? ==>
      (r.value.body.Error? && (r.value.status == 400 <==> !Present(req.subscriptionId) || !Present(req.customerId)))
    ensures r.Some? && r.value.status != 400 ==> r == CheckConfig(cfg)
    ensures !Present(req.subscriptionId) ==> r == Some(Response(400, Error(SubscriptionIdRequired)))
    ensures Present(req.subscriptionId) && !Present(req.customerId) ==>
      r == Some(Response(400, Error(CustomerIdQueryRequired)))
  {
    if !Present(req.subscriptionId) then Some(Response(400, Error(SubscriptionIdRequired)))
    else if !Present(req.customerId) then Some(Response(400, Error(CustomerIdQueryRequired)))
    else CheckConfig(cfg)
  }

  /** The inputs of the product addition are all acceptable. */
  predicate AddProductInputsValid(req: AddProductRequest) {
    Present(req.chargeId) && Present(req.customerId) && Truthy(req.productId) && Truthy(req.variantId)
    && !QuantityRejected(EffectiveQuantity(req.quantity))
  }

  /** The checks of the product addition, in their order. */
  function ValidateAddProduct(req: AddProductRequest, cfg: Config): (r: Option<Response>)
    ensures r.None? <==> AddProductInputsValid(req) && cfg.tokenConfigured && cfg.versionConfigured
    ensures r.Some? ==> r.value.body.Error? && (r.value.status == 400 <==> !AddProductInputsValid(req))
    ensures r.Some? && r.value.status != 400 ==> r == CheckConfig(cfg)
    ensures !Present(req.chargeId) ==> r == Some(Response(400, Error(ChargeIdRequired)))
    ensures Present(req.chargeId) && !Present(req.customerId) ==>
      r == Some(Response(400, Error(CustomerIdQueryRequired)))
    ensures Present(req.chargeId) && Present(req.customerId) && !Truthy(req.productId) ==>
      r == Some(Response(400, Error(ProductIdRequired)))
    ensures Present(req.chargeId) && Present(req.customerId) && Truthy(req.productId) && !Truthy(req.variantId) ==>
      r == Some(Response(400, Error(VariantIdRequired)))
    ensures (Present(req.chargeId) && Present(req.customerId) && Truthy(req.productId) && Truthy(req.variantId)
             && QuantityRejected(EffectiveQuantity(req.quantity))) ==>
      r == Some(Response(400, Error(QuantityRequired)))
  {
    if !Present(req.chargeId) then Some(Response(400, Error(ChargeIdRequired)))
    else if !Present(req.customerId) then Some(Response(400, Error(CustomerIdQueryRequired)))
    else if !Truthy(req.productId) then Some(Response(400, Error(ProductIdRequired)))
    else if !Truthy(req.variantId) then Some(Response(400, Error(VariantIdRequired)))
    else if QuantityRejected(EffectiveQuantity(req.quantity)) then Some(Response(400, Error(QuantityRequired)))
    else CheckConfig(cfg)
  }

  // ---------------------------------------------------------------------
  // Ownership

  /** `subscription.customer_id === parseInt(customer_id)`. */
  predicate OwnsSubscription(s: Subscription, customerId: string)
    // an owner id that upstream sends as anything but a number never matches
    ensures !s.customerId.Num? ==> !OwnsSubscription(s, customerId)
    // a matching customer_id has a digit after its optional sign
    ensures OwnsSubscription(s, customerId) ==>
      Magnitude(customerId) != "" && IsDigit(Magnitude(customerId)[0])
  {
    StrictEqualsNumber(s.customerId, ParseIntString(customerId))
  }

  /** `Number(charge.customer.id)`. */
  function ChargeOwner(c: Charge): (r: Option<int>)
    requires c.customer.Some?
    ensures c.customer.value.Num? ==> r == Some(c.customer.value.n)
    // a missing or null `id` is not a customer
    ensures c.customer.value.Undefined? || c.customer.value.Null? ==> !NonZero(r)
    ensures c.customer.value.Obj? ==> r.None?
  {
    ToNumber(c.customer.value)
  }

  // ---------------------------------------------------------------------
  // Catch blocks

  /** The status table every catch block is measured against: an upstream
      error status passes through, no response is 503, a local fault is 500. */
  function FailureStatus(f: Failure): int {
    match f
    case HttpError(status, _) => status
    case NoResponse => 503
    case LocalFault(_) => 500
  }

  /** The catch block of the quantity update. */
  function UpdateFailure(f: Failure, subscriptionId: string): (r: Response)
    ensures r.status == FailureStatus(f)
    ensures r.body == Error(InvalidApiToken) <==> f.HttpError? && f.status == 401
    ensures f.HttpError? && f.status == 404 ==> r.body == SubscriptionNotFound(subscriptionId)
    ensures f.HttpError? && f.status != 401 && f.status != 404 ==>
      r.body.ErrorDetails? && r.body.details == f.data
      && r.body.error == (if f.status == 422 then InvalidRequestData else RechargeApiError)
    ensures f.NoResponse? ==> r.body == Error(Unreachable)
    ensures f.LocalFault? ==> r.body == Error(InternalServerError)
  {
    match f
    case HttpError(status, data) =>
      if status == 404 then Response(404, SubscriptionNotFound(subscriptionId))
      else if status == 422 then Response(422, ErrorDetails(InvalidRequestData, data))
      else if status == 401 then Response(401, Error(InvalidApiToken))
      else Response(status, ErrorDetails(RechargeApiError, data))
    case NoResponse => Response(503, Error(Unreachable))
    case LocalFault(_) => Response(500, Error(InternalServerError))
  }

  /** The catch block of the subscription read: the update's, without its 422 branch. */
  function GetFailure(f: Failure, subscriptionId: string): (r: Response)
    ensures r.status == FailureStatus(f)
    ensures r.body == Error(InvalidApiToken) <==> f.HttpError? && f.status == 401
    ensures f.HttpError? && f.status == 404 ==> r.body == SubscriptionNotFound(subscriptionId)
    ensures f.HttpError? && f.status != 401 && f.status != 404 ==>
      r.body == ErrorDetails(RechargeApiError, f.data)
    ensures f.NoResponse? ==> r.body == Error(Unreachable)
    ensures f.LocalFault? ==> r.body == Error(InternalServerError)
  {
    match f
    case HttpError(status, data) =>
      if status == 404 then Response(404, SubscriptionNotFound(subscriptionId))
      else if status == 401 then Response(401, Error(InvalidApiToken))
      else Response(status, ErrorDetails(RechargeApiError, data))
    case NoResponse => Response(503, Error(Unreachable))
    case LocalFault(_) => Response(500, Error(InternalServerError))
  }

  /** The catch block of the product addition. */
  function AddProductFailure(f: Failure, chargeId: string): (r: Response)
    ensures r.status == FailureStatus(f)
    ensures r.body == Error(InvalidApiToken) <==> f.HttpError? && f.status == 401
    ensures f.HttpError? && f.status == 404 ==> r.body == ChargeNotFound(chargeId, f.data)
    ensures f.HttpError? && f.status != 401 && f.status != 404 ==>
      r.body.ErrorDetails? && r.body.details == f.data
      && r.body.error == (if f.status == 422 then InvalidRequestData else RechargeApiError)
    ensures f.NoResponse? ==> r.body == Error(Unreachable)
    ensures f.LocalFault? ==> r.body == InternalError(f.message)
  {
    match f
    case HttpError(status, data) =>
      if status == 404 then Response(404, ChargeNotFound(chargeId, data))
      else if status == 422 then Response(422, ErrorDetails(InvalidRequestData, data))
      else if status == 401 then Response(401, Error(InvalidApiToken))
      else Response(status, ErrorDetails(RechargeApiError, data))
    case NoResponse => Response(503, Error(Unreachable))
    case LocalFault(message) => Response(500, InternalError(message))
  }

  /** The catch block of the customer access test: any upstream status passes
      through with its data; every other failure, a missing answer included, is 500. */
  function TestFailure(f: Failure, customerId: string): (r: Response)
    ensures f.HttpError? ==> r == Response(f.status, CustomerAccessFailed(f.status, f.data, customerId))
    ensures !f.HttpError? ==> r == Response(500, Error(CustomerTestInternal))
  {
    match f
    case HttpError(status, data) => Response(status, CustomerAccessFailed(status, data, customerId))
    case _ => Response(500, Error(CustomerTestInternal))
  }

  // ---------------------------------------------------------------------
  // Handlers

  /** The calls of a complete quantity update: read, write, read again. */
  function UpdateCalls(subscriptionId: string, quantity: Option<int>): seq<Call> {
    [GetSubscription(subscriptionId), PutSubscription(subscriptionId, quantity), GetSubscription(subscriptionId)]
  }

  /** Update the quantity of a subscription the caller owns, then read it back
      and report whether the new quantity took. `script[k]` answers the k-th call. */
  method UpdateQuantityBySubscriptionId(req: UpdateRequest, cfg: Config, script: seq<Outcome>)
    returns (trace: seq<Call>, resp: Response)
    requires |script| >= 3
    // every check precedes every call
    ensures ValidateUpdate(req, cfg).Some? ==> trace == [] && resp == ValidateUpdate(req, cfg).value
    ensures ValidateUpdate(req, cfg).None? ==>
      trace != [] && trace <= UpdateCalls(req.subscriptionId.value, ParseInt(req.quantity))
    // the write happens only after the first read showed the caller to be the owner
    ensures |trace| >= 2 ==>
      SubscriptionIn(script[0]).Some? && OwnsSubscription(SubscriptionIn(script[0]).value, req.customerId.value)
    // and conversely, an owner who passed every check gets the write, and a
    // write that succeeds is followed by the re-read
    ensures (ValidateUpdate(req, cfg).None? && SubscriptionIn(script[0]).Some?
             && OwnsSubscription(SubscriptionIn(script[0]).value, req.customerId.value)) ==>
      |trace| >= 2 && (script[1].Ok? ==> trace == UpdateCalls(req.subscriptionId.value, ParseInt(req.quantity)))
    ensures resp.body.SubscriptionOwnerMismatch? <==>
      trace != [] && SubscriptionIn(script[0]).Some?
      && !OwnsSubscription(SubscriptionIn(script[0]).value, req.customerId.value)
    ensures resp.body.SubscriptionOwnerMismatch? ==>
      resp.status == 403 && |trace| == 1
      && resp.body == SubscriptionOwnerMismatch(req.customerId.value, SubscriptionIn(script[0]).value.customerId)
    // a failed call is the last one, and the catch block answers
    ensures forall k | 0 <= k < |trace| :: script[k].Err? ==>
      k == |trace| - 1 && resp == UpdateFailure(script[k].failure, req.subscriptionId.value)
    // a read without a subscription throws, and the catch block answers
    ensures forall k | 0 <= k < |trace| && k != 1 :: script[k].Ok? && SubscriptionIn(script[k]).None? ==>
      k == |trace| - 1 && resp == UpdateFailure(LocalFault(MissingProperty), req.subscriptionId.value)
    // success: 200 whether or not the re-read shows the requested quantity
    ensures resp.status == 200 <==> |trace| == 3 && SubscriptionIn(script[2]).Some?
    ensures resp.status == 200 ==>
      var s := SubscriptionIn(script[2]).value;
      && resp.body.QuantityReport?
      && resp.body.subscription == s
      && resp.body.subscriptionId == req.subscriptionId.value
      && resp.body.quantity == s.quantity
      && resp.body.requestedQuantity == ParseInt(req.quantity)
      && (resp.body.quantityUpdated <==> StrictEqualsNumber(s.quantity, ParseInt(req.quantity)))
      && resp.body.message == (if resp.body.quantityUpdated then QuantityUpdatedMessage else QuantityNotAppliedMessage)
  {
    var invalid := ValidateUpdate(req, cfg);
    if invalid.Some? {
      trace, resp := [], invalid.value;
      return;
    }
    var subscriptionId, customerId := req.subscriptionId.value, req.customerId.value;

    trace := [GetSubscription(subscriptionId)];
    if script[0].Err? {
      resp := UpdateFailure(script[0].failure, subscriptionId);
      return;
    }
    var subscription := SubscriptionIn(script[0]);
    if subscription.None? {
      resp := UpdateFailure(LocalFault(MissingProperty), subscriptionId);
      return;
    }
    if !OwnsSubscription(subscription.value, customerId) {
      resp := Response(403, SubscriptionOwnerMismatch(customerId, subscription.value.customerId));
      return;
    }

    var requested := ParseInt(req.quantity);
    trace := trace + [PutSubscription(subscriptionId, requested)];
    if script[1].Err? {
      resp := UpdateFailure(script[1].failure, subscriptionId);
      return;
    }

    trace := trace + [GetSubscription(subscriptionId)];
    if script[2].Err? {
      resp := UpdateFailure(script[2].failure, subscriptionId);
      return;
    }
    var updated := SubscriptionIn(script[2]);
    if updated.None? {
      resp := UpdateFailure(LocalFault(MissingProperty), subscriptionId);
      return;
    }
    var quantityUpdated := StrictEqualsNumber(updated.value.quantity, requested);
    var message := if quantityUpdated then QuantityUpdatedMessage else QuantityNotAppliedMessage;
    resp := Response(200, QuantityReport(message, subscriptionId, updated.value.quantity, requested,
                                         quantityUpdated, updated.value));
  }

  /** Read a subscription the caller owns. */
  method GetSubscriptionById(req: GetRequest, cfg: Config, script: seq<Outcome>)
    returns (trace: seq<Call>, resp: Response)
    requires |script| >= 1
    ensures ValidateGet(req, cfg).Some? ==> trace == [] && resp == ValidateGet(req, cfg).value
    ensures ValidateGet(req, cfg).None? ==> trace == [GetSubscription(req.subscriptionId.value)]
    ensures forall c | c in trace :: !Mutates(c)
    ensures resp.body.SubscriptionOwnerMismatch? <==>
      trace != [] && SubscriptionIn(script[0]).Some?
      && !OwnsSubscription(SubscriptionIn(script[0]).value, req.customerId.value)
    ensures resp.body.SubscriptionOwnerMismatch? ==>
      resp.status == 403
      && resp.body == SubscriptionOwnerMismatch(req.customerId.value, SubscriptionIn(script[0]).value.customerId)
    ensures trace != [] && script[0].Err? ==> resp == GetFailure(script[0].failure, req.subscriptionId.value)
    ensures trace != [] && script[0].Ok? && SubscriptionIn(script[0]).None? ==>
      resp == GetFailure(LocalFault(MissingProperty), req.subscriptionId.value)
    ensures resp.status == 200 <==>
      trace != [] && SubscriptionIn(script[0]).Some?
      && OwnsSubscription(SubscriptionIn(script[0]).value, req.customerId.value)
    ensures resp.status == 200 ==> resp.body == SubscriptionRetrieved(SubscriptionIn(script[0]).value)
  {
    var invalid := ValidateGet(req, cfg);
    if invalid.Some? {
      trace, resp := [], invalid.value;
      return;
    }
    var subscriptionId, customerId := req.subscriptionId.value, req.customerId.value;

    trace := [GetSubscription(subscriptionId)];
    if script[0].Err? {
      resp := GetFailure(script[0].failure, subscriptionId);
      return;
    }
    var subscription := SubscriptionIn(script[0]);
    if subscription.None? {
      resp := GetFailure(LocalFault(MissingProperty), subscriptionId);
      return;
    }
    if !OwnsSubscription(subscription.value, customerId) {
      resp := Response(403, SubscriptionOwnerMismatch(customerId, subscription.value.customerId));
      return;
    }
    resp := Response(200, SubscriptionRetrieved(subscription.value));
  }

  /** Read a charge, check that the caller owns it, and attach a one-time
      product to the customer's next charge at the charge's address. */
  method AddProductToNextOrder(req: AddProductRequest, cfg: Config, script: seq<Outcome>)
    returns (trace: seq<Call>, resp: Response)
    requires |script| >= 2
    ensures ValidateAddProduct(req, cfg).Some? ==> trace == [] && resp == ValidateAddProduct(req, cfg).value
    ensures ValidateAddProduct(req, cfg).None? ==> 1 <= |trace| <= 2 && trace[0] == GetCharge(req.chargeId.value)
    // the rejections after the charge read, in their order; each stops before the POST
    ensures resp.body.ChargeDataMissing? <==> trace != [] && script[0].Ok? && ChargeIn(script[0]).None?
    ensures resp.body.ChargeDataMissing? ==>
      resp == Response(404, ChargeDataMissing(NumberString(req.chargeId.value), script[0].data)) && |trace| == 1
    ensures trace != [] && ChargeIn(script[0]).Some? && ChargeIn(script[0]).value.customer.None? ==>
      resp == AddProductFailure(LocalFault(MissingProperty), req.chargeId.value) && |trace| == 1
    ensures resp.body.ChargeIncomplete? && resp.body.error == ChargeHasNoCustomer <==>
      trace != [] && ChargeIn(script[0]).Some? && ChargeIn(script[0]).value.customer.Some?
      && !NonZero(ChargeOwner(ChargeIn(script[0]).value))
    ensures resp.body.ChargeIncomplete? && resp.body.error == ChargeHasNoAddress <==>
      trace != [] && ChargeIn(script[0]).Some? && ChargeIn(script[0]).value.customer.Some?
      && NonZero(ChargeOwner(ChargeIn(script[0]).value)) && !NonZero(ToNumber(ChargeIn(script[0]).value.addressId))
    ensures resp.body.ChargeOwnerMismatch? <==>
      trace != [] && ChargeIn(script[0]).Some? && ChargeIn(script[0]).value.customer.Some?
      && NonZero(ChargeOwner(ChargeIn(script[0]).value)) && NonZero(ToNumber(ChargeIn(script[0]).value.addressId))
      && ChargeOwner(ChargeIn(script[0]).value) != NumberString(req.customerId.value)
    ensures resp.body.ChargeIncomplete? ==> resp.status == 400 && |trace| == 1
    ensures resp.body.ChargeOwnerMismatch? ==> resp.status == 403 && |trace| == 1
    // the rejections echo Number(charge_id), and the 403 both customer ids
    ensures resp.body.ChargeIncomplete? ==> resp.body.chargeId == NumberString(req.chargeId.value)
    ensures resp.body.ChargeOwnerMismatch? ==>
      resp.body == ChargeOwnerMismatch(NumberString(req.customerId.value),
                                       ChargeOwner(ChargeIn(script[0]).value).value,
                                       NumberString(req.chargeId.value))
    // the POST: only after every check passed, built from the charge and the request
    ensures |trace| == 2 ==>
      && ChargeIn(script[0]).Some? && ChargeIn(script[0]).value.customer.Some?
      && NonZero(ChargeOwner(ChargeIn(script[0]).value)) && NonZero(ToNumber(ChargeIn(script[0]).value.addressId))
      && ChargeOwner(ChargeIn(script[0]).value) == NumberString(req.customerId.value)
      && trace[1].PostOnetime?
    // and conversely, a request that passes every check gets the POST
    ensures (ValidateAddProduct(req, cfg).None? && ChargeIn(script[0]).Some?
             && ChargeIn(script[0]).value.customer.Some?
             && NonZero(ChargeOwner(ChargeIn(script[0]).value))
             && NonZero(ToNumber(ChargeIn(script[0]).value.addressId))
             && ChargeOwner(ChargeIn(script[0]).value) == NumberString(req.customerId.value)) ==>
      |trace| == 2
    ensures |trace| == 2 ==>
      var post := trace[1].request;
      && post.addToNextCharge
      && post.addressId == ToNumber(ChargeIn(script[0]).value.addressId).value
      && post.externalProductId == req.productId
      && post.externalVariantId == req.variantId
      && post.quantity == ToNumber(EffectiveQuantity(req.quantity))
    ensures |trace| == 2 && req.quantity.Undefined? ==> trace[1].request.quantity == Some(1)
    ensures forall k | 0 <= k < |trace| :: script[k].Err? ==>
      k == |trace| - 1 && resp == AddProductFailure(script[k].failure, req.chargeId.value)
    // success echoes the path's charge id and the charge-derived customer and address
    ensures resp.status == 200 <==> |trace| == 2 && script[1].Ok?
    ensures resp.status == 200 ==>
      resp.body == ProductAdded(NumberString(req.chargeId.value), ChargeOwner(ChargeIn(script[0]).value).value,
                                trace[1].request.addressId, OnetimeIn(script[1]))
  {
    var invalid := ValidateAddProduct(req, cfg);
    if invalid.Some? {
      trace, resp := [], invalid.value;
      return;
    }
    var chargeId, customerId := req.chargeId.value, req.customerId.value;

    trace := [GetCharge(chargeId)];
    if script[0].Err? {
      resp := AddProductFailure(script[0].failure, chargeId);
      return;
    }
    var charge := ChargeIn(script[0]);
    if charge.None? {
      resp := Response(404, ChargeDataMissing(NumberString(chargeId), script[0].data));
      return;
    }
    if charge.value.customer.None? {
      resp := AddProductFailure(LocalFault(MissingProperty), chargeId);
      return;
    }
    var chargeCustomerId := ChargeOwner(charge.value);
    var addressId := ToNumber(charge.value.addressId);
    if !NonZero(chargeCustomerId) {
      resp := Response(400, ChargeIncomplete(ChargeHasNoCustomer, NumberString(chargeId)));
      return;
    }
    if !NonZero(addressId) {
      resp := Response(400, ChargeIncomplete(ChargeHasNoAddress, NumberString(chargeId)));
      return;
    }
    if chargeCustomerId != NumberString(customerId) {
      resp := Response(403, ChargeOwnerMismatch(NumberString(customerId), chargeCustomerId.value, NumberString(chargeId)));
      return;
    }

    var onetime := OnetimeRequest(true, addressId.value, req.productId, req.variantId,
                                  ToNumber(EffectiveQuantity(req.quantity)));
    trace := trace + [PostOnetime(onetime)];
    if script[1].Err? {
      resp := AddProductFailure(script[1].failure, chargeId);
      return;
    }
    resp := Response(200, ProductAdded(NumberString(chargeId), chargeCustomerId.value, addressId.value,
                                       OnetimeIn(script[1])));
  }

  /** Diagnostic read of a customer. It checks neither the configuration nor
      ownership, so its result does not depend on `cfg`. */
  method TestCustomerAccess(customerId: Option<string>, cfg: Config, script: seq<Outcome>)
    returns (trace: seq<Call>, resp: Response)
    requires |script| >= 1
    ensures !Present(customerId) ==> trace == [] && resp == Response(400, Error(CustomerIdRequired))
    ensures Present(customerId) ==> trace == [GetCustomer(customerId.value)]
    ensures Present(customerId) && script[0].Ok? ==>
      && resp.status == 200
      && resp.body.CustomerAccess?
      && resp.body.customerNumber == ParseIntString(customerId.value)
      && resp.body.customer == CustomerIn(script[0])
      && (resp.body.hasDefaultAddress <==>
            CustomerIn(script[0]).Some? && Truthy(CustomerIn(script[0]).value.defaultAddress))
    ensures Present(customerId) && script[0].Err? ==> resp == TestFailure(script[0].failure, customerId.value)
  {
    if !Present(customerId) {
      trace, resp := [], Response(400, Error(CustomerIdRequired));
      return;
    }
    trace := [GetCustomer(customerId.value)];
    if script[0].Err? {
      resp := TestFailure(script[0].failure, customerId.value);
      return;
    }
    var customer := CustomerIn(script[0]);
    var hasDefaultAddress := customer.Some? && Truthy(customer.value.defaultAddress);
    resp := Response(200, CustomerAccess(ParseIntString(customerId.value), customer, hasDefaultAddress));
  }
}
