/** The upstream subscription API as the controller sees it: the entities it
    reads, the one it creates, the calls it issues and the outcome of each
    call. The network is replaced by a script of outcomes, one per call, in
    the order the calls are issued. */
module Upstream {
  import opened Optional
  import opened JsValues

  /** `data.subscription`: its owner and its quantity, as JSON values. */
  datatype Subscription = Subscription(customerId: Json, quantity: Json)

  /** `data.charge`. `customer` is `None` when the charge has no customer
      object at all; otherwise it holds that object's `id`. */
  datatype Charge = Charge(customer: Option<Json>, addressId: Json)

  /** `data.customer`. */
  datatype Customer = Customer(defaultAddress: Json)

  /** `data.onetime`: the persisted one-time product. */
  datatype Onetime = Onetime(id: int)

  /** The body of the one-time creation request. `quantity` is `Number(quantity)`
      and is `None` when that is NaN. The request wraps the two ids as
      `{ ecommerce: product_id }` and `{ ecommerce: variant_id }`; the model
      keeps the bare ids. */
  datatype OnetimeRequest = OnetimeRequest(
    addToNextCharge: bool,
    addressId: int,
    externalProductId: Json,
    externalVariantId: Json,
    quantity: Option<int>)

  /** The `data` of an answered call. Which field it carries is up to the
      upstream; a handler that looks for another field finds `undefined`. */
  datatype Payload =
    | SubscriptionPayload(subscription: Option<Subscription>)
    | ChargePayload(charge: Option<Charge>)
    | CustomerPayload(customer: Option<Customer>)
    | OnetimePayload(onetime: Option<Onetime>)

  /** A status with which the HTTP client rejects a call: anything outside 2xx. */
  type ErrorStatus = s: int | 300 <= s < 600 witness 404

  /** The three ways a call can fail: the upstream answered with an error
      status (`error.response`), the request went out and nothing came back
      (`error.request`), or something failed locally. */
  datatype Failure =
    | HttpError(status: ErrorStatus, data: Json)
    | NoResponse
    | LocalFault(message: string)

  datatype Outcome = Ok(data: Payload) | Err(failure: Failure)

  /** One issued upstream call, with the arguments that matter. */
  datatype Call =
    | GetSubscription(subscriptionId: string)
    | PutSubscription(subscriptionId: string, quantity: Option<int>)
    | GetCharge(chargeId: string)
    | PostOnetime(request: OnetimeRequest)
    | GetCustomer(customerId: string)

  /** Calls that change upstream state. */
  predicate Mutates(c: Call) {
    c.PutSubscription? || c.PostOnetime?
  }

  /** `data.subscription` of an answered call, `None` if absent or if the call failed. */
  function SubscriptionIn(o: Outcome): Option<Subscription> {
    if o.Ok? && o.data.SubscriptionPayload? then o.data.subscription else None
  }

  /** `data?.charge` of an answered call. */
  function ChargeIn(o: Outcome): Option<Charge> {
    if o.Ok? && o.data.ChargePayload? then o.data.charge else None
  }

  /** `data.customer` of an answered call. */
  function CustomerIn(o: Outcome): Option<Customer> {
    if o.Ok? && o.data.CustomerPayload? then o.data.customer else None
  }

  /** `data?.onetime` of an answered call. */
  function OnetimeIn(o: Outcome): Option<Onetime> {
    if o.Ok? && o.data.OnetimePayload? then o.data.onetime else None
  }
}
