# Subscription controller of the Recharge proxy, in Dafny

The service is a small HTTP proxy in front of the Recharge subscription API.
Its controller has four request handlers. Three of them check who owns a
resource before they report it or change it:

- **updateQuantityBySubscriptionId** checks its inputs and the configuration.
  It then reads the subscription and compares its `customer_id` with the
  caller's `customer_id`. Only then does it write the new quantity. Finally it
  reads the subscription again and reports whether the quantity took. The
  status is 200 either way.
- **getSubscriptionById** runs the same checks and the same ownership
  comparison, and returns the subscription.
- **addProductToNextOrder** reads a charge and takes its customer id and
  address id. It refuses an incomplete charge or a foreign owner. Only then
  does it create a one-time product on the customer's next charge, at the
  charge's address.
- **testCustomerAccess** is a diagnostic read of a customer. It checks
  neither ownership nor the configuration.

In the model, each handler is a method over values. It takes three things:

- the request fields: route and query parameters as `Option<string>`, body
  fields as `Json`;
- the two configuration flags (token configured, version configured);
- a script of upstream outcomes, one per call it may issue.

It returns the trace of upstream calls it issued, with their arguments, and
the response it sent: a status and a tagged body. An upstream outcome is
`Ok(payload)` or one of three failures:

- `HttpError(status, data)`: the upstream answered with a non-2xx status;
- `NoResponse`: the request went out and no answer came;
- `LocalFault(message)`: something failed locally.

Each catch block is a function from the failure to the response. The
validation chains, the ownership comparison and the quantity confirmation
are functions too.

The JavaScript coercions the handlers rely on are truthiness, `parseInt`,
`Number` and `===` against a number. They are modelled on a subset of what
they can meet. Numbers are exact integers, and strings are read as signed
decimal numerals only; "## Left out" lists the forms outside that subset.
A failed numeric coercion (NaN) is `None`, which equals nothing.
`parseInt` reads an optional sign and the longest run of decimal digits.
`Number` needs the whole string to be such a numeral, and reads `""` as 0.

Modules:

- `Optional`: the Option type.
- `JsValues`: JSON values and the coercions, with the round-trip lemmas.
- `Upstream`: the entities, payloads, failures, outcomes and calls.
- `RechargeController`: the validation, the catch blocks and the four handlers.
- `ControllerProperties`: lemmas that relate the handlers to each other.

Behaviours of the code that are easy to miss:

- testCustomerAccess maps a request with no answer to 500, not 503. It passes
  an upstream 401 through with its own body instead of the fixed 401 message.
  It performs no configuration check.
- In addProductToNextOrder, a charge without a `customer` object throws
  while the handler reads `charge.customer.id`. The catch block turns that
  into 500, not a 400 naming the field. A charge whose customer has a missing
  or zero `id` does get the 400.
- The quantity check `!quantity || quantity < 1` lets through a non-numeric
  string such as `"abc"`, because NaN is not below 1. The update then writes
  `parseInt("abc")` (NaN) and the addition writes `Number("abc")` (NaN).
- The subscription handlers compare owners with `parseInt`. The charge
  handler uses `Number`. So `customer_id=42abc` passes the subscription check
  for customer 42 and fails the charge check.

## Model

| member | source | states |
|---|---|---|
| `RechargeController.CheckConfig` | src/controllers/rechargeController.js:29-40 | passes exactly when both the token and the version are configured; otherwise 500, and the token is reported before the version |
| `RechargeController.ValidateUpdate` | src/controllers/rechargeController.js:10-40 | passes exactly when subscriptionId, customer_id, a quantity not below 1, the token and the version are all present; any bad input gives 400 whatever the configuration; the first failing check in the order subscriptionId, customer_id, quantity gives its own message; otherwise the configuration's 500 |
| `RechargeController.ValidateGet` | src/controllers/rechargeController.js:161-185 | passes exactly when both ids, the token and the version are present; a missing id is 400 (subscriptionId first), ahead of any configuration 500 |
| `RechargeController.ValidateAddProduct` | src/controllers/rechargeController.js:258-288 | passes exactly when charge_id, customer_id, a truthy product_id, a truthy variant_id, a quantity not below 1 (an omitted quantity counts as 1), the token and the version are all present; any bad input gives 400 ahead of configuration errors; the first failing check, in that order, gives its message |
| `RechargeController.UpdateFailure` | src/controllers/rechargeController.js:115-151 | the status always equals the shared table (upstream status passed through, no answer 503, local fault 500); 404 names the subscription; 401 alone gets the fixed message; 422 and every other status forward the upstream data |
| `RechargeController.GetFailure` | src/controllers/rechargeController.js:218-249 | the same status table; 404 names the subscription; 401 alone gets the fixed message; every other status, 422 included, forwards the data as a generic upstream error |
| `RechargeController.AddProductFailure` | src/controllers/rechargeController.js:373-420 | the same status table; 404 is "charge not found" with the path's charge id and the upstream data; 401 alone gets the fixed message; a local fault is 500 carrying the fault's message |
| `RechargeController.TestFailure` | src/controllers/rechargeController.js:455-469 | an upstream status passes through with its data and the raw customer id; every other failure, a missing answer included, is 500 |
| `RechargeController.UpdateQuantityBySubscriptionId` | src/controllers/rechargeController.js:4-153 | a failed check issues no call; otherwise the calls are a non-empty prefix of GET, PUT with parseInt(quantity), GET; the PUT is issued exactly when the checks pass and the first read shows the caller as owner, and a PUT that succeeds is followed by the re-read; a foreign owner is 403 after the first GET alone, echoing both ids; a failing call is the last one and the catch block answers; 200 exactly when all three calls ran and the re-read holds a subscription; it reports the path's subscription id, the re-read quantity and subscription and the requested parseInt(quantity); quantityUpdated holds exactly when the re-read quantity strictly equals the requested one |
| `RechargeController.GetSubscriptionById` | src/controllers/rechargeController.js:156-251 | a failed check issues no call, otherwise exactly one GET and never a mutating call; 403 with both ids exactly when the read subscription's owner differs from parseInt(customer_id); 200 with the subscription exactly when it matches; failures go through the catch block |
| `RechargeController.AddProductToNextOrder` | src/controllers/rechargeController.js:254-421 | a failed check issues no call; the charge GET comes first; in order, a missing charge is 404, a charge without a customer object is 500, a zero or NaN customer id is 400, a zero or NaN address id is 400, and a Number(customer_id) mismatch is 403, each with no POST; both 400s echo Number(charge_id), and the 403 echoes Number(customer_id), the charge's customer id and Number(charge_id); the POST is issued exactly when all pass; it carries add_to_next_charge, the charge's address id, the product and variant ids and Number(quantity), which is 1 when omitted; success echoes Number(charge_id), the charge-derived customer id, the address id and the created one-time |
| `RechargeController.TestCustomerAccess` | src/controllers/rechargeController.js:424-471 | a missing customer_id is 400 with no call; otherwise exactly one customer GET, whatever the configuration; on an answer, 200 with parseInt(customer_id), the customer, and has_default_address exactly when the customer has a truthy default_address; on a failure, the catch block |
| `JsValues.ParseIntRoundTrip` | src/controllers/rechargeController.js:57 | parseInt reads the decimal form of any integer back as that integer |
| `JsValues.NumberRoundTrip` | src/controllers/rechargeController.js:329 | Number reads the decimal form of any integer back as that integer |
| `JsValues.NumberThenParseInt` | src/controllers/rechargeController.js:329 | on signed decimal numerals: wherever Number reads a non-empty string as a number, parseInt reads the same number |
| `JsValues.ParseIntIgnoresTrailing` | src/controllers/rechargeController.js:57 | decimal digits followed by a non-digit: parseInt reads the digits, Number gives NaN |
| `JsValues.ParseIntString` | src/controllers/rechargeController.js:57 | NaN exactly when no digit follows the optional sign; a string of digits alone reads as its decimal value |
| `JsValues.NumberString` | src/controllers/rechargeController.js:329 | the empty string is 0; a string of digits reads as its decimal value; a number only when every character after the sign is a digit |
| `JsValues.ToNumber` | src/controllers/rechargeController.js:277 | a number is itself; undefined and objects are NaN; null and the empty string are 0 |
| `JsValues.ParseInt` | src/controllers/rechargeController.js:69 | a number is itself; only numbers and strings give a number; null and booleans are NaN for parseInt though Number reads them as numbers |
| `JsValues.Truthy` | src/controllers/rechargeController.js:453 | undefined and null are falsy, objects truthy; a string is truthy exactly when non-empty; a number, boolean or null is truthy exactly when Number of it is non-zero |
| `JsValues.StrictEqualsNumber` | src/controllers/rechargeController.js:103 | true only for a JSON number against a number (NaN equals nothing), and then exactly when the two are equal |
| `RechargeController.OwnsSubscription` | src/controllers/rechargeController.js:202 | an owner id that upstream sends as anything but a JSON number never matches; a matching customer_id has a digit after its optional sign |
| `RechargeController.ChargeOwner` | src/controllers/rechargeController.js:311 | a numeric charge customer id is itself; a missing or null id is not a customer (zero or NaN); an object id is NaN |
| `RechargeController.QuantityRejected` | src/controllers/rechargeController.js:23 | undefined and null are rejected; a number exactly when below 1; a boolean exactly when false; an object never |
| `RechargeController.EffectiveQuantity` | src/controllers/rechargeController.js:258 | any given quantity is kept; an omitted one becomes a value Number reads as 1 |
| `ControllerProperties.OwnershipByDecimalId` | src/controllers/rechargeController.js:56-63 | with ids as exact integers, the owner sending their own id in decimal passes the subscription ownership check; any other decimal id fails it |
| `ControllerProperties.ChargeOwnershipByDecimalId` | src/controllers/rechargeController.js:311 | for a charge whose customer id is the number n, Number(charge.customer.id) equals Number of n's decimal form |
| `ControllerProperties.ChargeCheckImpliesSubscriptionCheck` | src/controllers/rechargeController.js:328-336 | every signed decimal numeral customer_id that the charge check (Number) accepts for an owner is accepted by the subscription check (parseInt) for the same owner |
| `ControllerProperties.SubscriptionCheckLooserThanChargeCheck` | src/controllers/rechargeController.js:57 | "42abc" passes the subscription check for owner 42, but Number("42abc") is not 42 |
| `ControllerProperties.UpdateChecksExtendGetChecks` | src/controllers/rechargeController.js:11-27 | a request that passes the update's checks passes the read's; a missing id gives the same 400 from both; with an acceptable quantity both give the same result |
| `ControllerProperties.OmittedQuantityIsOne` | src/controllers/rechargeController.js:258 | an omitted quantity defaults to 1 and passes; an explicit null is rejected |
| `ControllerProperties.NonNumericQuantityPasses` | src/controllers/rechargeController.js:277-279 | a non-empty quantity string that Number reads as NaN passes the check, and the addition writes NaN for it |
| `ControllerProperties.AbcQuantityPasses` | src/controllers/rechargeController.js:23 | "abc" passes the quantity check, and both parseInt and Number give NaN for it |
| `ControllerProperties.ReadAndUpdateFailuresAgree` | src/controllers/rechargeController.js:222-249 | the read and the update map every failure to the same status; their responses differ exactly on upstream 422, where only the message differs |
| `ControllerProperties.UnauthorizedIsUniform` | src/controllers/rechargeController.js:133-136 | upstream 401 gives the same fixed 401 response from read, update and addition; the customer test passes it through with the upstream data |
| `ControllerProperties.NoAnswerMapping` | src/controllers/rechargeController.js:143-146 | no answer is 503 from read, update and addition, and 500 from the customer test |
| `ControllerProperties.TestFailureStatus` | src/controllers/rechargeController.js:458-469 | the customer test's status matches the shared table on every failure except a missing answer |
| `ControllerProperties.FailuresAreNeverSuccess` | src/controllers/rechargeController.js:115-469 | no catch block answers with 200 |

## Left out

- The HTTP client calls, their URLs and the three headers are left out. A call is an entry in the trace; its answer is the next entry of the script. The client is foreign code.
- Each handler requires one scripted answer per call it may issue: three for the update, two for the addition, one for the others. The script stands in for the network and is not an input of the source.
- Upstream error statuses are limited to 300-599 as a modelling choice. The HTTP client rejects a call with any status outside 2xx, and Node accepts codes up to 999; those above 599 and the 1xx codes are not modelled.
- The log output and the JSON pretty-printing are left out. They do not affect any result.
- The fixed `message` texts of success bodies and the `suggestion` text of "charge not found" appear as comments on the body variants, not as fields.
- Upstream data, error details and fault messages are opaque values that are copied through. Objects and arrays are one opaque `Obj` value.
- Numeric coercion is modelled for exact integers and decimal numerals with an optional sign. Left out are leading or trailing whitespace, hexadecimal, octal and binary prefixes, fractions, exponents, `Infinity`, floating-point quantities, and integers of 1e21 or more, whose string form uses an exponent. JavaScript numbers are doubles: integers beyond 2^53 collapse onto their neighbours (`parseInt("9007199254740993")` is 9007199254740992), which the model's exact integers do not.
- Objects and arrays read as NaN in the model. That holds for objects but not for every array: `Number([])` is 0 and `parseInt([2])` is 2. Strings outside the modelled numerals also read as NaN. So the model's quantity check lets `"0.5"`, `"0x0"`, `" 0 "` and `[]` through, where the source answers 400.
- JsValues.NumberThenParseInt: proved for signed decimal numerals only. JavaScript `Number` also reads fractions, exponents, `0b`/`0o`/`0x` forms and whitespace-padded strings, on which `parseInt` can read a different number (`"1e3"` is 1000 for `Number` and 1 for `parseInt`; `"0b10"` is 2 and 0).
- JsValues.ParseIntIgnoresTrailing: proved for decimal digits followed by any non-digit, with the model's `Number`, which reads every such string as NaN. In JavaScript that holds only when the tail is not itself numeric syntax: `Number` gives 42.5, 420 and 42 for `"42.5"`, `"42e1"` and `"42 "`. A digit run beyond 2^53 also reads as a rounded double there.
- ControllerProperties.OwnershipByDecimalId: proved with ids as exact integers. In JavaScript, two ids beyond 2^53 that round to the same double compare equal, so a different decimal id can pass the check.
- ControllerProperties.ChargeCheckImpliesSubscriptionCheck: proved for signed decimal numerals only. A `customer_id` such as `"1e3"` or `"0b1111101000"` passes the charge check for owner 1000 through `Number`, while `parseInt` reads 1 or 0 from it, so the subscription check would refuse it.
- ControllerProperties.NonNumericQuantityPasses: proved for strings the model's `Number` reads as NaN. Those include `"0.5"`, `"0x0"` and `" 0 "`, which JavaScript's `Number` reads as numbers below 1 and the source rejects with 400; the lemma's statement holds in JavaScript only for strings that `Number` really reads as NaN, such as `"abc"`.
- RechargeController.QuantityRejected, RechargeController.ValidateUpdate, RechargeController.ValidateAddProduct: state the quantity check on the modelled values only; the lines above on numeric coercion and on arrays name the inputs where the source answers 400 and the model lets the quantity through.
- A query parameter given more than once (an array) is left out.
- Of the TypeErrors a malformed payload can cause, two are modelled, both through the catch block's local-fault branch: a subscription read whose data has no `subscription`, and a charge with no `customer` object. An answer with no `data` at all is left out.
- The race between the ownership read and the write needs concurrent upstream changes. The model is sequential and leaves it out.
- Route registration (src/routes/rechargeRoutes.js) and the middleware and fallback handlers of src/app.js are HTTP plumbing and are not modelled.
