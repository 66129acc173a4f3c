# Athena payment gateway core, modelled in Dafny

This project models the provider-normalisation and error-classification layer
of the Athena payment service. That service sits in front of the Whish payment
provider. The model covers five parts:

- **Domain values.** `Money` is an amount in one currency, with checked
  `add`/`subtract`. `Balance` has a derived `total` and a funds check.
  `Payment` has status predicates and an expiry check. The `PaymentStatus` and
  `Currency` enumerations are closed.
- **Domain exceptions.** There is a base exception and five kinds of it. Each
  kind has a fixed machine code and a message built from its argument.
- **`WhishApiException`.** This exception is built from a transport error. A
  response that arrived and no response at all (`NETWORK_ERROR`, status 500)
  are two separate cases.
- **The exception filter.** It maps gateway and domain exceptions to the
  caller-visible HTTP status and error body, and writes them to the response.
- **The Whish gateway adapter.** It builds the authentication headers and each
  request payload. It then turns the provider's envelope
  `{status, code, dialog, data}` into a typed result or a `WhishApiException`.

The HTTP round trip is not modelled. Each gateway operation takes a total
function `send` from the request it builds to the outcome of that one call.
The outcome is a 2xx envelope or an axios error. Wall-clock time is a
parameter too: `now`, in milliseconds, for `new Date()`, and an ISO string for
the filter's `timestamp`.

Files, one module each: `wrappers.dfy` (Option, Result); `js_values.dfy`
(opaque JSON, string truthiness for `a || b`, decimal rendering);
`payment_entity.dfy`; `money.dfy`; `balance.dfy`; `payment_exceptions.dfy`;
`whish_api_exception.dfy`; `gateway_contract.dfy` and `whish_types.dfy` (the
interface and wire shapes); `payment_exception_filter.dfy`; `whish_gateway.dfy`;
`error_surfacing.dfy` (how an envelope failure reaches the caller).

When the provider rejects a request without a non-empty dialog, the error
message is a default chosen per operation, whatever the code: "Failed to get balance",
"Failed to create payment" or "Failed to get payment status".

## Model

| member | source | states |
|---|---|---|
| `PaymentEntity.StatusValue` | src/domain/payment/entities/payment.entity.ts:35-41 | every status has a non-empty value made of lower-case letters (exact values: `StatusValuesDistinct`) |
| `PaymentEntity.StatusValuesDistinct` | src/domain/payment/entities/payment.entity.ts:35-41 | the values are exactly pending, completed, failed, cancelled and expired, pairwise distinct |
| `PaymentEntity.CurrencyCode` | src/domain/payment/entities/payment.entity.ts:43-47 | every currency's value is a three-letter code (which code: `CurrencyIsClosed`) |
| `PaymentEntity.ParseCurrency` | src/domain/payment/entities/payment.entity.ts:43-47 | a string names a currency only if it is that currency's code |
| `PaymentEntity.CurrencyIsClosed` | src/domain/payment/entities/payment.entity.ts:43-47 | USD, LBP and AED are the codes of the members of the same name; exactly these three strings name a currency, and each code parses back to its member |
| `PaymentEntity.IsExpiredCharacterised` | src/domain/payment/entities/payment.entity.ts:17-20 | never expired without `expiresAt`; otherwise expired exactly when `now > expiresAt`, and it stays expired as time advances |
| `PaymentEntity.IsExpired` | src/domain/payment/entities/payment.entity.ts:17-20 | expired only when `expiresAt` is set and lies before `now`, and always then |
| `PaymentEntity.IsPending` | src/domain/payment/entities/payment.entity.ts:22-24 | holds exactly when the status's value is "pending" |
| `PaymentEntity.IsCompleted` | src/domain/payment/entities/payment.entity.ts:26-28 | holds exactly when the status's value is "completed" |
| `PaymentEntity.IsFailed` | src/domain/payment/entities/payment.entity.ts:30-32 | holds exactly when the status's value is "failed" |
| `PaymentEntity.StatusPredicatesExclusive` | src/domain/payment/entities/payment.entity.ts:22-41 | each predicate holds exactly for its own status; at most one holds; none holds for CANCELLED or EXPIRED |
| `MoneyValue.Create` | src/domain/payment/value-objects/money.value-object.ts:8-19 | succeeds exactly for a non-negative amount, and the getters then return the given amount and currency; a negative amount fails with NegativeAmount |
| `MoneyValue.ErrorMessage` | src/domain/payment/value-objects/money.value-object.ts:12-46 | each of the two errors has a non-empty message |
| `MoneyValue.ErrorMessageTexts` | src/domain/payment/value-objects/money.value-object.ts:12-46 | the exact texts "Amount cannot be negative" and "Cannot perform operation on different currencies", which differ |
| `MoneyValue.EnsureSameCurrency` | src/domain/payment/value-objects/money.value-object.ts:43-47 | passes exactly when the currencies agree, else fails with CurrencyMismatch |
| `MoneyValue.Add` | src/domain/payment/value-objects/money.value-object.ts:29-32 | succeeds exactly for equal currencies, giving `a+b` in that currency; otherwise fails with CurrencyMismatch and gives no result |
| `MoneyValue.Subtract` | src/domain/payment/value-objects/money.value-object.ts:34-37 | a currency mismatch fails first; with equal currencies it fails with NegativeAmount when `b > a` and otherwise gives `a-b` in that currency |
| `MoneyValue.Equals` | src/domain/payment/value-objects/money.value-object.ts:39-41 | holds exactly when both values are identical, meaning the same amount and currency |
| `MoneyValue.ToString` | src/domain/payment/value-objects/money.value-object.ts:49-51 | the decimal digits of the amount, with no leading zero, which read back as the amount; then a space and the currency code |
| `MoneyValue.AddCommutative` | src/domain/payment/value-objects/money.value-object.ts:29-32 | `add` is commutative for all operands; with different currencies both orders fail with CurrencyMismatch |
| `MoneyValue.AddAssociative` | src/domain/payment/value-objects/money.value-object.ts:29-32 | same-currency additions always succeed and are associative |
| `MoneyValue.AddSubtractInverse` | src/domain/payment/value-objects/money.value-object.ts:29-37 | subtracting what was added restores the original, and so does adding back what was subtracted |
| `MoneyValue.EqualsIsEquivalence` | src/domain/payment/value-objects/money.value-object.ts:39-41 | `equals` is reflexive, symmetric and transitive |
| `MoneyValue.ToStringInjective` | src/domain/payment/value-objects/money.value-object.ts:49-51 | two amounts print the same only when they are equal |
| `BalanceEntity.Total` | src/domain/payment/entities/balance.entity.ts:12-14 | `total` is `available + pending` |
| `BalanceEntity.HasAvailableFunds` | src/domain/payment/entities/balance.entity.ts:16-18 | holds exactly when `amount <= available`; then, with no negative pending, `total` covers the amount |
| `BalanceEntity.HasAvailableFundsProperties` | src/domain/payment/entities/balance.entity.ts:16-18 | holds exactly when `amount <= available`; it is monotone downwards and ignores `pending`; with no negative pending, `total` covers the amount |
| `PaymentExceptions.Code` | src/domain/payment/exceptions/payment.exceptions.ts:6-52 | every subclass has a non-empty fixed code; the base class carries the code it is given (exact codes: `ExactCodesAndMessages`) |
| `PaymentExceptions.Message` | src/domain/payment/exceptions/payment.exceptions.ts:6-52 | every subclass has a non-empty message; the base class carries the message it is given (exact messages: `ExactCodesAndMessages`) |
| `PaymentExceptions.Name` | src/domain/payment/exceptions/payment.exceptions.ts:6-52 | every class's name ends in "Exception" and has more before it |
| `PaymentExceptions.NamesDistinct` | src/domain/payment/exceptions/payment.exceptions.ts:6-52 | two exceptions have the same name exactly when they are of the same class |
| `PaymentExceptions.ExactCodesAndMessages` | src/domain/payment/exceptions/payment.exceptions.ts:6-52 | for every argument, each class's exact code, message and name, e.g. PAYMENT_NOT_FOUND with "Payment with ID <id> not found"; the base class passes its message and code through |
| `PaymentExceptions.SubclassCodesDistinct` | src/domain/payment/exceptions/payment.exceptions.ts:16-52 | two subclass instances have the same code exactly when they are the same subclass |
| `PaymentExceptions.MessageEmbedsId` | src/domain/payment/exceptions/payment.exceptions.ts:16-52 | the not-found, already-processed and expired messages are "Payment with ID ", then the id, then " not found", " has already been processed" or " has expired"; the currency message is "Invalid currency: " then the currency |
| `PaymentExceptions.MessageDeterminesArgument` | src/domain/payment/exceptions/payment.exceptions.ts:16-52 | within one subclass, equal messages mean equal arguments |
| `WhishApiExceptions.ToJson` | src/infrastructure/whish/exceptions/whish-api.exception.ts:12-23 | the name is always WhishApiException; message, statusCode, code and details are the constructed ones |
| `WhishApiExceptions.ToJsonInjective` | src/infrastructure/whish/exceptions/whish-api.exception.ts:15-23 | `toJSON` loses nothing: equal JSON means equal exceptions |
| `WhishApiExceptions.FromAxiosError` | src/infrastructure/whish/exceptions/whish-api.exception.ts:25-36 | with a response, status comes from the response and code/details from its body (possibly absent); the body's message is used when non-empty, else the error's message. Without a response the result is `(error.message, 500, NETWORK_ERROR, no details)` |
| `WhishApiExceptions.FromAxiosErrorMessage` | src/infrastructure/whish/exceptions/whish-api.exception.ts:29 | the message is the transport's own or the body's non-empty message, and it is non-empty whenever the transport's message is |
| `WhishApiExceptions.NetworkErrorIndistinguishable` | src/infrastructure/whish/exceptions/whish-api.exception.ts:26-35 | a lost connection and a provider 500 whose body says NETWORK_ERROR give the same status, code and message |
| `PaymentExceptionFilter.MapWhishStatusToHttp` | src/api/payment/filters/payment-exception.filter.ts:68-76 | the result is in 400..599; 4xx passes unchanged; 500 and above becomes 502; below 400 becomes 500; the status is left unchanged exactly for 4xx and 502 |
| `PaymentExceptionFilter.MapWhishStatusTwice` | src/api/payment/filters/payment-exception.filter.ts:68-76 | not idempotent: mapping twice equals mapping once exactly for inputs of at least 400, and inputs below 400 end at 502 |
| `PaymentExceptionFilter.MapDomainExceptionToHttp` | src/api/payment/filters/payment-exception.filter.ts:78-88 | 404 exactly for not-found, 410 exactly for expired, 400 for every other domain exception |
| `PaymentExceptionFilter.DomainStatusIgnoresCode` | src/api/payment/filters/payment-exception.filter.ts:78-88 | the status follows the exception's class, not its code: a base exception carrying PAYMENT_NOT_FOUND still gets 400 |
| `PaymentExceptionFilter.HttpResponse.Send` | src/api/payment/filters/payment-exception.filter.ts:65 | the response's status and JSON body become exactly the given ones |
| `PaymentExceptionFilter.Catch` | src/api/payment/filters/payment-exception.filter.ts:24-66 | writes one body whose statusCode equals the sent status. A gateway body has status `mapWhish(statusCode)`, error = the code or PAYMENT_GATEWAY_ERROR (never empty), and the exception's message and details. A domain body has status `mapDomain(e)`, error = `e.code`, `e`'s message, and no details |
| `PaymentExceptionFilter.NetworkFailureIsBadGateway` | src/api/payment/filters/payment-exception.filter.ts:34-42 | a transport error with no response reaches the caller as 502 with error NETWORK_ERROR |
| `PaymentExceptionFilter.ProviderClientErrorPassesThrough` | src/api/payment/filters/payment-exception.filter.ts:34-42 | a provider 4xx reaches the caller with that status and the provider's code, or PAYMENT_GATEWAY_ERROR when it sent none |
| `WhishGateway.ConfigGet` | src/infrastructure/whish/whish-payment.gateway.ts:35-41 | the configured value when the key is set, else the default |
| `WhishGateway.WhishPaymentGateway.constructor` | src/infrastructure/whish/whish-payment.gateway.ts:34-41 | the base URL defaults to https://whish.money; channel, secret and website URL default to empty |
| `WhishGateway.WhishPaymentGateway.AuthHeaders` | src/infrastructure/whish/whish-payment.gateway.ts:86-93 | exactly four headers: Content-Type application/json and channel, secret and websiteurl from the configured fields |
| `WhishGateway.Unwrap` | src/infrastructure/whish/whish-payment.gateway.ts:106-113 | succeeds exactly for a received envelope with `status` true, giving its data. A transport error becomes `FromAxiosError(error)`. A false status fails with 400, the dialog if non-empty else the default message, the code if non-empty, and no details |
| `WhishGateway.CreatePaymentPayload` | src/infrastructure/whish/whish-payment.gateway.ts:134-143 | all eight request fields are copied unchanged, with the currency as its code |
| `WhishGateway.CreatePaymentPayloadInjective` | src/infrastructure/whish/whish-payment.gateway.ts:134-143 | the payload loses nothing: equal payloads mean equal requests |
| `WhishGateway.StatusPayload` | src/infrastructure/whish/whish-payment.gateway.ts:178-181 | exactly the externalId and the currency code from the arguments |
| `WhishGateway.WhishPaymentGateway.BalanceRequest` | src/infrastructure/whish/whish-payment.gateway.ts:100-104 | a GET of /itel-service/api/payment/account/balance on the configured base URL, with the auth headers and no body |
| `WhishGateway.WhishPaymentGateway.CreatePaymentHttpRequest` | src/infrastructure/whish/whish-payment.gateway.ts:145-149 | a POST to /itel-service/api/payment/whish on the configured base URL, with the auth headers and the payload carrying the caller's externalId and currency |
| `WhishGateway.WhishPaymentGateway.StatusHttpRequest` | src/infrastructure/whish/whish-payment.gateway.ts:183-187 | a POST to /itel-service/api/payment/collect/status on the configured base URL, with the auth headers and the (currency, externalId) payload |
| `WhishGateway.WhishPaymentGateway.GetBalance` | src/infrastructure/whish/whish-payment.gateway.ts:98-125 | succeeds exactly when the envelope's status is true; then available = data.balance, pending = 0, total = data.balance, currency LBP, lastUpdated = now; otherwise it fails as `Unwrap` does with "Failed to get balance" |
| `WhishGateway.WhishPaymentGateway.CreatePayment` | src/infrastructure/whish/whish-payment.gateway.ts:130-168 | succeeds exactly when the envelope's status is true, with the provider's collectUrl and the caller's externalId; otherwise it fails as `Unwrap` does with "Failed to create payment" |
| `WhishGateway.WhishPaymentGateway.GetPaymentStatus` | src/infrastructure/whish/whish-payment.gateway.ts:173-214 | succeeds exactly when the envelope's status is true; collectStatus and payerPhoneNumber pass through and externalId and currency are echoed from the arguments; otherwise it fails as `Unwrap` does with "Failed to get payment status" |
| `WhishGateway.RequestsCarryCredentials` | src/infrastructure/whish/whish-payment.gateway.ts:100-187 | every request goes to the configured base URL with the auth headers and its own payload; balance is a GET, create and status are POSTs, on three different endpoints |
| `WhishGateway.EnvelopeFailureRejects` | src/infrastructure/whish/whish-payment.gateway.ts:107-196 | a false envelope status in any one operation, on its own, gives no result: it fails with 400, the dialog or that operation's default message, and the non-empty code |
| `WhishGateway.StatusDependsOnlyOnReply` | src/infrastructure/whish/whish-payment.gateway.ts:173-206 | a status query depends on the provider only through the reply to its one request, so repeating it against an unchanged provider gives the same result |
| `ErrorSurfacing.EnvelopeFailureIsBadRequest` | src/infrastructure/whish/whish-payment.gateway.ts:107-113 | a rejected envelope reaches the caller as 400, with the envelope's code (or PAYMENT_GATEWAY_ERROR) and its dialog (or the default message) |

## Left out

- Amounts are the source's own numbers restricted to whole values; they are not rescaled. Fractional amounts (the create-payment input accepts 0.01), rounding, NaN, the exponent form that `${n}` switches to from 1e21, and the loss of exactness above 2^53 are not modelled.
- Wall-clock time (`new Date()`, `toISOString()`) is a parameter. An invalid `Date` is not modelled.
- The axios transport is not modelled: client creation, the 30-second timeout, default headers (the `Accept` header merged into every request), the interceptors' logging, and the request interceptor's rethrow of request-setup errors. Only the response interceptor's conversion through `FromAxiosError` is kept. The outcome of a call is an input value.
- All `Logger` calls and the `try/catch` blocks that log and rethrow unchanged are not modelled. They have no effect on the result.
- Envelopes that break their declared type are not modelled, for example a `status: true` envelope with null `data`. In the source that raises a plain TypeError, which the filter does not catch.
- A provider error body whose `message` or `code` is not a string cannot be represented in the model. In the source a truthy non-string `message` is still used as the exception's message, and a non-string `code` reaches the error body unchanged.
- The `details` field and the envelope's `actions`/`extra` are opaque JSON values that are carried, never inspected.
- The filter's third branch (INTERNAL_ERROR) is not modelled. It is unreachable because the filter catches only the two exception families, so `CaughtException` has exactly two cases.
- Status normalisation and a 404-to-PaymentNotFound translation are not modelled, because no code implements them. `collectStatus` is passed through as a string.
- The orchestration service, the controllers, the webhook stub, DTOs, modules and configuration loading are not modelled. They are routing and wiring with no logic of their own. The configuration is a map given to the gateway's constructor.
- `Balance` and `Payment` fields are fixed at construction. This holds because they are immutable datatype values, so no lemma is needed.
