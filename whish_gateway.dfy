/** The Whish payment gateway adapter: builds each provider request, and turns
    what comes back (an envelope, or a transport error) into a typed result or
    a WhishApiException. The HTTP round trip itself is the parameter `send`. */
module WhishGateway {
  import opened Wrappers
  import opened JsValues
  import opened PaymentEntity
  import opened BalanceEntity
  import opened WhishApiExceptions
  import opened WhishTypes
  import opened GatewayContract

  datatype Verb = Get | Post

  datatype RequestBody =
    | NoBody
    | CreatePaymentBody(create: WhishCreatePaymentRequest)
    | StatusBody(query: WhishGetStatusRequest)

  /** One call on the axios client: the client's `baseURL`, then the verb,
      path, per-request headers and JSON body of the call. */
  datatype HttpRequest = HttpRequest(verb: Verb, baseUrl: string, path: string, headers: map<string, string>, body: RequestBody)

  /** What one round trip yields: a 2xx envelope, or the transport error the
      response interceptor converts with `FromAxiosError`. */
  datatype HttpOutcome<T> =
    | Received(envelope: WhishApiResponse<T>)
    | TransportFailed(error: AxiosError)

  const DefaultBaseUrl := "https://whish.money"
  const BalancePath := "/itel-service/api/payment/account/balance"
  const CreatePaymentPath := "/itel-service/api/payment/whish"
  const StatusPath := "/itel-service/api/payment/collect/status"

  const BalanceFailure := "Failed to get balance"
  const CreatePaymentFailure := "Failed to create payment"
  const StatusFailure := "Failed to get payment status"
  /** Status given to a failure the provider reports inside its envelope. */
  const EnvelopeFailureStatus := 400

  /** `configService.get(key, default)`. */
  function ConfigGet(config: map<string, string>, key: string, default: string): (v: string)
    ensures key in config ==> v == config[key]
    ensures key !in config ==> v == default
  {
    if key in config then config[key] else default
  }

  /** The check every operation makes on what came back: a transport error
      is converted by the interceptor; an envelope with `status == false` is
      rejected with the dialog (or the operation's default message), status
      400 and the code if it is non-empty; otherwise the data is the result. */
  function Unwrap<T>(outcome: HttpOutcome<T>, defaultMessage: string): (r: Result<T, WhishApiException>)
    ensures r.Success? <==> outcome.Received? && outcome.envelope.status
    ensures r.Success? ==> r.value == outcome.envelope.data
    ensures outcome.TransportFailed? ==> r == Failure(FromAxiosError(outcome.error))
    ensures outcome.Received? && !outcome.envelope.status ==>
              && r.error.statusCode == EnvelopeFailureStatus
              && r.error.message == OrElse(outcome.envelope.dialog, defaultMessage)
              && r.error.code == OrUndefined(outcome.envelope.code)
              && r.error.details.None?
  {
    match outcome
    case TransportFailed(error) => Failure(FromAxiosError(error))
    case Received(envelope) =>
      if !envelope.status then
        Failure(WhishApiException(
          OrElse(envelope.dialog, defaultMessage),
          EnvelopeFailureStatus,
          OrUndefined(envelope.code),
          None))
      else
        Success(envelope.data)
  }

  /** The createPayment payload: the eight request fields, the currency as its code. */
  function CreatePaymentPayload(request: CreatePaymentRequest): (p: WhishCreatePaymentRequest)
    ensures ParseCurrency(p.currency) == Some(request.currency)
    ensures p.amount == request.amount && p.invoice == request.invoice && p.externalId == request.externalId
    ensures p.successCallbackUrl == request.successCallbackUrl && p.failureCallbackUrl == request.failureCallbackUrl
    ensures p.successRedirectUrl == request.successRedirectUrl && p.failureRedirectUrl == request.failureRedirectUrl
  {
    WhishCreatePaymentRequest(
      request.amount,
      CurrencyCode(request.currency),
      request.invoice,
      request.externalId,
      request.successCallbackUrl,
      request.failureCallbackUrl,
      request.successRedirectUrl,
      request.failureRedirectUrl)
  }

  /** The payload loses nothing of the request: different requests are sent
      as different payloads. */
  lemma CreatePaymentPayloadInjective(r1: CreatePaymentRequest, r2: CreatePaymentRequest)
    ensures CreatePaymentPayload(r1) == CreatePaymentPayload(r2) <==> r1 == r2
  {
  }

  /** The getPaymentStatus payload: exactly the currency code and the externalId. */
  function StatusPayload(externalId: int, currency: Currency): (p: WhishGetStatusRequest)
    ensures p.externalId == externalId
    ensures ParseCurrency(p.currency) == Some(currency)
  {
    WhishGetStatusRequest(CurrencyCode(currency), externalId)
  }

  class WhishPaymentGateway {
    const baseUrl: string
    const channel: string
    const secret: string
    const websiteUrl: string

    /** Credentials are read once from the configuration, empty when unset. */
    constructor (config: map<string, string>)
      ensures baseUrl == ConfigGet(config, "PAYMENT_SERVICE_URL", DefaultBaseUrl)
      ensures channel == ConfigGet(config, "WHISH_CHANNEL", "")
      ensures secret == ConfigGet(config, "WHISH_SECRET", "")
      ensures websiteUrl == ConfigGet(config, "WHISH_WEBSITE_URL", "")
    {
      baseUrl := ConfigGet(config, "PAYMENT_SERVICE_URL", DefaultBaseUrl);
      channel := ConfigGet(config, "WHISH_CHANNEL", "");
      secret := ConfigGet(config, "WHISH_SECRET", "");
      websiteUrl := ConfigGet(config, "WHISH_WEBSITE_URL", "");
    }

    /** Exactly four headers: the JSON content type and the three credentials. */
    function AuthHeaders(): (h: map<string, string>)
      ensures h.Keys == {"Content-Type", "channel", "secret", "websiteurl"}
      ensures h["Content-Type"] == "application/json"
      ensures h["channel"] == channel && h["secret"] == secret && h["websiteurl"] == websiteUrl
    {
      map["Content-Type" := "application/json", "channel" := channel,
          "secret" := secret, "websiteurl" := websiteUrl]
    }

    /** A GET of the balance endpoint with the credentials and no body. */
    function BalanceRequest(): (req: HttpRequest)
      ensures req.verb == Get && req.baseUrl == baseUrl
      ensures req.path == "/itel-service/api/payment/account/balance"
      ensures req.headers == AuthHeaders()
      ensures req.body.NoBody?
    {
      HttpRequest(Get, baseUrl, BalancePath, AuthHeaders(), NoBody)
    }

    /** A POST to the payment endpoint with the credentials and the whole
        request as its body. */
    function CreatePaymentHttpRequest(request: CreatePaymentRequest): (req: HttpRequest)
      ensures req.verb == Post && req.baseUrl == baseUrl
      ensures req.path == "/itel-service/api/payment/whish"
      ensures req.headers == AuthHeaders()
      ensures req.body.CreatePaymentBody? && req.body.create.externalId == request.externalId
      ensures ParseCurrency(req.body.create.currency) == Some(request.currency)
    {
      HttpRequest(Post, baseUrl, CreatePaymentPath, AuthHeaders(), CreatePaymentBody(CreatePaymentPayload(request)))
    }

    /** A POST to the status endpoint with the credentials and the
        (currency, externalId) key as its body. */
    function StatusHttpRequest(externalId: int, currency: Currency): (req: HttpRequest)
      ensures req.verb == Post && req.baseUrl == baseUrl
      ensures req.path == "/itel-service/api/payment/collect/status"
      ensures req.headers == AuthHeaders()
      ensures req.body.StatusBody? && req.body.query.externalId == externalId
      ensures ParseCurrency(req.body.query.currency) == Some(currency)
    {
      HttpRequest(Post, baseUrl, StatusPath, AuthHeaders(), StatusBody(StatusPayload(externalId, currency)))
    }

    /** `now` stands for `new Date()`. The provider reports one figure, taken
        as available; nothing is pending and the currency is always LBP. */
    function GetBalance(send: HttpRequest -> HttpOutcome<WhishBalanceData>, now: Timestamp)
      : (r: Result<Balance, WhishApiException>)
      ensures var outcome := send(BalanceRequest());
              && (r.Success? <==> outcome.Received? && outcome.envelope.status)
              && (r.Success? ==>
                    && r.value.available == outcome.envelope.data.balance
                    && r.value.pending == 0
                    && Total(r.value) == outcome.envelope.data.balance
                    && r.value.currency == CurrencyCode(LBP)
                    && r.value.lastUpdated == now)
              && (r.Failure? ==> r == Failure(Unwrap(outcome, BalanceFailure).error))
    {
      match Unwrap(send(BalanceRequest()), BalanceFailure)
      case Failure(e) => Failure(e)
      case Success(data) => Success(Balance(data.balance, 0, "LBP", now))
    }

    /** The externalId of the result is the caller's own, never the provider's. */
    function CreatePayment(send: HttpRequest -> HttpOutcome<WhishCreatePaymentData>, request: CreatePaymentRequest)
      : (r: Result<CreatePaymentResponse, WhishApiException>)
      ensures var outcome := send(CreatePaymentHttpRequest(request));
              && (r.Success? <==> outcome.Received? && outcome.envelope.status)
              && (r.Success? ==>
                    && r.value.collectUrl == outcome.envelope.data.collectUrl
                    && r.value.externalId == request.externalId)
              && (r.Failure? ==> r == Failure(Unwrap(outcome, CreatePaymentFailure).error))
    {
      match Unwrap(send(CreatePaymentHttpRequest(request)), CreatePaymentFailure)
      case Failure(e) => Failure(e)
      case Success(data) => Success(CreatePaymentResponse(data.collectUrl, request.externalId))
    }

    /** Keyed by (externalId, currency), both echoed back from the arguments;
        the provider's status string and phone number pass through unchanged. */
    function GetPaymentStatus(send: HttpRequest -> HttpOutcome<WhishStatusData>, externalId: int, currency: Currency)
      : (r: Result<PaymentStatusResponse, WhishApiException>)
      ensures var outcome := send(StatusHttpRequest(externalId, currency));
              && (r.Success? <==> outcome.Received? && outcome.envelope.status)
              && (r.Success? ==>
                    && r.value.collectStatus == outcome.envelope.data.collectStatus
                    && r.value.payerPhoneNumber == outcome.envelope.data.payerPhoneNumber
                    && r.value.externalId == externalId
                    && r.value.currency == currency)
              && (r.Failure? ==> r == Failure(Unwrap(outcome, StatusFailure).error))
    {
      match Unwrap(send(StatusHttpRequest(externalId, currency)), StatusFailure)
      case Failure(e) => Failure(e)
      case Success(data) =>
        Success(PaymentStatusResponse(data.collectStatus, data.payerPhoneNumber, externalId, currency))
    }
  }

  /** Every request goes to the configured base URL with the configured
      credentials, and each operation goes to its own endpoint with its own verb. */
  lemma RequestsCarryCredentials(g: WhishPaymentGateway, request: CreatePaymentRequest, externalId: int, currency: Currency)
    ensures g.BalanceRequest().headers == g.AuthHeaders() && g.BalanceRequest().verb == Get
    ensures g.CreatePaymentHttpRequest(request).verb == Post
    ensures g.StatusHttpRequest(externalId, currency).verb == Post
    ensures g.BalanceRequest().baseUrl == g.CreatePaymentHttpRequest(request).baseUrl
              == g.StatusHttpRequest(externalId, currency).baseUrl == g.baseUrl
    ensures g.CreatePaymentHttpRequest(request).headers == g.AuthHeaders()
    ensures g.CreatePaymentHttpRequest(request).body == CreatePaymentBody(CreatePaymentPayload(request))
    ensures g.StatusHttpRequest(externalId, currency).headers == g.AuthHeaders()
    ensures g.StatusHttpRequest(externalId, currency).body == StatusBody(StatusPayload(externalId, currency))
    ensures g.BalanceRequest().path != g.CreatePaymentHttpRequest(request).path
    ensures g.CreatePaymentHttpRequest(request).path != g.StatusHttpRequest(externalId, currency).path
    ensures g.BalanceRequest().path != g.StatusHttpRequest(externalId, currency).path
  {
  }

  /** A rejected envelope never yields a result: each operation fails with
      status 400, the dialog when it is non-empty or else its own default
      message, and the envelope's code when it is non-empty. */
  lemma EnvelopeFailureRejects(
    g: WhishPaymentGateway,
    balance: WhishApiResponse<WhishBalanceData>,
    created: WhishApiResponse<WhishCreatePaymentData>,
    queried: WhishApiResponse<WhishStatusData>,
    now: Timestamp, request: CreatePaymentRequest, externalId: int, currency: Currency)
    ensures !balance.status ==>
            var r := g.GetBalance(_ => Received(balance), now);
            && r.Failure? && r.error.statusCode == 400
            && r.error.message == OrElse(balance.dialog, BalanceFailure)
            && r.error.code == OrUndefined(balance.code)
    ensures !created.status ==>
            var r := g.CreatePayment(_ => Received(created), request);
            && r.Failure? && r.error.statusCode == 400
            && r.error.message == OrElse(created.dialog, CreatePaymentFailure)
            && r.error.code == OrUndefined(created.code)
    ensures !queried.status ==>
            var r := g.GetPaymentStatus(_ => Received(queried), externalId, currency);
            && r.Failure? && r.error.statusCode == 400
            && r.error.message == OrElse(queried.dialog, StatusFailure)
            && r.error.code == OrUndefined(queried.code)
  {
  }

  /** The answer depends on the provider only through its reply to the one
      request sent: two providers that answer that request alike give the
      same result, so repeating a status query against unchanged provider
      state repeats the result. */
  lemma StatusDependsOnlyOnReply(
    g: WhishPaymentGateway,
    send1: HttpRequest -> HttpOutcome<WhishStatusData>,
    send2: HttpRequest -> HttpOutcome<WhishStatusData>,
    externalId: int, currency: Currency)
    requires send1(g.StatusHttpRequest(externalId, currency)) == send2(g.StatusHttpRequest(externalId, currency))
    ensures g.GetPaymentStatus(send1, externalId, currency) == g.GetPaymentStatus(send2, externalId, currency)
  {
  }
}
