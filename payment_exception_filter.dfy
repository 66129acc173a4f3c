/** The HTTP boundary's exception filter: classifies a caught gateway or
    domain exception into a caller-visible status and error body, and writes
    them to the response. */
module PaymentExceptionFilter {
  import opened Wrappers
  import opened JsValues
  import opened PaymentExceptions
  import opened WhishApiExceptions

  const BadRequest := 400
  const NotFound := 404
  const Gone := 410
  const InternalServerError := 500
  const BadGateway := 502

  const GatewayErrorDefault := "PAYMENT_GATEWAY_ERROR"

  /** The filter catches only these two families; anything else never
      reaches it, so there is no third case. */
  datatype CaughtException =
    | GatewayError(gateway: WhishApiException)
    | DomainError(domain: PaymentDomainException)

  /** The JSON body sent to the caller; `timestamp` is an ISO-8601 string. */
  datatype ErrorResponse = ErrorResponse(
    statusCode: int,
    error: string,
    message: string,
    details: Option<Json>,
    timestamp: string)

  /** Provider client errors pass through; provider server errors become Bad
      Gateway; anything below 400 becomes Internal Server Error. */
  function MapWhishStatusToHttp(statusCode: int): (r: int)
    ensures 400 <= r < 600
    ensures 400 <= statusCode < 500 ==> r == statusCode
    ensures r == statusCode <==> 400 <= statusCode < 500 || statusCode == BadGateway
    ensures statusCode >= 500 ==> r == BadGateway
    ensures statusCode < 400 ==> r == InternalServerError
  {
    if 400 <= statusCode < 500 then statusCode
    else if statusCode >= 500 then BadGateway
    else InternalServerError
  }

  /** The mapping is not idempotent: applying it twice agrees with applying
      it once exactly for inputs of at least 400; any lower status first
      becomes 500, which then becomes 502. */
  lemma MapWhishStatusTwice(statusCode: int)
    ensures (MapWhishStatusToHttp(MapWhishStatusToHttp(statusCode)) == MapWhishStatusToHttp(statusCode))
            <==> statusCode >= 400
    ensures statusCode < 400 ==> MapWhishStatusToHttp(MapWhishStatusToHttp(statusCode)) == BadGateway
  {
  }

  /** Chosen by the kind of the exception, not by its code. */
  function MapDomainExceptionToHttp(e: PaymentDomainException): (r: int)
    ensures r == NotFound <==> e.PaymentNotFound?
    ensures r == Gone <==> e.PaymentExpired?
    ensures r == BadRequest <==> !e.PaymentNotFound? && !e.PaymentExpired?
  {
    if e.PaymentNotFound? then NotFound
    else if e.PaymentExpired? then Gone
    else BadRequest
  }

  /** A base-class exception that merely carries a subclass's code is still
      answered with 400. */
  lemma DomainStatusIgnoresCode(text: string, id: string)
    ensures Code(DomainException(text, Code(PaymentNotFound(id)))) == Code(PaymentNotFound(id))
    ensures MapDomainExceptionToHttp(DomainException(text, Code(PaymentNotFound(id)))) == BadRequest
    ensures MapDomainExceptionToHttp(PaymentNotFound(id)) == NotFound
  {
  }

  /** The outgoing HTTP response: `Send` is `response.status(s).json(body)`. */
  class HttpResponse {
    var statusCode: int
    var body: Option<ErrorResponse>

    constructor ()
      ensures statusCode == 200 && body == None
    {
      statusCode := 200;
      body := None;
    }

    method Send(status: int, errorResponse: ErrorResponse)
      modifies this
      ensures statusCode == status && body == Some(errorResponse)
    {
      statusCode := status;
      body := Some(errorResponse);
    }
  }

  /** `now` is the ISO-8601 rendering of the current time. */
  method Catch(exception: CaughtException, now: string, response: HttpResponse)
    modifies response
    ensures response.body.Some?
    ensures response.body.value.statusCode == response.statusCode
    ensures response.body.value.timestamp == now
    ensures exception.GatewayError? ==>
              var w := exception.gateway;
              && response.statusCode == MapWhishStatusToHttp(w.statusCode)
              && response.body.value.error == OrElse(w.code, GatewayErrorDefault)
              && response.body.value.error != ""
              && response.body.value.message == w.message
              && response.body.value.details == w.details
    ensures exception.DomainError? ==>
              var d := exception.domain;
              && response.statusCode == MapDomainExceptionToHttp(d)
              && response.body.value.error == Code(d)
              && response.body.value.message == Message(d)
              && response.body.value.details.None?
  {
    var status: int;
    var errorResponse: ErrorResponse;
    match exception {
      case GatewayError(w) =>
        status := MapWhishStatusToHttp(w.statusCode);
        errorResponse := ErrorResponse(status, OrElse(w.code, GatewayErrorDefault), w.message, w.details, now);
      case DomainError(d) =>
        status := MapDomainExceptionToHttp(d);
        errorResponse := ErrorResponse(status, Code(d), Message(d), None, now);
    }
    response.Send(status, errorResponse);
  }

  /** A failure with no response at all reaches the caller as 502 with the
      error NETWORK_ERROR. */
  lemma NetworkFailureIsBadGateway(error: AxiosError)
    requires error.response.None?
    ensures var w := FromAxiosError(error);
            MapWhishStatusToHttp(w.statusCode) == BadGateway && OrElse(w.code, GatewayErrorDefault) == NetworkErrorCode
  {
  }

  /** A provider response with a client-error status reaches the caller with
      that same status, and with the provider's code when it sent one. */
  lemma ProviderClientErrorPassesThrough(error: AxiosError)
    requires error.response.Some? && 400 <= error.response.value.status < 500
    ensures var w := FromAxiosError(error);
            && MapWhishStatusToHttp(w.statusCode) == error.response.value.status
            && OrElse(w.code, GatewayErrorDefault) == OrElse(BodyCode(error.response.value), GatewayErrorDefault)
  {
  }
}
