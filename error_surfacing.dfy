/** How a failure the provider reports inside its envelope reaches the caller
    once the exception filter has classified it. */
module ErrorSurfacing {
  import opened Wrappers
  import opened JsValues
  import opened WhishTypes
  import opened WhishGateway
  import opened PaymentExceptionFilter

  /** A rejected envelope is answered with 400, the envelope's code when it is
      non-empty (PAYMENT_GATEWAY_ERROR otherwise), and the dialog when it is
      non-empty (the operation's default message otherwise). */
  lemma EnvelopeFailureIsBadRequest<T>(envelope: WhishApiResponse<T>, defaultMessage: string)
    requires !envelope.status
    ensures var e := Unwrap(Received(envelope), defaultMessage).error;
            && MapWhishStatusToHttp(e.statusCode) == BadRequest
            && OrElse(e.code, GatewayErrorDefault) == OrElse(envelope.code, GatewayErrorDefault)
            && e.message == OrElse(envelope.dialog, defaultMessage)
  {
  }
}
