/** WhishApiException: the infrastructure exception for a failed call to the
    Whish provider, and its construction from a transport (axios) error. */
module WhishApiExceptions {
  import opened Wrappers
  import opened JsValues

  const ExceptionName := "WhishApiException"
  const NetworkErrorCode := "NETWORK_ERROR"
  /** Status reported when no HTTP response was received at all. */
  const NoResponseStatus := 500

  datatype WhishApiException = WhishApiException(
    message: string,
    statusCode: int,
    code: Option<string>,
    details: Option<Json>)

  /** The record `toJSON` returns. */
  datatype WhishApiExceptionJson = WhishApiExceptionJson(
    name: string,
    message: string,
    statusCode: int,
    code: Option<string>,
    details: Option<Json>)

  function ToJson(e: WhishApiException): (j: WhishApiExceptionJson)
    ensures j.name == ExceptionName
    ensures j.message == e.message && j.statusCode == e.statusCode
    ensures j.code == e.code && j.details == e.details
  {
    WhishApiExceptionJson(ExceptionName, e.message, e.statusCode, e.code, e.details)
  }

  /** `toJSON` loses nothing: distinct exceptions serialise differently. */
  lemma ToJsonInjective(e1: WhishApiException, e2: WhishApiException)
    ensures ToJson(e1) == ToJson(e2) <==> e1 == e2
  {
  }

  /** The provider's error body (`response.data`), as far as it is read. */
  datatype ErrorBody = ErrorBody(message: Option<string>, code: Option<string>, details: Option<Json>)

  /** A received HTTP response whose status made the call fail. */
  datatype AxiosResponse = AxiosResponse(status: int, data: Option<ErrorBody>)

  /** A transport error: `response` is absent when nothing came back
      (connection refused, DNS failure, timeout). */
  datatype AxiosError = AxiosError(message: string, response: Option<AxiosResponse>)

  function BodyMessage(r: AxiosResponse): Option<string> {
    if r.data.Some? then r.data.value.message else None
  }

  function BodyCode(r: AxiosResponse): Option<string> {
    if r.data.Some? then r.data.value.code else None
  }

  function BodyDetails(r: AxiosResponse): Option<Json> {
    if r.data.Some? then r.data.value.details else None
  }

  function FromAxiosError(error: AxiosError): (r: WhishApiException)
    ensures error.response.Some? ==>
              && r.statusCode == error.response.value.status
              && r.code == BodyCode(error.response.value)
              && r.details == BodyDetails(error.response.value)
              && r.message == (if Truthy(BodyMessage(error.response.value))
                               then BodyMessage(error.response.value).value
                               else error.message)
    ensures error.response.None? ==>
              r == WhishApiException(error.message, NoResponseStatus, Some(NetworkErrorCode), None)
  {
    match error.response
    case Some(response) =>
      WhishApiException(
        OrElse(BodyMessage(response), error.message),
        response.status,
        BodyCode(response),
        BodyDetails(response))
    case None =>
      WhishApiException(error.message, NoResponseStatus, Some(NetworkErrorCode), None)
  }

  /** The provider's own message wins only when it is a non-empty string;
      otherwise the transport's message is kept. Either way the message is
      one of the two. */
  lemma FromAxiosErrorMessage(error: AxiosError)
    ensures var m := FromAxiosError(error).message;
            m == error.message || (error.response.Some? && BodyMessage(error.response.value) == Some(m) && m != "")
    ensures error.message != "" ==> FromAxiosError(error).message != ""
  {
  }

  /** A network failure and a provider 500 whose body says NETWORK_ERROR give
      the same status and code: the exception does not tell them apart. */
  lemma NetworkErrorIndistinguishable(message: string, details: Option<Json>)
    ensures var lost := FromAxiosError(AxiosError(message, None));
            var said := FromAxiosError(AxiosError(message,
                          Some(AxiosResponse(500, Some(ErrorBody(None, Some(NetworkErrorCode), details))))));
            lost.statusCode == said.statusCode && lost.code == said.code && lost.message == said.message
  {
  }
}
