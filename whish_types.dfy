/** The Whish provider's wire shapes: the response envelope, the data each
    endpoint returns and the payloads sent to it. */
module WhishTypes {
  import opened Wrappers
  import opened JsValues

  /** Every endpoint answers with this envelope; `status == false` is a
      failure reported inside a successful HTTP exchange. */
  datatype WhishApiResponse<T> = WhishApiResponse(
    status: bool,
    code: Option<string>,
    dialog: Option<string>,
    actions: Json,
    extra: Json,
    data: T)

  datatype WhishBalanceData = WhishBalanceData(balance: int)

  /** `currency` is the plain code string (LBP, USD, AED). */
  datatype WhishCreatePaymentRequest = WhishCreatePaymentRequest(
    amount: int,
    currency: string,
    invoice: string,
    externalId: int,
    successCallbackUrl: string,
    failureCallbackUrl: string,
    successRedirectUrl: string,
    failureRedirectUrl: string)

  datatype WhishCreatePaymentData = WhishCreatePaymentData(collectUrl: string)

  datatype WhishGetStatusRequest = WhishGetStatusRequest(currency: string, externalId: int)

  datatype WhishStatusData = WhishStatusData(collectStatus: string, payerPhoneNumber: string)
}
