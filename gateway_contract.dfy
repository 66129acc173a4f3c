/** The request and response shapes of the payment gateway contract
    (the externalId-and-currency addressed lifecycle). */
module GatewayContract {
  import opened PaymentEntity

  datatype CreatePaymentRequest = CreatePaymentRequest(
    amount: int,
    currency: Currency,
    invoice: string,
    externalId: int,
    successCallbackUrl: string,
    failureCallbackUrl: string,
    successRedirectUrl: string,
    failureRedirectUrl: string)

  datatype CreatePaymentResponse = CreatePaymentResponse(collectUrl: string, externalId: int)

  /** `collectStatus` is declared as success | failed | pending, but nothing
      checks it: any string the provider sends is carried as it is. */
  datatype PaymentStatusResponse = PaymentStatusResponse(
    collectStatus: string,
    payerPhoneNumber: string,
    externalId: int,
    currency: Currency)
}
