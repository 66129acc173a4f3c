/** The domain exception taxonomy: the base exception and its five kinds,
    each with a fixed machine code and a message built from its argument. */
module PaymentExceptions {

  /** `DomainException` is the base class thrown directly with any message
      and code; the other constructors are its five subclasses. */
  datatype PaymentDomainException =
    | DomainException(text: string, machineCode: string)
    | PaymentNotFound(paymentId: string)
    | PaymentAlreadyProcessed(paymentId: string)
    | PaymentExpired(paymentId: string)
    | InsufficientBalance
    | InvalidCurrency(currency: string)

  /** One of the five subclasses rather than the base class itself. */
  predicate IsSubclass(e: PaymentDomainException) {
    !e.DomainException?
  }

  function Code(e: PaymentDomainException): (c: string)
    ensures IsSubclass(e) ==> c != ""
    ensures e.DomainException? ==> c == e.machineCode
  {
    match e
    case DomainException(_, code) => code
    case PaymentNotFound(_) => "PAYMENT_NOT_FOUND"
    case PaymentAlreadyProcessed(_) => "PAYMENT_ALREADY_PROCESSED"
    case PaymentExpired(_) => "PAYMENT_EXPIRED"
    case InsufficientBalance => "INSUFFICIENT_BALANCE"
    case InvalidCurrency(_) => "INVALID_CURRENCY"
  }

  const PaymentIdPrefix := "Payment with ID "
  const NotFoundSuffix := " not found"
  const AlreadyProcessedSuffix := " has already been processed"
  const ExpiredSuffix := " has expired"
  const InsufficientBalanceMessage := "Insufficient balance to process payment"
  const InvalidCurrencyPrefix := "Invalid currency: "

  function Message(e: PaymentDomainException): (m: string)
    ensures IsSubclass(e) ==> m != ""
    ensures e.DomainException? ==> m == e.text
  {
    match e
    case DomainException(text, _) => text
    case PaymentNotFound(id) => PaymentIdPrefix + id + NotFoundSuffix
    case PaymentAlreadyProcessed(id) => PaymentIdPrefix + id + AlreadyProcessedSuffix
    case PaymentExpired(id) => PaymentIdPrefix + id + ExpiredSuffix
    case InsufficientBalance => InsufficientBalanceMessage
    case InvalidCurrency(c) => InvalidCurrencyPrefix + c
  }

  /** The `name` each class sets. */
  function Name(e: PaymentDomainException): (n: string)
    ensures |n| > 9 && n[|n| - 9..] == "Exception"
  {
    match e
    case DomainException(_, _) => "PaymentDomainException"
    case PaymentNotFound(_) => "PaymentNotFoundException"
    case PaymentAlreadyProcessed(_) => "PaymentAlreadyProcessedException"
    case PaymentExpired(_) => "PaymentExpiredException"
    case InsufficientBalance => "InsufficientBalanceException"
    case InvalidCurrency(_) => "InvalidCurrencyException"
  }

  predicate SameKind(e1: PaymentDomainException, e2: PaymentDomainException) {
    || (e1.DomainException? && e2.DomainException?)
    || (e1.PaymentNotFound? && e2.PaymentNotFound?)
    || (e1.PaymentAlreadyProcessed? && e2.PaymentAlreadyProcessed?)
    || (e1.PaymentExpired? && e2.PaymentExpired?)
    || (e1.InsufficientBalance? && e2.InsufficientBalance?)
    || (e1.InvalidCurrency? && e2.InvalidCurrency?)
  }

  /** The five subclass codes are pairwise distinct, and a subclass's code
      does not depend on its argument. */
  lemma SubclassCodesDistinct(e1: PaymentDomainException, e2: PaymentDomainException)
    requires IsSubclass(e1) && IsSubclass(e2)
    ensures Code(e1) == Code(e2) <==> SameKind(e1, e2)
  {
  }

  /** Two exceptions carry the same `name` exactly when they are of the same
      class: every class sets a name of its own. */
  lemma NamesDistinct(e1: PaymentDomainException, e2: PaymentDomainException)
    ensures Name(e1) == Name(e2) <==> SameKind(e1, e2)
  {
  }

  /** The exact code, message and name of every class, for every argument;
      the base class passes through the message and code it is given. */
  lemma ExactCodesAndMessages(id: string, currency: string, text: string, code: string)
    ensures Code(DomainException(text, code)) == code
    ensures Message(DomainException(text, code)) == text
    ensures Name(DomainException(text, code)) == "PaymentDomainException"
    ensures Code(PaymentNotFound(id)) == "PAYMENT_NOT_FOUND"
    ensures Message(PaymentNotFound(id)) == "Payment with ID " + id + " not found"
    ensures Name(PaymentNotFound(id)) == "PaymentNotFoundException"
    ensures Code(PaymentAlreadyProcessed(id)) == "PAYMENT_ALREADY_PROCESSED"
    ensures Message(PaymentAlreadyProcessed(id)) == "Payment with ID " + id + " has already been processed"
    ensures Name(PaymentAlreadyProcessed(id)) == "PaymentAlreadyProcessedException"
    ensures Code(PaymentExpired(id)) == "PAYMENT_EXPIRED"
    ensures Message(PaymentExpired(id)) == "Payment with ID " + id + " has expired"
    ensures Name(PaymentExpired(id)) == "PaymentExpiredException"
    ensures Code(InsufficientBalance) == "INSUFFICIENT_BALANCE"
    ensures Message(InsufficientBalance) == "Insufficient balance to process payment"
    ensures Name(InsufficientBalance) == "InsufficientBalanceException"
    ensures Code(InvalidCurrency(currency)) == "INVALID_CURRENCY"
    ensures Message(InvalidCurrency(currency)) == "Invalid currency: " + currency
    ensures Name(InvalidCurrency(currency)) == "InvalidCurrencyException"
  {
  }

  /** The id-carrying messages embed the id between a fixed prefix and the
      kind's own suffix, so the id can be read back from the message. */
  lemma MessageEmbedsId(id: string)
    ensures var m := Message(PaymentNotFound(id));
            m[..16] == "Payment with ID " && m[16..|m| - 10] == id
            && m[|m| - 10..] == " not found"
    ensures var m := Message(PaymentAlreadyProcessed(id));
            m[..16] == "Payment with ID " && m[16..|m| - 27] == id
            && m[|m| - 27..] == " has already been processed"
    ensures var m := Message(PaymentExpired(id));
            m[..16] == "Payment with ID " && m[16..|m| - 12] == id
            && m[|m| - 12..] == " has expired"
    ensures var m := Message(InvalidCurrency(id));
            m[..18] == "Invalid currency: " && m[18..] == id
  {
  }

  /** Within one subclass, different arguments give different messages. */
  lemma MessageDeterminesArgument(e1: PaymentDomainException, e2: PaymentDomainException)
    requires IsSubclass(e1) && IsSubclass(e2) && SameKind(e1, e2)
    ensures Message(e1) == Message(e2) <==> e1 == e2
  {
    match e1
    case PaymentNotFound(a) =>
      MessageEmbedsId(a);
      MessageEmbedsId(e2.paymentId);
    case PaymentAlreadyProcessed(a) =>
      MessageEmbedsId(a);
      MessageEmbedsId(e2.paymentId);
    case PaymentExpired(a) =>
      MessageEmbedsId(a);
      MessageEmbedsId(e2.paymentId);
    case InvalidCurrency(a) =>
      MessageEmbedsId(a);
      MessageEmbedsId(e2.currency);
    case InsufficientBalance =>
  }
}
