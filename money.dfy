/** Money: an immutable amount in one currency. Amounts are whole numbers;
    a negative amount cannot be represented, and arithmetic never mixes
    currencies. */
module MoneyValue {
  import opened Wrappers
  import opened PaymentEntity
  import JsValues

  /** The private constructor's check is the `nat` type of `amount`. */
  datatype Money = Money(amount: nat, currency: Currency)

  /** The two `Error`s that Money throws. */
  datatype MoneyError = NegativeAmount | CurrencyMismatch

  function ErrorMessage(e: MoneyError): (m: string)
    ensures m != ""
  {
    match e
    case NegativeAmount => "Amount cannot be negative"
    case CurrencyMismatch => "Cannot perform operation on different currencies"
  }

  /** The exact text of each thrown error; the two texts differ, so the
      message tells which check failed. */
  lemma ErrorMessageTexts(e1: MoneyError, e2: MoneyError)
    ensures ErrorMessage(NegativeAmount) == "Amount cannot be negative"
    ensures ErrorMessage(CurrencyMismatch) == "Cannot perform operation on different currencies"
    ensures ErrorMessage(e1) == ErrorMessage(e2) <==> e1 == e2
  {
  }

  /** `Money.create`, through the private constructor that rejects negative amounts. */
  function Create(amount: int, currency: Currency): (r: Result<Money, MoneyError>)
    ensures r.Success? <==> amount >= 0
    ensures r.Success? ==> r.value.amount == amount && r.value.currency == currency
    ensures r.Failure? ==> r.error == NegativeAmount
  {
    if amount < 0 then Failure(NegativeAmount) else Success(Money(amount, currency))
  }

  /** `ensureSameCurrency`: passes exactly when the currencies agree. */
  function EnsureSameCurrency(a: Money, b: Money): (r: Result<(), MoneyError>)
    ensures r.Success? <==> a.currency == b.currency
    ensures r.Failure? ==> r.error == CurrencyMismatch
  {
    if a.currency != b.currency then Failure(CurrencyMismatch) else Success(())
  }

  function Add(a: Money, b: Money): (r: Result<Money, MoneyError>)
    ensures r.Success? <==> a.currency == b.currency
    ensures r.Success? ==> r.value.amount == a.amount + b.amount && r.value.currency == a.currency
    ensures r.Failure? ==> r.error == CurrencyMismatch
  {
    match EnsureSameCurrency(a, b)
    case Failure(e) => Failure(e)
    case Success(_) => Create(a.amount + b.amount, a.currency)
  }

  /** The currency check comes first, so a mismatch is reported even when the
      difference would also be negative. */
  function Subtract(a: Money, b: Money): (r: Result<Money, MoneyError>)
    ensures a.currency != b.currency ==> r == Failure(CurrencyMismatch)
    ensures a.currency == b.currency && b.amount > a.amount ==> r == Failure(NegativeAmount)
    ensures a.currency == b.currency && b.amount <= a.amount ==>
              r.Success? && r.value.amount == a.amount - b.amount && r.value.currency == a.currency
  {
    match EnsureSameCurrency(a, b)
    case Failure(e) => Failure(e)
    case Success(_) => Create(a.amount - b.amount, a.currency)
  }

  function Equals(a: Money, b: Money): (r: bool)
    ensures r <==> a == b
  {
    a.amount == b.amount && a.currency == b.currency
  }

  /** `${amount} ${currency}`. */
  function ToString(m: Money): (s: string)
    ensures |s| >= 5
    ensures s[|s| - 4..] == " " + CurrencyCode(m.currency)
    ensures JsValues.AllDigits(s[..|s| - 4])
    ensures JsValues.ParseNat(s[..|s| - 4]) == m.amount
    ensures s[0] == '0' ==> m.amount == 0 && |s| == 5
  {
    var digits := JsValues.NatToString(m.amount);
    var s := digits + " " + CurrencyCode(m.currency);
    assert s[..|s| - 4] == digits;
    JsValues.ParseNatToString(m.amount);
    s
  }

  /** Both sides fail with CurrencyMismatch when the currencies differ. */
  lemma AddCommutative(a: Money, b: Money)
    ensures Add(a, b) == Add(b, a)
  {
  }

  lemma AddAssociative(a: Money, b: Money, c: Money)
    requires a.currency == b.currency == c.currency
    ensures Add(a, b).Success? && Add(b, c).Success?
    ensures Add(Add(a, b).value, c) == Add(a, Add(b, c).value)
  {
  }

  /** Subtracting what was added gives back the original amount, and adding
      back what was subtracted restores it. */
  lemma AddSubtractInverse(a: Money, b: Money)
    requires a.currency == b.currency
    ensures Subtract(Add(a, b).value, b) == Success(a)
    ensures Subtract(a, b).Success? ==> Add(Subtract(a, b).value, b) == Success(a)
  {
  }

  /** Equals is an equivalence relation. */
  lemma EqualsIsEquivalence(a: Money, b: Money, c: Money)
    ensures Equals(a, a)
    ensures Equals(a, b) == Equals(b, a)
    ensures Equals(a, b) && Equals(b, c) ==> Equals(a, c)
  {
  }

  /** Two amounts print the same only when they are equal. */
  lemma ToStringInjective(a: Money, b: Money)
    ensures ToString(a) == ToString(b) ==> a == b
  {
    if ToString(a) == ToString(b) {
      var s := ToString(a);
      assert s[..|s| - 4] == JsValues.NatToString(a.amount);
      assert s[..|s| - 4] == JsValues.NatToString(b.amount);
      JsValues.NatToStringInjective(a.amount, b.amount);
      CurrencyIsClosed(CurrencyCode(a.currency), a.currency);
      CurrencyIsClosed(CurrencyCode(b.currency), b.currency);
      assert s[|s| - 3..] == CurrencyCode(a.currency) == CurrencyCode(b.currency);
    }
  }
}
