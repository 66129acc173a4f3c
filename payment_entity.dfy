/** The Payment entity with its status predicates, and the two closed
    enumerations PaymentStatus and Currency. */
module PaymentEntity {
  import opened Wrappers

  /** Milliseconds since the epoch; `new Date()` comparisons compare these. */
  type Timestamp = int

  datatype PaymentStatus = Pending | Completed | Failed | Cancelled | Expired

  datatype Currency = USD | LBP | AED

  /** The string value of each PaymentStatus member. */
  function StatusValue(s: PaymentStatus): (v: string)
    ensures v != ""
    ensures forall i :: 0 <= i < |v| ==> 'a' <= v[i] <= 'z'
  {
    match s
    case Pending => "pending"
    case Completed => "completed"
    case Failed => "failed"
    case Cancelled => "cancelled"
    case Expired => "expired"
  }

  /** The string value of each Currency member, the ISO code sent on the wire. */
  function CurrencyCode(c: Currency): (code: string)
    ensures |code| == 3
  {
    match c
    case USD => "USD"
    case LBP => "LBP"
    case AED => "AED"
  }

  /** The member of Currency whose value is `s`, if any. */
  function ParseCurrency(s: string): (r: Option<Currency>)
    ensures r.Some? ==> CurrencyCode(r.value) == s
  {
    if s == "USD" then Some(USD)
    else if s == "LBP" then Some(LBP)
    else if s == "AED" then Some(AED)
    else None
  }

  /** Currency is closed: exactly the three codes name a member, and every
      member is named by its own code. */
  lemma CurrencyIsClosed(s: string, c: Currency)
    ensures ParseCurrency(s).Some? <==> s == "USD" || s == "LBP" || s == "AED"
    ensures ParseCurrency(CurrencyCode(c)) == Some(c)
    ensures CurrencyCode(USD) == "USD" && CurrencyCode(LBP) == "LBP" && CurrencyCode(AED) == "AED"
  {
  }

  lemma StatusValuesDistinct(s: PaymentStatus, t: PaymentStatus)
    ensures StatusValue(s) == StatusValue(t) <==> s == t
    ensures StatusValue(Pending) == "pending" && StatusValue(Completed) == "completed"
    ensures StatusValue(Failed) == "failed" && StatusValue(Cancelled) == "cancelled"
    ensures StatusValue(Expired) == "expired"
  {
  }

  datatype Payment = Payment(
    id: string,
    amount: int,
    currency: Currency,
    status: PaymentStatus,
    paymentUrl: string,
    merchantReference: string,
    createdAt: Timestamp,
    expiresAt: Option<Timestamp>)

  /** `now` stands for `new Date()`. */
  predicate IsExpired(p: Payment, now: Timestamp): (r: bool)
    ensures r ==> p.expiresAt.Some? && p.expiresAt.value < now
    ensures p.expiresAt.Some? && p.expiresAt.value < now ==> r
  {
    if p.expiresAt.None? then false else now > p.expiresAt.value
  }

  predicate IsPending(p: Payment): (r: bool)
    ensures r <==> StatusValue(p.status) == "pending"
  {
    p.status == Pending
  }

  predicate IsCompleted(p: Payment): (r: bool)
    ensures r <==> StatusValue(p.status) == "completed"
  {
    p.status == Completed
  }

  predicate IsFailed(p: Payment): (r: bool)
    ensures r <==> StatusValue(p.status) == "failed"
  {
    p.status == Failed
  }

  /** A payment without an expiry never expires; one with an expiry is expired
      exactly after that instant, and stays expired as time goes on. */
  lemma IsExpiredCharacterised(p: Payment, now: Timestamp, later: Timestamp)
    ensures p.expiresAt.None? ==> !IsExpired(p, now)
    ensures p.expiresAt.Some? ==> (IsExpired(p, now) <==> now > p.expiresAt.value)
    ensures IsExpired(p, now) && now <= later ==> IsExpired(p, later)
  {
  }

  /** Each status predicate holds for exactly its own status, so at most one
      holds, and none holds for a cancelled or expired payment. */
  lemma StatusPredicatesExclusive(p: Payment)
    ensures IsPending(p) <==> p.status == Pending
    ensures IsCompleted(p) <==> p.status == Completed
    ensures IsFailed(p) <==> p.status == Failed
    ensures !(IsPending(p) && IsCompleted(p))
    ensures !(IsPending(p) && IsFailed(p))
    ensures !(IsCompleted(p) && IsFailed(p))
    ensures p.status in {Cancelled, Expired} ==> !IsPending(p) && !IsCompleted(p) && !IsFailed(p)
  {
  }
}
