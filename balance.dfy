/** Balance: a read-only account snapshot with a derived total. */
module BalanceEntity {

  /** All fields are fixed when the value is built; `lastUpdated` is in
      milliseconds since the epoch. */
  datatype Balance = Balance(available: int, pending: int, currency: string, lastUpdated: int)

  /** The `total` getter: derived, never stored. */
  function Total(b: Balance): (t: int)
    ensures t == b.available + b.pending
  {
    b.available + b.pending
  }

  predicate HasAvailableFunds(b: Balance, amount: int): (r: bool)
    ensures r <==> amount <= b.available
    ensures r && b.pending >= 0 ==> amount <= Total(b)
  {
    b.available >= amount
  }

  /** The funds check looks at `available` only: it holds exactly up to that
      amount, it is monotone, pending funds never count, and with no negative
      pending the total covers whatever is available. */
  lemma HasAvailableFundsProperties(b: Balance, c: Balance, x: int, y: int)
    ensures HasAvailableFunds(b, x) <==> x <= b.available
    ensures HasAvailableFunds(b, x) && y <= x ==> HasAvailableFunds(b, y)
    ensures b.available == c.available ==> (HasAvailableFunds(b, x) <==> HasAvailableFunds(c, x))
    ensures HasAvailableFunds(b, x) && b.pending >= 0 ==> Total(b) >= x
  {
  }
}
