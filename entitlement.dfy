/**
 * The price list that turns a paid amount (whole UGX) into the validity of
 * the voucher it buys, in seconds.  The same allow-list and the same switch
 * appear in the Airtel callback, the iotec collection callback and the Pesa
 * SMS parser; this module is the one definition all three use.
 */
module Entitlement {
  import opened Common

  /** The prices a voucher can be bought for. */
  const AcceptedAmounts: set<int> := {1000, 2500, 5000, 9000, 18000}

  /** The allow-list test, written as the chain of inequalities the callers use. */
  predicate IsAcceptedAmount(amount: int)
  {
    !(amount != 1000 && amount != 2500 && amount != 5000 && amount != 9000 && amount != 18000)
  }

  /**
   * The `switch` on the amount: `expiry` starts at 0 and only the listed
   * cases set it.  The 20000 case is unreachable behind the allow-list, and
   * 18000 has no case, so an accepted 18000 payment keeps expiry 0.
   */
  function SwitchExpiry(amount: int): int
  {
    if amount == 1000 then 8640 * 24
    else if amount == 2500 then 8640 * (24 * 3)
    else if amount == 5000 then 8640 * (24 * 7)
    else if amount == 9000 then 8640 * (24 * 14)
    else if amount == 20000 then 8640 * (24 * 30)
    else 0
  }

  /** The voucher validity an accepted amount buys, or nothing for an amount off the list. */
  function AmountToExpiry(amount: int): (r: Option<int>)
    ensures r.Some? <==> amount in AcceptedAmounts
    ensures r.Some? ==> r.value >= 0
    ensures r == Some(0) <==> amount == 18000
  {
    if IsAcceptedAmount(amount) then Some(SwitchExpiry(amount)) else None
  }

  /** The concrete price list. */
  lemma ExpiryTable()
    ensures AmountToExpiry(1000) == Some(207360)
    ensures AmountToExpiry(2500) == Some(622080)
    ensures AmountToExpiry(5000) == Some(1451520)
    ensures AmountToExpiry(9000) == Some(2903040)
    ensures AmountToExpiry(18000) == Some(0)
    ensures AmountToExpiry(20000) == None
  {
  }

  /** Among the amounts that buy a positive validity, a higher price buys a longer one. */
  lemma ExpiryMonotone(a: int, b: int)
    requires a in AcceptedAmounts && b in AcceptedAmounts
    requires a != 18000 && b != 18000
    requires a < b
    ensures 0 < AmountToExpiry(a).value < AmountToExpiry(b).value
  {
  }

  /** The `case 20000` branch of the switch cannot be reached by an accepted amount. */
  lemma TwentyThousandUnreachable(amount: int)
    requires IsAcceptedAmount(amount)
    ensures amount != 20000
  {
  }
}
