/** FraudService: the single-transaction amount ceiling. */
module Fraud {
  import opened Common

  const MaxAmount: int := 500000

  /**
   * `check(dto)`: an amount above 500000 is refused with Forbidden; anything
   * else, an absent amount included (`undefined > 500000` is false), passes.
   */
  function Check(amount: Option<int>): (r: Result<bool, Exception>)
    ensures r.Err? <==> amount.Some? && amount.value > MaxAmount
    ensures r.Err? ==> r.error.Forbidden?
    ensures r.Ok? ==> r.value
  {
    if amount.Some? && amount.value > MaxAmount then Err(Forbidden("Amount too large")) else Ok(true)
  }
}
