/**
 * PlatformRevenueRepository: the single running total of the platform's
 * fees.  The row is created with zeros on first use; every `addRevenue`
 * remembers the previous total, adds the amount and counts the transaction.
 */
module PlatformRevenueStore {
  import opened Common

  datatype Revenue = Revenue(currentRevenue: int, lastRevenue: int, totalTransactions: int)

  const Zero: Revenue := Revenue(0, 0, 0)

  /** One `addRevenue(amount)` applied to the row. */
  function Added(r: Revenue, amount: int): (s: Revenue)
    ensures s.lastRevenue == r.currentRevenue
    ensures s.currentRevenue - s.lastRevenue == amount
    ensures s.totalTransactions == r.totalTransactions + 1
  {
    Revenue(r.currentRevenue + amount, r.currentRevenue, r.totalTransactions + 1)
  }

  function Sum(amounts: seq<int>): int
  {
    if |amounts| == 0 then 0 else Sum(amounts[..|amounts| - 1]) + amounts[|amounts| - 1]
  }

  /** The row after a series of `addRevenue` calls, in order. */
  function AddedAll(r: Revenue, amounts: seq<int>): Revenue
  {
    if |amounts| == 0 then r else Added(AddedAll(r, amounts[..|amounts| - 1]), amounts[|amounts| - 1])
  }

  /**
   * After any series of fees the total is the sum of the fees, the counter is
   * the number of fees, and `lastRevenue` is the total before the last one.
   */
  lemma {:induction false} AddedAllAccumulates(r: Revenue, amounts: seq<int>)
    ensures AddedAll(r, amounts).currentRevenue == r.currentRevenue + Sum(amounts)
    ensures AddedAll(r, amounts).totalTransactions == r.totalTransactions + |amounts|
    ensures |amounts| > 0 ==> AddedAll(r, amounts).lastRevenue == r.currentRevenue + Sum(amounts[..|amounts| - 1])
    decreases |amounts|
  {
    if |amounts| > 0 {
      AddedAllAccumulates(r, amounts[..|amounts| - 1]);
    }
  }

  class PlatformRevenueRepository {
    /** The revenue row, once created. */
    var row: Option<Revenue>

    constructor()
      ensures row == None
    {
      row := None;
    }

    /** `getOrCreate`: the stored row, or a new all-zero one that is stored. */
    method GetOrCreate() returns (r: Revenue)
      modifies this
      ensures old(row).Some? ==> r == old(row).value && row == old(row)
      ensures old(row).None? ==> r == Zero && row == Some(Zero)
    {
      if row.None? {
        row := Some(Zero);
      }
      r := row.value;
    }

    method AddRevenue(amount: int) returns (r: Revenue)
      modifies this
      ensures r == Added(if old(row).Some? then old(row).value else Zero, amount)
      ensures row == Some(r)
    {
      var current := GetOrCreate();
      r := Added(current, amount);
      row := Some(r);
    }

    method GetCurrentRevenue() returns (total: int)
      modifies this
      ensures total == (if old(row).Some? then old(row).value.currentRevenue else 0)
      ensures row == (if old(row).Some? then old(row) else Some(Zero))
    {
      var current := GetOrCreate();
      total := current.currentRevenue;
    }
  }
}
