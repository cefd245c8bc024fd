/**
 * RevenueService.split: move a collected total out of escrow into the
 * reseller's and the platform's wallets, as three ledger posts under one
 * reference.  Nothing checks that the two shares add up to the total.
 */
module Revenue {
  import opened Ledger

  /** The three entries a completed split posts, in order. */
  function SplitEntries(escrow: string, reseller: string, platform: string,
                        total: int, resellerShare: int, platformShare: int, reference: string): seq<Entry>
  {
    [Entry(escrow, total, Debit, reference),
     Entry(reseller, resellerShare, Credit, reference),
     Entry(platform, platformShare, Credit, reference)]
  }

  /** A completed split changes the books by the shares minus the total. */
  lemma SplitNetEffect(history: seq<Entry>, escrow: string, reseller: string, platform: string,
                       total: int, resellerShare: int, platformShare: int, reference: string)
    ensures SignedSum(history + SplitEntries(escrow, reseller, platform, total, resellerShare, platformShare, reference))
            == SignedSum(history) + resellerShare + platformShare - total
  {
    var s := SplitEntries(escrow, reseller, platform, total, resellerShare, platformShare, reference);
    SignedSumAppend(history, s);
    assert s[..2][..1] == [s[0]] && s[..2] == [s[0], s[1]] && [s[0]][..0] == [];
    assert SignedSum([s[0]]) == -total;
    assert SignedSum(s[..2]) == resellerShare - total;
  }

  /** A split keeps the books balanced exactly when the shares add up to the total. */
  lemma SplitBalancedIff(history: seq<Entry>, escrow: string, reseller: string, platform: string,
                         total: int, resellerShare: int, platformShare: int, reference: string)
    ensures SignedSum(history + SplitEntries(escrow, reseller, platform, total, resellerShare, platformShare, reference))
            == SignedSum(history)
            <==> resellerShare + platformShare == total
  {
    SplitNetEffect(history, escrow, reseller, platform, total, resellerShare, platformShare, reference);
  }

  class RevenueService {
    const ledger: LedgerService

    constructor(ledger: LedgerService)
      ensures this.ledger == ledger
    {
      this.ledger := ledger;
    }

    /**
     * Posts the escrow debit, the reseller credit and the platform credit in
     * that order; `saves` says which repository saves succeed.  The first
     * failure raises and the posts before it stay.
     */
    method Split(escrow: string, reseller: string, platform: string,
                 total: int, resellerShare: int, platformShare: int, reference: string,
                 debitSaved: bool, resellerSaved: bool, platformSaved: bool)
      returns (ok: bool)
      modifies ledger
      ensures ok == (debitSaved && resellerSaved && platformSaved)
      ensures var posted := if !debitSaved then 0 else if !resellerSaved then 1 else if !platformSaved then 2 else 3;
              ledger.history == old(ledger.history)
                + SplitEntries(escrow, reseller, platform, total, resellerShare, platformShare, reference)[..posted]
    {
      var s := SplitEntries(escrow, reseller, platform, total, resellerShare, platformShare, reference);
      ok := ledger.PostEntry(escrow, total, Debit, reference, debitSaved);
      if !ok {
        assert s[..0] == [];
        return;
      }
      ok := ledger.PostEntry(reseller, resellerShare, Credit, reference, resellerSaved);
      if !ok {
        assert s[..1] == [s[0]];
        return;
      }
      ok := ledger.PostEntry(platform, platformShare, Credit, reference, platformSaved);
      if !ok {
        assert s[..2] == [s[0], s[1]];
      } else {
        assert s[..3] == s;
      }
    }
  }
}
