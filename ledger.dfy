/**
 * The double-entry ledger (LedgerService).  Every movement of money is an
 * append-only entry; a transfer is a DEBIT on the source wallet followed by
 * a CREDIT on the destination wallet under one reference.  The two posts
 * are separate repository saves: when the second one fails the first stays.
 */
module Ledger {

  datatype Direction = Debit | Credit

  datatype Entry = Entry(walletId: string, amount: int, direction: Direction, reference: string)

  /** The effect of an entry on the books: credits add, debits subtract. */
  function Signed(e: Entry): int
  {
    if e.direction == Credit then e.amount else -e.amount
  }

  function SignedSum(es: seq<Entry>): int
  {
    if |es| == 0 then 0 else SignedSum(es[..|es| - 1]) + Signed(es[|es| - 1])
  }

  /** The net movement on one wallet. */
  function WalletSum(es: seq<Entry>, walletId: string): int
  {
    if |es| == 0 then 0
    else WalletSum(es[..|es| - 1], walletId)
         + (if es[|es| - 1].walletId == walletId then Signed(es[|es| - 1]) else 0)
  }

  /** The entries posted under one reference, in posting order. */
  function WithReference(es: seq<Entry>, reference: string): (r: seq<Entry>)
    ensures |r| <= |es|
    ensures forall e :: e in r <==> e in es && e.reference == reference
  {
    if |es| == 0 then []
    else
      var rest := WithReference(es[..|es| - 1], reference);
      assert forall e :: e in es <==> e in es[..|es| - 1] || e == es[|es| - 1];
      if es[|es| - 1].reference == reference then rest + [es[|es| - 1]] else rest
  }

  lemma {:induction false} SignedSumAppend(a: seq<Entry>, b: seq<Entry>)
    ensures SignedSum(a + b) == SignedSum(a) + SignedSum(b)
    decreases |b|
  {
    if |b| > 0 {
      assert (a + b)[..|a + b| - 1] == a + b[..|b| - 1];
      SignedSumAppend(a, b[..|b| - 1]);
    } else {
      assert a + b == a;
    }
  }

  lemma {:induction false} WalletSumAppend(a: seq<Entry>, b: seq<Entry>, walletId: string)
    ensures WalletSum(a + b, walletId) == WalletSum(a, walletId) + WalletSum(b, walletId)
    decreases |b|
  {
    if |b| > 0 {
      assert (a + b)[..|a + b| - 1] == a + b[..|b| - 1];
      WalletSumAppend(a, b[..|b| - 1], walletId);
    } else {
      assert a + b == a;
    }
  }

  lemma {:induction false} WithReferenceAppend(a: seq<Entry>, b: seq<Entry>, reference: string)
    ensures WithReference(a + b, reference) == WithReference(a, reference) + WithReference(b, reference)
    decreases |b|
  {
    if |b| > 0 {
      assert (a + b)[..|a + b| - 1] == a + b[..|b| - 1];
      WithReferenceAppend(a, b[..|b| - 1], reference);
    } else {
      assert a + b == a;
    }
  }

  /** The two entries a completed transfer posts, in order. */
  function TransferEntries(from: string, to: string, amount: int, reference: string): seq<Entry>
  {
    [Entry(from, amount, Debit, reference), Entry(to, amount, Credit, reference)]
  }

  /** A completed transfer is balanced: it leaves the sum over all entries unchanged. */
  lemma TransferBalanced(history: seq<Entry>, from: string, to: string, amount: int, reference: string)
    ensures SignedSum(history + TransferEntries(from, to, amount, reference)) == SignedSum(history)
  {
    var t := TransferEntries(from, to, amount, reference);
    SignedSumAppend(history, t);
    assert t[..1] == [t[0]] && [t[0]][..0] == [];
    assert SignedSum([t[0]]) == -amount;
  }

  /**
   * A completed transfer moves `amount` out of the source wallet and into the
   * destination wallet, and leaves every other wallet alone.
   */
  lemma TransferMovesMoney(history: seq<Entry>, from: string, to: string, amount: int, reference: string, w: string)
    requires from != to
    ensures WalletSum(history + TransferEntries(from, to, amount, reference), w)
            == WalletSum(history, w) + (if w == from then -amount else if w == to then amount else 0)
  {
    var t := TransferEntries(from, to, amount, reference);
    WalletSumAppend(history, t, w);
    assert t[..1] == [t[0]] && [t[0]][..0] == [];
    assert WalletSum(t, w) == WalletSum([t[0]], w) + (if w == to then amount else 0);
  }

  /**
   * A completed transfer adds exactly its two entries, debit first, to the
   * entries filed under its reference.
   */
  lemma TransferFilesTwoEntries(history: seq<Entry>, from: string, to: string, amount: int, reference: string)
    ensures WithReference(history + TransferEntries(from, to, amount, reference), reference)
            == WithReference(history, reference) + TransferEntries(from, to, amount, reference)
  {
    var t := TransferEntries(from, to, amount, reference);
    WithReferenceAppend(history, t, reference);
    assert t[..1] == [t[0]];
    assert [t[0]][..0] == [];
  }

  /** A transfer whose credit was never saved leaves the books short by the amount. */
  lemma HalfTransferUnbalanced(history: seq<Entry>, from: string, amount: int, reference: string)
    ensures SignedSum(history + [Entry(from, amount, Debit, reference)]) == SignedSum(history) - amount
  {
    SignedSumAppend(history, [Entry(from, amount, Debit, reference)]);
    assert [Entry(from, amount, Debit, reference)][..0] == [];
  }

  class LedgerService {
    var history: seq<Entry>

    constructor()
      ensures history == []
    {
      history := [];
    }

    /**
     * Appends one entry; `saved` is whether the repository save succeeds.
     * A failed save raises and posts nothing.
     */
    method PostEntry(walletId: string, amount: int, direction: Direction, reference: string, saved: bool)
      returns (ok: bool)
      modifies this
      ensures ok == saved
      ensures ok ==> history == old(history) + [Entry(walletId, amount, direction, reference)]
      ensures !ok ==> history == old(history)
    {
      ok := saved;
      if saved {
        history := history + [Entry(walletId, amount, direction, reference)];
      }
    }

    /**
     * DEBIT `from`, then CREDIT `to`, under one reference.  The credit is
     * attempted only when the debit was saved, and a failed credit does not
     * undo the debit.
     */
    method Transfer(from: string, to: string, amount: int, reference: string, debitSaved: bool, creditSaved: bool)
      returns (ok: bool)
      modifies this
      ensures ok == (debitSaved && creditSaved)
      ensures ok ==> history == old(history) + TransferEntries(from, to, amount, reference)
      ensures debitSaved && !creditSaved ==> history == old(history) + [Entry(from, amount, Debit, reference)]
      ensures !debitSaved ==> history == old(history)
    {
      ok := PostEntry(from, amount, Debit, reference, debitSaved);
      if !ok {
        return;
      }
      ok := PostEntry(to, amount, Credit, reference, creditSaved);
    }
  }
}
