/**
 * WalletService over the wallet repository.  Wallets are kept in insertion
 * order; a `findOne` returns some wallet that matches (the query has no order).  Balances are
 * whole UGX.  A new wallet's uuid is supplied by the caller (the database
 * generates it; it differs from every existing id).
 */
module Wallets {
  import opened Common

  datatype Wallet = Wallet(id: string, userId: string, phone: Option<string>, balance: int, currency: string)

  /** The fields of a `Partial<WalletEntity>` update; `None` means "not supplied". */
  datatype WalletPatch = WalletPatch(userId: Option<string>, phone: Option<Option<string>>,
                                     balance: Option<int>, currency: Option<string>)

  predicate DistinctIds(ws: seq<Wallet>)
  {
    forall i, j :: 0 <= i < j < |ws| ==> ws[i].id != ws[j].id
  }

  predicate SameIds(a: seq<Wallet>, b: seq<Wallet>)
  {
    |a| == |b| && forall k :: 0 <= k < |a| ==> a[k].id == b[k].id
  }

  function IndexOfId(ws: seq<Wallet>, id: string): Option<nat>
  {
    FirstWhere(ws, (w: Wallet) => w.id == id)
  }

  /** A wallet registered to `phone` (the `findByPhone` query). */
  function WalletByPhone(ws: seq<Wallet>, phone: string): (r: Option<Wallet>)
    ensures r.Some? ==> r.value in ws && r.value.phone == Some(phone)
    ensures r.None? ==> forall k :: 0 <= k < |ws| ==> ws[k].phone != Some(phone)
  {
    match FirstWhere(ws, (w: Wallet) => w.phone == Some(phone))
    case None => None
    case Some(i) => Some(ws[i])
  }

  /** `Object.assign(wallet, patch)`: the supplied fields are overwritten, the others kept. */
  function Patched(w: Wallet, p: WalletPatch): (r: Wallet)
    ensures r.id == w.id
    ensures r.userId == (if p.userId.Some? then p.userId.value else w.userId)
    ensures r.phone == (if p.phone.Some? then p.phone.value else w.phone)
    ensures r.balance == (if p.balance.Some? then p.balance.value else w.balance)
    ensures r.currency == (if p.currency.Some? then p.currency.value else w.currency)
  {
    Wallet(w.id,
           if p.userId.Some? then p.userId.value else w.userId,
           if p.phone.Some? then p.phone.value else w.phone,
           if p.balance.Some? then p.balance.value else w.balance,
           if p.currency.Some? then p.currency.value else w.currency)
  }

  /** An update that supplies nothing leaves the wallet as it was. */
  lemma EmptyPatchIdentity(w: Wallet)
    ensures Patched(w, WalletPatch(None, None, None, None)) == w
  {
  }

  /**
   * `updateBalance(walletId, amount)` on the table: NotFound for an unknown
   * id, otherwise the wallet's balance grows by `amount` (a delta, not a new
   * balance) and nothing else changes.
   */
  function AdjustBalance(ws: seq<Wallet>, id: string, amount: int): (r: Result<seq<Wallet>, Exception>)
    ensures r.Err? <==> forall k :: 0 <= k < |ws| ==> ws[k].id != id
    ensures r.Err? ==> r.error.NotFound?
    ensures r.Ok? ==> SameIds(ws, r.value)
    ensures r.Ok? ==> forall k :: 0 <= k < |ws| ==>
              r.value[k] == if k == IndexOfId(ws, id).value then ws[k].(balance := ws[k].balance + amount) else ws[k]
  {
    match IndexOfId(ws, id)
    case None => Err(NotFound("Wallet not found"))
    case Some(i) => Ok(ws[i := ws[i].(balance := ws[i].balance + amount)])
  }

  /** Balance updates are deltas: two in a row are the same as one by their sum. */
  lemma AdjustBalanceAdditive(ws: seq<Wallet>, id: string, a: int, b: int)
    requires AdjustBalance(ws, id, a).Ok?
    ensures AdjustBalance(AdjustBalance(ws, id, a).value, id, b) == AdjustBalance(ws, id, a + b)
  {
    var i := IndexOfId(ws, id).value;
    var once := AdjustBalance(ws, id, a).value;
    assert forall k :: 0 <= k < |ws| ==> (once[k].id == id <==> ws[k].id == id);
    assert IndexOfId(once, id) == Some(i) by {
      var j := IndexOfId(once, id);
      assert j.Some? by { assert once[i].id == id; }
      assert j.value == i;
    }
    assert once == ws[i := ws[i].(balance := ws[i].balance + a)];
    assert once[i := once[i].(balance := once[i].balance + b)] == ws[i := ws[i].(balance := ws[i].balance + (a + b))];
  }

  /** `updateWallet(walletId, patch)` on the table. */
  function PatchWallet(ws: seq<Wallet>, id: string, p: WalletPatch): (r: Result<seq<Wallet>, Exception>)
    ensures r.Err? <==> forall k :: 0 <= k < |ws| ==> ws[k].id != id
    ensures r.Err? ==> r.error.NotFound?
    ensures r.Ok? ==> SameIds(ws, r.value)
    ensures r.Ok? ==> forall k :: 0 <= k < |ws| ==>
              r.value[k] == if k == IndexOfId(ws, id).value then Patched(ws[k], p) else ws[k]
  {
    match IndexOfId(ws, id)
    case None => Err(NotFound("Wallet not found"))
    case Some(i) => Ok(ws[i := Patched(ws[i], p)])
  }

  lemma SameIdsKeepDistinct(a: seq<Wallet>, b: seq<Wallet>)
    requires DistinctIds(a) && SameIds(a, b)
    ensures DistinctIds(b)
  {
  }

  class WalletService {
    var wallets: seq<Wallet>

    ghost predicate Valid()
      reads this
    {
      DistinctIds(wallets)
    }

    constructor()
      ensures wallets == [] && Valid()
    {
      wallets := [];
    }

    function FindByUserId(userId: string): (r: Option<Wallet>)
      reads this
      ensures r.Some? ==> r.value in wallets && r.value.userId == userId
      ensures r.None? ==> forall k :: 0 <= k < |wallets| ==> wallets[k].userId != userId
    {
      match FirstWhere(wallets, (w: Wallet) => w.userId == userId)
      case None => None
      case Some(i) => Some(wallets[i])
    }

    function FindByUserIdAndCurrency(userId: string, currency: string): (r: Option<Wallet>)
      reads this
      ensures r.Some? ==> r.value in wallets && r.value.userId == userId && r.value.currency == currency
      ensures r.None? ==> forall k :: 0 <= k < |wallets| ==> !(wallets[k].userId == userId && wallets[k].currency == currency)
    {
      match FirstWhere(wallets, (w: Wallet) => w.userId == userId && w.currency == currency)
      case None => None
      case Some(i) => Some(wallets[i])
    }

    function FindByPhone(phone: string): (r: Option<Wallet>)
      reads this
      ensures r.Some? ==> r.value in wallets && r.value.phone == Some(phone)
      ensures r.None? ==> forall k :: 0 <= k < |wallets| ==> wallets[k].phone != Some(phone)
    {
      WalletByPhone(wallets, phone)
    }

    function FindById(id: string): (r: Option<Wallet>)
      reads this
      ensures r.Some? ==> r.value in wallets && r.value.id == id
      ensures r.None? ==> forall k :: 0 <= k < |wallets| ==> wallets[k].id != id
    {
      match IndexOfId(wallets, id)
      case None => None
      case Some(i) => Some(wallets[i])
    }

    /**
     * `createWallet(userId, currency = 'USD', initialBalance = 0, phone)`:
     * the user's existing wallet in that currency is returned untouched;
     * only when there is none is a new one stored.
     */
    method CreateWallet(newId: string, userId: string, currency: string := "USD",
                        initialBalance: int := 0, phone: Option<string> := None)
      returns (w: Wallet)
      requires Valid()
      requires forall k :: 0 <= k < |wallets| ==> wallets[k].id != newId
      modifies this
      ensures Valid()
      ensures w.userId == userId && w.currency == currency
      ensures old(FindByUserIdAndCurrency(userId, currency)).Some? ==>
                w == old(FindByUserIdAndCurrency(userId, currency)).value && wallets == old(wallets)
      ensures old(FindByUserIdAndCurrency(userId, currency)).None? ==>
                w == Wallet(newId, userId, phone, initialBalance, currency) && wallets == old(wallets) + [w]
    {
      var existing := FindByUserIdAndCurrency(userId, currency);
      if existing.Some? {
        return existing.value;
      }
      w := Wallet(newId, userId, phone, initialBalance, currency);
      wallets := wallets + [w];
    }

    method UpdateWallet(walletId: string, patch: WalletPatch) returns (r: Result<Wallet, Exception>)
      requires Valid()
      modifies this
      ensures Valid()
      ensures var next := PatchWallet(old(wallets), walletId, patch);
              (r.Err? <==> next.Err?) && (next.Err? ==> r.error == next.error && wallets == old(wallets))
                && (next.Ok? ==> wallets == next.value)
      ensures r.Ok? ==> r.value == Patched(old(FindById(walletId)).value, patch)
    {
      var next := PatchWallet(wallets, walletId, patch);
      if next.Err? {
        return Err(next.error);
      }
      var i := IndexOfId(wallets, walletId).value;
      SameIdsKeepDistinct(wallets, next.value);
      wallets := next.value;
      r := Ok(wallets[i]);
    }

    method UpdateBalance(walletId: string, amount: int) returns (r: Result<Wallet, Exception>)
      requires Valid()
      modifies this
      ensures Valid()
      ensures var next := AdjustBalance(old(wallets), walletId, amount);
              (r.Err? <==> next.Err?) && (next.Err? ==> r.error == next.error && wallets == old(wallets))
                && (next.Ok? ==> wallets == next.value)
      ensures r.Ok? ==> r.value.id == walletId && r.value.balance == old(FindById(walletId)).value.balance + amount
    {
      var next := AdjustBalance(wallets, walletId, amount);
      if next.Err? {
        return Err(next.error);
      }
      var i := IndexOfId(wallets, walletId).value;
      SameIdsKeepDistinct(wallets, next.value);
      wallets := next.value;
      r := Ok(wallets[i]);
    }
  }
}
