/**
 * WithdrawalService over the withdrawal repository.  Withdrawals are kept
 * in insertion order; list queries return the newest first.  A new
 * withdrawal's uuid is supplied by the caller (the database generates it).
 */
module Withdrawals {
  import opened Common

  datatype WithdrawalStatus = Requested | Approved | Paid | Rejected

  datatype Withdrawal = Withdrawal(id: string, userId: string, amount: int, destination: string, status: WithdrawalStatus)

  predicate DistinctIds(ws: seq<Withdrawal>)
  {
    forall i, j :: 0 <= i < j < |ws| ==> ws[i].id != ws[j].id
  }

  function IndexOfId(ws: seq<Withdrawal>, id: string): Option<nat>
  {
    FirstWhere(ws, (w: Withdrawal) => w.id == id)
  }

  /**
   * `updateStatus(id, status)` on the table: NotFound for an unknown id,
   * otherwise that withdrawal takes the new status and nothing else changes.
   */
  function SetStatus(ws: seq<Withdrawal>, id: string, status: WithdrawalStatus): (r: Result<seq<Withdrawal>, Exception>)
    ensures r.Err? <==> forall k :: 0 <= k < |ws| ==> ws[k].id != id
    ensures r.Err? ==> r.error.NotFound?
    ensures r.Ok? ==> |r.value| == |ws|
    ensures r.Ok? ==> forall k :: 0 <= k < |ws| ==>
              r.value[k] == if k == IndexOfId(ws, id).value then ws[k].(status := status) else ws[k]
    ensures DistinctIds(ws) && r.Ok? ==> DistinctIds(r.value)
  {
    match IndexOfId(ws, id)
    case None => Err(NotFound("Withdrawal not found"))
    case Some(i) =>
      Ok(ws[i := ws[i].(status := status)])
  }

  /**
   * No transition is checked: any status can replace any other, so a PAID
   * withdrawal can be moved back to REQUESTED.
   */
  lemma AnyTransitionAccepted(ws: seq<Withdrawal>, k: nat, status: WithdrawalStatus)
    requires DistinctIds(ws) && k < |ws|
    ensures SetStatus(ws, ws[k].id, status).Ok?
    ensures SetStatus(ws, ws[k].id, status).value[k].status == status
  {
  }

  class WithdrawalService {
    var withdrawals: seq<Withdrawal>

    ghost predicate Valid()
      reads this
    {
      DistinctIds(withdrawals)
    }

    constructor()
      ensures withdrawals == [] && Valid()
    {
      withdrawals := [];
    }

    /** `createWithdrawal(userId, amount, destination, status = REQUESTED)` */
    method CreateWithdrawal(newId: string, userId: string, amount: int, destination: string,
                            status: WithdrawalStatus := Requested)
      returns (w: Withdrawal)
      requires Valid()
      requires forall k :: 0 <= k < |withdrawals| ==> withdrawals[k].id != newId
      modifies this
      ensures Valid()
      ensures w == Withdrawal(newId, userId, amount, destination, status)
      ensures withdrawals == old(withdrawals) + [w]
    {
      w := Withdrawal(newId, userId, amount, destination, status);
      withdrawals := withdrawals + [w];
    }

    /** `findByUserId` and `getWithdrawalsByUserId`: the user's withdrawals, newest first. */
    function FindByUserId(userId: string): (r: seq<Withdrawal>)
      reads this
      ensures forall w :: w in r <==> w in withdrawals && w.userId == userId
    {
      NewestFirstWhere(withdrawals, (w: Withdrawal) => w.userId == userId)
    }

    /** `findByStatus`: the withdrawals in one status, newest first. */
    function FindByStatus(status: WithdrawalStatus): (r: seq<Withdrawal>)
      reads this
      ensures forall w :: w in r <==> w in withdrawals && w.status == status
    {
      NewestFirstWhere(withdrawals, (w: Withdrawal) => w.status == status)
    }

    function FindById(id: string): (r: Option<Withdrawal>)
      reads this
      ensures r.Some? ==> r.value in withdrawals && r.value.id == id
      ensures r.None? ==> forall k :: 0 <= k < |withdrawals| ==> withdrawals[k].id != id
    {
      match IndexOfId(withdrawals, id)
      case None => None
      case Some(i) => Some(withdrawals[i])
    }

    method UpdateStatus(id: string, status: WithdrawalStatus) returns (r: Result<Withdrawal, Exception>)
      requires Valid()
      modifies this
      ensures Valid()
      ensures var next := SetStatus(old(withdrawals), id, status);
              (r.Err? <==> next.Err?) && (next.Err? ==> r.error == next.error && withdrawals == old(withdrawals))
                && (next.Ok? ==> withdrawals == next.value)
      ensures r.Ok? ==> r.value == old(FindById(id)).value.(status := status)
    {
      var next := SetStatus(withdrawals, id, status);
      if next.Err? {
        return Err(next.error);
      }
      var i := IndexOfId(withdrawals, id).value;
      withdrawals := next.value;
      r := Ok(withdrawals[i]);
    }
  }
}
