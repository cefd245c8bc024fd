/**
 * PaymentService over the payment repository.  `reference` is the
 * idempotency key: creating a payment whose reference is already stored
 * returns the stored one.  A new payment's uuid is supplied by the caller.
 */
module Payments {
  import opened Common

  datatype PaymentType = Collection | Payout

  datatype PaymentStatus = Pending | Success | Failed

  /** A raw provider response, kept as opaque JSON text. */
  type Json = string

  datatype Payment = Payment(id: string, userId: string, reference: string, kind: PaymentType, amount: int,
                             provider: string, rawResponse: Option<Json>, status: PaymentStatus)

  predicate DistinctIds(ps: seq<Payment>)
  {
    forall i, j :: 0 <= i < j < |ps| ==> ps[i].id != ps[j].id
  }

  /** The `unique` constraint on the reference column. */
  predicate UniqueReferences(ps: seq<Payment>)
  {
    forall i, j :: 0 <= i < j < |ps| ==> ps[i].reference != ps[j].reference
  }

  function IndexOfId(ps: seq<Payment>, id: string): Option<nat>
  {
    FirstWhere(ps, (p: Payment) => p.id == id)
  }

  function IndexOfReference(ps: seq<Payment>, reference: string): Option<nat>
  {
    FirstWhere(ps, (p: Payment) => p.reference == reference)
  }

  /** `createPayment` on the table: keep the table when the reference is known, else append the new payment. */
  function CreatePaymentRows(ps: seq<Payment>, newId: string, userId: string, reference: string, kind: PaymentType,
                             amount: int, provider: string, rawResponse: Option<Json>, status: PaymentStatus)
    : (r: seq<Payment>)
    ensures (exists k :: 0 <= k < |ps| && ps[k].reference == reference) ==> r == ps
    ensures (forall k :: 0 <= k < |ps| ==> ps[k].reference != reference) ==>
              r == ps + [Payment(newId, userId, reference, kind, amount, provider, rawResponse, status)]
    ensures UniqueReferences(ps) ==> UniqueReferences(r)
    ensures exists k :: 0 <= k < |r| && r[k].reference == reference
  {
    if IndexOfReference(ps, reference).Some? then ps
    else
      var r := ps + [Payment(newId, userId, reference, kind, amount, provider, rawResponse, status)];
      assert r[|ps|].reference == reference;
      r
  }

  /** Creating the same payment twice stores it once, whatever uuid the second attempt would get. */
  lemma CreatePaymentIdempotent(ps: seq<Payment>, id1: string, id2: string, userId: string, reference: string,
                                kind: PaymentType, amount: int, provider: string, rawResponse: Option<Json>,
                                status: PaymentStatus)
    ensures var once := CreatePaymentRows(ps, id1, userId, reference, kind, amount, provider, rawResponse, status);
            CreatePaymentRows(once, id2, userId, reference, kind, amount, provider, rawResponse, status) == once
  {
  }

  /**
   * `updateStatus(id, status, rawResponse?)` on the table: NotFound for an
   * unknown id; otherwise the status is set and the stored response is
   * replaced only by a truthy new one.
   */
  function SetPaymentStatus(ps: seq<Payment>, id: string, status: PaymentStatus, rawResponse: Option<Json>)
    : (r: Result<seq<Payment>, Exception>)
    ensures r.Err? <==> forall k :: 0 <= k < |ps| ==> ps[k].id != id
    ensures r.Err? ==> r.error.NotFound?
    ensures r.Ok? ==> |r.value| == |ps|
    ensures r.Ok? ==> forall k :: 0 <= k < |ps| ==>
              r.value[k] == if k == IndexOfId(ps, id).value
                            then ps[k].(status := status,
                                        rawResponse := if Truthy(rawResponse) then rawResponse else ps[k].rawResponse)
                            else ps[k]
  {
    match IndexOfId(ps, id)
    case None => Err(NotFound("Payment not found"))
    case Some(i) =>
      var p := ps[i].(status := status);
      Ok(ps[i := if Truthy(rawResponse) then p.(rawResponse := rawResponse) else p])
  }

  /** `updateRawResponse(id, rawResponse)` on the table: the response is replaced unconditionally. */
  function SetRawResponse(ps: seq<Payment>, id: string, rawResponse: Option<Json>) : (r: Result<seq<Payment>, Exception>)
    ensures r.Err? <==> forall k :: 0 <= k < |ps| ==> ps[k].id != id
    ensures r.Err? ==> r.error.NotFound?
    ensures r.Ok? ==> |r.value| == |ps|
    ensures r.Ok? ==> forall k :: 0 <= k < |ps| ==>
              r.value[k] == if k == IndexOfId(ps, id).value then ps[k].(rawResponse := rawResponse) else ps[k]
  {
    match IndexOfId(ps, id)
    case None => Err(NotFound("Payment not found"))
    case Some(i) => Ok(ps[i := ps[i].(rawResponse := rawResponse)])
  }

  /** A status update without a response (or with an empty one) keeps the stored response. */
  lemma StatusUpdateKeepsResponse(ps: seq<Payment>, id: string, status: PaymentStatus, rawResponse: Option<Json>)
    requires !Truthy(rawResponse)
    requires SetPaymentStatus(ps, id, status, rawResponse).Ok?
    ensures forall k :: 0 <= k < |ps| ==>
              SetPaymentStatus(ps, id, status, rawResponse).value[k].rawResponse == ps[k].rawResponse
  {
  }

  lemma UpdatesKeepKeys(ps: seq<Payment>, qs: seq<Payment>)
    requires |ps| == |qs|
    requires forall k :: 0 <= k < |ps| ==> qs[k].id == ps[k].id && qs[k].reference == ps[k].reference
    requires DistinctIds(ps) && UniqueReferences(ps)
    ensures DistinctIds(qs) && UniqueReferences(qs)
  {
  }

  class PaymentService {
    var payments: seq<Payment>

    ghost predicate Valid()
      reads this
    {
      DistinctIds(payments) && UniqueReferences(payments)
    }

    constructor()
      ensures payments == [] && Valid()
    {
      payments := [];
    }

    /** `createPayment(userId, reference, type, amount, provider, rawResponse?, status = PENDING)` */
    method CreatePayment(newId: string, userId: string, reference: string, kind: PaymentType, amount: int,
                         provider: string, rawResponse: Option<Json> := None, status: PaymentStatus := Pending)
      returns (p: Payment)
      requires Valid()
      requires forall k :: 0 <= k < |payments| ==> payments[k].id != newId
      modifies this
      ensures Valid()
      ensures payments == CreatePaymentRows(old(payments), newId, userId, reference, kind, amount, provider, rawResponse, status)
      ensures p.reference == reference && p in payments
      ensures old(FindByReference(reference)).Some? ==> p == old(FindByReference(reference)).value
    {
      var existing := FindByReference(reference);
      if existing.Some? {
        return existing.value;
      }
      p := Payment(newId, userId, reference, kind, amount, provider, rawResponse, status);
      payments := payments + [p];
    }

    function FindByReference(reference: string): (r: Option<Payment>)
      reads this
      ensures r.Some? ==> r.value in payments && r.value.reference == reference
      ensures r.None? ==> forall k :: 0 <= k < |payments| ==> payments[k].reference != reference
    {
      match IndexOfReference(payments, reference)
      case None => None
      case Some(i) => Some(payments[i])
    }

    function FindById(id: string): (r: Option<Payment>)
      reads this
      ensures r.Some? ==> r.value in payments && r.value.id == id
      ensures r.None? ==> forall k :: 0 <= k < |payments| ==> payments[k].id != id
    {
      match IndexOfId(payments, id)
      case None => None
      case Some(i) => Some(payments[i])
    }

    /** `findByType`, newest first. */
    function FindByType(kind: PaymentType): (r: seq<Payment>)
      reads this
      ensures forall p :: p in r <==> p in payments && p.kind == kind
    {
      NewestFirstWhere(payments, (p: Payment) => p.kind == kind)
    }

    /** `findByStatus`, newest first. */
    function FindByStatus(status: PaymentStatus): (r: seq<Payment>)
      reads this
      ensures forall p :: p in r <==> p in payments && p.status == status
    {
      NewestFirstWhere(payments, (p: Payment) => p.status == status)
    }

    /** `findByProvider`, newest first. */
    function FindByProvider(provider: string): (r: seq<Payment>)
      reads this
      ensures forall p :: p in r <==> p in payments && p.provider == provider
    {
      NewestFirstWhere(payments, (p: Payment) => p.provider == provider)
    }

    /** `getPaymentsByUserId`, newest first. */
    function GetPaymentsByUserId(userId: string): (r: seq<Payment>)
      reads this
      ensures forall p :: p in r <==> p in payments && p.userId == userId
    {
      NewestFirstWhere(payments, (p: Payment) => p.userId == userId)
    }

    method UpdateStatus(id: string, status: PaymentStatus, rawResponse: Option<Json> := None)
      returns (r: Result<Payment, Exception>)
      requires Valid()
      modifies this
      ensures Valid()
      ensures var next := SetPaymentStatus(old(payments), id, status, rawResponse);
              (r.Err? <==> next.Err?) && (next.Err? ==> r.error == next.error && payments == old(payments))
                && (next.Ok? ==> payments == next.value)
      ensures r.Ok? ==> r.value.id == id && r.value.status == status
    {
      var next := SetPaymentStatus(payments, id, status, rawResponse);
      if next.Err? {
        return Err(next.error);
      }
      var i := IndexOfId(payments, id).value;
      UpdatesKeepKeys(payments, next.value);
      payments := next.value;
      r := Ok(payments[i]);
    }

    method UpdateRawResponse(id: string, rawResponse: Option<Json>) returns (r: Result<Payment, Exception>)
      requires Valid()
      modifies this
      ensures Valid()
      ensures var next := SetRawResponse(old(payments), id, rawResponse);
              (r.Err? <==> next.Err?) && (next.Err? ==> r.error == next.error && payments == old(payments))
                && (next.Ok? ==> payments == next.value)
      ensures r.Ok? ==> r.value.id == id && r.value.rawResponse == rawResponse
    {
      var next := SetRawResponse(payments, id, rawResponse);
      if next.Err? {
        return Err(next.error);
      }
      var i := IndexOfId(payments, id).value;
      UpdatesKeepKeys(payments, next.value);
      payments := next.value;
      r := Ok(payments[i]);
    }
  }
}
