/**
 * The transaction table.  The provider callbacks upsert by reference: they
 * look the reference up, then either store a new row or overwrite the
 * status and metadata of the row they found.  The column is not unique, and
 * the collect, mobile-money, bank-transfer and approve endpoints insert rows
 * without a lookup, so a reference may appear on several rows; the store
 * keeps only distinct ids.  New row uuids are supplied by the caller.
 */
module Transactions {
  import opened Common

  datatype Transaction = Transaction(id: string, reference: string, phone: Option<string>, amount: int,
                                     currency: string, status: string, paymentMethod: string, metadata: string)

  predicate DistinctIds(ts: seq<Transaction>)
  {
    forall i, j :: 0 <= i < j < |ts| ==> ts[i].id != ts[j].id
  }

  predicate UniqueReferences(ts: seq<Transaction>)
  {
    forall i, j :: 0 <= i < j < |ts| ==> ts[i].reference != ts[j].reference
  }

  function IndexOfReference(ts: seq<Transaction>, reference: string): Option<nat>
  {
    FirstWhere(ts, (t: Transaction) => t.reference == reference)
  }

  /**
   * The table after upserting `t`: a known reference keeps its row and only
   * takes the new status and metadata; an unknown one gets `t` as a new row.
   */
  function Upserted(ts: seq<Transaction>, t: Transaction): (r: seq<Transaction>)
    ensures IndexOfReference(ts, t.reference).Some? ==>
              var i := IndexOfReference(ts, t.reference).value;
              r == ts[i := ts[i].(status := t.status, metadata := t.metadata)]
    ensures IndexOfReference(ts, t.reference).None? ==> r == ts + [t]
  {
    match IndexOfReference(ts, t.reference)
    case Some(i) => ts[i := ts[i].(status := t.status, metadata := t.metadata)]
    case None => ts + [t]
  }

  /**
   * An upsert keeps one row per reference, and afterwards that row carries
   * the status and metadata of the callback.
   */
  lemma UpsertKeepsOneRowPerReference(ts: seq<Transaction>, t: Transaction)
    requires UniqueReferences(ts)
    ensures UniqueReferences(Upserted(ts, t))
    ensures var r := Upserted(ts, t);
            exists k :: 0 <= k < |r| && r[k].reference == t.reference
                        && r[k].status == t.status && r[k].metadata == t.metadata
  {
    var r := Upserted(ts, t);
    match IndexOfReference(ts, t.reference)
    case Some(i) => assert r[i].reference == t.reference;
    case None => assert r[|ts|] == t;
  }

  /** A replayed callback (same reference, status and metadata) leaves the table as the first one left it. */
  lemma UpsertIdempotent(ts: seq<Transaction>, t: Transaction, replay: Transaction)
    requires replay.reference == t.reference && replay.status == t.status && replay.metadata == t.metadata
    ensures Upserted(Upserted(ts, t), replay) == Upserted(ts, t)
  {
    var once := Upserted(ts, t);
    match IndexOfReference(ts, t.reference)
    case Some(i) =>
      assert forall k :: 0 <= k < |ts| ==> (once[k].reference == t.reference <==> ts[k].reference == t.reference);
      var j := IndexOfReference(once, t.reference);
      assert j.Some? by { assert once[i].reference == t.reference; }
      assert j.value == i;
    case None =>
      var j := IndexOfReference(once, t.reference);
      assert j.Some? by { assert once[|ts|].reference == t.reference; }
      assert forall k :: 0 <= k < |ts| ==> once[k] == ts[k];
      assert j.value == |ts|;
  }

  /** An upsert never changes an existing id, and appends only a row with a fresh one. */
  lemma UpsertKeepsIds(ts: seq<Transaction>, t: Transaction)
    requires DistinctIds(ts)
    requires forall k :: 0 <= k < |ts| ==> ts[k].id != t.id
    ensures DistinctIds(Upserted(ts, t))
  {
    var r := Upserted(ts, t);
    match IndexOfReference(ts, t.reference)
    case Some(i) => assert forall k :: 0 <= k < |ts| ==> r[k].id == ts[k].id;
    case None => assert forall k :: 0 <= k < |ts| ==> r[k] == ts[k];
  }

  class TransactionStore {
    var rows: seq<Transaction>

    ghost predicate Valid()
      reads this
    {
      DistinctIds(rows)
    }

    constructor()
      ensures rows == [] && Valid()
    {
      rows := [];
    }

    function FindByReference(reference: string): (r: Option<Transaction>)
      reads this
      ensures r.Some? ==> r.value in rows && r.value.reference == reference
      ensures r.None? ==> forall k :: 0 <= k < |rows| ==> rows[k].reference != reference
    {
      match IndexOfReference(rows, reference)
      case None => None
      case Some(i) => Some(rows[i])
    }

    /** Find by `t.reference`, then update status and metadata or insert `t`, then save. */
    method Upsert(t: Transaction)
      requires Valid()
      requires forall k :: 0 <= k < |rows| ==> rows[k].id != t.id
      modifies this
      ensures Valid()
      ensures rows == Upserted(old(rows), t)
      ensures UniqueReferences(old(rows)) ==> UniqueReferences(rows)
    {
      if UniqueReferences(rows) {
        UpsertKeepsOneRowPerReference(rows, t);
      }
      UpsertKeepsIds(rows, t);
      rows := Upserted(rows, t);
    }
  }
}
