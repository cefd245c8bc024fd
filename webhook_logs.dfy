/**
 * WebhookLogRepository: an append-only record of provider callbacks, each
 * flagged once it has been processed.  Queries return the newest first.  A
 * new log's uuid is supplied by the caller.
 */
module WebhookLogs {
  import opened Common

  datatype WebhookLog = WebhookLog(id: string, provider: string, payload: string, processed: bool)

  predicate DistinctIds(ls: seq<WebhookLog>)
  {
    forall i, j :: 0 <= i < j < |ls| ==> ls[i].id != ls[j].id
  }

  /** `markAsProcessed(id)` on the table: an unknown id raises, otherwise that log is flagged. */
  function MarkProcessed(ls: seq<WebhookLog>, id: string): (r: Result<seq<WebhookLog>, Exception>)
    ensures r.Err? <==> forall k :: 0 <= k < |ls| ==> ls[k].id != id
    ensures r.Err? ==> r.error.Failure?
    ensures r.Ok? ==> |r.value| == |ls|
    ensures r.Ok? ==> forall k :: 0 <= k < |ls| ==>
              r.value[k] == if k == FirstWhere(ls, (l: WebhookLog) => l.id == id).value then ls[k].(processed := true) else ls[k]
  {
    match FirstWhere(ls, (l: WebhookLog) => l.id == id)
    case None => Err(Failure("Webhook log not found"))
    case Some(i) => Ok(ls[i := ls[i].(processed := true)])
  }

  /** Marking a log twice is the same as marking it once. */
  lemma MarkProcessedIdempotent(ls: seq<WebhookLog>, id: string)
    requires MarkProcessed(ls, id).Ok?
    ensures MarkProcessed(MarkProcessed(ls, id).value, id) == MarkProcessed(ls, id)
  {
    var once := MarkProcessed(ls, id).value;
    var i := FirstWhere(ls, (l: WebhookLog) => l.id == id).value;
    assert forall k :: 0 <= k < |ls| ==> (once[k].id == id <==> ls[k].id == id);
    var j := FirstWhere(once, (l: WebhookLog) => l.id == id);
    assert j.Some? by { assert once[i].id == id; }
    assert j.value == i;
    assert once[i := once[i].(processed := true)] == once;
  }

  class WebhookLogRepository {
    var logs: seq<WebhookLog>

    ghost predicate Valid()
      reads this
    {
      DistinctIds(logs)
    }

    constructor()
      ensures logs == [] && Valid()
    {
      logs := [];
    }

    /** `createWebhookLog(provider, payload, processed = false)` */
    method CreateWebhookLog(newId: string, provider: string, payload: string, processed: bool := false)
      returns (l: WebhookLog)
      requires Valid()
      requires forall k :: 0 <= k < |logs| ==> logs[k].id != newId
      modifies this
      ensures Valid()
      ensures l == WebhookLog(newId, provider, payload, processed)
      ensures logs == old(logs) + [l]
    {
      l := WebhookLog(newId, provider, payload, processed);
      logs := logs + [l];
    }

    /** `findByProvider`, newest first. */
    function FindByProvider(provider: string): (r: seq<WebhookLog>)
      reads this
      ensures forall l :: l in r <==> l in logs && l.provider == provider
    {
      NewestFirstWhere(logs, (l: WebhookLog) => l.provider == provider)
    }

    /** `findByProcessed`, newest first. */
    function FindByProcessed(processed: bool): (r: seq<WebhookLog>)
      reads this
      ensures forall l :: l in r <==> l in logs && l.processed == processed
    {
      NewestFirstWhere(logs, (l: WebhookLog) => l.processed == processed)
    }

    method MarkAsProcessed(id: string) returns (r: Result<WebhookLog, Exception>)
      requires Valid()
      modifies this
      ensures Valid()
      ensures var next := MarkProcessed(old(logs), id);
              (r.Err? <==> next.Err?) && (next.Err? ==> r.error == next.error && logs == old(logs))
                && (next.Ok? ==> logs == next.value)
      ensures r.Ok? ==> r.value.id == id && r.value.processed
    {
      var next := MarkProcessed(logs, id);
      if next.Err? {
        return Err(next.error);
      }
      var i := FirstWhere(logs, (l: WebhookLog) => l.id == id).value;
      logs := next.value;
      r := Ok(logs[i]);
    }
  }
}
