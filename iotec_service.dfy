/**
 * IotecService: the iotec collections and disbursements gateway.
 *
 * The access token (client-credentials grant, section 4.4 of RFC 6749) is
 * looked for in memory, then in Redis (adopted for one minute), and only
 * then requested; a fetched token is mirrored into Redis with a TTL 30 s
 * shorter than `expires_in`.  A collection records correlation keys, calls
 * the provider and then waits up to a minute, polling every 2 s, for the
 * voucher code the collection callback drops in the 'cached-voucher' slot.
 * A disbursement records correlation keys, calls the provider and polls its
 * status up to ten times.  Provider replies are inputs, `now` is the clock
 * in ms, and every failure leaves as an HTTP exception.
 */
module IotecGateway {
  import opened Common
  import opened RedisStore

  const TokenKey: string := "iotec_access_token"
  /** Seconds taken off `expires_in` for the Redis copy of the token. */
  const TokenTtlMargin: int := 30
  /** How long a token found in Redis is trusted, in ms. */
  const AdoptedTokenMs: int := 60000
  /** Seconds correlation keys are kept. */
  const DayTtl: int := 86400
  /** The slot the voucher wait polls. */
  const VoucherSlot: string := "cached-voucher"
  /** The slot a collection initialises (with a trailing colon). */
  const InitialisedSlot: string := "cached-voucher:"
  const MaxWaitMs: int := 60000
  const PollIntervalMs: int := 2000
  const MaxStatusChecks: int := 10

  function Lookup(store: map<string, string>, key: string): (r: Option<string>)
    ensures r.Some? <==> key in store
    ensures r.Some? ==> r.value == store[key]
  {
    if key in store then Some(store[key]) else None
  }

  function TransactionKey(id: string, field: string): string
  {
    "transaction:" + id + ":" + field
  }

  /** The HTTP exception the service rethrows: an HTTP error keeps its status, anything else becomes 500. */
  function Wrapped(e: Exception): (w: Exception)
    ensures w.HttpError?
    ensures e.HttpError? ==> w == e
  {
    if e.HttpError? then e else HttpError(500)
  }

  /** The token endpoint's reply: its HTTP status and `{access_token, expires_in}`. */
  datatype TokenReply = TokenReply(httpStatus: int, accessToken: string, expiresIn: int)

  /** Where a token came from. */
  datatype TokenSource = Memory | Cache | Endpoint

  /** One `getAccessToken` call: result, source, the in-memory token and expiry afterwards, the Redis writes. */
  datatype TokenStep = TokenStep(result: Result<string, Exception>, source: TokenSource, token: Option<string>,
                                 expiry: Option<int>, writes: seq<SetCommand>)

  predicate Cached(token: Option<string>, expiry: Option<int>, now: int)
  {
    Truthy(token) && expiry.Some? && now < expiry.value
  }

  /**
   * `getAccessToken`: the in-memory token while it is usable; else the
   * token in Redis (`cached`), trusted for a minute; else the endpoint's
   * reply, where a status of 400 or more raises and changes nothing.
   */
  function IotecToken(token: Option<string>, expiry: Option<int>, cached: Option<string>, now: int,
                      fetch: Result<TokenReply, Exception>): TokenStep
  {
    if Cached(token, expiry, now) then TokenStep(Ok(token.value), Memory, token, expiry, [])
    else if Truthy(cached) then TokenStep(Ok(cached.value), Cache, cached, Some(now + AdoptedTokenMs), [])
    else
      match fetch
      case Err(e) => TokenStep(Err(e), Endpoint, token, expiry, [])
      case Ok(reply) =>
        if reply.httpStatus >= 400 then TokenStep(Err(HttpError(reply.httpStatus)), Endpoint, token, expiry, [])
        else
          var cmd := SetCommand(TokenKey, reply.accessToken, Some(reply.expiresIn - TokenTtlMargin));
          TokenStep(if SetAccepted(cmd.ex) then Ok(reply.accessToken) else Err(RedisError), Endpoint,
                    Some(reply.accessToken), Some(now + reply.expiresIn * 1000), [cmd])
  }

  /**
   * The tiers are tried in order, a token is returned only as the one then
   * held in memory, and only the endpoint tier writes to Redis, then only
   * under the token key.
   */
  lemma TokenTiers(token: Option<string>, expiry: Option<int>, cached: Option<string>, now: int,
                   fetch: Result<TokenReply, Exception>)
    ensures var s := IotecToken(token, expiry, cached, now, fetch);
            (s.source == Memory <==> Cached(token, expiry, now))
            && (s.source == Cache <==> !Cached(token, expiry, now) && Truthy(cached))
            && (s.source == Cache ==> s.expiry == Some(now + AdoptedTokenMs))
            && (s.result.Ok? ==> s.token == Some(s.result.value))
            && (s.source != Endpoint ==> s.writes == [])
            && (forall i :: 0 <= i < |s.writes| ==> s.writes[i].key == TokenKey)
            && (s.source == Endpoint && fetch.Ok? && fetch.value.httpStatus >= 400 ==>
                  s.result == Err(HttpError(fetch.value.httpStatus)) && s.token == token && s.expiry == expiry)
  {
  }

  /**
   * The index of the read that ends the voucher wait: the first read that is
   * not 'zero', or the first taken once a minute has passed.  `slot(k)` is
   * the k-th read of the slot and `elapsed(k)` the time since the start when
   * it is checked; reads are at least 2 s apart.
   */
  function SettledRead(slot: nat -> Option<string>, elapsed: nat -> nat, k: nat): (j: nat)
    requires forall i: nat :: elapsed(i) >= PollIntervalMs * i
    requires k <= 30
    decreases 30 - k
    ensures k <= j <= 30
    ensures slot(j) != Some("zero") || elapsed(j) >= MaxWaitMs
    ensures forall i :: k <= i < j ==> slot(i) == Some("zero") && elapsed(i) < MaxWaitMs
  {
    if slot(k) != Some("zero") || elapsed(k) >= MaxWaitMs then k
    else SettledRead(slot, elapsed, k + 1)
  }

  /** The voucher wait's outcome: the code (None for null) and the number of slot reads. */
  datatype WaitOutcome = WaitOutcome(code: Option<string>, readCount: nat)

  /**
   * The wait of `collectClientFunds`: when it ends on 'zero' or an empty
   * slot the code is null; otherwise the slot is read once more, that value
   * is the code, and the slot is reset to 'zero'.
   */
  function VoucherWait(slot: nat -> Option<string>, elapsed: nat -> nat): WaitOutcome
    requires forall i: nat :: elapsed(i) >= PollIntervalMs * i
  {
    var j := SettledRead(slot, elapsed, 0);
    if slot(j) == Some("zero") || !Truthy(slot(j)) then WaitOutcome(None, j + 1)
    else WaitOutcome(slot(j + 1), j + 2)
  }

  /** Whether the wait found a code and so resets the slot. */
  predicate WaitFound(slot: nat -> Option<string>, elapsed: nat -> nat)
    requires forall i: nat :: elapsed(i) >= PollIntervalMs * i
  {
    VoucherWait(slot, elapsed).readCount == SettledRead(slot, elapsed, 0) + 2
  }

  /**
   * The wait reads the slot at most 32 times; a slot that stays 'zero' for
   * the whole minute yields no code; and a code, when there is one, is the
   * read after a non-'zero' value was seen.
   */
  lemma VoucherWaitBounded(slot: nat -> Option<string>, elapsed: nat -> nat)
    requires forall i: nat :: elapsed(i) >= PollIntervalMs * i
    ensures 1 <= VoucherWait(slot, elapsed).readCount <= 32
    ensures (forall i: nat :: i <= 30 ==> slot(i) == Some("zero")) ==> VoucherWait(slot, elapsed).code.None?
    ensures VoucherWait(slot, elapsed).code.Some? ==>
              var n := VoucherWait(slot, elapsed).readCount;
              n >= 2 && VoucherWait(slot, elapsed).code == slot(n - 1) && Truthy(slot(n - 2)) && slot(n - 2) != Some("zero")
  {
  }

  /** What a disbursement status check answered: the status (None: absent), or an exception. */
  type StatusCheck = Result<Option<string>, Exception>

  predicate Terminal(status: Option<string>)
  {
    status == Some("Success") || status == Some("Failed") || status == Some("Completed") || status == Some("Rejected")
  }

  /** The status poll's outcome: the status it returns (or the exception) and how many checks it made. */
  datatype PollOutcome = PollOutcome(result: StatusCheck, checks: nat)

  /**
   * The status poll of `walletToMobileMoney` from check `attempt` on: it
   * stops at the first exception or terminal status, or after the tenth
   * check with whatever that check said.
   */
  function StatusPoll(check: nat -> StatusCheck, attempt: nat): (p: PollOutcome)
    requires 1 <= attempt <= MaxStatusChecks
    decreases MaxStatusChecks - attempt
    ensures attempt <= p.checks <= MaxStatusChecks
    ensures p.result == check(p.checks)
    ensures forall i :: attempt <= i < p.checks ==> check(i).Ok? && !Terminal(check(i).value)
    ensures p.result.Ok? && !Terminal(p.result.value) ==> p.checks == MaxStatusChecks
  {
    match check(attempt)
    case Err(e) => PollOutcome(Err(e), attempt)
    case Ok(status) =>
      if Terminal(status) || attempt == MaxStatusChecks then PollOutcome(Ok(status), attempt)
      else StatusPoll(check, attempt + 1)
  }

  /** Checks that never settle are made exactly ten times. */
  lemma {:induction false} PollGivesUpAfterTen(check: nat -> StatusCheck, attempt: nat)
    requires 1 <= attempt <= MaxStatusChecks
    requires forall i :: attempt <= i <= MaxStatusChecks ==> check(i).Ok? && !Terminal(check(i).value)
    ensures StatusPoll(check, attempt) == PollOutcome(check(MaxStatusChecks), MaxStatusChecks)
    decreases MaxStatusChecks - attempt
  {
    if attempt < MaxStatusChecks {
      PollGivesUpAfterTen(check, attempt + 1);
    }
  }

  /** The provider's reply to a collection, disbursement or status request. */
  datatype ProviderReply = ProviderReply(httpStatus: int, id: Option<string>, status: Option<string>,
                                         statusCode: Option<int>, statusMessage: Option<string>,
                                         vendorTransactionId: Option<string>)

  /** The fields of `collectClientFunds`' argument the model follows. */
  datatype CollectData = CollectData(amount: int, payer: string, externalId: Option<string>)

  /** The fields of `walletToMobileMoney`'s argument the model follows. */
  datatype PayoutData = PayoutData(amount: int, phoneNumber: string, provider: string, reference: string,
                                   externalId: Option<string>, payee: string)

  /** `collectClientFunds`' result: the provider's id and status, and the voucher code (None: null). */
  datatype CollectResult = CollectResult(id: Option<string>, status: Option<string>, code: Option<string>)

  /** `walletToMobileMoney`'s result: the provider's id, the final status and the number of status checks. */
  datatype PayoutResult = PayoutResult(id: Option<string>, status: Option<string>, checks: nat)

  /** `checkTransactionStatus`' result. */
  datatype StatusReport = StatusReport(transactionId: Option<string>, status: Option<string>, statusCode: Option<string>,
                                       statusMessage: Option<string>, cached: bool)

  /** `cancelPendingDisbursement`' result. */
  datatype CancelResult = CancelResult(statusCode: Option<int>, success: bool)

  /** The keys a collection records before it calls the provider. */
  function CollectionKeys(reference: string, payer: string): seq<SetCommand>
  {
    [SetCommand(TransactionKey(reference, "type"), "collection", Some(DayTtl)),
     SetCommand(TransactionKey(reference, "payer"), payer, Some(DayTtl)),
     SetCommand(InitialisedSlot, "zero", None)]
  }

  /** The keys a collection records once the provider has given it an id. */
  function CollectionReplyKeys(id: string, reference: string, payer: string, reply: ProviderReply): seq<SetCommand>
  {
    [SetCommand(TransactionKey(id, "status"), if Truthy(reply.status) then reply.status.value else "Pending", Some(DayTtl)),
     SetCommand(TransactionKey(id, "reference"), reference, Some(DayTtl)),
     SetCommand(TransactionKey(id, "payer"), payer, Some(DayTtl))]
    + (if TruthyNum(reply.statusCode) then [SetCommand(TransactionKey(id, "statusCode"), IntToString(reply.statusCode.value), Some(DayTtl))] else [])
    + (if Truthy(reply.statusMessage) then [SetCommand(TransactionKey(id, "statusMessage"), reply.statusMessage.value, Some(DayTtl))] else [])
  }

  /** Helper for PolledSlotNotInitialised: a correlation key is never the polled slot (they differ in their first letter). */
  lemma TransactionKeyIsNotSlot(id: string, field: string)
    ensures TransactionKey(id, field) != VoucherSlot
  {
    assert TransactionKey(id, field)[0] == 't';
  }

  /**
   * Nothing a collection writes before its wait touches the slot the wait
   * polls: it initialises 'cached-voucher:', not 'cached-voucher'.
   */
  lemma PolledSlotNotInitialised(reference: string, payer: string, id: string, reply: ProviderReply,
                                 tokenWrites: seq<SetCommand>)
    requires forall i :: 0 <= i < |tokenWrites| ==> tokenWrites[i].key == TokenKey
    ensures var cmds := CollectionKeys(reference, payer) + tokenWrites + CollectionReplyKeys(id, reference, payer, reply);
            forall i :: 0 <= i < |cmds| ==> cmds[i].key != VoucherSlot
    ensures CollectionKeys(reference, payer)[2].key == InitialisedSlot != VoucherSlot
  {
    TransactionKeyIsNotSlot(reference, "type");
    TransactionKeyIsNotSlot(reference, "payer");
    TransactionKeyIsNotSlot(id, "status");
    TransactionKeyIsNotSlot(id, "reference");
    TransactionKeyIsNotSlot(id, "payer");
    TransactionKeyIsNotSlot(id, "statusCode");
    TransactionKeyIsNotSlot(id, "statusMessage");
    assert TokenKey[0] != VoucherSlot[0];
    assert InitialisedSlot[..|VoucherSlot|] == VoucherSlot && |InitialisedSlot| != |VoucherSlot|;
  }

  /** The keys a disbursement records before it calls the provider. */
  function PayoutKeys(externalId: string, data: PayoutData): seq<SetCommand>
  {
    [SetCommand(TransactionKey(externalId, "phone"), data.phoneNumber, Some(DayTtl)),
     SetCommand(TransactionKey(externalId, "type"), "mobile-money", Some(DayTtl)),
     SetCommand(TransactionKey(externalId, "provider"), data.provider, Some(DayTtl))]
  }

  /** `data.externalId || data.reference || 'momo-<now>'` */
  function PayoutExternalId(data: PayoutData, now: int): string
  {
    if Truthy(data.externalId) then data.externalId.value
    else if data.reference != "" then data.reference
    else "momo-" + IntToString(now)
  }

  /** The status keys `checkTransactionStatus` refreshes from a provider reply. */
  function StatusKeys(id: string, reply: ProviderReply): seq<SetCommand>
  {
    (if Truthy(reply.status) then [SetCommand(TransactionKey(id, "status"), reply.status.value, Some(DayTtl))] else [])
    + (if TruthyNum(reply.statusCode) then [SetCommand(TransactionKey(id, "statusCode"), IntToString(reply.statusCode.value), Some(DayTtl))] else [])
    + (if Truthy(reply.statusMessage) then [SetCommand(TransactionKey(id, "statusMessage"), reply.statusMessage.value, Some(DayTtl))] else [])
    + (if Truthy(reply.vendorTransactionId) then [SetCommand(TransactionKey(id, "vendorTransactionId"), reply.vendorTransactionId.value, Some(DayTtl))] else [])
  }

  /** `cancelPendingDisbursement` on the provider's reply. */
  function CancelOutcome(reply: ProviderReply): (r: Result<CancelResult, Exception>)
    ensures r.Err? <==> reply.httpStatus >= 400
    ensures r.Err? ==> r.error == HttpError(reply.httpStatus)
    ensures r.Ok? ==> r.value.statusCode == reply.statusCode && (r.value.success <==> reply.statusCode == Some(1))
  {
    if reply.httpStatus >= 400 then Err(HttpError(reply.httpStatus))
    else Ok(CancelResult(reply.statusCode, reply.statusCode == Some(1)))
  }

  class IotecService {
    var accessToken: Option<string>
    var tokenExpiry: Option<int>
    const redis: Redis

    constructor(redis: Redis)
      ensures accessToken == None && tokenExpiry == None && this.redis == redis
    {
      accessToken := None;
      tokenExpiry := None;
      this.redis := redis;
    }

    /** `getAccessToken()` at `now`; `fetch` is the endpoint's reply should one be requested. */
    method GetAccessToken(now: int, fetch: Result<TokenReply, Exception>) returns (r: Result<string, Exception>)
      modifies this, redis
      ensures var s := IotecToken(old(accessToken), old(tokenExpiry), Lookup(old(redis.store), TokenKey), now, fetch);
              r == s.result && accessToken == s.token && tokenExpiry == s.expiry
              && redis.store == ApplySets(old(redis.store), s.writes) && redis.ttl == ApplySetsTtl(old(redis.ttl), s.writes)
    {
      if Truthy(accessToken) && tokenExpiry.Some? && now < tokenExpiry.value {
        return Ok(accessToken.value);
      }
      var cached := redis.Get(TokenKey);
      if Truthy(cached) {
        accessToken := cached;
        tokenExpiry := Some(now + AdoptedTokenMs);
        return Ok(cached.value);
      }
      if fetch.Err? {
        return Err(fetch.error);
      }
      if fetch.value.httpStatus >= 400 {
        return Err(HttpError(fetch.value.httpStatus));
      }
      accessToken := Some(fetch.value.accessToken);
      tokenExpiry := Some(now + fetch.value.expiresIn * 1000);
      var cmd := SetCommand(TokenKey, fetch.value.accessToken, Some(fetch.value.expiresIn - TokenTtlMargin));
      ApplySetsSnoc(old(redis.store), old(redis.ttl), [], cmd);
      var ok := redis.Set(cmd.key, cmd.value, cmd.ex);
      r := if ok then Ok(fetch.value.accessToken) else Err(RedisError);
    }

    /**
     * The voucher wait: `slot(k)` is what the k-th read of 'cached-voucher'
     * returns (the collection callback fills it concurrently) and
     * `elapsed(k)` the time since the start when it is checked.
     */
    method WaitForVoucher(slot: nat -> Option<string>, elapsed: nat -> nat) returns (code: Option<string>, readCount: nat)
      requires forall i: nat :: elapsed(i) >= PollIntervalMs * i
      modifies redis
      ensures VoucherWait(slot, elapsed) == WaitOutcome(code, readCount)
      ensures WaitFound(slot, elapsed) ==>
                redis.store == old(redis.store)[VoucherSlot := "zero"] && redis.ttl == old(redis.ttl) - {VoucherSlot}
      ensures !WaitFound(slot, elapsed) ==> redis.store == old(redis.store) && redis.ttl == old(redis.ttl)
    {
      var k: nat := 0;
      var value := slot(0);
      readCount := 1;
      while value == Some("zero") && elapsed(k) < MaxWaitMs
        invariant k <= 30 && value == slot(k) && readCount == k + 1
        invariant forall i :: 0 <= i < k ==> slot(i) == Some("zero") && elapsed(i) < MaxWaitMs
        decreases 30 - k
      {
        k := k + 1;
        value := slot(k);
        readCount := readCount + 1;
      }
      assert k == SettledRead(slot, elapsed, 0);
      if value == Some("zero") || !Truthy(value) {
        code := None;
      } else {
        code := slot(k + 1);
        readCount := readCount + 1;
        var _ := redis.Set(VoucherSlot, "zero", None);
      }
    }

    /**
     * The status poll: `check(attempt)` is what the attempt-th status
     * request answers (3 s apart).
     */
    method PollStatus(check: nat -> StatusCheck) returns (result: StatusCheck, checks: nat)
      ensures StatusPoll(check, 1) == PollOutcome(result, checks)
    {
      for attempt := 1 to MaxStatusChecks + 1
        invariant attempt <= MaxStatusChecks
        invariant StatusPoll(check, 1) == StatusPoll(check, attempt)
      {
        var status := check(attempt);
        if status.Err? || Terminal(status.value) || attempt == MaxStatusChecks {
          return status, attempt;
        }
      }
      assert false;
    }

    /**
     * `collectClientFunds(data)`: the correlation keys (and the 'cached-voucher:'
     * initialisation), the token, the collection request answered by `reply`,
     * the reply's keys when it carries an id, then the voucher wait.
     */
    method CollectClientFunds(data: CollectData, now: int, fetch: Result<TokenReply, Exception>,
                              reply: Result<ProviderReply, Exception>, slot: nat -> Option<string>, elapsed: nat -> nat)
      returns (r: Result<CollectResult, Exception>)
      requires forall i: nat :: elapsed(i) >= PollIntervalMs * i
      modifies this, redis
      ensures var reference := if Truthy(data.externalId) then data.externalId.value else "collect-" + IntToString(now);
              var before := CollectionKeys(reference, data.payer);
              var s := IotecToken(old(accessToken), old(tokenExpiry), Lookup(ApplySets(old(redis.store), before), TokenKey),
                                  now, fetch);
              accessToken == s.token && tokenExpiry == s.expiry
              && (s.result.Err? ==>
                    r == Err(Wrapped(s.result.error)) && redis.store == ApplySets(old(redis.store), before + s.writes))
              && (s.result.Ok? && reply.Err? ==>
                    r == Err(Wrapped(reply.error)) && redis.store == ApplySets(old(redis.store), before + s.writes))
              && (s.result.Ok? && reply.Ok? && reply.value.httpStatus >= 400 ==>
                    r == Err(HttpError(reply.value.httpStatus)) && redis.store == ApplySets(old(redis.store), before + s.writes))
              && (s.result.Ok? && reply.Ok? && reply.value.httpStatus < 400 ==>
                    var after := if Truthy(reply.value.id) then CollectionReplyKeys(reply.value.id.value, reference, data.payer, reply.value) else [];
                    var wait := VoucherWait(slot, elapsed);
                    var reset := if WaitFound(slot, elapsed) then [SetCommand(VoucherSlot, "zero", None)] else [];
                    r == Ok(CollectResult(reply.value.id, reply.value.status, wait.code))
                    && redis.store == ApplySets(old(redis.store), before + s.writes + after + reset))
      ensures var reference := if Truthy(data.externalId) then data.externalId.value else "collect-" + IntToString(now);
              var before := CollectionKeys(reference, data.payer);
              var s := IotecToken(old(accessToken), old(tokenExpiry), Lookup(ApplySets(old(redis.store), before), TokenKey),
                                  now, fetch);
              (s.result.Err? || reply.Err? || reply.value.httpStatus >= 400 ==>
                 redis.ttl == ApplySetsTtl(old(redis.ttl), before + s.writes))
              && (s.result.Ok? && reply.Ok? && reply.value.httpStatus < 400 ==>
                    var after := if Truthy(reply.value.id) then CollectionReplyKeys(reply.value.id.value, reference, data.payer, reply.value) else [];
                    var reset := if WaitFound(slot, elapsed) then [SetCommand(VoucherSlot, "zero", None)] else [];
                    redis.ttl == ApplySetsTtl(old(redis.ttl), before + s.writes + after + reset))
    {
      var reference := if Truthy(data.externalId) then data.externalId.value else "collect-" + IntToString(now);
      var before := CollectionKeys(reference, data.payer);
      redis.IssueAll(before);
      var token := GetAccessToken(now, fetch);
      ghost var s := IotecToken(old(accessToken), old(tokenExpiry), Lookup(ApplySets(old(redis.store), before), TokenKey),
                                now, fetch);
      ApplySetsConcat(old(redis.store), old(redis.ttl), before, s.writes);
      if token.Err? {
        return Err(Wrapped(token.error));
      }
      if reply.Err? {
        return Err(Wrapped(reply.error));
      }
      if reply.value.httpStatus >= 400 {
        return Err(HttpError(reply.value.httpStatus));
      }
      var after := if Truthy(reply.value.id) then CollectionReplyKeys(reply.value.id.value, reference, data.payer, reply.value) else [];
      redis.IssueAll(after);
      ApplySetsConcat(old(redis.store), old(redis.ttl), before + s.writes, after);
      ghost var mid := redis.store;
      var code, _ := WaitForVoucher(slot, elapsed);
      var reset := if WaitFound(slot, elapsed) then [SetCommand(VoucherSlot, "zero", None)] else [];
      ApplySetsSnoc(mid, old(redis.ttl), [], SetCommand(VoucherSlot, "zero", None));
      ApplySetsConcat(old(redis.store), old(redis.ttl), before + s.writes + after, reset);
      r := Ok(CollectResult(reply.value.id, reply.value.status, code));
    }

    /**
     * `walletToMobileMoney(data)`: the correlation keys, the token, the
     * disbursement request answered by `reply`; a reply with an id records
     * its status and is polled (`check`), one without is returned as is.
     */
    method WalletToMobileMoney(data: PayoutData, now: int, fetch: Result<TokenReply, Exception>,
                               reply: Result<ProviderReply, Exception>, check: nat -> StatusCheck)
      returns (r: Result<PayoutResult, Exception>)
      modifies this, redis
      ensures var before := PayoutKeys(PayoutExternalId(data, now), data);
              var s := IotecToken(old(accessToken), old(tokenExpiry), Lookup(ApplySets(old(redis.store), before), TokenKey),
                                  now, fetch);
              accessToken == s.token && tokenExpiry == s.expiry
              && (s.result.Err? ==> r == Err(Wrapped(s.result.error)))
              && (s.result.Ok? && reply.Err? ==> r == Err(Wrapped(reply.error)))
              && (s.result.Ok? && reply.Ok? && reply.value.httpStatus >= 400 ==> r == Err(HttpError(reply.value.httpStatus)))
              && (s.result.Err? || reply.Err? || reply.value.httpStatus >= 400 || !Truthy(reply.value.id) ==>
                    redis.store == ApplySets(old(redis.store), before + s.writes))
              && (s.result.Ok? && reply.Ok? && reply.value.httpStatus < 400 && !Truthy(reply.value.id) ==>
                    r == Ok(PayoutResult(reply.value.id, reply.value.status, 0)))
              && (s.result.Ok? && reply.Ok? && reply.value.httpStatus < 400 && Truthy(reply.value.id) ==>
                    var status := SetCommand(TransactionKey(reply.value.id.value, "status"),
                                             if Truthy(reply.value.status) then reply.value.status.value else "Pending", Some(DayTtl));
                    var poll := StatusPoll(check, 1);
                    redis.store == ApplySets(old(redis.store), before + s.writes + [status])
                    && r == (if poll.result.Err? then Err(Wrapped(poll.result.error))
                             else Ok(PayoutResult(reply.value.id, poll.result.value, poll.checks))))
      ensures var before := PayoutKeys(PayoutExternalId(data, now), data);
              var s := IotecToken(old(accessToken), old(tokenExpiry), Lookup(ApplySets(old(redis.store), before), TokenKey),
                                  now, fetch);
              (s.result.Err? || reply.Err? || reply.value.httpStatus >= 400 || !Truthy(reply.value.id) ==>
                 redis.ttl == ApplySetsTtl(old(redis.ttl), before + s.writes))
              && (s.result.Ok? && reply.Ok? && reply.value.httpStatus < 400 && Truthy(reply.value.id) ==>
                    var status := SetCommand(TransactionKey(reply.value.id.value, "status"),
                                             if Truthy(reply.value.status) then reply.value.status.value else "Pending", Some(DayTtl));
                    redis.ttl == ApplySetsTtl(old(redis.ttl), before + s.writes + [status]))
    {
      var before := PayoutKeys(PayoutExternalId(data, now), data);
      redis.IssueAll(before);
      var token := GetAccessToken(now, fetch);
      ghost var s := IotecToken(old(accessToken), old(tokenExpiry), Lookup(ApplySets(old(redis.store), before), TokenKey),
                                now, fetch);
      ApplySetsConcat(old(redis.store), old(redis.ttl), before, s.writes);
      if token.Err? {
        return Err(Wrapped(token.error));
      }
      if reply.Err? {
        return Err(Wrapped(reply.error));
      }
      if reply.value.httpStatus >= 400 {
        return Err(HttpError(reply.value.httpStatus));
      }
      if !Truthy(reply.value.id) {
        return Ok(PayoutResult(reply.value.id, reply.value.status, 0));
      }
      var status := SetCommand(TransactionKey(reply.value.id.value, "status"),
                               if Truthy(reply.value.status) then reply.value.status.value else "Pending", Some(DayTtl));
      redis.IssueAll([status]);
      ApplySetsConcat(old(redis.store), old(redis.ttl), before + s.writes, [status]);
      var polled, checks := PollStatus(check);
      if polled.Err? {
        return Err(Wrapped(polled.error));
      }
      r := Ok(PayoutResult(reply.value.id, polled.value, checks));
    }

    /**
     * `checkTransactionStatus(transactionId)`: a status cached in Redis is
     * returned with `cached: true` and no request; otherwise the status
     * request answered by `reply`, whose truthy fields refresh the cache.
     */
    method CheckTransactionStatus(transactionId: string, now: int, fetch: Result<TokenReply, Exception>,
                                  reply: Result<ProviderReply, Exception>)
      returns (r: Result<StatusReport, Exception>, requested: bool)
      modifies this, redis
      ensures var cachedStatus := Lookup(old(redis.store), TransactionKey(transactionId, "status"));
              (Truthy(cachedStatus) ==>
                 !requested && accessToken == old(accessToken) && tokenExpiry == old(tokenExpiry)
                 && redis.store == old(redis.store) && redis.ttl == old(redis.ttl)
                 && r == Ok(StatusReport(Some(transactionId), cachedStatus,
                                         Lookup(old(redis.store), TransactionKey(transactionId, "statusCode")),
                                         Lookup(old(redis.store), TransactionKey(transactionId, "statusMessage")), true)))
              && (!Truthy(cachedStatus) ==>
                    var s := IotecToken(old(accessToken), old(tokenExpiry), Lookup(old(redis.store), TokenKey), now, fetch);
                    accessToken == s.token && tokenExpiry == s.expiry
                    && requested == s.result.Ok?
                    && (s.result.Err? ==> r == Err(Wrapped(s.result.error)) && redis.store == ApplySets(old(redis.store), s.writes))
                    && (s.result.Ok? && reply.Err? ==> r == Err(Wrapped(reply.error)))
                    && (s.result.Ok? && reply.Ok? && reply.value.httpStatus >= 400 ==> r == Err(HttpError(reply.value.httpStatus)))
                    && (s.result.Ok? && (reply.Err? || reply.value.httpStatus >= 400) ==>
                          redis.store == ApplySets(old(redis.store), s.writes))
                    && (s.result.Ok? && reply.Ok? && reply.value.httpStatus < 400 ==>
                          redis.store == ApplySets(old(redis.store), s.writes + StatusKeys(transactionId, reply.value))
                          && r == Ok(StatusReport(reply.value.id, reply.value.status,
                                                  if reply.value.statusCode.Some? then Some(IntToString(reply.value.statusCode.value)) else None,
                                                  reply.value.statusMessage, false))))
      ensures var cachedStatus := Lookup(old(redis.store), TransactionKey(transactionId, "status"));
              !Truthy(cachedStatus) ==>
                var s := IotecToken(old(accessToken), old(tokenExpiry), Lookup(old(redis.store), TokenKey), now, fetch);
                (s.result.Err? || reply.Err? || reply.value.httpStatus >= 400 ==>
                   redis.ttl == ApplySetsTtl(old(redis.ttl), s.writes))
                && (s.result.Ok? && reply.Ok? && reply.value.httpStatus < 400 ==>
                      redis.ttl == ApplySetsTtl(old(redis.ttl), s.writes + StatusKeys(transactionId, reply.value)))
    {
      var cachedStatus := redis.Get(TransactionKey(transactionId, "status"));
      if Truthy(cachedStatus) {
        var code := redis.Get(TransactionKey(transactionId, "statusCode"));
        var message := redis.Get(TransactionKey(transactionId, "statusMessage"));
        return Ok(StatusReport(Some(transactionId), cachedStatus, code, message, true)), false;
      }
      var token := GetAccessToken(now, fetch);
      if token.Err? {
        return Err(Wrapped(token.error)), false;
      }
      requested := true;
      if reply.Err? {
        return Err(Wrapped(reply.error)), requested;
      }
      if reply.value.httpStatus >= 400 {
        return Err(HttpError(reply.value.httpStatus)), requested;
      }
      ghost var s := IotecToken(old(accessToken), old(tokenExpiry), Lookup(old(redis.store), TokenKey), now, fetch);
      redis.IssueAll(StatusKeys(transactionId, reply.value));
      ApplySetsConcat(old(redis.store), old(redis.ttl), s.writes, StatusKeys(transactionId, reply.value));
      r := Ok(StatusReport(reply.value.id, reply.value.status,
                           if reply.value.statusCode.Some? then Some(IntToString(reply.value.statusCode.value)) else None,
                           reply.value.statusMessage, false));
    }

    /** `cancelPendingDisbursement(data)`: the token, then the cancel request answered by `reply`. */
    method CancelPendingDisbursement(now: int, fetch: Result<TokenReply, Exception>, reply: Result<ProviderReply, Exception>)
      returns (r: Result<CancelResult, Exception>)
      modifies this, redis
      ensures var s := IotecToken(old(accessToken), old(tokenExpiry), Lookup(old(redis.store), TokenKey), now, fetch);
              accessToken == s.token && tokenExpiry == s.expiry && redis.store == ApplySets(old(redis.store), s.writes)
              && redis.ttl == ApplySetsTtl(old(redis.ttl), s.writes)
              && r == (if s.result.Err? then Err(Wrapped(s.result.error))
                       else if reply.Err? then Err(Wrapped(reply.error))
                       else CancelOutcome(reply.value))
    {
      var token := GetAccessToken(now, fetch);
      if token.Err? {
        return Err(Wrapped(token.error));
      }
      if reply.Err? {
        return Err(Wrapped(reply.error));
      }
      r := CancelOutcome(reply.value);
    }
  }
}
