/**
 * AirtelService: the Airtel Money gateway.  It keeps an OAuth access token
 * (client-credentials grant, section 4.4 of RFC 6749) in memory with its
 * expiry, mirrors it into Redis with a TTL 60 s shorter than `expires_in`
 * (section 5.1 of RFC 6749) without ever reading it back, records the
 * reseller phone of a collection under `transaction:<reference>:phone`, falls
 * back to MTN when a collection fails, and looks up the payee's wallet before
 * a disbursement.  Provider replies are inputs; `now` is the clock in ms.
 */
module AirtelGateway {
  import opened Common
  import opened RedisStore
  import opened Wallets

  const TokenKey: string := "airtel_access_token"
  /** Seconds taken off `expires_in` for the Redis copy of the token. */
  const TokenTtlMargin: int := 60
  /** Seconds the reseller phone of a collection is kept. */
  const CorrelationTtl: int := 86400

  /** The token endpoint's reply: `{access_token, expires_in}`. */
  datatype TokenReply = TokenReply(accessToken: string, expiresIn: int)

  /**
   * One `getAccessToken` call: its result, whether it requested a token,
   * and the in-memory token and expiry afterwards (None: never set).
   */
  datatype TokenStep = TokenStep(result: Result<string, Exception>, requested: bool, token: Option<string>,
                                 expiry: Option<int>)

  /** Whether the in-memory token is still usable at `now`. */
  predicate Cached(token: Option<string>, expiry: Option<int>, now: int)
  {
    Truthy(token) && expiry.Some? && now < expiry.value
  }

  /**
   * `getAccessToken`: a usable in-memory token is returned as is; otherwise
   * the endpoint's reply `fetch` is adopted (token, and expiry `now +
   * expires_in * 1000`) before its Redis copy is written, so a reply with
   * `expires_in <= 60`, whose copy Redis refuses, raises yet stays cached.
   */
  function AirtelToken(token: Option<string>, expiry: Option<int>, now: int, fetch: Result<TokenReply, Exception>)
    : TokenStep
  {
    if Cached(token, expiry, now) then TokenStep(Ok(token.value), false, token, expiry)
    else
      match fetch
      case Err(e) => TokenStep(Err(e), true, token, expiry)
      case Ok(reply) =>
        TokenStep(if SetAccepted(Some(reply.expiresIn - TokenTtlMargin)) then Ok(reply.accessToken) else Err(RedisError),
                  true, Some(reply.accessToken), Some(now + reply.expiresIn * 1000))
  }

  /** The Redis write a token step makes: the fetched token, with its shortened TTL. */
  predicate WritesToken(token: Option<string>, expiry: Option<int>, now: int, fetch: Result<TokenReply, Exception>)
  {
    !Cached(token, expiry, now) && fetch.Ok?
  }

  /** While the in-memory token is usable no request is made and nothing changes. */
  lemma CachedTokenReused(token: Option<string>, expiry: Option<int>, now: int, fetch: Result<TokenReply, Exception>)
    requires Cached(token, expiry, now)
    ensures AirtelToken(token, expiry, now, fetch) == TokenStep(Ok(token.value), false, token, expiry)
  {
  }

  /**
   * A fresh token with a positive lifetime is returned, and a later call
   * before it expires reuses it without a request, whatever the endpoint
   * would answer then; this holds even when `expires_in <= 60` made the
   * first call raise.
   */
  lemma FreshTokenReused(token: Option<string>, expiry: Option<int>, now: int, later: int, reply: TokenReply,
                         fetch2: Result<TokenReply, Exception>)
    requires !Cached(token, expiry, now) && reply.accessToken != "" && reply.expiresIn > 0
    requires now <= later < now + reply.expiresIn * 1000
    ensures var first := AirtelToken(token, expiry, now, Ok(reply));
            (first.result.Ok? <==> reply.expiresIn > TokenTtlMargin)
            && AirtelToken(first.token, first.expiry, later, fetch2).result == Ok(reply.accessToken)
            && !AirtelToken(first.token, first.expiry, later, fetch2).requested
  {
  }

  /** The collection request body of `collectMoney` (country and currency come from the environment). */
  datatype CollectDto = CollectDto(phone: string, amount: int, reference: string, resellerPhone: Option<string>)

  /** The payout request body of `disburseMoney`. */
  datatype PayoutDto = PayoutDto(phone: string, amount: int, reference: string)

  /** The requests the gateway sends, each with its bearer token. */
  datatype AirtelRequest =
    | Collection(reference: string, msisdn: string, amount: int, bearer: string)
    | Payout(reference: string, msisdn: string, amount: int, bearer: string)
    | StatusQuery(transactionId: string, bearer: string)

  /** What `collectMoney` yields, given the token step and the provider's answers. */
  function CollectResult(step: TokenStep, dto: CollectDto, post: AirtelRequest -> Result<string, Exception>)
    : Result<string, Exception>
  {
    if step.result.Err? then Err(step.result.error)
    else post(Collection(dto.reference, dto.phone, dto.amount, step.result.value))
  }

  /** The wallet check of `disburseMoney`: the payee must hold a wallet. */
  function PayeeWallet(ws: seq<Wallet>, phone: string): (r: Result<Wallet, Exception>)
    ensures r.Ok? <==> exists k :: 0 <= k < |ws| && ws[k].phone == Some(phone)
    ensures r.Ok? ==> r.value in ws && r.value.phone == Some(phone)
    ensures r.Err? ==> r.error == Failure("User wallet not found")
  {
    match WalletByPhone(ws, phone)
    case Some(w) => Ok(w)
    case None => Err(Failure("User wallet not found"))
  }

  /**
   * The same check as the service is wired: its `walletService` field is
   * declared but never injected, so reading `findByPhone` off it throws.
   */
  function AsWiredPayeeWallet(phone: string): Result<Wallet, Exception>
  {
    Err(TypeError)
  }

  /** As wired, a disbursement fails even for a payee who holds a wallet, which the injected check accepts. */
  lemma AsWiredRejectsKnownPayee(ws: seq<Wallet>, k: nat)
    requires k < |ws| && ws[k].phone.Some?
    ensures AsWiredPayeeWallet(ws[k].phone.value) == Err(TypeError)
    ensures PayeeWallet(ws, ws[k].phone.value).Ok?
  {
  }

  /** The Redis contents after `getAccessToken()`: the token key is written only on a fresh fetch. */
  function TokenStore(store: map<string, string>, token: Option<string>, expiry: Option<int>, now: int,
                      fetch: Result<TokenReply, Exception>): map<string, string>
  {
    if WritesToken(token, expiry, now, fetch)
    then StoreAfterSet(store, TokenKey, fetch.value.accessToken, Some(fetch.value.expiresIn - TokenTtlMargin))
    else store
  }

  /** The Redis expiries after `getAccessToken()`. */
  function TokenTtl(ttl: map<string, int>, token: Option<string>, expiry: Option<int>, now: int,
                    fetch: Result<TokenReply, Exception>): map<string, int>
  {
    if WritesToken(token, expiry, now, fetch)
    then TtlAfterSet(ttl, TokenKey, Some(fetch.value.expiresIn - TokenTtlMargin))
    else ttl
  }

  /** The Redis contents after `collectMoney`: the token write, then the reseller phone when one is given. */
  function CollectMoneyStore(store: map<string, string>, token: Option<string>, expiry: Option<int>, now: int,
                             fetch: Result<TokenReply, Exception>, dto: CollectDto): map<string, string>
  {
    var afterToken := TokenStore(store, token, expiry, now, fetch);
    if AirtelToken(token, expiry, now, fetch).result.Ok? && Truthy(dto.resellerPhone)
    then afterToken["transaction:" + dto.reference + ":phone" := dto.resellerPhone.value]
    else afterToken
  }

  /** The Redis expiries after `collectMoney`. */
  function CollectMoneyTtl(ttl: map<string, int>, token: Option<string>, expiry: Option<int>, now: int,
                           fetch: Result<TokenReply, Exception>, dto: CollectDto): map<string, int>
  {
    var afterToken := TokenTtl(ttl, token, expiry, now, fetch);
    if AirtelToken(token, expiry, now, fetch).result.Ok? && Truthy(dto.resellerPhone)
    then afterToken["transaction:" + dto.reference + ":phone" := CorrelationTtl]
    else afterToken
  }

  class AirtelService {
    var accessToken: Option<string>
    var tokenExpiry: Option<int>
    const redis: Redis
    const wallets: WalletService

    /** The service with the wallet service injected (the corrected wiring). */
    constructor(redis: Redis, wallets: WalletService)
      ensures accessToken == None && tokenExpiry == None
      ensures this.redis == redis && this.wallets == wallets
    {
      accessToken := None;
      tokenExpiry := None;
      this.redis := redis;
      this.wallets := wallets;
    }

    /** `getAccessToken()` at time `now`; `fetch` is the token endpoint's reply if one is requested. */
    method GetAccessToken(now: int, fetch: Result<TokenReply, Exception>) returns (r: Result<string, Exception>, requested: bool)
      modifies this, redis
      ensures var s := AirtelToken(old(accessToken), old(tokenExpiry), now, fetch);
              r == s.result && requested == s.requested && accessToken == s.token && tokenExpiry == s.expiry
      ensures WritesToken(old(accessToken), old(tokenExpiry), now, fetch) ==>
                redis.store == StoreAfterSet(old(redis.store), TokenKey, fetch.value.accessToken,
                                             Some(fetch.value.expiresIn - TokenTtlMargin))
                && redis.ttl == TtlAfterSet(old(redis.ttl), TokenKey, Some(fetch.value.expiresIn - TokenTtlMargin))
      ensures !WritesToken(old(accessToken), old(tokenExpiry), now, fetch) ==>
                redis.store == old(redis.store) && redis.ttl == old(redis.ttl)
    {
      if Truthy(accessToken) && tokenExpiry.Some? && now < tokenExpiry.value {
        return Ok(accessToken.value), false;
      }
      requested := true;
      if fetch.Err? {
        return Err(fetch.error), requested;
      }
      accessToken := Some(fetch.value.accessToken);
      tokenExpiry := Some(now + fetch.value.expiresIn * 1000);
      var ok := redis.Set(TokenKey, fetch.value.accessToken, Some(fetch.value.expiresIn - TokenTtlMargin));
      r := if ok then Ok(fetch.value.accessToken) else Err(RedisError);
    }

    /**
     * `collectMoney(dto)`: the token, then the reseller phone (kept a day)
     * when one is given, then the collection request, answered by `post`.
     */
    method CollectMoney(dto: CollectDto, now: int, fetch: Result<TokenReply, Exception>,
                        post: AirtelRequest -> Result<string, Exception>)
      returns (r: Result<string, Exception>)
      modifies this, redis
      ensures var s := AirtelToken(old(accessToken), old(tokenExpiry), now, fetch);
              r == CollectResult(s, dto, post) && accessToken == s.token && tokenExpiry == s.expiry
      ensures var s := AirtelToken(old(accessToken), old(tokenExpiry), now, fetch);
              var key := "transaction:" + dto.reference + ":phone";
              var store := if WritesToken(old(accessToken), old(tokenExpiry), now, fetch)
                           then StoreAfterSet(old(redis.store), TokenKey, fetch.value.accessToken,
                                              Some(fetch.value.expiresIn - TokenTtlMargin))
                           else old(redis.store);
              var ttl := if WritesToken(old(accessToken), old(tokenExpiry), now, fetch)
                         then TtlAfterSet(old(redis.ttl), TokenKey, Some(fetch.value.expiresIn - TokenTtlMargin))
                         else old(redis.ttl);
              (s.result.Ok? && Truthy(dto.resellerPhone) ==>
                 redis.store == store[key := dto.resellerPhone.value] && redis.ttl == ttl[key := CorrelationTtl])
              && (s.result.Err? || !Truthy(dto.resellerPhone) ==> redis.store == store && redis.ttl == ttl)
    ensures redis.store == CollectMoneyStore(old(redis.store), old(accessToken), old(tokenExpiry), now, fetch, dto)
    ensures redis.ttl == CollectMoneyTtl(old(redis.ttl), old(accessToken), old(tokenExpiry), now, fetch, dto)
    {
      var token, _ := GetAccessToken(now, fetch);
      if token.Err? {
        return Err(token.error);
      }
      if Truthy(dto.resellerPhone) {
        var _ := redis.Set("transaction:" + dto.reference + ":phone", dto.resellerPhone.value, Some(CorrelationTtl));
      }
      r := post(Collection(dto.reference, dto.phone, dto.amount, token.value));
    }

    /**
     * `collectFunds(dto)`: the Airtel collection, and only when it raises,
     * one MTN collection of the same request, whose outcome is the result.
     */
    method CollectFunds(dto: CollectDto, now: int, fetch: Result<TokenReply, Exception>,
                        post: AirtelRequest -> Result<string, Exception>, mtnCollect: CollectDto -> Result<string, Exception>)
      returns (r: Result<string, Exception>, mtnCalls: nat)
      modifies this, redis
      ensures var primary := CollectResult(AirtelToken(old(accessToken), old(tokenExpiry), now, fetch), dto, post);
              (primary.Ok? ==> r == primary && mtnCalls == 0)
              && (primary.Err? ==> r == mtnCollect(dto) && mtnCalls == 1)
    ensures var s := AirtelToken(old(accessToken), old(tokenExpiry), now, fetch);
            accessToken == s.token && tokenExpiry == s.expiry
    ensures redis.store == CollectMoneyStore(old(redis.store), old(accessToken), old(tokenExpiry), now, fetch, dto)
    ensures redis.ttl == CollectMoneyTtl(old(redis.ttl), old(accessToken), old(tokenExpiry), now, fetch, dto)
    {
      r := CollectMoney(dto, now, fetch, post);
      mtnCalls := 0;
      if r.Err? {
        r := mtnCollect(dto);
        mtnCalls := 1;
      }
    }

    /**
     * `disburseMoney(dto)`: the payee's wallet is looked up first; a missing
     * wallet raises before any token request.
     */
    method DisburseMoney(dto: PayoutDto, now: int, fetch: Result<TokenReply, Exception>,
                         post: AirtelRequest -> Result<string, Exception>)
      returns (r: Result<string, Exception>, requested: bool)
      modifies this, redis
      ensures var check := PayeeWallet(wallets.wallets, dto.phone);
              (check.Err? ==> r == Err(check.error) && !requested && accessToken == old(accessToken)
                              && tokenExpiry == old(tokenExpiry) && redis.store == old(redis.store)
                              && redis.ttl == old(redis.ttl))
              && (check.Ok? ==>
                    var s := AirtelToken(old(accessToken), old(tokenExpiry), now, fetch);
                    requested == s.requested && accessToken == s.token && tokenExpiry == s.expiry
                    && redis.store == TokenStore(old(redis.store), old(accessToken), old(tokenExpiry), now, fetch)
                    && redis.ttl == TokenTtl(old(redis.ttl), old(accessToken), old(tokenExpiry), now, fetch)
                    && r == (if s.result.Err? then Err(s.result.error)
                             else post(Payout(dto.reference, dto.phone, dto.amount, s.result.value))))
    {
      var wallet := wallets.FindByPhone(dto.phone);
      if wallet.None? {
        return Err(Failure("User wallet not found")), false;
      }
      var token;
      token, requested := GetAccessToken(now, fetch);
      if token.Err? {
        return Err(token.error), requested;
      }
      r := post(Payout(dto.reference, dto.phone, dto.amount, token.value));
    }

    /** `checkStatus(transactionId)`: the token, then the status query. */
    method CheckStatus(transactionId: string, now: int, fetch: Result<TokenReply, Exception>,
                       get: AirtelRequest -> Result<string, Exception>)
      returns (r: Result<string, Exception>)
      modifies this, redis
      ensures var s := AirtelToken(old(accessToken), old(tokenExpiry), now, fetch);
              accessToken == s.token && tokenExpiry == s.expiry
              && r == (if s.result.Err? then Err(s.result.error) else get(StatusQuery(transactionId, s.result.value)))
      ensures redis.store == TokenStore(old(redis.store), old(accessToken), old(tokenExpiry), now, fetch)
      ensures redis.ttl == TokenTtl(old(redis.ttl), old(accessToken), old(tokenExpiry), now, fetch)
    {
      var token, _ := GetAccessToken(now, fetch);
      if token.Err? {
        return Err(token.error);
      }
      r := get(StatusQuery(transactionId, token.value));
    }
  }
}
