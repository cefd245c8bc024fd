/**
 * The Airtel collection callback (AirtelWebhookController).  The callback
 * is authenticated by an HMAC of the raw body, recorded by reference, and
 * on success credits the wallet of the reseller whose phone was cached when
 * the collection started; only then is the amount checked against the price
 * list and a voucher ordered.  The HMAC primitive and the platform wallet id
 * are parameters.
 */
module AirtelWebhook {
  import opened Common
  import opened RedisStore
  import opened Ledger
  import opened Transactions
  import opened Wallets
  import opened Entitlement

  /** The fields of the callback body the handler reads; `json` is the body itself, stored as metadata. */
  datatype AirtelPayload = AirtelPayload(transactionId: string, status: string, phone: Option<string>,
                                         amount: int, json: string)

  /** A voucher ordered from the SMS service (the call is not awaited). */
  datatype VoucherOrder = VoucherOrder(phone: Option<string>, expiry: int)

  /** `{ status: 'ok' }` */
  datatype AirtelReply = StatusOk

  /** What the success chain does: the wallet credited, the voucher ordered and the value returned (`None` is `undefined`). */
  datatype AirtelEffect = AirtelEffect(credited: Option<string>, voucher: Option<VoucherOrder>, reply: Option<AirtelReply>)

  const SuccessStatus: string := "SUCCESSFUL"

  /** The correlation key written when the collection was started. */
  function PhoneKey(transactionId: string): string
  {
    "transaction:" + transactionId + ":phone"
  }

  /**
   * `verifySignature(rawBody, signature)`: false without a signature or raw
   * body; an unset secret raises; otherwise the hex HMAC of the body is
   * compared with the header in constant time, which raises RangeError when
   * the two byte lengths differ.
   */
  function VerifySignature(rawBody: Option<string>, signature: Option<string>, secret: Option<string>,
                           hmac: (string, string) -> string): (r: Result<bool, Exception>)
    ensures r == Ok(true) <==> Truthy(signature) && rawBody.Some? && Truthy(secret)
                               && signature.value == hmac(secret.value, rawBody.value)
    ensures !Truthy(signature) || rawBody.None? ==> r == Ok(false)
    ensures Truthy(signature) && rawBody.Some? && !Truthy(secret) ==> r.Err? && r.error.Failure?
    ensures r.Err? && r.error == RangeError ==>
              rawBody.Some? && signature.Some? && secret.Some? && Utf8Length(hmac(secret.value, rawBody.value)) != Utf8Length(signature.value)
  {
    if !Truthy(signature) || rawBody.None? then Ok(false)
    else if !Truthy(secret) then Err(Failure("AIRTEL_WEBHOOK_SECRET not configured"))
    else
      var computed := hmac(secret.value, rawBody.value);
      if Utf8Length(computed) != Utf8Length(signature.value) then Err(RangeError)
      else Ok(computed == signature.value)
  }

  /** A signature carrying a `sha256=` prefix is never accepted: the header must be the bare hex digest. */
  lemma PrefixedSignatureRejected(rawBody: string, secret: string, hmac: (string, string) -> string)
    ensures VerifySignature(Some(rawBody), Some("sha256=" + hmac(secret, rawBody)), Some(secret), hmac) != Ok(true)
  {
    var d := hmac(secret, rawBody);
    assert |"sha256=" + d| != |d|;
  }

  /** The row a callback stores when its reference is new. */
  function NewTransaction(id: string, p: AirtelPayload): Transaction
  {
    Transaction(id, p.transactionId, p.phone, p.amount, "UGX", p.status, "airtel", p.json)
  }

  /**
   * The chain after the row is saved, given the Redis contents and the wallet
   * table: SUCCESSFUL status, then a cached reseller phone, then a wallet for
   * that phone, then the credit, then the price list, then the voucher.
   */
  function SuccessChain(p: AirtelPayload, cache: map<string, string>, ws: seq<Wallet>): (e: AirtelEffect)
    ensures e.credited.Some? <==> p.status == SuccessStatus && PhoneKey(p.transactionId) in cache
                                  && cache[PhoneKey(p.transactionId)] != ""
                                  && WalletByPhone(ws, cache[PhoneKey(p.transactionId)]).Some?
    ensures e.credited.Some? ==> e.credited.value == WalletByPhone(ws, cache[PhoneKey(p.transactionId)]).value.id
    ensures e.voucher.Some? <==> e.credited.Some? && AmountToExpiry(p.amount).Some?
    ensures e.voucher.Some? ==> e.voucher.value == VoucherOrder(p.phone, AmountToExpiry(p.amount).value)
    ensures e.reply.Some? <==> e.voucher.Some?
  {
    if p.status != SuccessStatus then AirtelEffect(None, None, None)
    else
      var phone := if PhoneKey(p.transactionId) in cache then Some(cache[PhoneKey(p.transactionId)]) else None;
      if !Truthy(phone) then AirtelEffect(None, None, None)
      else
        match WalletByPhone(ws, phone.value)
        case None => AirtelEffect(None, None, None)
        case Some(w) =>
          match AmountToExpiry(p.amount)
          case None => AirtelEffect(Some(w.id), None, None)
          case Some(expiry) => AirtelEffect(Some(w.id), Some(VoucherOrder(p.phone, expiry)), Some(StatusOk))
  }

  /** An amount off the price list is still credited to the reseller, but buys no voucher. */
  lemma UnlistedAmountCreditedWithoutVoucher(p: AirtelPayload, cache: map<string, string>, ws: seq<Wallet>)
    requires SuccessChain(p, cache, ws).credited.Some?
    requires p.amount !in AcceptedAmounts
    ensures SuccessChain(p, cache, ws).voucher.None? && SuccessChain(p, cache, ws).reply.None?
  {
  }

  class AirtelWebhookController {
    const ledger: LedgerService
    const transactions: TransactionStore
    const wallets: WalletService
    const redis: Redis
    const platformWallet: string
    const secret: Option<string>
    const hmac: (string, string) -> string

    constructor(ledger: LedgerService, transactions: TransactionStore, wallets: WalletService, redis: Redis,
                platformWallet: string, secret: Option<string>, hmac: (string, string) -> string)
      ensures this.ledger == ledger && this.transactions == transactions && this.wallets == wallets
      ensures this.redis == redis && this.platformWallet == platformWallet
      ensures this.secret == secret && this.hmac == hmac
    {
      this.ledger := ledger;
      this.transactions := transactions;
      this.wallets := wallets;
      this.redis := redis;
      this.platformWallet := platformWallet;
      this.secret := secret;
      this.hmac := hmac;
    }

    /**
     * `handle(payload, req, signature)`.  A rejected signature raises before
     * the store is touched; otherwise the row is upserted and the success
     * chain runs, the ledger transfer preceding the price-list check.
     * `newId` is the uuid a new row would get.
     */
    method Handle(payload: AirtelPayload, rawBody: Option<string>, signature: Option<string>, newId: string)
      returns (r: Result<Option<AirtelReply>, Exception>, voucher: Option<VoucherOrder>)
      requires transactions.Valid()
      requires forall k :: 0 <= k < |transactions.rows| ==> transactions.rows[k].id != newId
      modifies transactions, ledger
      ensures transactions.Valid()
      ensures var v := VerifySignature(rawBody, signature, secret, hmac);
              v != Ok(true) ==>
                r == Err(if v.Err? then v.error else Forbidden("Forbidden")) && voucher.None?
                && transactions.rows == old(transactions.rows) && ledger.history == old(ledger.history)
      ensures var v := VerifySignature(rawBody, signature, secret, hmac);
              var e := SuccessChain(payload, redis.store, wallets.wallets);
              v == Ok(true) ==>
                transactions.rows == Upserted(old(transactions.rows), NewTransaction(newId, payload))
                && ledger.history == old(ledger.history)
                     + (if e.credited.Some?
                        then TransferEntries(platformWallet, e.credited.value, payload.amount, payload.transactionId)
                        else [])
                && voucher == e.voucher && r == Ok(e.reply)
    {
      var v := VerifySignature(rawBody, signature, secret, hmac);
      if v.Err? {
        return Err(v.error), None;
      }
      if !v.value {
        return Err(Forbidden("Forbidden")), None;
      }
      transactions.Upsert(NewTransaction(newId, payload));
      voucher := None;
      if payload.status != SuccessStatus {
        return Ok(None), None;
      }
      var phone := redis.Get(PhoneKey(payload.transactionId));
      if !Truthy(phone) {
        return Ok(None), None;
      }
      var wallet := wallets.FindByPhone(phone.value);
      if wallet.None? {
        return Ok(None), None;
      }
      var _ := ledger.Transfer(platformWallet, wallet.value.id, payload.amount, payload.transactionId, true, true);
      var expiry := AmountToExpiry(payload.amount);
      if expiry.None? {
        return Ok(None), None;
      }
      voucher := Some(VoucherOrder(payload.phone, expiry.value));
      r := Ok(Some(StatusOk));
    }
  }
}
