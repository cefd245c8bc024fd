/**
 * The two iotec callbacks of IotecController.
 *
 * The collection callback (`handleWebhook`) checks neither a signature nor a
 * replay marker.  It records the transaction by reference; on 'Success' it
 * finds the reseller's wallet (from `payeeNote`, else the cached phone),
 * checks the price list, orders a voucher for the payer, publishes the code
 * in the 'cached-voucher' slot and credits the wallet.
 *
 * The disbursement callback (`disbursementwebhook`) sets a replay marker
 * before it verifies the signature, records the transaction, and upserts the
 * withdrawal whose id is the provider's transaction id.
 */
module IotecCallbacks {
  import opened Common
  import opened RedisStore
  import opened Ledger
  import opened Transactions
  import opened Wallets
  import opened Withdrawals
  import opened Entitlement
  import opened Otp
  import IotecSignature

  /** The hand-off slot the collection request polls for the voucher code. */
  const VoucherSlot: string := "cached-voucher"

  /** The expiry (seconds) given to the code written into the slot. */
  const SlotTtl: int := 30

  /** The expiry (seconds) of a disbursement replay marker. */
  const ReplayTtl: int := 600

  function PhoneKey(transactionId: string): string
  {
    "transaction:" + transactionId + ":phone"
  }

  function ReplayKey(webhookId: string): string
  {
    "disbursement_webhook:" + webhookId
  }

  /** The fields of the collection callback the handler reads; `json` is the body, stored as metadata. */
  datatype CollectionCallback = CollectionCallback(id: string, status: string, amount: int, payeeNote: Option<string>,
                                                   payer: Option<string>, currency: Option<string>, json: string)

  /** `{status:'ok', smsResult, code}` or `{received:false}`. */
  datatype CollectionReply = Delivered(smsResult: Option<string>, code: string) | NotReceived

  /** What the success chain does: the wallet credited, the code written to the slot, the outcome (`Ok(None)` is `undefined`). */
  datatype CollectionEffect = CollectionEffect(credited: Option<string>, slotCode: Option<string>,
                                               outcome: Result<Option<CollectionReply>, Exception>)

  function NewCollectionTransaction(id: string, cb: CollectionCallback): Transaction
  {
    Transaction(id, cb.id, cb.payeeNote, cb.amount, if Truthy(cb.currency) then cb.currency.value else "UGX",
                cb.status, "iotec", cb.json)
  }

  /** The phone whose wallet is credited: `payeeNote || cachedPhone`. */
  function CreditPhone(cb: CollectionCallback, cache: map<string, string>): Option<string>
  {
    Or(cb.payeeNote, if PhoneKey(cb.id) in cache then Some(cache[PhoneKey(cb.id)]) else None)
  }

  /**
   * The chain after the row is saved, given the Redis contents, the wallet
   * table and the main server's voucher reply for each requested expiry.
   */
  function CollectionChain(cb: CollectionCallback, cache: map<string, string>, ws: seq<Wallet>,
                           generate: int -> VoucherReply): (e: CollectionEffect)
    ensures e.credited.Some? <==>
              cb.status == "Success" && Truthy(CreditPhone(cb, cache))
              && WalletByPhone(ws, CreditPhone(cb, cache).value).Some?
              && AmountToExpiry(cb.amount).Some?
              && SendSmsVoucher(cb.payer, AmountToExpiry(cb.amount).value, generate).Ok?
    ensures e.credited.Some? ==> e.credited.value == WalletByPhone(ws, CreditPhone(cb, cache).value).value.id
    ensures cb.status == "Success" && !Truthy(CreditPhone(cb, cache)) ==> e == CollectionEffect(None, None, Ok(Some(NotReceived)))
    ensures cb.status == "Success" && Truthy(CreditPhone(cb, cache)) && WalletByPhone(ws, CreditPhone(cb, cache).value).None?
            ==> e == CollectionEffect(None, None, Ok(Some(NotReceived)))
    ensures e.credited.Some? <==> e.slotCode.Some?
    ensures e.credited.Some? ==>
              var sms := SendSmsVoucher(cb.payer, AmountToExpiry(cb.amount).value, generate);
              sms.Ok? && e.slotCode == Some(sms.value.code)
              && e.outcome == Ok(Some(Delivered(sms.value.smsResults, sms.value.code)))
    ensures cb.status != "Success" ==> e == CollectionEffect(None, None, Ok(Some(NotReceived)))
    ensures e.outcome == Ok(None) ==> AmountToExpiry(cb.amount).None? && e.credited.None?
    ensures e.outcome.Err? ==> e.outcome.error == TypeError && e.credited.None?
  {
    if cb.status != "Success" then CollectionEffect(None, None, Ok(Some(NotReceived)))
    else
      var phone := CreditPhone(cb, cache);
      if !Truthy(phone) then CollectionEffect(None, None, Ok(Some(NotReceived)))
      else
        match WalletByPhone(ws, phone.value)
        case None => CollectionEffect(None, None, Ok(Some(NotReceived)))
        case Some(w) =>
          match AmountToExpiry(cb.amount)
          case None => CollectionEffect(None, None, Ok(None))
          case Some(expiry) =>
            match SendSmsVoucher(cb.payer, expiry, generate)
            case Err(e) => CollectionEffect(None, None, Err(e))
            case Ok(sms) => CollectionEffect(Some(w.id), Some(sms.code), Ok(Some(Delivered(sms.smsResults, sms.code))))
  }

  /** The wallet named by `payeeNote` takes precedence over the cached phone. */
  lemma PayeeNoteWins(cb: CollectionCallback, cache: map<string, string>, ws: seq<Wallet>, generate: int -> VoucherReply)
    requires cb.status == "Success" && Truthy(cb.payeeNote)
    requires WalletByPhone(ws, cb.payeeNote.value).Some? && AmountToExpiry(cb.amount).Some?
    requires cb.payer.Some?
    ensures CollectionChain(cb, cache, ws, generate).credited == Some(WalletByPhone(ws, cb.payeeNote.value).value.id)
  {
  }

  /** Without a truthy `payeeNote`, the phone cached under the transaction id picks the wallet. */
  lemma CachedPhoneFallback(cb: CollectionCallback, cache: map<string, string>, ws: seq<Wallet>,
                            generate: int -> VoucherReply)
    requires cb.status == "Success" && !Truthy(cb.payeeNote)
    requires PhoneKey(cb.id) in cache && cache[PhoneKey(cb.id)] != ""
    requires WalletByPhone(ws, cache[PhoneKey(cb.id)]).Some? && AmountToExpiry(cb.amount).Some?
    requires cb.payer.Some?
    ensures CollectionChain(cb, cache, ws, generate).credited
            == Some(WalletByPhone(ws, cache[PhoneKey(cb.id)]).value.id)
  {
  }

  /** `mapStatusToWithdrawalStatus`: the provider status, upper-cased, mapped onto the withdrawal life cycle. */
  function MapStatusToWithdrawalStatus(status: string): WithdrawalStatus
  {
    var s := ToUpper(status);
    if s == "SUCCESSFUL" || s == "COMPLETED" then Paid
    else if s == "PENDING" || s == "PROCESSING" then Approved
    else if s == "FAILED" || s == "REJECTED" then Rejected
    else Requested
  }

  /**
   * Sample rows of the mapping in mixed case; the provider's own 'Success'
   * (the status the collection callback tests for) is not one of the
   * listed words and maps to REQUESTED.
   */
  lemma MapStatusTable()
    ensures MapStatusToWithdrawalStatus("Successful") == Paid
    ensures MapStatusToWithdrawalStatus("pending") == Approved
    ensures MapStatusToWithdrawalStatus("Failed") == Rejected
    ensures MapStatusToWithdrawalStatus("Success") == Requested
  {
    assert ToUpper("Successful") == "SUCCESSFUL";
    assert ToUpper("pending") == "PENDING";
    assert ToUpper("Failed") == "FAILED";
    assert ToUpper("Success") == "SUCCESS";
    assert "SUCCESS" != "SUCCESSFUL" && "SUCCESS" != "COMPLETED" && "SUCCESS" != "PENDING";
  }

  lemma UpperLowerChar(c: char)
    ensures UpperChar(UpperChar(c)) == UpperChar(c)
    ensures UpperChar(LowerChar(c)) == UpperChar(c)
  {
  }

  /** The mapping ignores letter case: a lower- or upper-cased status maps as the original does. */
  lemma MapStatusIgnoresCase(status: string)
    ensures MapStatusToWithdrawalStatus(ToLower(status)) == MapStatusToWithdrawalStatus(status)
    ensures MapStatusToWithdrawalStatus(ToUpper(status)) == MapStatusToWithdrawalStatus(status)
  {
    forall i | 0 <= i < |status|
      ensures UpperChar(LowerChar(status[i])) == UpperChar(status[i])
      ensures UpperChar(UpperChar(status[i])) == UpperChar(status[i])
    {
      UpperLowerChar(status[i]);
    }
    assert ToUpper(ToLower(status)) == ToUpper(status);
    assert ToUpper(ToUpper(status)) == ToUpper(status);
  }

  /** The fields of the disbursement callback the handler reads; `json` is the body, stored as metadata. */
  datatype DisbursementCallback = DisbursementCallback(
    id: Option<string>, transactionId: string, status: string, amount: int, phone: Option<string>,
    destination: Option<string>, accountNumber: Option<string>, userId: Option<string>,
    currency: Option<string>, json: string)

  /** `{received:true, transactionId, status}` */
  datatype DisbursementReply = Received(transactionId: string, status: string)

  /** `body.id || body.data?.transactionId` */
  function WebhookId(cb: DisbursementCallback): Option<string>
  {
    Or(cb.id, Some(cb.transactionId))
  }

  /** `data.destination || data.accountNumber || data.phone` */
  function Destination(cb: DisbursementCallback): Option<string>
  {
    Or(Or(cb.destination, cb.accountNumber), cb.phone)
  }

  function NewDisbursementTransaction(id: string, cb: DisbursementCallback): Transaction
  {
    Transaction(id, cb.transactionId, cb.phone, cb.amount, if Truthy(cb.currency) then cb.currency.value else "UGX",
                cb.status, "iotec-disbursement", cb.json)
  }

  /**
   * The withdrawal table after the callback: untouched unless userId, amount
   * and destination are all truthy; then the withdrawal whose id is the
   * transaction id takes the mapped status, or a new one is created with it.
   */
  function WithdrawalUpserted(ws: seq<Withdrawal>, cb: DisbursementCallback, newId: string): (r: seq<Withdrawal>)
    ensures !(Truthy(cb.userId) && cb.amount != 0 && Truthy(Destination(cb))) ==> r == ws
    ensures Truthy(cb.userId) && cb.amount != 0 && Truthy(Destination(cb)) ==>
              if exists k :: 0 <= k < |ws| && ws[k].id == cb.transactionId
              then r == SetStatus(ws, cb.transactionId, MapStatusToWithdrawalStatus(cb.status)).value
              else r == ws + [Withdrawal(newId, cb.userId.value, cb.amount, Destination(cb).value,
                                         MapStatusToWithdrawalStatus(cb.status))]
  {
    if Truthy(cb.userId) && cb.amount != 0 && Truthy(Destination(cb)) then
      var status := MapStatusToWithdrawalStatus(cb.status);
      match SetStatus(ws, cb.transactionId, status)
      case Ok(next) => next
      case Err(_) => ws + [Withdrawal(newId, cb.userId.value, cb.amount, Destination(cb).value, status)]
    else ws
  }

  class IotecController {
    const ledger: LedgerService
    const transactions: TransactionStore
    const wallets: WalletService
    const withdrawals: WithdrawalService
    const redis: Redis
    const webhookService: IotecSignature.IotecWebhookService
    const platformWallet: string
    const hmac: (string, string) -> string

    constructor(ledger: LedgerService, transactions: TransactionStore, wallets: WalletService,
                withdrawals: WithdrawalService, redis: Redis, webhookService: IotecSignature.IotecWebhookService,
                platformWallet: string, hmac: (string, string) -> string)
      ensures this.ledger == ledger && this.transactions == transactions && this.wallets == wallets
      ensures this.withdrawals == withdrawals && this.redis == redis && this.webhookService == webhookService
      ensures this.platformWallet == platformWallet && this.hmac == hmac
    {
      this.ledger := ledger;
      this.transactions := transactions;
      this.wallets := wallets;
      this.withdrawals := withdrawals;
      this.redis := redis;
      this.webhookService := webhookService;
      this.platformWallet := platformWallet;
      this.hmac := hmac;
    }

    /**
     * `handleWebhook(req, signature, body)`: the row is upserted, then the
     * success chain runs; the slot is set to 'zero' and then to the code
     * (expiring in 30 s) before the ledger transfer.  `generate` is the main
     * server's reply to a voucher request for a given expiry.
     */
    method HandleWebhook(cb: CollectionCallback, newId: string, generate: int -> VoucherReply)
      returns (r: Result<Option<CollectionReply>, Exception>)
      requires transactions.Valid()
      requires forall k :: 0 <= k < |transactions.rows| ==> transactions.rows[k].id != newId
      modifies transactions, ledger, redis
      ensures transactions.Valid()
      ensures transactions.rows == Upserted(old(transactions.rows), NewCollectionTransaction(newId, cb))
      ensures var e := CollectionChain(cb, old(redis.store), wallets.wallets, generate);
              r == e.outcome
              && ledger.history == old(ledger.history)
                   + (if e.credited.Some? then TransferEntries(platformWallet, e.credited.value, cb.amount, cb.id) else [])
              && (e.slotCode.Some? ==> redis.store == old(redis.store)[VoucherSlot := e.slotCode.value]
                                       && redis.ttl == old(redis.ttl)[VoucherSlot := SlotTtl])
              && (e.slotCode.None? ==> redis.store == old(redis.store) && redis.ttl == old(redis.ttl))
    {
      transactions.Upsert(NewCollectionTransaction(newId, cb));
      if cb.status != "Success" {
        return Ok(Some(NotReceived));
      }
      var cached := redis.Get(PhoneKey(cb.id));
      var phone := Or(cb.payeeNote, cached);
      if !Truthy(phone) {
        return Ok(Some(NotReceived));
      }
      var wallet := wallets.FindByPhone(phone.value);
      if wallet.None? {
        return Ok(Some(NotReceived));
      }
      var expiry := AmountToExpiry(cb.amount);
      if expiry.None? {
        return Ok(None);
      }
      var sms := SendSmsVoucher(cb.payer, expiry.value, generate);
      if sms.Err? {
        return Err(sms.error);
      }
      var _ := redis.Set(VoucherSlot, "zero", None);
      var _ := redis.Set(VoucherSlot, sms.value.code, Some(SlotTtl));
      assert redis.ttl == old(redis.ttl)[VoucherSlot := SlotTtl];
      var _ := ledger.Transfer(platformWallet, wallet.value.id, cb.amount, cb.id, true, true);
      r := Ok(Some(Delivered(sms.value.smsResults, sms.value.code)));
    }

    /**
     * `disbursementwebhook(req, signature, body)`: a callback whose replay
     * marker is present raises; otherwise the marker is set (600 s) and only
     * then is the signature verified, so a forged callback still burns its
     * marker.  A verified callback upserts the transaction and the withdrawal.
     * `newTransactionId` and `newWithdrawalId` are the uuids new rows would get.
     */
    method DisbursementWebhook(cb: DisbursementCallback, rawBody: Option<string>, signature: Option<string>,
                               newTransactionId: string, newWithdrawalId: string)
      returns (r: Result<DisbursementReply, Exception>)
      requires transactions.Valid() && withdrawals.Valid()
      requires forall k :: 0 <= k < |transactions.rows| ==> transactions.rows[k].id != newTransactionId
      requires forall k :: 0 <= k < |withdrawals.withdrawals| ==> withdrawals.withdrawals[k].id != newWithdrawalId
      modifies redis, transactions, withdrawals
      ensures transactions.Valid() && withdrawals.Valid()
      ensures var key := WebhookId(cb);
              var replay := Truthy(key) && Truthy(old(redis.Get(ReplayKey(key.value))));
              var v := IotecSignature.VerifySignature(rawBody, signature, webhookService.webhookSecret, hmac);
              (replay ==> r == Err(Unauthorized("Replay detected")) && redis.store == old(redis.store)
                          && redis.ttl == old(redis.ttl))
              && (!replay && Truthy(key) ==> redis.store == old(redis.store)[ReplayKey(key.value) := "1"]
                                             && redis.ttl == old(redis.ttl)[ReplayKey(key.value) := ReplayTtl])
              && (!replay && !Truthy(key) ==> redis.store == old(redis.store) && redis.ttl == old(redis.ttl))
              && (replay || v.Err? ==> transactions.rows == old(transactions.rows)
                                       && withdrawals.withdrawals == old(withdrawals.withdrawals))
              && (!replay && v.Err? ==> r == Err(v.error))
              && (!replay && v.Ok? ==>
                    transactions.rows == Upserted(old(transactions.rows), NewDisbursementTransaction(newTransactionId, cb))
                    && withdrawals.withdrawals == WithdrawalUpserted(old(withdrawals.withdrawals), cb, newWithdrawalId)
                    && r == Ok(Received(cb.transactionId, cb.status)))
    {
      var key := WebhookId(cb);
      if Truthy(key) {
        var marker := redis.Get(ReplayKey(key.value));
        if Truthy(marker) {
          return Err(Unauthorized("Replay detected"));
        }
        var _ := redis.Set(ReplayKey(key.value), "1", Some(ReplayTtl));
      }
      var v := IotecSignature.VerifySignature(rawBody, signature, webhookService.webhookSecret, hmac);
      if v.Err? {
        return Err(v.error);
      }
      transactions.Upsert(NewDisbursementTransaction(newTransactionId, cb));
      var destination := Destination(cb);
      if Truthy(cb.userId) && cb.amount != 0 && Truthy(destination) {
        var status := MapStatusToWithdrawalStatus(cb.status);
        var existing := withdrawals.FindById(cb.transactionId);
        if existing.Some? {
          var _ := withdrawals.UpdateStatus(existing.value.id, status);
        } else {
          var _ := withdrawals.CreateWithdrawal(newWithdrawalId, cb.userId.value, cb.amount, destination.value, status);
        }
      }
      r := Ok(Received(cb.transactionId, cb.status));
    }
  }
}
