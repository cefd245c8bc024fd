# Payment server: reconciliation and ledger core in Dafny

This project models the money-moving core of a NestJS payment server that
sells Wi-Fi vouchers over mobile money. The model covers:

- the double-entry ledger and the revenue split;
- the Airtel and iotec collection webhooks: transaction upsert, the
  correlation-cache → wallet → ledger → price-list → voucher chain, and the
  HMAC signature checks;
- the iotec disbursement webhook: replay marker, status mapping, withdrawal
  upsert;
- the withdrawal and voucher-generation endpoints of the users controller;
- the record stores: wallets, withdrawals, payments, platform revenue,
  webhook logs and transactions;
- the Airtel and iotec gateways: token caches, MTN fallback, the voucher-slot
  wait and the disbursement-status poll;
- the Pesapal SMS parse, IPN selection and payment confirmation;
- the phone formatter, the fraud cap and the bearer-token guard.

Some source files update state and others compute values, and the model
follows each file's form. Services that change state are classes. Their
stores are `seq` fields kept in insertion order, and their methods state
the new state exactly. Pure logic is functions and lemmas. The two polling
loops and the IPN loop are methods with loops, proved against recursive
specification functions.

Everything outside the program is an input:

- HTTP replies, the HMAC, JWT verification, the clock and the voucher server
  are parameters; some are function-valued so that the contract can name the
  request that was made.
- Redis is a class holding a `map<string, string>` plus the expiry each
  write attached.
- New database ids are caller-supplied, with a freshness precondition.

Money is whole UGX as `int`. The price list that turns an amount into a
voucher validity has three copies in the source; it is defined once in
`Entitlement.AmountToExpiry`, and the Airtel, iotec and Pesapal models all
use that definition.

Where the source's tests disagree with the code, the model follows the code:

- the Airtel webhook tests for the status 'SUCCESSFUL', not 'SUCCESS';
- the Airtel signature is accepted only if it equals the HMAC of the body.

## Model

| member | source | states |
|---|---|---|
| Ledger.LedgerService.PostEntry | src/airtel/ledger.service.ts:13-25 | a saved post appends exactly the one entry with the given wallet, amount, direction and reference; a failed save changes nothing |
| Ledger.LedgerService.Transfer | src/airtel/ledger.service.ts:30-33 | a completed transfer appends DEBIT `from` then CREDIT `to`, with one amount and one reference; a failed credit leaves the debit in place; a failed debit posts nothing |
| Ledger.TransferBalanced | src/airtel/ledger.service.ts:30-33 | the two entries of a transfer have a signed sum of zero |
| Ledger.TransferEntries | src/airtel/ledger.service.ts:30-33 | the two entries of a transfer, whose balance, wallet effect and filing are stated by TransferBalanced, TransferMovesMoney and TransferFilesTwoEntries |
| Ledger.TransferMovesMoney | src/airtel/ledger.service.ts:30-33 | a transfer moves `amount` out of the source wallet and into the destination, and leaves every other wallet's net movement unchanged |
| Ledger.TransferFilesTwoEntries | src/airtel/ledger.service.ts:31-32 | the reference's entries grow by exactly the debit and the credit, in that order |
| Ledger.HalfTransferUnbalanced | src/airtel/ledger.service.ts:31-32 | a transfer whose credit failed leaves the books short by the amount (no rollback) |
| Revenue.RevenueService.Split | src/airtel/revenue.service.ts:9-36 | appends the escrow debit, reseller credit and platform credit, in that order and under one reference; a failed save stops the sequence and keeps the earlier posts |
| Revenue.SplitNetEffect | src/airtel/revenue.service.ts:9-36 | a split changes the signed sum by resellerShare + platformShare − total |
| Revenue.SplitEntries | src/airtel/revenue.service.ts:9-36 | the three entries of a split, whose net effect is stated by SplitNetEffect and SplitBalancedIff |
| Revenue.SplitBalancedIff | src/airtel/revenue.service.ts:9-36 | a split is balanced if and only if the shares add up to the total, which the code does not check |
| AirtelWebhook.VerifySignature | src/airtel/airtel.webhook.controller.ts:42-60 | accepted if and only if signature, body and secret are present and the signature equals the HMAC; a missing signature or body gives false; a missing secret raises; a length mismatch raises RangeError |
| AirtelWebhook.PrefixedSignatureRejected | src/airtel/airtel.webhook.controller.ts:51-60 | a 'sha256='-prefixed signature is never accepted: no prefix is expected |
| AirtelWebhook.SuccessChain | src/airtel/airtel.webhook.controller.ts:98-167 | a credit happens if and only if the status is 'SUCCESSFUL', the cached phone is present and a wallet has it; a voucher is sent if and only if there was a credit and the amount is listed, and it goes to `payload.phone` with the listed expiry |
| AirtelWebhook.UnlistedAmountCreditedWithoutVoucher | src/airtel/airtel.webhook.controller.ts:110-138 | an amount off the list is still credited but gets no voucher and no reply |
| AirtelWebhook.AirtelWebhookController.Handle | src/airtel/airtel.webhook.controller.ts:64-169 | a failed check raises with the store and ledger unchanged; otherwise the transaction is upserted and the ledger gains exactly the chain's transfer |
| Transactions.UpsertKeepsOneRowPerReference | src/airtel/airtel.webhook.controller.ts:78-96 | on a table with one row per reference (which the callbacks alone keep, though the insert-only endpoints need not), an upsert keeps one row per reference, and that row carries the new status and metadata |
| Transactions.Upserted | src/controllers/iotec.controller.ts:78-97 | an existing reference has only its status and metadata replaced; a new one is appended |
| Transactions.UpsertIdempotent | src/controllers/iotec.controller.ts:78-97 | replaying the same callback leaves the rows as the first upsert left them |
| Transactions.UpsertKeepsIds | src/controllers/iotec.controller.ts:78-97 | an upsert keeps the ids distinct: a found row keeps its id, and a new row brings a fresh one |
| Transactions.TransactionStore.Upsert | src/controllers/iotec.controller.ts:78-97 | the rows become the upsert of the callback's record on any table with distinct ids, including one holding repeated references; ids stay distinct, and a table with one row per reference keeps that property |
| Transactions.TransactionStore.FindByReference | src/repositories/transaction.repository.ts:19-20 | returns a row with that reference, or nothing when there is none |
| Entitlement.AmountToExpiry | src/controllers/iotec.controller.ts:116-148 | a validity exists if and only if the amount is one of the five listed amounts; it is never negative, and it is 0 exactly for 18000 |
| Entitlement.ExpiryTable | src/airtel/airtel.webhook.controller.ts:129-161 | 1000→207360, 2500→622080, 5000→1451520, 9000→2903040, 18000→0, 20000→none |
| Entitlement.ExpiryMonotone | src/services/pesa.service.ts:304-327 | among the amounts with a positive validity, a higher price buys a longer one |
| Entitlement.TwentyThousandUnreachable | src/services/pesa.service.ts:293-324 | the `case 20000` branch is dead behind the allow-list |
| IotecCallbacks.CollectionChain | src/controllers/iotec.controller.ts:102-188 | a wallet is credited if and only if the status is 'Success', `payeeNote \|\| cachedPhone` is truthy, a wallet has that phone, the amount is listed and the voucher request succeeds; the credited wallet is that phone's wallet; no phone or no wallet replies `{received:false}`, as does any other status; the slot gets a code if and only if there was a credit, and that code is the voucher issued to `payer` |
| IotecCallbacks.PayeeNoteWins | src/controllers/iotec.controller.ts:104-109 | a truthy `payeeNote` is the credit phone, whatever the cache holds |
| IotecCallbacks.CachedPhoneFallback | src/controllers/iotec.controller.ts:104-111 | without a truthy `payeeNote`, the phone cached under `transaction:<id>:phone` picks the credited wallet |
| IotecCallbacks.MapStatusIgnoresCase | src/controllers/iotec.controller.ts:243-257 | the withdrawal-status mapping ignores letter case |
| IotecCallbacks.MapStatusTable | src/controllers/iotec.controller.ts:243-257 | SUCCESSFUL→PAID, PENDING→APPROVED, FAILED→REJECTED, and 'Success' (unlisted)→REQUESTED, in mixed case |
| IotecCallbacks.MapStatusToWithdrawalStatus | src/controllers/iotec.controller.ts:243-257 | the mapping, whose case-insensitivity is stated by MapStatusIgnoresCase and whose rows are fixed by MapStatusTable |
| IotecCallbacks.WithdrawalUpserted | src/controllers/iotec.controller.ts:260-278 | withdrawals change only when userId, amount and destination are all truthy; then an existing id has its status overwritten, or one record is appended with the mapped status |
| IotecCallbacks.IotecController.HandleWebhook | src/controllers/iotec.controller.ts:48-188 | the callback is upserted with no signature or replay check; the ledger gains the chain's transfer; the slot 'cached-voucher' ends holding the code with a 30 s expiry, or is untouched |
| IotecCallbacks.IotecController.DisbursementWebhook | src/controllers/iotec.controller.ts:194-304 | a known replay key raises 'Replay detected' with no change; otherwise the marker (600 s) is set before the signature check; a failed check leaves the transactions and withdrawals unchanged; a passed one upserts both |
| IotecSignature.VerifySignature | src/services/iotec.webhook.service.ts:15-41 | returns true if and only if the signature equals 'sha256=' plus the hex HMAC; otherwise it raises Unauthorized (missing signature, missing secret, mismatch) or RangeError (length mismatch); it never returns false |
| IotecSignature.BareDigestRejected | src/services/iotec.webhook.service.ts:24-40 | a digest without the 'sha256=' prefix is refused |
| IotecSignature.IotecWebhookService.constructor | src/services/iotec.webhook.service.ts:8-13 | the secret is the environment value, or empty when unset |
| Wallets.Patched | src/services/wallet.service.ts:99 | a patch overwrites exactly the fields it supplies (user, phone, currency, balance) and keeps the others |
| Wallets.EmptyPatchIdentity | src/services/wallet.service.ts:99 | an empty patch changes nothing |
| Wallets.AdjustBalance | src/services/wallet.service.ts:109-120 | an unknown id is NotFound; otherwise only that wallet's balance changes, by the signed amount, with no lower bound |
| Wallets.AdjustBalanceAdditive | src/services/wallet.service.ts:109-120 | two balance updates add up to one update by the sum |
| Wallets.PatchWallet | src/services/wallet.service.ts:89-101 | an unknown id is NotFound; otherwise only that wallet is patched |
| Wallets.WalletService.CreateWallet | src/services/wallet.service.ts:16-41 | an existing (userId, currency) wallet is returned with nothing created; otherwise exactly one wallet is appended, with currency defaulting to 'USD' and balance to 0 |
| Wallets.WalletService.UpdateBalance | src/services/wallet.service.ts:109-120 | the store becomes AdjustBalance of the old store; the returned wallet's balance is the old balance plus the amount |
| Wallets.WalletService.UpdateWallet | src/services/wallet.service.ts:89-101 | the store becomes PatchWallet of the old store; the returned wallet is the patched one |
| Wallets.WalletService.FindByUserIdAndCurrency | src/services/wallet.service.ts:58-63 | returns a wallet with that user and currency, or nothing when none exists |
| Wallets.WalletService.FindByUserId | src/services/wallet.service.ts:48-50 | returns a wallet of that user, or nothing when the user has none |
| Wallets.WalletByPhone | src/services/wallet.service.ts:70-72 | a wallet registered to the phone, or nothing when no wallet has it |
| Wallets.WalletService.FindByPhone | src/services/wallet.service.ts:70-72 | returns a wallet with that phone, or nothing when none has it |
| Wallets.WalletService.FindById | src/services/wallet.service.ts:79-81 | returns the wallet with that id, or nothing when the id is unknown |
| Withdrawals.SetStatus | src/services/withdrawal.service.ts:64-75 | an unknown id is NotFound; otherwise only that record's status changes |
| Withdrawals.AnyTransitionAccepted | src/services/withdrawal.service.ts:64-75 | any status can be set from any status, including out of PAID and REJECTED |
| Withdrawals.WithdrawalService.CreateWithdrawal | src/services/withdrawal.service.ts:17-29 | appends one record, whose status defaults to REQUESTED |
| Withdrawals.WithdrawalService.UpdateStatus | src/services/withdrawal.service.ts:64-75 | the store becomes SetStatus of the old store; the result is the old record with the new status |
| Withdrawals.WithdrawalService.FindByStatus | src/services/withdrawal.service.ts:45-47 | returns exactly the withdrawals with that status |
| Withdrawals.WithdrawalService.FindByUserId | src/services/withdrawal.service.ts:36-38 | returns exactly the user's withdrawals |
| Withdrawals.WithdrawalService.FindById | src/services/withdrawal.service.ts:54-56 | returns the withdrawal with that id, or nothing when the id is unknown |
| Payments.CreatePaymentRows | src/services/payment.service.ts:20-44 | an existing reference creates nothing; otherwise one payment is appended; references stay unique |
| Payments.CreatePaymentIdempotent | src/services/payment.service.ts:30-33 | a second creation with the same reference changes nothing |
| Payments.SetPaymentStatus | src/services/payment.service.ts:98-117 | an unknown id is NotFound; otherwise only that payment's status changes, and rawResponse changes only when a truthy one is supplied |
| Payments.StatusUpdateKeepsResponse | src/services/payment.service.ts:111-114 | a status update without a response keeps every stored response |
| Payments.SetRawResponse | src/services/payment.service.ts:125-139 | an unknown id is NotFound; otherwise only that payment's rawResponse changes |
| Payments.PaymentService.CreatePayment | src/services/payment.service.ts:20-44 | the store becomes CreatePaymentRows of the old store (status defaults to PENDING); an existing payment is returned unchanged |
| Payments.PaymentService.UpdateStatus | src/services/payment.service.ts:98-117 | the store becomes SetPaymentStatus of the old store |
| Payments.PaymentService.UpdateRawResponse | src/services/payment.service.ts:125-139 | the store becomes SetRawResponse of the old store |
| Payments.PaymentService.FindByReference | src/services/payment.service.ts:51-53 | returns a payment with that reference, or nothing when none has it |
| Payments.PaymentService.FindById | src/services/payment.service.ts:87-89 | returns the payment with that id, or nothing when the id is unknown |
| Payments.PaymentService.FindByType | src/services/payment.service.ts:60-62 | returns exactly the payments of that type |
| Payments.PaymentService.FindByStatus | src/services/payment.service.ts:69-71 | returns exactly the payments with that status |
| Payments.PaymentService.FindByProvider | src/services/payment.service.ts:78-80 | returns exactly the payments of that provider |
| Payments.PaymentService.GetPaymentsByUserId | src/services/payment.service.ts:146-152 | returns exactly the user's payments |
| PlatformRevenueStore.Added | src/repositories/platform-revenue.repository.ts:32-39 | lastRevenue becomes the old current revenue, current revenue grows by the amount, and the count grows by 1 |
| PlatformRevenueStore.AddedAllAccumulates | src/repositories/platform-revenue.repository.ts:32-39 | a series of additions adds their sum and their number |
| PlatformRevenueStore.PlatformRevenueRepository.GetOrCreate | src/repositories/platform-revenue.repository.ts:19-30 | returns the singleton, or creates it with all three counters at 0 |
| PlatformRevenueStore.PlatformRevenueRepository.AddRevenue | src/repositories/platform-revenue.repository.ts:32-39 | the singleton becomes Added(old or zero, amount) |
| PlatformRevenueStore.PlatformRevenueRepository.GetCurrentRevenue | src/repositories/platform-revenue.repository.ts:41-44 | reads the current revenue and changes nothing beyond first-time creation |
| WebhookLogs.MarkProcessed | src/repositories/webhook-log.repository.ts:46-57 | an unknown id fails; otherwise only that log's processed flag becomes true |
| WebhookLogs.MarkProcessedIdempotent | src/repositories/webhook-log.repository.ts:46-57 | marking twice equals marking once |
| WebhookLogs.WebhookLogRepository.CreateWebhookLog | src/repositories/webhook-log.repository.ts:33-44 | appends one log, with processed defaulting to false |
| WebhookLogs.WebhookLogRepository.FindByProvider | src/repositories/webhook-log.repository.ts:19-24 | returns exactly the logs of that provider |
| WebhookLogs.WebhookLogRepository.FindByProcessed | src/repositories/webhook-log.repository.ts:26-31 | returns exactly the logs with that flag |
| WebhookLogs.WebhookLogRepository.MarkAsProcessed | src/repositories/webhook-log.repository.ts:46-57 | the store becomes MarkProcessed of the old store |
| Users.SettledStatus | src/controllers/users.controller.ts:393-445 | PAID if and only if the provider said 'Success'; APPROVED if and only if it said 'Scheduled'; never REQUESTED |
| Users.DebitIffNotRejected | src/controllers/users.controller.ts:393-445 | the gross amount is debited if and only if the withdrawal is not rejected |
| Users.FailureMessage | src/controllers/users.controller.ts:431 | failure messages start with 'Withdrawal failed: ' |
| Users.UsersController.RequestWithdrawal | src/controllers/users.controller.ts:341-446 | below 10000, with no wallet or with too small a balance: nothing changes and the reply is 'Minimum withdrawal amount is UGX 10,000', 'Wallet not found' or 'Insufficient balance' respectively; otherwise the REQUESTED record (net = amount − 1000, always > 0) is appended, then settled; the gross amount is debited on Success or Scheduled; 400 revenue is added on Scheduled |
| Users.LinkedRouters | src/controllers/users.controller.ts:488-492 | exactly the routers whose holder is the user's phone |
| Users.LinkedRoutersAppend | src/controllers/users.controller.ts:490-492 | the filter keeps listing order and duplicates: the routers of a + b are those of a followed by those of b |
| Users.LinkedRoutersSingle | src/controllers/users.controller.ts:490-492 | a single router is kept exactly when its holder is the user's phone |
| Users.RouterRoundRobin | src/controllers/users.controller.ts:527 | router assignment repeats with period \|linked\|; the i-th voucher gets router i mod \|linked\|; with no router it is 'Main-Lobby-R1' |
| Users.DurationMs | src/controllers/users.controller.ts:653-666 | a listed duration name gives its table value, anything else 3600000 ms |
| Users.DurationSeconds | src/controllers/users.controller.ts:495-515 | never negative; NaN (none) exactly when no hour, minute or day pattern matches and the text is not a number; HoursExample, MinutesExample, DaysExample, HourBeatsDay and BareNumberIsHours fix its branches |
| Users.DurationFromExpiry | src/controllers/users.controller.ts:673-694 | the bucket choice and counts are stated by DurationFromExpiryBuckets, and the names it builds are related to DurationMs by DurationRoundTrip |
| Users.CeilDiv | src/controllers/users.controller.ts:682 | the ceiling of a/b, bounded on both sides |
| Users.DurationFromExpiryBuckets | src/controllers/users.controller.ts:673-694 | within each bucket the count is between 1 and the bucket's bound, and it is 1 exactly at the bucket unit (no 's' suffix) |
| Users.DurationRoundTrip | src/controllers/users.controller.ts:653-694 | the duration name built from exactly 1 hr/day/week/month maps back to that many ms; every other name falls to the 1-hour default |
| Users.NotInDurationTable | src/controllers/users.controller.ts:653-666 | plural names ('…s') and 'min'-style names are not in the table |
| Users.FirstMatch | src/controllers/users.controller.ts:499-509 | the leftmost position where digits, spaces and the unit match |
| Users.NumberOf | src/controllers/users.controller.ts:511-513 | `Number` of a digit string is its value; other text is NaN |
| Users.BareNumberIsHours | src/controllers/users.controller.ts:510-513 | a bare number is read as hours |
| Users.HoursExample | src/controllers/users.controller.ts:499-501 | "6 hours" is 21600 s |
| Users.MinutesExample | src/controllers/users.controller.ts:503-505 | "30minutes" is 1800 s |
| Users.DaysExample | src/controllers/users.controller.ts:506-509 | "2 days" is 172800 s |
| Users.HourBeatsDay | src/controllers/users.controller.ts:499-509 | "1 day 2 hours" is read as 2 hours: an hour match wins |
| Users.FormatVouchers | src/controllers/users.controller.ts:524-533 | one voucher per code, with router i round-robin, expiring now + DurationMs, created by the user |
| Users.AsWrittenChargeCredits | src/controllers/users.controller.ts:485 | as written, the charge leaves balance 2·b − 5000, so a balance above 5000 grows |
| Users.CorrectedChargeDeducts | src/controllers/users.controller.ts:477-485 | the corrected charge leaves b − 5000 ≥ 0 |
| Users.UsersController.GenerateVouchers | src/controllers/users.controller.ts:457-539 | no phone, no wallet or balance < 5000 gives an error with nothing changed; otherwise the corrected charge (see Findings) deducts 5000 and the reply lists the formatted vouchers of the parsed duration |
| AirtelGateway.CachedTokenReused | src/airtel/airtel.service.ts:22-26 | a live in-memory token is returned with no request and no state change |
| AirtelGateway.FreshTokenReused | src/airtel/airtel.service.ts:22-61 | a fetched token is reused, with no request, until its expiry; the Redis copy is refused when expires_in ≤ 60 |
| AirtelGateway.AirtelToken | src/airtel/airtel.service.ts:22-61 | the token step, whose reuse and refresh are stated by CachedTokenReused and FreshTokenReused |
| AirtelGateway.AirtelService.GetAccessToken | src/airtel/airtel.service.ts:22-61 | the token step as specified; Redis gets the token with TTL expires_in − 60 only on a fresh fetch |
| AirtelGateway.AirtelService.CollectMoney | src/airtel/airtel.service.ts:78-117 | `transaction:<ref>:phone` (86400 s) is written only when a reseller phone is given and a token was obtained |
| AirtelGateway.AirtelService.CollectFunds | src/airtel/airtel.service.ts:64-75 | a successful primary is returned with no MTN call; a failed one calls MTN exactly once with the same request and returns its result; the token, the in-memory expiry and Redis end as `collectMoney` leaves them, and the MTN fallback changes no gateway state |
| AirtelGateway.PayeeWallet | src/airtel/airtel.service.ts:126-129 | found if and only if some wallet has the phone; otherwise 'User wallet not found' |
| AirtelGateway.AsWiredRejectsKnownPayee | src/airtel/airtel.service.ts:14-19 | as wired, even a payee with a wallet gets a TypeError |
| AirtelGateway.AirtelService.DisburseMoney | src/airtel/airtel.service.ts:120-157 | a missing wallet fails before any token fetch or request, with nothing changed; otherwise the payout is posted with the token, and the token state and Redis are those left by `getAccessToken` (the token key written with TTL expires_in − 60 only on a fresh fetch) |
| AirtelGateway.AirtelService.CheckStatus | src/airtel/airtel.service.ts:160-175 | the status request goes out with the token, and a token error is returned instead; the token state and Redis are those left by `getAccessToken` |
| IotecGateway.TokenTiers | src/services/iotec.service.ts:24-78 | memory first, then Redis (trusted 60 s), then the endpoint; a returned token is the one held in memory; only the endpoint tier writes, and only the token key; status ≥ 400 raises with no change |
| IotecGateway.IotecToken | src/services/iotec.service.ts:24-78 | the three-tier token step, whose tiers, writes and error cases are stated by TokenTiers |
| IotecGateway.IotecService.GetAccessToken | src/services/iotec.service.ts:24-78 | in-memory state and Redis follow the token step, with TTL expires_in − 30 |
| IotecGateway.SettledRead | src/services/iotec.service.ts:194-200 | the wait ends at the first read that is not 'zero', or once 60 s have passed; every earlier read was 'zero' within the minute |
| IotecGateway.VoucherWaitBounded | src/services/iotec.service.ts:191-209 | at most 32 slot reads; a slot that stays 'zero' yields null; a code is the re-read after a non-'zero' value |
| IotecGateway.VoucherWait | src/services/iotec.service.ts:191-209 | the wait's outcome, bounded and characterised by VoucherWaitBounded and computed by IotecService.WaitForVoucher |
| IotecGateway.IotecService.WaitForVoucher | src/services/iotec.service.ts:191-209 | the loop computes VoucherWait; a found code resets the slot to 'zero' with no expiry, and otherwise Redis is unchanged |
| IotecGateway.StatusPoll | src/services/iotec.service.ts:356-384 | 1 to 10 checks; stops at the first error or terminal status; a non-terminal result comes only from the 10th check |
| IotecGateway.PollGivesUpAfterTen | src/services/iotec.service.ts:377-384 | statuses that never settle are checked exactly ten times and the last is returned |
| IotecGateway.IotecService.PollStatus | src/services/iotec.service.ts:356-384 | the `for` loop computes StatusPoll |
| IotecGateway.PolledSlotNotInitialised | src/services/iotec.service.ts:111-113 | no write before the wait touches 'cached-voucher'; the collection initialises 'cached-voucher:' instead |
| IotecGateway.IotecService.CollectClientFunds | src/services/iotec.service.ts:96-268 | the correlation keys, then the token, then the reply's keys (for a truthy id), then the wait, in that order; errors become HTTP errors, status ≥ 400 kept |
| IotecGateway.IotecService.WalletToMobileMoney | src/services/iotec.service.ts:277-398 | the three correlation keys come first; a reply with a truthy id records its status and is polled; a reply without one is returned with no polling |
| IotecGateway.IotecService.CheckTransactionStatus | src/services/iotec.service.ts:611-709 | a truthy cached status is returned with `cached: true`, no request and no change; otherwise the reply's truthy fields refresh the cache |
| IotecGateway.CancelOutcome | src/services/iotec.service.ts:939-952 | status ≥ 400 raises; otherwise success if and only if statusCode is 1 |
| IotecGateway.IotecService.CancelPendingDisbursement | src/services/iotec.service.ts:916-960 | the token, then CancelOutcome of the reply |
| Pesa.ExpiryFromOrder | src/services/pesa.service.ts:277-328 | no message is a TypeError; a 'CASH DEPOSIT' needs both labelled numbers (else TypeError); without it the expiry is 0; the sender is kept; a positive expiry is the price list's value for the first labelled amount |
| Pesa.PesaUsesPriceList | src/services/pesa.service.ts:293-327 | the Pesa parse grants exactly the price list's validity, and 0 for 18000 and for unlisted amounts |
| Pesa.AmountIsFirstLabelled | src/services/pesa.service.ts:287 | the amount is the number after the leftmost 'Amount: ' that is followed by digits |
| Pesa.LabelledNumber | src/services/pesa.service.ts:286-287 | a number exists if and only if the label followed by digits occurs; AmountIsFirstLabelled says it is the leftmost one |
| Pesa.DepositExample | src/services/pesa.service.ts:285-327 | "CASH DEPOSIT Reference: 7 Amount: 2500" grants 622080 to the sender |
| Pesa.LastMatchingIpnIsLast | src/services/pesa.service.ts:221-229 | the chosen IPN has the configured url and no later IPN does; with no match the choice is null |
| Pesa.LastMatchingIpn | src/services/pesa.service.ts:221-229 | never `false`; LastMatchingIpnIsLast says it is the last IPN with the configured url |
| Pesa.PesaService.SelectIpn | src/services/pesa.service.ts:217-229 | the `for` loop computes the last matching IPN; a `false` list gives null |
| Pesa.Order | src/services/pesa.service.ts:249-261 | currency 'UGX', amount = selectedPrice, phone = the request's, notification_id = the chosen IPN id |
| Pesa.PesaService.InitiateMobileMoneyPayment | src/services/pesa.service.ts:213-274 | an IPN is registered only when none matches; the payment goes on unless the id is null or undefined (a `false` goes on); going on records the order in `globalObj` and submits it |
| Pesa.ConfirmPayment | src/services/pesa.service.ts:334-356 | a failed save returns false; a voucher request is made if and only if the save succeeded, the status is 'COMPLETED' and the parse succeeded |
| Otp.FormatPhoneInternational | src/services/otp-service/otp2.service.ts:74-85 | every formatted phone starts with '+'; a national one gets '+256'; a '+' phone is unchanged |
| Otp.FormatPhone | src/services/otp-service/otp2.service.ts:74-85 | every result starts with '+' and is no shorter than the input; FormatPhoneInternational and FormatPhoneIdempotent carry the rest |
| Otp.FormatPhoneIdempotent | src/services/otp-service/otp2.service.ts:74-85 | formatting twice equals formatting once |
| Otp.SendSmsVoucher | src/services/otp-service/otp2.service.ts:56-101 | a reply other than 200 or 403 gives empty results; otherwise the server's code, with a missing phone raising TypeError |
| Fraud.Check | src/airtel/fraud.service.ts:10-18 | raises Forbidden if and only if the amount exceeds 500000; otherwise true |
| JwtGuard.Authenticate | src/guards/jwt-auth.guard.ts:8-25 | passes if and only if the header starts with the case-sensitive 'Bearer ' and the verifier accepts the trimmed remainder; every failure is Unauthorized |
| JwtGuard.LowerCaseSchemeRefused | src/guards/jwt-auth.guard.ts:12 | 'bearer ' is refused |
| JwtGuard.PaddingIgnored | src/guards/jwt-auth.guard.ts:16 | spaces around the token do not change the outcome |
| JwtGuard.CanActivate | src/guards/jwt-auth.guard.ts:8-25 | on success it sets `request.user` to the claims and returns true; on failure it raises and leaves the request unchanged |
| RedisStore.ApplySetsConcat | src/services/iotec.service.ts:111-113 | two series of SETs issued in turn act as one series |
| RedisStore.ApplySetsUntouched | src/services/iotec.service.ts:111-113 | a key that no command names keeps its value and expiry |
| RedisStore.ApplySetsLastWrite | src/services/iotec.service.ts:151-186 | the last accepted write to a key decides its value |
| RedisStore.Redis.Set | src/services/iotec.service.ts:70-75 | SET with a non-positive EX is refused and writes nothing; a SET without EX clears the key's expiry |
| RedisStore.Redis.IssueAll | src/services/iotec.service.ts:298-300 | issuing a series in a loop gives ApplySets of the old store |

## Left out

- HTTP transport, axios, undici and the Pesapal request wrapper are not modelled. Provider replies are parameters; the fields copied from a reply into the returned object are reduced to the ones the logic uses.
- Redis key expiry is recorded but not simulated: a key stays readable until it is overwritten.
- The voucher slot in the iotec wait is filled by the collection callback running concurrently, so its successive reads are an input sequence.
- Clocks and sleeping are not modelled. `now`, the elapsed time at each slot read and the timestamp order id are inputs; the elapsed times are only required to grow by at least 2 s per read.
- Money is `int`. JavaScript doubles, numeric(10,2) decimals and `parseFloat` are not modelled; neither is the precision of very long digit strings under `Number`.
- `Number` of text other than a plain digit string is NaN in the model. Signs, decimals, hex and exponent forms are left out, as are prototype keys (such as 'constructor') in the duration table lookup.
- `ToLower`/`ToUpper` map ASCII letters only; full Unicode case mapping is left out.
- TypeORM `where` clauses with an undefined value are not modelled. Finders take their criteria as given.
- Failures of repository saves inside the webhook handlers and the users controller are not modelled. They are modelled for the ledger (`saved` flags) only.
- The user store is not modelled. The user's phone in voucher generation is an input.
- The voucher-generation API (`bulk`) and the SMS voucher server (`generate`) are function parameters. A network error after the debit in `generateVouchers` is left out.
- A token refresh between status checks of the iotec poll is not modelled. The status oracle answers each check.
- PLATFORM_WALLET is a constructor parameter. The Airtel queue consumer (airtel.queue.ts) is not part of this model.
- The logging-only lines of the disbursement webhook (iotec.controller.ts:281-302) are not modelled.
- Callback fields the source reads without checking (an undefined status or amount) are taken as present strings and numbers. `payer`, `payeeNote`, phone and destination are optional where the code tests them.
- The `netAmount <= 0` branch of requestWithdrawal is unreachable once amount ≥ 10000. The method asserts that the net amount is positive instead of carrying the branch.
- `PaymentService.createPayment` is modelled by its parameter names. The source passes seven positional arguments, user id first, to a repository method that takes six with the reference first; that mismatch is left out.
- `paymentConfirmation` is fed the whole axios response by `getPaymentStatus` (which returns `response`, not `response.data`). The model takes the payment record as its input.
- The iotec collection handler sets `clientPhoneNumber`, which is not a column of the transaction entity. That write is not modelled.
- Pesapal `getToken`, `registerIPN`, `getIPNs` and `getPaymentStatus` are network wrappers; their results are inputs. `sendSMS` is fire-and-forget behind a token request, and the model reports the voucher request it hands on.
- approveOrRejectDisbursement, walletToBank and the transaction listings of the iotec service are not part of this model. They are request builders around the same token step.
- WebhookLogs.WebhookLogRepository.FindByProvider: the contract states membership only. The newest-first order is in the definition (`NewestFirstWhere`), not in the ensures.
- WebhookLogs.WebhookLogRepository.FindByProcessed: the contract states membership only. The newest-first order is in the definition, not in the ensures.
- Transactions.Upserted: the reference column is not unique (src/entities/transaction.entity.ts:8-9), and the collect, mobile-money, bank-transfer and approve endpoints of the iotec controller insert rows without a lookup. When a reference sits on several rows, the model updates the first of them, while `findOne` with no order may return any. The insert-only endpoints themselves are not part of this model; the store accepts any table with distinct ids.
- Transactions.TransactionStore.FindByReference: the model returns the first row with the reference; the contract promises only some row with it, as `findOne` does.
- Wallets.Patched: the patch type has no `id`. `updateWallet` takes a `Partial<WalletEntity>`, and `Object.assign` would copy a supplied `id` before `save`; what TypeORM then does with a changed primary key is not modelled, so the model promises nothing about an id-changing patch.
- Wallets.WalletService.UpdateWallet: for the same reason, only patches without an `id` are modelled.
- Withdrawals.WithdrawalService.FindByUserId: the contract states membership only. The newest-first order is in the definition, not in the ensures.
- Withdrawals.WithdrawalService.FindByStatus: the contract states membership only. The newest-first order is in the definition, not in the ensures.
- Payments.PaymentService.FindByType: the contract states membership only. The newest-first order is in the definition, not in the ensures.
- Payments.PaymentService.FindByStatus: the contract states membership only. The newest-first order is in the definition, not in the ensures.
- Payments.PaymentService.FindByProvider: the contract states membership only. The newest-first order is in the definition, not in the ensures.
- Payments.PaymentService.GetPaymentsByUserId: the contract states membership only. The newest-first order is in the definition, not in the ensures.

## Findings

| source | as written | input that shows it | evidently intended | confidence | as-written member | corrected member |
|---|---|---|---|---|---|---|
| src/controllers/users.controller.ts:485 | the voucher charge passes `balance − 5000` to `updateBalance`, which adds its argument, so the balance becomes 2·balance − 5000 | a wallet with balance 10000 generates vouchers and ends at 15000 | deduct 5000 (delta −5000), leaving 5000 | not executed | Users.AsWrittenChargeCredits | Users.CorrectedChargeDeducts, Users.UsersController.GenerateVouchers |
| src/airtel/airtel.service.ts:14-19 | `walletService` is declared but not injected by the constructor, so `disburseMoney` reads `findByPhone` of undefined | any payout, including one to a phone that has a wallet, throws a TypeError | look the payee up through an injected WalletService | not executed | AirtelGateway.AsWiredRejectsKnownPayee | AirtelGateway.AirtelService.DisburseMoney |
