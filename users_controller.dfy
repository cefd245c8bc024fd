/**
 * The two money-moving endpoints of UsersController and its duration
 * helpers.
 *
 * `requestWithdrawal` refuses amounts under 10000, a missing wallet and an
 * insufficient balance; otherwise it records a REQUESTED withdrawal of the
 * amount less a flat 1000 charge, asks iotec to disburse it, and settles:
 * 'Success' debits the gross amount and marks the withdrawal PAID,
 * 'Scheduled' debits it, books 400 of platform revenue and marks it APPROVED,
 * anything else (or an exception) marks it REJECTED without a debit.
 *
 * `generateVouchers` charges 5000 per generation, parses the requested
 * duration ("6 hours", "30 minutes", "2 days", a bare number of hours),
 * orders the codes and assigns the user's routers round robin.
 */
module Users {
  import opened Common
  import opened Wallets
  import opened Withdrawals
  import opened PlatformRevenueStore

  const MinWithdrawal: int := 10000
  const WithdrawalCharge: int := 1000
  /** `config.platformRevenueConstant` */
  const PlatformRevenueConstant: int := 400
  const VoucherCost: int := 5000

  /** What `iotecService.walletToMobileMoney` did: returned a result with a status, or threw. */
  datatype Disbursement = Returned(status: string, statusMessage: Option<string>) | Threw(message: Option<string>)

  /** `{success, message, withdrawal?, platformRevenue?}` */
  datatype WithdrawalReply = WithdrawalReply(success: bool, message: string, withdrawal: Option<Withdrawal>,
                                             platformRevenue: Option<int>)

  /** The status a recorded withdrawal ends in, given the disbursement outcome. */
  function SettledStatus(outcome: Disbursement): (s: WithdrawalStatus)
    ensures s == Paid <==> outcome.Returned? && outcome.status == "Success"
    ensures s == Approved <==> outcome.Returned? && outcome.status == "Scheduled"
    ensures s != Requested
  {
    match outcome
    case Returned(status, _) =>
      if status == "Success" then Paid else if status == "Scheduled" then Approved else Rejected
    case Threw(_) => Rejected
  }

  /** Whether the outcome debits the wallet: exactly the outcomes that do not reject the withdrawal. */
  predicate Debits(outcome: Disbursement)
  {
    outcome.Returned? && (outcome.status == "Success" || outcome.status == "Scheduled")
  }

  lemma DebitIffNotRejected(outcome: Disbursement)
    ensures Debits(outcome) <==> SettledStatus(outcome) != Rejected
  {
  }

  /** The message of a failed settlement: the provider's message, or 'Unknown error'. */
  function FailureMessage(message: Option<string>): (m: string)
    ensures StartsWith(m, "Withdrawal failed: ")
  {
    var m := "Withdrawal failed: " + (if Truthy(message) then message.value else "Unknown error");
    assert m[..19] == "Withdrawal failed: ";
    m
  }

  /** The status update of the withdrawal just appended touches that withdrawal alone. */
  lemma SetStatusOfLast(ws: seq<Withdrawal>, w: Withdrawal, status: WithdrawalStatus)
    requires forall k :: 0 <= k < |ws| ==> ws[k].id != w.id
    ensures SetStatus(ws + [w], w.id, status) == Ok(ws + [w.(status := status)])
  {
    var all := ws + [w];
    var i := Withdrawals.IndexOfId(all, w.id);
    assert all[|ws|].id == w.id;
    assert i == Some(|ws|);
    assert all[|ws| := w.(status := status)] == ws + [w.(status := status)];
  }

  /** A router as `externalApiService.getRouters` lists it. */
  datatype Router = Router(holderNumber: Option<string>, routerIP: Option<string>)

  /** The routers held by `phone`, in listing order. */
  function LinkedRouters(routers: seq<Router>, phone: string): (r: seq<Router>)
    ensures |r| <= |routers|
    ensures forall x :: x in r <==> x in routers && x.holderNumber == Some(phone)
  {
    if |routers| == 0 then []
    else
      var rest := LinkedRouters(routers[1..], phone);
      assert forall x :: x in routers <==> x == routers[0] || x in routers[1..];
      if routers[0].holderNumber == Some(phone) then [routers[0]] + rest else rest
  }

  /**
   * The filter keeps listing order and duplicates: the routers of two lists
   * are the routers of each, in turn.
   */
  lemma {:induction false} LinkedRoutersAppend(a: seq<Router>, b: seq<Router>, phone: string)
    ensures LinkedRouters(a + b, phone) == LinkedRouters(a, phone) + LinkedRouters(b, phone)
    decreases |a|
  {
    if |a| == 0 {
      assert a + b == b;
    } else {
      var ab := a + b;
      assert ab[0] == a[0];
      assert ab[1..] == a[1..] + b;
      LinkedRoutersAppend(a[1..], b, phone);
    }
  }

  /** One listed router is kept exactly when its holder is the phone. */
  lemma LinkedRoutersSingle(x: Router, phone: string)
    ensures LinkedRouters([x], phone) == if x.holderNumber == Some(phone) then [x] else []
  {
    assert [x][1..] == [];
  }

  /** The router shown on the `index`-th voucher: round robin over the linked routers. */
  function RouterFor(linked: seq<Router>, index: nat): string
  {
    if |linked| > 0 then
      var ip := linked[index % |linked|].routerIP;
      if Truthy(ip) then ip.value else "Unknown Router"
    else "Main-Lobby-R1"
  }

  /** The assignment repeats with the number of linked routers as its period. */
  lemma RouterRoundRobin(linked: seq<Router>, index: nat)
    ensures RouterFor(linked, index + |linked|) == RouterFor(linked, index)
    ensures |linked| > 0 && Truthy(linked[index % |linked|].routerIP) ==>
              RouterFor(linked, index) == linked[index % |linked|].routerIP.value
    ensures |linked| == 0 ==> RouterFor(linked, index) == "Main-Lobby-R1"
  {
    if |linked| > 0 {
      ModPeriod(index, |linked|);
    }
  }

  lemma ModPeriod(a: nat, n: nat)
    requires n > 0
    ensures (a + n) % n == a % n
  {
    var q, r := a / n, a % n;
    assert a == q * n + r;
    assert a + n == (q + 1) * n + r by { assert (q + 1) * n == q * n + n; }
    ModUnique(a + n, n, q + 1, r);
  }

  /** Euclidean division has one remainder. */
  lemma ModUnique(x: int, n: int, q: int, r: int)
    requires n > 0 && 0 <= r < n && x == q * n + r
    ensures x % n == r
  {
    var q', r' := x / n, x % n;
    assert x == q' * n + r';
    assert (q + 1) * n == q * n + n && (q' + 1) * n == q' * n + n;
    if q' > q {
      MulMono(q + 1, q', n);
    } else if q' < q {
      MulMono(q' + 1, q, n);
    }
  }

  lemma MulMono(a: int, b: int, n: int)
    requires a <= b && n > 0
    ensures a * n <= b * n
  {
    assert b * n - a * n == (b - a) * n;
  }

  /** A voucher as the endpoint formats it; `expiresAt` is in milliseconds since the epoch. */
  datatype Voucher = Voucher(id: string, tokenId: string, router: string, duration: string, expiresAt: int,
                             createdBy: string)

  /** `generateVouchers`' reply. */
  datatype GenerationReply = Generated(vouchers: seq<Voucher>, message: string) | GenerationError(message: string)

  /** `getDurationMs`: the duration names the voucher catalogue knows, in milliseconds. */
  const DurationTable: map<string, int> := map[
    "1hr" := 3600000, "2hr" := 7200000, "4hr" := 14400000, "8hr" := 28800000,
    "1day" := 86400000, "3day" := 259200000, "1week" := 604800000, "1month" := 2592000000
  ]

  const DefaultDurationMs: int := 3600000

  /** `getDurationMs(duration)`: the table entry, or one hour for a name it does not know. */
  function DurationMs(duration: string): (ms: int)
    ensures ms > 0
    ensures duration !in DurationTable ==> ms == DefaultDurationMs
    ensures duration in DurationTable ==> ms == DurationTable[duration]
  {
    if duration in DurationTable then DurationTable[duration] else DefaultDurationMs
  }

  /** `Math.ceil(a / b)` for a positive divisor. */
  function CeilDiv(a: int, b: int): (q: int)
    requires b > 0
    ensures (q - 1) * b < a <= q * b
  {
    -((-a) / b)
  }

  /** The plural suffix: 's' when the count is above one. */
  function Plural(n: int): string
  {
    if n > 1 then "s" else ""
  }

  /**
   * `getDurationFromExpiry(s)`: the first unit whose bucket holds `s`
   * (minutes below an hour, then hours, days, weeks, months), with the count
   * rounded up.  Minutes never take a plural suffix.
   */
  function DurationFromExpiry(s: int): string
  {
    if s < 3600 then IntToString(CeilDiv(s, 60)) + "min"
    else if s < 86400 then IntToString(CeilDiv(s, 3600)) + "hr" + Plural(CeilDiv(s, 3600))
    else if s < 604800 then IntToString(CeilDiv(s, 86400)) + "day" + Plural(CeilDiv(s, 86400))
    else if s < 2592000 then IntToString(CeilDiv(s, 604800)) + "week" + Plural(CeilDiv(s, 604800))
    else IntToString(CeilDiv(s, 2592000)) + "month" + Plural(CeilDiv(s, 2592000))
  }

  /** The unit and count `getDurationFromExpiry` picks for `s`. */
  lemma DurationFromExpiryBuckets(s: int)
    ensures 3600 <= s < 86400 ==> 1 <= CeilDiv(s, 3600) <= 24
    ensures 86400 <= s < 604800 ==> 1 <= CeilDiv(s, 86400) <= 7
    ensures 604800 <= s < 2592000 ==> 1 <= CeilDiv(s, 604800) <= 5
    ensures s >= 2592000 ==> CeilDiv(s, 2592000) >= 1
    ensures 3600 <= s < 86400 ==> (CeilDiv(s, 3600) == 1 <==> s == 3600)
    ensures 86400 <= s < 604800 ==> (CeilDiv(s, 86400) == 1 <==> s == 86400)
    ensures 604800 <= s < 2592000 ==> (CeilDiv(s, 604800) == 1 <==> s == 604800)
    ensures s >= 2592000 ==> (CeilDiv(s, 2592000) == 1 <==> s == 2592000)
  {
  }

  lemma IntToStringOne()
    ensures IntToString(1) == "1"
  {
  }

  /** A name ending in the given letter is not in the duration table (no key ends with 's' or 'n'). */
  lemma NotInDurationTable(name: string, last: char)
    requires |name| > 0 && name[|name| - 1] == last && (last == 's' || last == 'n')
    ensures name !in DurationTable
  {
  }

  /**
   * The two duration helpers agree only at whole single units: a duration
   * rendered by `getDurationFromExpiry` is read back by `getDurationMs` as
   * the same length exactly for one hour, one day, one week and one month;
   * every other rendering ("2hrs", "30min", "3days") falls back to one hour.
   */
  lemma DurationRoundTrip(s: int)
    ensures DurationMs(DurationFromExpiry(s)) == if s in {3600, 86400, 604800, 2592000} then s * 1000 else DefaultDurationMs
  {
    DurationFromExpiryBuckets(s);
    IntToStringOne();
    var name := DurationFromExpiry(s);
    if s < 3600 {
      NotInDurationTable(name, 'n');
    } else if s == 3600 {
      assert name == "1hr";
    } else if s == 86400 {
      assert name == "1day";
    } else if s == 604800 {
      assert name == "1week";
    } else if s == 2592000 {
      assert name == "1month";
    } else {
      NotInDurationTable(name, 's');
    }
  }

  /**
   * A match of `(\d+)\s*<unit>` starting at `i`: a digit run, optional white
   * space, then the unit word.
   */
  predicate MatchesAt(s: string, unit: string, i: nat)
  {
    i < |s| && IsDigit(s[i]) && OccursAt(s, unit, SpaceRunEnd(s, DigitRunEnd(s, i)))
  }

  /** The leftmost match at or after `from` (what `String.prototype.match` finds). */
  function FirstMatch(s: string, unit: string, from: nat): (r: Option<nat>)
    decreases |s| - from
    ensures r.Some? ==> from <= r.value && MatchesAt(s, unit, r.value)
    ensures r.Some? ==> forall j :: from <= j < r.value ==> !MatchesAt(s, unit, j)
    ensures r.None? ==> forall j :: from <= j ==> !MatchesAt(s, unit, j)
  {
    if from >= |s| then None
    else if MatchesAt(s, unit, from) then Some(from)
    else FirstMatch(s, unit, from + 1)
  }

  /** The number captured by a match at `i`. */
  function Captured(s: string, i: nat): nat
    requires i < |s| && IsDigit(s[i])
  {
    DigitsValue(s[i..DigitRunEnd(s, i)])
  }

  /**
   * `Number(str)` of the trimmed text: the empty string is 0, a digit string
   * its value, anything else NaN (None).
   */
  function NumberOf(s: string): (r: Option<int>)
    ensures r.Some? <==> AllDigits(s)
  {
    if AllDigits(s) then Some(DigitsValue(s)) else None
  }

  /**
   * The seconds requested for a lower-cased, trimmed duration: an 'hour'
   * match wins over 'minute', which wins over 'day'; without any, the text
   * is read as a number of hours.  None stands for NaN.
   */
  function DurationSeconds(s: string): (r: Option<int>)
    ensures r.Some? ==> r.value >= 0
    ensures r.None? <==> FirstMatch(s, "hour", 0).None? && FirstMatch(s, "minute", 0).None?
                         && FirstMatch(s, "day", 0).None? && !AllDigits(s)
  {
    match FirstMatch(s, "hour", 0)
    case Some(i) => Some(Captured(s, i) * 3600)
    case None =>
      match FirstMatch(s, "minute", 0)
      case Some(i) => Some(Captured(s, i) * 60)
      case None =>
        match FirstMatch(s, "day", 0)
        case Some(i) => Some(Captured(s, i) * 86400)
        case None =>
          match NumberOf(s)
          case Some(n) => Some(n * 3600)
          case None => None
  }

  /** A bare number is a number of hours. */
  lemma {:induction false} BareNumberIsHours(s: string)
    requires AllDigits(s)
    ensures DurationSeconds(s) == Some(DigitsValue(s) * 3600)
  {
    forall unit: string, j: nat | |unit| > 0 && j < |s|
      ensures !MatchesAt(s, unit, j)
    {
      assert DigitRunEnd(s, j) == |s|;
    }
  }

  /** "6 hours" asks for six hours. */
  lemma HoursExample()
    ensures DurationSeconds("6 hours") == Some(21600)
  {
    var a := "6 hours";
    assert DigitRunEnd(a, 0) == 1 && SpaceRunEnd(a, 1) == 2;
    assert a[2..6] == "hour";
    assert a[0..1] == "6";
  }

  /** "30minutes" asks for thirty minutes: the white space is optional. */
  lemma MinutesExample()
    ensures DurationSeconds("30minutes") == Some(1800)
  {
    var b := "30minutes";
    assert DigitRunEnd(b, 1) == 2 && DigitRunEnd(b, 0) == 2 && SpaceRunEnd(b, 2) == 2;
    assert b[2..6] == "minu";
    assert !MatchesAt(b, "hour", 0) && !MatchesAt(b, "hour", 1);
    assert forall j :: 2 <= j < |b| ==> !IsDigit(b[j]);
    assert FirstMatch(b, "hour", 0) == None;
    assert b[2..8] == "minute";
    assert FirstMatch(b, "minute", 0) == Some(0);
    assert b[0..2] == "30" && "30"[..1] == "3" && "3"[..0] == "";
    assert DigitsValue("3") == 3;
  }

  /** "2 days" asks for two days. */
  lemma DaysExample()
    ensures DurationSeconds("2 days") == Some(172800)
  {
    var c := "2 days";
    assert DigitRunEnd(c, 0) == 1 && SpaceRunEnd(c, 1) == 2;
    assert c[2..6] == "days";
    assert forall j :: 1 <= j ==> !MatchesAt(c, "hour", j) && !MatchesAt(c, "minute", j);
    assert c[2..5] == "day";
    assert c[0..1] == "2";
  }

  /** An 'hour' match wins even when a 'day' match comes first: "1 day 2 hours" is two hours. */
  lemma HourBeatsDay()
    ensures DurationSeconds("1 day 2 hours") == Some(7200)
  {
    var d := "1 day 2 hours";
    assert DigitRunEnd(d, 0) == 1 && SpaceRunEnd(d, 1) == 2;
    assert d[2..6] == "day ";
    assert !MatchesAt(d, "hour", 0);
    assert forall j :: 1 <= j < 6 ==> !IsDigit(d[j]);
    assert DigitRunEnd(d, 6) == 7 && SpaceRunEnd(d, 7) == 8;
    assert d[8..12] == "hour";
    assert MatchesAt(d, "hour", 6);
    assert FirstMatch(d, "hour", 0) == Some(6);
    assert d[6..7] == "2";
  }

  /**
   * The delta the endpoint passes to `updateBalance`, which adds its
   * argument: the balance less the cost, instead of minus the cost.
   */
  function AsWrittenVoucherDelta(balance: int): int
  {
    balance - VoucherCost
  }

  /**
   * As written, a voucher generation leaves the wallet holding twice its
   * balance less 5000: a wallet of 10000 ends at 15000.
   */
  lemma AsWrittenChargeCredits(ws: seq<Wallet>, k: nat)
    requires Wallets.DistinctIds(ws) && k < |ws| && ws[k].balance >= VoucherCost
    ensures AdjustBalance(ws, ws[k].id, AsWrittenVoucherDelta(ws[k].balance)).value[k].balance == 2 * ws[k].balance - VoucherCost
    ensures ws[k].balance > VoucherCost ==>
              AdjustBalance(ws, ws[k].id, AsWrittenVoucherDelta(ws[k].balance)).value[k].balance > ws[k].balance
  {
    assert Wallets.IndexOfId(ws, ws[k].id) == Some(k);
  }

  /** Corrected, the charge takes exactly the cost and leaves a balance that was enough non-negative. */
  lemma CorrectedChargeDeducts(ws: seq<Wallet>, k: nat)
    requires Wallets.DistinctIds(ws) && k < |ws| && ws[k].balance >= VoucherCost
    ensures AdjustBalance(ws, ws[k].id, -VoucherCost).value[k].balance == ws[k].balance - VoucherCost >= 0
  {
    assert Wallets.IndexOfId(ws, ws[k].id) == Some(k);
  }

  /** The vouchers of one generation, in the order the catalogue returned the codes. */
  function FormatVouchers(codes: seq<string>, linked: seq<Router>, duration: string, now: int, userId: string)
    : (vs: seq<Voucher>)
    ensures |vs| == |codes|
    ensures forall i :: 0 <= i < |vs| ==>
              vs[i].tokenId == codes[i] && vs[i].router == RouterFor(linked, i)
              && vs[i].expiresAt == now + DurationMs(duration) && vs[i].createdBy == userId
  {
    seq(|codes|, i requires 0 <= i < |codes| =>
      Voucher("voucher-" + IntToString(now) + "-" + IntToString(i), codes[i], RouterFor(linked, i), duration,
              now + DurationMs(duration), userId))
  }

  class UsersController {
    const wallets: WalletService
    const withdrawals: WithdrawalService
    const revenue: PlatformRevenueRepository

    constructor(wallets: WalletService, withdrawals: WithdrawalService, revenue: PlatformRevenueRepository)
      ensures this.wallets == wallets && this.withdrawals == withdrawals && this.revenue == revenue
    {
      this.wallets := wallets;
      this.withdrawals := withdrawals;
      this.revenue := revenue;
    }

    /**
     * `requestWithdrawal(req, {amount, phoneNumber})` for the authenticated
     * `userId`; `outcome` is what the disbursement call did and `newId` the
     * uuid the new withdrawal gets.
     */
    method RequestWithdrawal(userId: string, amount: Option<int>, phoneNumber: string, outcome: Disbursement,
                             newId: string)
      returns (reply: WithdrawalReply)
      requires wallets.Valid() && withdrawals.Valid()
      requires forall k :: 0 <= k < |withdrawals.withdrawals| ==> withdrawals.withdrawals[k].id != newId
      modifies wallets, withdrawals, revenue
      ensures wallets.Valid() && withdrawals.Valid()
      ensures var wallet := old(wallets.FindByUserId(userId));
              var refused := !TruthyNum(amount) || amount.value < MinWithdrawal
                             || wallet.None? || wallet.value.balance < amount.value;
              (refused ==> !reply.success && reply.withdrawal.None?
                           && wallets.wallets == old(wallets.wallets)
                           && withdrawals.withdrawals == old(withdrawals.withdrawals)
                           && revenue.row == old(revenue.row))
              && (!refused ==>
                    var record := Withdrawal(newId, userId, amount.value - WithdrawalCharge, phoneNumber, Requested);
                    record.amount > 0
                    && reply.withdrawal == Some(record)
                    && reply.success == (SettledStatus(outcome) != Rejected)
                    && withdrawals.withdrawals == old(withdrawals.withdrawals) + [record.(status := SettledStatus(outcome))]
                    && (Debits(outcome) ==>
                          wallets.wallets == AdjustBalance(old(wallets.wallets), wallet.value.id, -amount.value).value)
                    && (!Debits(outcome) ==> wallets.wallets == old(wallets.wallets))
                    && (SettledStatus(outcome) == Approved ==>
                          revenue.row == Some(Added(if old(revenue.row).Some? then old(revenue.row).value else Zero,
                                                    PlatformRevenueConstant))
                          && reply.platformRevenue == Some(revenue.row.value.currentRevenue))
                    && (SettledStatus(outcome) != Approved ==> revenue.row == old(revenue.row)))
      ensures !TruthyNum(amount) || amount.value < MinWithdrawal ==>
                reply.message == "Minimum withdrawal amount is UGX 10,000"
      ensures TruthyNum(amount) && amount.value >= MinWithdrawal && old(wallets.FindByUserId(userId)).None? ==>
                reply.message == "Wallet not found"
      ensures var wallet := old(wallets.FindByUserId(userId));
              TruthyNum(amount) && amount.value >= MinWithdrawal && wallet.Some? && wallet.value.balance < amount.value ==>
                reply.message == "Insufficient balance"
    {
      if !TruthyNum(amount) || amount.value < MinWithdrawal {
        return WithdrawalReply(false, "Minimum withdrawal amount is UGX 10,000", None, None);
      }
      var wallet := wallets.FindByUserId(userId);
      if wallet.None? {
        return WithdrawalReply(false, "Wallet not found", None, None);
      }
      if wallet.value.balance < amount.value {
        return WithdrawalReply(false, "Insufficient balance", None, None);
      }
      var net := amount.value - WithdrawalCharge;
      // The 'Amount is less than minimum charge' refusal cannot fire once the minimum holds.
      assert net > 0;
      var record := withdrawals.CreateWithdrawal(newId, userId, net, phoneNumber, Requested);
      SetStatusOfLast(old(withdrawals.withdrawals), record, SettledStatus(outcome));
      assert wallet.value in wallets.wallets;
      match outcome
      case Returned(status, statusMessage) =>
        if status == "Success" {
          var _ := wallets.UpdateBalance(wallet.value.id, -amount.value);
          var _ := withdrawals.UpdateStatus(record.id, Paid);
          reply := WithdrawalReply(true, "Withdrawal completed successfully", Some(record), None);
        } else if status == "Scheduled" {
          var _ := wallets.UpdateBalance(wallet.value.id, -amount.value);
          var total := revenue.AddRevenue(PlatformRevenueConstant);
          var _ := withdrawals.UpdateStatus(record.id, Approved);
          reply := WithdrawalReply(true, "Withdrawal request submitted - pending processing", Some(record),
                                   Some(total.currentRevenue));
        } else {
          var _ := withdrawals.UpdateStatus(record.id, Rejected);
          reply := WithdrawalReply(false, FailureMessage(statusMessage), Some(record), None);
        }
      case Threw(message) =>
        var _ := withdrawals.UpdateStatus(record.id, Rejected);
        reply := WithdrawalReply(false, FailureMessage(message), Some(record), None);
    }

    /**
     * `generateVouchers(req, {quantity, duration})` for the authenticated
     * `userId`.  `userPhone` is the user's phone (None: no such user),
     * `routers` the router listing, `bulk` the catalogue's codes for a
     * quantity and a number of seconds (None: NaN), `now` the clock in ms.
     * The charge is the corrected one: the cost is taken off the balance.
     */
    method GenerateVouchers(userId: string, quantity: int, duration: string, userPhone: Option<string>,
                            routers: seq<Router>, bulk: (int, Option<int>) -> seq<string>, now: int)
      returns (reply: GenerationReply)
      requires wallets.Valid()
      modifies wallets
      ensures wallets.Valid()
      ensures var wallet := old(wallets.FindByUserId(userId));
              var refused := userPhone.None? || wallet.None? || wallet.value.balance < VoucherCost;
              (refused ==> reply.GenerationError? && wallets.wallets == old(wallets.wallets))
              && (!refused ==>
                    wallets.wallets == AdjustBalance(old(wallets.wallets), wallet.value.id, -VoucherCost).value
                    && reply == Generated(
                         FormatVouchers(bulk(quantity, DurationSeconds(Trim(ToLower(duration)))),
                                        LinkedRouters(routers, userPhone.value), duration, now, userId),
                         "Successfully generated " + IntToString(quantity) + " voucher(s) for UGX 5000"))
    {
      if userPhone.None? {
        return GenerationError("User not found");
      }
      var wallet := wallets.FindByUserId(userId);
      if wallet.None? || wallet.value.balance < VoucherCost {
        return GenerationError("Insufficient balance. Voucher generation costs UGX 5000. Please add funds to your wallet.");
      }
      assert wallet.value in wallets.wallets;
      var _ := wallets.UpdateBalance(wallet.value.id, -VoucherCost);
      var linked := LinkedRouters(routers, userPhone.value);
      var seconds := DurationSeconds(Trim(ToLower(duration)));
      var codes := bulk(quantity, seconds);
      reply := Generated(FormatVouchers(codes, linked, duration, now, userId),
                         "Successfully generated " + IntToString(quantity) + " voucher(s) for UGX 5000");
    }
  }
}
