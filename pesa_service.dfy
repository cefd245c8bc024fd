/**
 * PesaService: Pesapal payments.  A payment is submitted as an order whose
 * notification id is the configured IPN (the last registered IPN whose url
 * is the configured one, or a freshly registered one); a confirmed payment
 * is saved, and when it is COMPLETED the bank's SMS text is parsed for the
 * deposited amount, which the price list turns into a voucher validity.
 * Pesapal's replies are inputs; the order id (an ISO timestamp) is one too.
 */
module Pesa {
  import opened Common
  import opened Entitlement

  /** `tag` followed by at least one digit at `i` (a match of `/<tag>(\d+)/`). */
  predicate LabelMatchAt(s: string, tag: string, i: nat)
  {
    OccursAt(s, tag, i) && i + |tag| < |s| && IsDigit(s[i + |tag|])
  }

  /** The leftmost match of `/<tag>(\d+)/` at or after `from`. */
  function FirstLabelMatch(s: string, tag: string, from: nat): (r: Option<nat>)
    decreases |s| - from
    ensures r.Some? ==> from <= r.value && LabelMatchAt(s, tag, r.value)
    ensures r.Some? ==> forall j :: from <= j < r.value ==> !LabelMatchAt(s, tag, j)
    ensures r.None? ==> forall j :: from <= j ==> !LabelMatchAt(s, tag, j)
  {
    if from >= |s| then None
    else if LabelMatchAt(s, tag, from) then Some(from)
    else FirstLabelMatch(s, tag, from + 1)
  }

  /** The digits group `(\d+)` of the match of `tag` at `i`. */
  function LabelCapture(s: string, tag: string, i: nat): (d: string)
    requires LabelMatchAt(s, tag, i)
    ensures |d| >= 1 && AllDigits(d)
  {
    s[i + |tag|..DigitRunEnd(s, i + |tag|)]
  }

  /** `message.match(/<tag>(\d+)/)[1]` read as a number; None when the match is null. */
  function LabelledNumber(s: string, tag: string): (r: Option<nat>)
    ensures r.Some? <==> exists i :: LabelMatchAt(s, tag, i)
  {
    match FirstLabelMatch(s, tag, 0)
    case None => None
    case Some(i) => Some(DigitsValue(LabelCapture(s, tag, i)))
  }

  /** The voucher grant read from a payment: its recipient and validity in seconds. */
  datatype Grant = Grant(sender: Option<string>, expiry: int)

  /** The payment record the confirmation reads. */
  datatype PaymentStatus = PaymentStatus(statusDescription: Option<string>, message: Option<string>,
                                         sender: Option<string>)

  /**
   * `getExpiryFromOrderID`: a message mentioning 'CASH DEPOSIT' must carry
   * a 'Reference: <digits>' and an 'Amount: <digits>' (a missing one is a
   * TypeError), and the amount is the first labelled number; without the
   * mention the amount is `Number(null)`, 0.  The price list decides the
   * validity, 0 for any amount off the list, and the sender is kept.
   */
  function ExpiryFromOrder(p: PaymentStatus): (r: Result<Grant, Exception>)
    ensures p.message.None? ==> r == Err(TypeError)
    ensures r.Err? ==> r.error == TypeError
    ensures r.Ok? ==> r.value.sender == p.sender && r.value.expiry >= 0
    ensures p.message.Some? && !Contains(p.message.value, "CASH DEPOSIT") ==> r == Ok(Grant(p.sender, 0))
    ensures p.message.Some? && Contains(p.message.value, "CASH DEPOSIT") ==>
              (r.Ok? <==> LabelledNumber(p.message.value, "Reference: ").Some?
                          && LabelledNumber(p.message.value, "Amount: ").Some?)
    ensures r.Ok? && r.value.expiry > 0 ==>
              p.message.Some? && Contains(p.message.value, "CASH DEPOSIT")
              && AmountToExpiry(LabelledNumber(p.message.value, "Amount: ").value) == Some(r.value.expiry)
  {
    match p.message
    case None => Err(TypeError)
    case Some(m) =>
      if Contains(m, "CASH DEPOSIT") then
        match LabelledNumber(m, "Reference: ")
        case None => Err(TypeError)
        case Some(_) =>
          match LabelledNumber(m, "Amount: ")
          case None => Err(TypeError)
          case Some(amount) => Ok(Grant(p.sender, GrantedExpiry(amount)))
      else Ok(Grant(p.sender, GrantedExpiry(0)))
  }

  /** The validity an amount buys, 0 when it is off the list. */
  function GrantedExpiry(amount: int): (e: int)
    ensures e >= 0
    ensures AmountToExpiry(amount).Some? ==> e == AmountToExpiry(amount).value
    ensures AmountToExpiry(amount).None? ==> e == 0
  {
    match AmountToExpiry(amount)
    case None => 0
    case Some(x) => x
  }

  /**
   * The Pesa parse agrees with the Airtel and iotec callbacks: a deposit
   * whose amount the price list knows grants exactly the validity the
   * list gives it, and any other payment grants nothing.
   */
  lemma PesaUsesPriceList(p: PaymentStatus, amount: nat)
    requires p.message.Some? && Contains(p.message.value, "CASH DEPOSIT")
    requires LabelledNumber(p.message.value, "Reference: ").Some?
    requires LabelledNumber(p.message.value, "Amount: ") == Some(amount)
    ensures ExpiryFromOrder(p) == Ok(Grant(p.sender, if amount in AcceptedAmounts then AmountToExpiry(amount).value else 0))
    ensures amount == 18000 ==> ExpiryFromOrder(p) == Ok(Grant(p.sender, 0))
  {
  }

  /** The amount is the number after the first 'Amount: ' that is followed by digits. */
  lemma AmountIsFirstLabelled(m: string, i: nat)
    requires LabelMatchAt(m, "Amount: ", i)
    requires forall j :: 0 <= j < i ==> !LabelMatchAt(m, "Amount: ", j)
    ensures LabelledNumber(m, "Amount: ") == Some(DigitsValue(LabelCapture(m, "Amount: ", i)))
  {
    var k := FirstLabelMatch(m, "Amount: ", 0);
    assert k.Some? && k.value == i;
  }

  /** The SMS text of a 2500 deposit. */
  const ExampleHead: string := "CASH DEPOSIT "
  const ExampleRef: string := "Reference: "
  const ExampleAmt: string := "Amount: "
  const ExampleMessage: string := ExampleHead + ExampleRef + "7 " + ExampleAmt + "2500"

  lemma ExampleIsDeposit()
    ensures Contains(ExampleMessage, "CASH DEPOSIT")
  {
    assert ExampleMessage[0..12] == "CASH DEPOSIT";
    assert OccursAt(ExampleMessage, "CASH DEPOSIT", 0);
    ContainsIff(ExampleMessage, "CASH DEPOSIT");
  }

  lemma ExampleHasReference()
    ensures LabelledNumber(ExampleMessage, "Reference: ").Some?
  {
    assert ExampleMessage == ExampleHead + (ExampleRef + ("7 " + ExampleAmt + "2500"));
    assert ExampleMessage[13..24] == ExampleRef;
    assert ExampleMessage[24] == '7';
    assert LabelMatchAt(ExampleMessage, "Reference: ", 13);
  }

  lemma ExampleAmountMatch()
    ensures LabelMatchAt(ExampleMessage, "Amount: ", 26)
    ensures forall j :: 0 <= j < 26 ==> !LabelMatchAt(ExampleMessage, "Amount: ", j)
  {
    assert ExampleMessage == (ExampleHead + ExampleRef + "7 ") + (ExampleAmt + "2500");
    assert ExampleMessage[26..34] == ExampleAmt;
    forall j | 0 <= j < 26 ensures !LabelMatchAt(ExampleMessage, "Amount: ", j) {
      assert ExampleMessage[j] != 'A' || ExampleMessage[j + 1] != 'm';
    }
  }

  lemma ExampleAmount()
    ensures LabelledNumber(ExampleMessage, "Amount: ") == Some(2500)
  {
    ExampleAmountMatch();
    AmountIsFirstLabelled(ExampleMessage, 26);
    assert ExampleMessage == (ExampleHead + ExampleRef + "7 " + ExampleAmt) + "2500";
    assert ExampleMessage[34..38] == "2500";
    assert DigitRunEnd(ExampleMessage, 34) == 38;
    assert LabelCapture(ExampleMessage, "Amount: ", 26) == "2500";
    assert DigitsValue("2500") == 2500 by {
      assert "2500"[..3] == "250" && "250"[..2] == "25" && "25"[..1] == "2" && "2"[..0] == "";
    }
  }

  /** A 'CASH DEPOSIT' SMS for 2500 grants its sender the validity the price list gives 2500. */
  lemma DepositExample()
    ensures ExpiryFromOrder(PaymentStatus(Some("COMPLETED"), Some(ExampleMessage), Some("256700"))) == Ok(Grant(Some("256700"), 622080))
  {
    ExampleIsDeposit();
    ExampleHasReference();
    ExampleAmount();
  }

  /** A registered IPN: its url and id (None: the id field is missing). */
  datatype Ipn = Ipn(url: string, ipnId: Option<string>)

  /**
   * The JavaScript value the payment goes on with as the IPN id: a string
   * id, the `false` a failed registration returns, or null/undefined.
   */
  datatype IpnValue = Id(id: string) | FalseValue | Nullish

  function IpnIdValue(ipn: Ipn): IpnValue
  {
    if ipn.ipnId.Some? then Id(ipn.ipnId.value) else Nullish
  }

  /** The id of the last IPN whose url is `url`; Nullish when none is. */
  function LastMatchingIpn(ipns: seq<Ipn>, url: string): (v: IpnValue)
    ensures v != FalseValue
  {
    if |ipns| == 0 then Nullish
    else if ipns[|ipns| - 1].url == url then IpnIdValue(ipns[|ipns| - 1])
    else LastMatchingIpn(ipns[..|ipns| - 1], url)
  }

  /**
   * The selection finds the last IPN registered under the url: with no
   * such IPN it yields Nullish, otherwise the id of a matching IPN after
   * which no IPN has that url.
   */
  lemma {:induction false} LastMatchingIpnIsLast(ipns: seq<Ipn>, url: string)
    ensures (forall i :: 0 <= i < |ipns| ==> ipns[i].url != url) ==> LastMatchingIpn(ipns, url) == Nullish
    ensures (exists i :: 0 <= i < |ipns| && ipns[i].url == url) ==>
              exists i :: 0 <= i < |ipns| && ipns[i].url == url && LastMatchingIpn(ipns, url) == IpnIdValue(ipns[i])
                          && forall j :: i < j < |ipns| ==> ipns[j].url != url
  {
    if |ipns| > 0 && ipns[|ipns| - 1].url != url {
      var init := ipns[..|ipns| - 1];
      LastMatchingIpnIsLast(init, url);
      if exists i :: 0 <= i < |ipns| && ipns[i].url == url {
        var i :| 0 <= i < |ipns| && ipns[i].url == url;
        assert init[i].url == url;
        var k :| 0 <= k < |init| && init[k].url == url && LastMatchingIpn(init, url) == IpnIdValue(init[k])
                 && forall j :: k < j < |init| ==> init[j].url != url;
        assert ipns[k] == init[k];
      }
    }
  }

  /**
   * The `if` that decides whether the payment goes on:
   * `id != undefined || id != null`, which is false only for null and
   * undefined, so the `false` of a failed registration goes on.
   */
  predicate Proceeds(v: IpnValue)
  {
    v != Nullish
  }

  /** The order Pesapal is asked to process. */
  datatype OrderRequest = OrderRequest(id: string, redirectMode: string, notificationId: IpnValue, phoneNumber: string,
                                       currency: string, amount: int, description: string, callbackUrl: string)

  /** The client's payment request. */
  datatype PaymentRequest = PaymentRequest(phoneNumber: string, selectedPrice: int)

  /** `processPayment`'s order for `request` under the IPN id `ipn`, issued at `timestamp`. */
  function Order(request: PaymentRequest, ipn: IpnValue, timestamp: string, callbackUrl: string): (o: OrderRequest)
    ensures o.currency == "UGX" && o.amount == request.selectedPrice && o.phoneNumber == request.phoneNumber
    ensures o.notificationId == ipn && o.id == timestamp && o.callbackUrl == callbackUrl
  {
    OrderRequest(timestamp, "", ipn, request.phoneNumber, "UGX", request.selectedPrice,
                 "A new payment initiation by a client", callbackUrl)
  }

  /** The module-level record of the last order submitted. */
  datatype LastOrder = LastOrder(phoneNumber: string, order: Option<OrderRequest>, request: Option<PaymentRequest>)

  /** What `initiateMobileMoneyPayment` resolves to: Pesapal's reply, or `false` when no IPN id was obtained. */
  datatype Initiation = Submitted(reply: string) | NotSubmitted

  /** The confirmation's outcome: `false` when the save failed, otherwise nothing. */
  datatype Confirmation = NotSaved | Confirmed

  /**
   * `paymentConfirmation`: a payment whose save did not fail and whose
   * status is 'COMPLETED' has its grant read and an SMS voucher sent to the
   * sender; the second result is that voucher request.
   */
  function ConfirmPayment(status: PaymentStatus, saved: bool): (r: Result<(Confirmation, Option<Grant>), Exception>)
    ensures !saved ==> r == Ok((NotSaved, None))
    ensures r.Ok? && r.value.1.Some? <==> saved && status.statusDescription == Some("COMPLETED") && ExpiryFromOrder(status).Ok?
    ensures r.Ok? && r.value.1.Some? ==> r.value.1 == Some(ExpiryFromOrder(status).value)
    ensures r.Err? ==> r.error == TypeError && saved && status.statusDescription == Some("COMPLETED")
  {
    if !saved then Ok((NotSaved, None))
    else if status.statusDescription == Some("COMPLETED") then
      match ExpiryFromOrder(status)
      case Err(e) => Err(e)
      case Ok(grant) => Ok((Confirmed, Some(grant)))
    else Ok((Confirmed, None))
  }

  class PesaService {
    /** `globalObj`: the last order and request, kept to be saved later. */
    var globalObj: LastOrder
    const ipnUrl: string
    const paymentCallback: string

    constructor(ipnUrl: string, paymentCallback: string)
      ensures globalObj == LastOrder("", None, None)
      ensures this.ipnUrl == ipnUrl && this.paymentCallback == paymentCallback
    {
      globalObj := LastOrder("", None, None);
      this.ipnUrl := ipnUrl;
      this.paymentCallback := paymentCallback;
    }

    /**
     * The IPN `for` loop: `ipns` is what `getIPNs` resolved to (None for the
     * `false` it returns on error, whose `length` is undefined).
     */
    method SelectIpn(ipns: Option<seq<Ipn>>) returns (temp: IpnValue)
      ensures ipns.None? ==> temp == Nullish
      ensures ipns.Some? ==> temp == LastMatchingIpn(ipns.value, ipnUrl)
    {
      temp := Nullish;
      if ipns.Some? && |ipns.value| > 0 {
        var list := ipns.value;
        for i := 0 to |list|
          invariant temp == LastMatchingIpn(list[..i], ipnUrl)
        {
          assert list[..i + 1][..i] == list[..i];
          if list[i].url == ipnUrl {
            temp := IpnIdValue(list[i]);
          }
        }
        assert list[..|list|] == list;
      }
    }

    /**
     * `initiateMobileMoneyPayment(details, request)`: the token, the IPN
     * choice (`registration` is what `registerIPN` would resolve to), and
     * when an id was obtained the order, recorded in `globalObj` and
     * submitted; `submit` is Pesapal's answer to an order.
     */
    method InitiateMobileMoneyPayment(request: PaymentRequest, token: Result<string, Exception>, ipns: Option<seq<Ipn>>,
                                      registration: IpnValue, timestamp: string,
                                      submit: OrderRequest -> Result<string, Exception>)
      returns (r: Result<Initiation, Exception>, registered: bool)
      modifies this
      ensures token.Err? ==> r == Err(token.error) && !registered && globalObj == old(globalObj)
      ensures token.Ok? ==>
                var found := if ipns.Some? then LastMatchingIpn(ipns.value, ipnUrl) else Nullish;
                var chosen := if found != Nullish then found else registration;
                var order := Order(request, chosen, timestamp, paymentCallback);
                (registered <==> found == Nullish)
                && (!Proceeds(chosen) ==> r == Ok(NotSubmitted) && globalObj == old(globalObj))
                && (Proceeds(chosen) ==>
                      globalObj == LastOrder(request.phoneNumber, Some(order), Some(request))
                      && r == (if submit(order).Ok? then Ok(Submitted(submit(order).value)) else Err(HttpError(500))))
    {
      registered := false;
      if token.Err? {
        return Err(token.error), false;
      }
      var temp := SelectIpn(ipns);
      var chosen := temp;
      if temp == Nullish {
        registered := true;
        chosen := registration;
      }
      if !Proceeds(chosen) {
        return Ok(NotSubmitted), registered;
      }
      var order := Order(request, chosen, timestamp, paymentCallback);
      globalObj := LastOrder(request.phoneNumber, Some(order), Some(request));
      var reply := submit(order);
      r := if reply.Ok? then Ok(Submitted(reply.value)) else Err(HttpError(500));
    }
  }
}
