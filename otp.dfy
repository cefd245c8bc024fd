/**
 * The voucher half of the SMS service (`sendSmsVoucher`): ask the main
 * server for a voucher code valid for `expiry` seconds and hand it back.
 * The main-server call is a parameter from the requested expiry to its reply.
 */
module Otp {
  import opened Common

  /** The main server's reply to `POST /session/generate-voucher`. */
  datatype VoucherReply = VoucherReply(status: int, code: string)

  /** What `sendSmsVoucher` resolves to; the SMS itself is never sent, so `smsResults` is null on success. */
  datatype SmsVoucher = SmsVoucher(smsResults: Option<string>, code: string)

  /** Uganda international format: a leading 0 becomes +256, a bare 256 gets a +, anything without + gets +256. */
  function FormatPhone(phone: string): (r: string)
    ensures StartsWith(r, "+")
    ensures |r| >= |phone|
  {
    if StartsWith(phone, "0") then "+256" + phone[1..]
    else if StartsWith(phone, "256") then "+" + phone
    else if !StartsWith(phone, "+") then "+256" + phone
    else phone
  }

  /** Every formatted number is international, and a national one gains the +256 country code. */
  lemma FormatPhoneInternational(phone: string)
    ensures StartsWith(FormatPhone(phone), "+")
    ensures StartsWith(phone, "+") ==> FormatPhone(phone) == phone
    ensures !StartsWith(phone, "+") ==> StartsWith(FormatPhone(phone), "+256")
  {
    var f := FormatPhone(phone);
    if StartsWith(phone, "256") && !StartsWith(phone, "0") {
      assert f[..4] == "+" + phone[..3];
    }
  }

  /** Formatting an already formatted number changes nothing. */
  lemma FormatPhoneIdempotent(phone: string)
    ensures FormatPhone(FormatPhone(phone)) == FormatPhone(phone)
  {
    FormatPhoneInternational(phone);
    var f := FormatPhone(phone);
    assert f[0] == '+';
  }

  /**
   * `sendSmsVoucher(phoneNumber, expiry)`: a reply other than 200 or 403
   * yields empty results; otherwise the phone number is formatted (a missing
   * one raises TypeError) and the server's code is returned.
   */
  function SendSmsVoucher(phone: Option<string>, expiry: int, generate: int -> VoucherReply): (r: Result<SmsVoucher, Exception>)
    ensures var reply := generate(expiry);
            reply.status != 200 && reply.status != 403 ==> r == Ok(SmsVoucher(Some(""), ""))
    ensures var reply := generate(expiry);
            (reply.status == 200 || reply.status == 403) ==>
              (r.Ok? <==> phone.Some?) && (r.Ok? ==> r.value == SmsVoucher(None, reply.code))
    ensures r.Err? ==> r.error == TypeError
  {
    var reply := generate(expiry);
    if reply.status != 200 && reply.status != 403 then Ok(SmsVoucher(Some(""), ""))
    else if phone.None? then Err(TypeError)
    else
      var _ := FormatPhone(phone.value);
      Ok(SmsVoucher(None, reply.code))
  }
}
