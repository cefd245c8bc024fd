/**
 * IotecWebhookService: the `sha256=`-prefixed HMAC check of the iotec
 * disbursement callback.  It either returns true or raises; it never
 * returns false.  The HMAC primitive is a parameter.
 */
module IotecSignature {
  import opened Common

  const Prefix: string := "sha256="

  /** The header value a genuine callback carries. */
  function ExpectedSignature(secret: string, rawBody: string, hmac: (string, string) -> string): string
  {
    Prefix + hmac(secret, rawBody)
  }

  /**
   * `verifySignature(rawBody, signature)`: a missing header or an unset
   * secret raises Unauthorized; a missing raw body makes the HMAC update
   * raise TypeError; a header of another byte length makes the constant-time
   * comparison raise RangeError; a different header raises Unauthorized.
   */
  function VerifySignature(rawBody: Option<string>, signature: Option<string>, secret: string,
                           hmac: (string, string) -> string): (r: Result<bool, Exception>)
    ensures r.Ok? ==> r.value
    ensures r.Ok? <==> Truthy(signature) && secret != "" && rawBody.Some?
                       && signature.value == ExpectedSignature(secret, rawBody.value, hmac)
    ensures !Truthy(signature) ==> r == Err(Unauthorized("Missing signature header"))
    ensures Truthy(signature) && secret == "" ==> r == Err(Unauthorized("Webhook secret not configured"))
    ensures r.Err? && r.error == RangeError ==>
              rawBody.Some? && signature.Some? && Utf8Length(ExpectedSignature(secret, rawBody.value, hmac)) != Utf8Length(signature.value)
  {
    if !Truthy(signature) then Err(Unauthorized("Missing signature header"))
    else if secret == "" then Err(Unauthorized("Webhook secret not configured"))
    else if rawBody.None? then Err(TypeError)
    else
      var expected := ExpectedSignature(secret, rawBody.value, hmac);
      if Utf8Length(expected) != Utf8Length(signature.value) then Err(RangeError)
      else if expected != signature.value then Err(Unauthorized("Invalid webhook signature"))
      else Ok(true)
  }

  /** The bare hex digest, without the prefix, is refused. */
  lemma BareDigestRejected(rawBody: string, secret: string, hmac: (string, string) -> string)
    ensures VerifySignature(Some(rawBody), Some(hmac(secret, rawBody)), secret, hmac).Err?
  {
    var d := hmac(secret, rawBody);
    assert |ExpectedSignature(secret, rawBody, hmac)| != |d|;
  }

  class IotecWebhookService {
    const webhookSecret: string

    /** The secret is read once from IOTEC_WEBHOOK_SECRET, defaulting to the empty string. */
    constructor(env: Option<string>)
      ensures webhookSecret == if Truthy(env) then env.value else ""
    {
      webhookSecret := if Truthy(env) then env.value else "";
    }
  }
}
