/**
 * JwtAuthGuard: a request passes only with an `Authorization: Bearer <token>`
 * header whose token the JWT service accepts; the decoded claims are then
 * attached to the request.  Token verification is a parameter.
 */
module JwtGuard {
  import opened Common

  /** The decoded token, opaque to the guard. */
  type Claims = string

  const BearerPrefix: string := "Bearer "

  /** The token the guard hands to the verifier: the text after the prefix, trimmed. */
  function BearerToken(header: string): string
    requires StartsWith(header, BearerPrefix)
  {
    Trim(header[|BearerPrefix|..])
  }

  /** What `canActivate` decides for a request carrying `header`. */
  function Authenticate(header: Option<string>, verify: string -> Option<Claims>): (r: Result<Claims, Exception>)
    ensures r.Ok? <==> header.Some? && StartsWith(header.value, BearerPrefix)
                       && verify(BearerToken(header.value)).Some?
    ensures r.Ok? ==> r.value == verify(BearerToken(header.value)).value
    ensures r.Err? ==> r.error.Unauthorized?
  {
    if !Truthy(header) || !StartsWith(header.value, BearerPrefix) then
      Err(Unauthorized("Authorization header is missing or invalid"))
    else
      match verify(BearerToken(header.value))
      case None => Err(Unauthorized("Invalid or expired token"))
      case Some(claims) => Ok(claims)
  }

  /** The prefix test is case-sensitive: a lower-case scheme is refused whatever the token. */
  lemma LowerCaseSchemeRefused(token: string, verify: string -> Option<Claims>)
    ensures Authenticate(Some("bearer " + token), verify).Err?
  {
    assert ("bearer " + token)[0] == 'b';
  }

  /** White space around the token does not change the outcome. */
  lemma PaddingIgnored(token: string, verify: string -> Option<Claims>)
    requires |token| > 0 && !IsSpace(token[0]) && !IsSpace(token[|token| - 1])
    ensures Authenticate(Some(BearerPrefix + " " + token + " "), verify)
            == Authenticate(Some(BearerPrefix + token), verify)
  {
    var padded := BearerPrefix + " " + token + " ";
    assert padded[|BearerPrefix|..] == " " + token + " ";
    assert (BearerPrefix + token)[|BearerPrefix|..] == token;
    assert (" " + token + " ")[1..] == token + " ";
    assert TrimStart(" " + token + " ") == token + " ";
    assert (token + " ")[..|token|] == token;
    assert TrimEnd(token + " ") == token;
    assert TrimStart(token) == token;
    assert TrimEnd(token) == token;
  }

  /** The request object the guard writes the claims into. */
  class Request {
    var user: Option<Claims>

    constructor()
      ensures user == None
    {
      user := None;
    }
  }

  /** `canActivate`: passes (returns true) and sets `request.user`, or raises Unauthorized and leaves the request alone. */
  method CanActivate(request: Request, header: Option<string>, verify: string -> Option<Claims>)
    returns (r: Result<bool, Exception>)
    modifies request
    ensures r.Ok? <==> Authenticate(header, verify).Ok?
    ensures r.Ok? ==> r.value && request.user == Some(Authenticate(header, verify).value)
    ensures r.Err? ==> r.error == Authenticate(header, verify).error && request.user == old(request.user)
  {
    var decision := Authenticate(header, verify);
    if decision.Err? {
      return Err(decision.error);
    }
    request.user := Some(decision.value);
    r := Ok(true);
  }
}
