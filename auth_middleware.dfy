/** The route guard of `middleware/auth.js`: it takes the second space-separated word of the
    `Authorization` header as a JSON Web Token, verifies it, and checks its role against the
    roles the route allows. No route of the server installs it. */
module AuthMiddleware {
  import opened Wrappers
  import opened JsString
  import opened Crypto

  /** Either the request goes on with the decoded claims as `req.user`, or it is answered. */
  datatype Outcome = Next(claims: Claims) | Respond(status: int, text: string)

  /** `req.headers.authorization?.split(" ")[1]`, None when that is undefined. */
  function BearerToken(header: Option<string>): (r: Option<string>)
    ensures r.Some? ==> header.Some? && ' ' !in r.value
    ensures r.Some? <==> header.Some? && |Split(header.value, ' ')| >= 2
  {
    if header.None? then None
    else
      var parts := Split(header.value, ' ');
      if |parts| < 2 then None else Some(parts[1])
  }

  /** A header `<scheme> <token>` yields the token, whatever the scheme is. */
  lemma BearerTokenOf(scheme: string, token: string)
    requires ' ' !in scheme && ' ' !in token
    ensures BearerToken(Some(scheme + " " + token)) == Some(token)
  {
    SplitAfterPiece(scheme, token, ' ');
    SplitWithoutSeparator(token, ' ');
    assert scheme + " " + token == scheme + [' '] + token;
  }

  /** `authMiddleware(roles)` applied to a request. `verify` stands for `jwt.verify` with the
      server's secret; None is a token it throws on. */
  function Authenticate(header: Option<string>, roles: seq<string>, verify: string -> Option<Claims>): (r: Outcome)
    ensures r.Next? <==> BearerToken(header).Some? && BearerToken(header).value != ""
                         && verify(BearerToken(header).value).Some?
                         && (roles == [] || (verify(BearerToken(header).value).value.role.Some?
                                             && verify(BearerToken(header).value).value.role.value in roles))
    ensures r.Next? ==> r.claims == verify(BearerToken(header).value).value
    ensures r.Respond? ==> r.status in {401, 403}
    ensures r == Respond(403, "Forbidden") <==>
              BearerToken(header).Some? && BearerToken(header).value != ""
              && verify(BearerToken(header).value).Some? && roles != []
              && (verify(BearerToken(header).value).value.role.None?
                  || verify(BearerToken(header).value).value.role.value !in roles)
  {
    var token := BearerToken(header);
    if token.None? || token.value == "" then Respond(401, "Unauthorized")
    else match verify(token.value)
      case None => Respond(401, "Invalid token")
      case Some(decoded) =>
        if |roles| > 0 && !(decoded.role.Some? && decoded.role.value in roles) then Respond(403, "Forbidden")
        else Next(decoded)
  }

  /** A token the server signed passes a guard that asks for no role, with its id as
      `req.user`. */
  lemma SignedTokenPasses(id: nat)
    ensures Authenticate(Some("Bearer " + Sign(id)), [], Verify) == Next(Claims(Some(id), None))
  {
    var token := Sign(id);
    BearerTokenOf("Bearer", token);
    VerifySign(id);
    assert "Bearer " + token == "Bearer" + " " + token;
  }

  /** The server signs tokens without a role, so a guard that names any role refuses every
      token it signed. */
  lemma SignedTokenForbidden(id: nat, roles: seq<string>)
    requires roles != []
    ensures Authenticate(Some("Bearer " + Sign(id)), roles, Verify) == Respond(403, "Forbidden")
  {
    var token := Sign(id);
    BearerTokenOf("Bearer", token);
    VerifySign(id);
    assert "Bearer " + token == "Bearer" + " " + token;
  }
}
