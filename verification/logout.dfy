/** `POST /api/auth/logout`: behind the user gate, deletes the cookie and revokes the token. */
module Logout {
  import opened Wrappers
  import opened Http
  import opened Tokens
  import opened Store
  import opened ApiHandlers

  const LoggedOut := "User logged out successfully"

  /** The handler's own work once the gate has admitted `req`. */
  method Revoke(jar: CookieJar, ledger: TokenTable, req: AuthRequest) returns (r: Response)
    requires ledger.Valid() && req.accessToken !in ledger.Tokens()
    modifies jar, ledger
    ensures ledger.Valid()
    ensures ledger.records == old(ledger.records) + [Revocation(req.accessToken, req.accessTokenExpiry)]
    ensures ledger.Tokens() == old(ledger.Tokens()) + {req.accessToken}
    ensures jar.access == None
    ensures r == Response(200, Message(Some(true), Some(LoggedOut)))
  {
    jar.access := None;
    forall i | 0 <= i < |ledger.records|
      ensures ledger.records[i].accessToken != req.accessToken
    {
      assert ledger.records[i] in ledger.records;
    }
    ledger.records := ledger.records + [Revocation(req.accessToken, req.accessTokenExpiry)];
    r := Response(200, Message(Some(true), Some(LoggedOut)));
  }

  /** The whole route: the gate, then `Revoke`. The ledger never holds a token twice. */
  method Logout(jar: CookieJar, ledger: TokenTable, authorization: Option<string>,
                verify: string -> Verification) returns (r: Response)
    requires ledger.Valid()
    modifies jar, ledger
    ensures ledger.Valid()
    ensures var g := UserGate(old(jar.access), authorization, old(ledger.Tokens()), verify);
      if g.Proceed? then
        r == Response(200, Message(Some(true), Some(LoggedOut)))
        && jar.access == None
        && ledger.records == old(ledger.records) + [Revocation(g.request.accessToken, g.request.accessTokenExpiry)]
      else
        r == g.response
        && jar.access == (if g.clearCookie then None else old(jar.access))
        && ledger.records == old(ledger.records)
  {
    var g := RunUserGate(jar, ledger, authorization, verify);
    if g.Proceed? {
      r := Revoke(jar, ledger, g.request);
    } else {
      r := g.response;
    }
  }

  /**
   * A client that logs out and then replays the same token: the first call revokes it, the
   * second is refused as revoked, and the ledger gains exactly one record.
   */
  method LogoutTwice(ledger: TokenTable, token: string, verify: string -> Verification)
    returns (first: Response, second: Response)
    requires ledger.Valid() && token != "" && token !in ledger.Tokens()
    requires verify(token).Decoded? && verify(token).payload.email.Some? && verify(token).payload.email.value != ""
    modifies ledger
    ensures ledger.Valid()
    ensures first == Response(200, Message(Some(true), Some(LoggedOut)))
    ensures second == Failure(401, TokenRevoked)
    ensures ledger.records == old(ledger.records) + [Revocation(token, verify(token).payload.exp * 1000)]
  {
    var jar := new CookieJar(Some(SessionCookie(token)));
    first := Logout(jar, ledger, None, verify);
    var replay := new CookieJar(Some(SessionCookie(token)));
    second := Logout(replay, ledger, None, verify);
  }
}
