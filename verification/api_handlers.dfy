/**
 * The wrappers of `src/helpers/apiHandlers.ts`: a plain error-catching wrapper, and the two
 * authentication gates that admit a request carrying an unrevoked, verifiable access token.
 * Each gate is a pure decision (`UserGate`, `AdminGate`) and a method that carries it out on the
 * cookie jar (`RunUserGate`, `RunAdminGate`).
 */
module ApiHandlers {
  import opened Wrappers
  import opened Text
  import opened Http
  import opened Tokens
  import opened Store
  import ZodErrors

  const NotLoggedIn := "Unauthorized, you are not logged in"
  const TokenRevoked := "Unauthorized, token is revoked"
  const TokenInvalid := "Unauthorized, token expired or invalid"
  const Forbidden := "Request Forbidden"
  /**
   * The message of the error the ORM throws when the revocation lookup is given an undefined
   * token; its wording belongs to the ORM and stands in here as a constant.
   */
  const UndefinedTokenLookup := "Argument `where` needs at least one argument"

  /** The wrappers' `catch`: a validation response for a `ZodError`, otherwise a 500 `{success: false, message}`. */
  function CatchResponse(e: Thrown): (r: Response)
    ensures e.ZodError? ==> r == ZodErrors.ValidationResponse(e.issues)
    ensures !e.ZodError? ==> r == Failure(500, ErrorMessage(e))
  {
    if e.ZodError? then ZodErrors.ValidationResponse(e.issues) else Failure(500, ErrorMessage(e))
  }

  /** `apiHandler(handler)` applied to what the handler did. */
  function ApiHandler(o: Outcome): (r: Response)
    ensures o.Returned? ==> r == o.response
    ensures o.Threw? ==> r == CatchResponse(o.error)
  {
    match o
    case Returned(response) => response
    case Threw(e) => CatchResponse(e)
  }

  /** The identity a gate attaches to the request. */
  datatype AuthUser = AuthUser(id: Option<string>, email: string)

  /** `AuthRequest`: the user, the token and its expiry in milliseconds. */
  datatype AuthRequest = AuthRequest(user: AuthUser, accessToken: string, accessTokenExpiry: int)

  /** A gate either answers the request itself (possibly deleting the cookie) or passes it on. */
  datatype GateResult = Respond(response: Response, clearCookie: bool) | Proceed(request: AuthRequest)

  /** The request a gate passes on for a verified `token` whose payload names an email. */
  function Admit(token: string, p: Payload): (req: AuthRequest)
    requires p.email.Some?
    ensures req.user.email == p.email.value && req.user.id == p.id && req.accessToken == token
    ensures req.accessTokenExpiry == p.exp * 1000
  {
    AuthRequest(AuthUser(p.id, p.email.value), token, p.exp * 1000)
  }

  /** The `Authorization` header is present, non-empty and starts with `"Bearer "`. */
  predicate HasBearer(authorization: Option<string>) {
    authorization.Some? && authorization.value != "" && StartsWith(authorization.value, "Bearer ")
  }

  /**
   * `accessTokenCookie?.value || bearerToken?.replace("Bearer ", "")`: a non-empty cookie value wins,
   * otherwise the header with its first `"Bearer "` removed; `None` is `undefined`.
   */
  function ChosenToken(cookie: Option<Cookie>, authorization: Option<string>): (t: Option<string>)
    ensures cookie.Some? && cookie.value.value != "" ==> t == Some(cookie.value.value)
    ensures t.None? <==> (cookie.None? || cookie.value.value == "") && authorization.None?
  {
    if cookie.Some? && cookie.value.value != "" then Some(cookie.value.value)
    else if authorization.Some? then Some(ReplaceFirst(authorization.value, "Bearer ", ""))
    else None
  }

  /** A bearer header without a cookie yields the header minus its leading `"Bearer "`. */
  lemma BearerToken(authorization: string)
    requires StartsWith(authorization, "Bearer ")
    ensures ChosenToken(None, Some(authorization)) == Some(authorization[7..])
  {
    ReplaceLeadingPrefix(authorization, "Bearer ");
  }

  /**
   * The checks both gates make on a chosen token, in order: revocation (before any verification),
   * verification, a non-empty email and, for the admin gate, the `"admin"` role.
   */
  function CheckToken(token: string, revoked: set<string>, verify: string -> Verification, adminOnly: bool): (g: GateResult)
    ensures token in revoked ==> g == Respond(Failure(401, TokenRevoked), true)
    ensures g.Proceed? <==>
      token !in revoked && verify(token).Decoded? && verify(token).payload.email.Some?
      && verify(token).payload.email.value != ""
      && (adminOnly ==> verify(token).payload.role == Some("admin"))
    ensures g.Proceed? ==> g.request == Admit(token, verify(token).payload)
    ensures g.Respond? && g.clearCookie ==> g.response.status == 401
    ensures token !in revoked && verify(token).VerifyError? ==>
      g == Respond(Failure(500, verify(token).message), false)
    ensures (token !in revoked && verify(token).Decoded?
             && (verify(token).payload.email.None? || verify(token).payload.email.value == "")) ==>
      g == Respond(Failure(401, TokenInvalid), true)
    ensures (adminOnly && token !in revoked && verify(token).Decoded?
             && verify(token).payload.email.Some? && verify(token).payload.email.value != ""
             && verify(token).payload.role != Some("admin")) ==>
      g == Respond(Failure(403, Forbidden), false)
  {
    if token in revoked then Respond(Failure(401, TokenRevoked), true)
    else match verify(token)
      case VerifyError(m) => Respond(Failure(500, m), false)
      case Decoded(p) =>
        if p.email.None? || p.email.value == "" then Respond(Failure(401, TokenInvalid), true)
        else if adminOnly && p.role != Some("admin") then Respond(Failure(403, Forbidden), false)
        else Proceed(Admit(token, p))
  }

  /** What `apiHandlerWithAuth` decides before calling its handler. */
  function UserGate(cookie: Option<Cookie>, authorization: Option<string>, revoked: set<string>,
                    verify: string -> Verification): (g: GateResult)
    ensures cookie.None? && !HasBearer(authorization) ==> g == Respond(Failure(401, NotLoggedIn), false)
    ensures (cookie.Some? || HasBearer(authorization)) && ChosenToken(cookie, authorization).Some? ==>
      g == CheckToken(ChosenToken(cookie, authorization).value, revoked, verify, false)
    ensures g.Proceed? ==>
      ChosenToken(cookie, authorization) == Some(g.request.accessToken)
      && g.request.accessToken !in revoked
      && CheckToken(g.request.accessToken, revoked, verify, false) == g
  {
    if cookie.None? && !HasBearer(authorization) then Respond(Failure(401, NotLoggedIn), false)
    else match ChosenToken(cookie, authorization)
      case None => Respond(Failure(500, UndefinedTokenLookup), false)
      case Some(token) => CheckToken(token, revoked, verify, false)
  }

  /** What `apiHandlerWithAdminAuth` decides: only the cookie is read, and the role must be `"admin"`. */
  function AdminGate(cookie: Option<Cookie>, revoked: set<string>, verify: string -> Verification): (g: GateResult)
    ensures cookie.None? || cookie.value.value == "" ==> g == Respond(Failure(401, NotLoggedIn), false)
    ensures cookie.Some? && cookie.value.value != "" ==> g == CheckToken(cookie.value.value, revoked, verify, true)
    ensures g.Proceed? ==>
      cookie.Some? && g.request.accessToken == cookie.value.value
      && g.request.accessToken !in revoked
      && verify(g.request.accessToken).Decoded?
      && verify(g.request.accessToken).payload.role == Some("admin")
  {
    if cookie.None? || cookie.value.value == "" then Respond(Failure(401, NotLoggedIn), false)
    else CheckToken(cookie.value.value, revoked, verify, true)
  }

  /** Without any credential the user gate answers 401 whatever the ledger and the verifier hold. */
  lemma NoCredentialsNoLookup(authorization: Option<string>, revoked1: set<string>, revoked2: set<string>,
                              verify1: string -> Verification, verify2: string -> Verification)
    requires !HasBearer(authorization)
    ensures UserGate(None, authorization, revoked1, verify1) == UserGate(None, authorization, revoked2, verify2)
    ensures UserGate(None, authorization, revoked1, verify1).response.status == 401
  {
  }

  /** A revoked token is refused before it is verified: the verifier plays no part. */
  lemma RevokedBeforeVerification(cookie: Option<Cookie>, authorization: Option<string>, revoked: set<string>,
                                  verify1: string -> Verification, verify2: string -> Verification)
    requires ChosenToken(cookie, authorization).Some? && ChosenToken(cookie, authorization).value in revoked
    requires cookie.Some? || HasBearer(authorization)
    ensures UserGate(cookie, authorization, revoked, verify1) == UserGate(cookie, authorization, revoked, verify2)
    ensures UserGate(cookie, authorization, revoked, verify1) == Respond(Failure(401, TokenRevoked), true)
  {
  }

  /** A cookie with a value takes precedence over any `Authorization` header. */
  lemma CookieOverridesHeader(cookie: Cookie, h1: Option<string>, h2: Option<string>, revoked: set<string>,
                              verify: string -> Verification)
    requires cookie.value != ""
    ensures UserGate(Some(cookie), h1, revoked, verify) == UserGate(Some(cookie), h2, revoked, verify)
  {
  }

  /** The admin gate is stricter: a request it admits, the user gate admits identically, whatever the header. */
  lemma AdminImpliesUser(cookie: Option<Cookie>, authorization: Option<string>, revoked: set<string>,
                         verify: string -> Verification)
    requires AdminGate(cookie, revoked, verify).Proceed?
    ensures UserGate(cookie, authorization, revoked, verify) == AdminGate(cookie, revoked, verify)
  {
  }

  /** A bearer header alone opens the user gate for a good token but never the admin gate. */
  lemma AdminIgnoresBearer(authorization: string, revoked: set<string>, verify: string -> Verification)
    requires StartsWith(authorization, "Bearer ")
    requires authorization[7..] !in revoked && verify(authorization[7..]).Decoded?
    requires verify(authorization[7..]).payload.email.Some? && verify(authorization[7..]).payload.email.value != ""
    ensures UserGate(None, Some(authorization), revoked, verify).Proceed?
    ensures AdminGate(None, revoked, verify) == Respond(Failure(401, NotLoggedIn), false)
  {
    BearerToken(authorization);
  }

  /** A token whose claims carry no role (as `auth/login` issues them) never passes the admin gate. */
  lemma RolelessTokenForbidden(cookie: Cookie, revoked: set<string>, verify: string -> Verification, c: Claims)
    requires cookie.value != "" && RoundTrips(verify, cookie.value, c) && c.role.None?
    ensures !AdminGate(Some(cookie), revoked, verify).Proceed?
    ensures cookie.value !in revoked && c.email != "" ==>
      AdminGate(Some(cookie), revoked, verify) == Respond(Failure(403, Forbidden), false)
  {
  }

  /** Carries out `UserGate`: reads the cookie and the ledger, and deletes the cookie when the gate says so. */
  method RunUserGate(jar: CookieJar, ledger: TokenTable, authorization: Option<string>,
                     verify: string -> Verification) returns (g: GateResult)
    modifies jar
    ensures g == UserGate(old(jar.access), authorization, ledger.Tokens(), verify)
    ensures jar.access == if g.Respond? && g.clearCookie then None else old(jar.access)
  {
    var accessTokenCookie := jar.access;
    if accessTokenCookie.None? {
      if authorization.None? || authorization.value == "" || !StartsWith(authorization.value, "Bearer ") {
        return Respond(Failure(401, NotLoggedIn), false);
      }
    }
    var accessToken := ChosenToken(accessTokenCookie, authorization);
    if accessToken.None? {
      return Respond(Failure(500, UndefinedTokenLookup), false);
    }
    g := Screen(jar, ledger, accessToken.value, verify, false);
  }

  /** Carries out `AdminGate`. */
  method RunAdminGate(jar: CookieJar, ledger: TokenTable, verify: string -> Verification) returns (g: GateResult)
    modifies jar
    ensures g == AdminGate(old(jar.access), ledger.Tokens(), verify)
    ensures jar.access == if g.Respond? && g.clearCookie then None else old(jar.access)
  {
    var accessTokenCookie := jar.access;
    if accessTokenCookie.None? || accessTokenCookie.value.value == "" {
      return Respond(Failure(401, NotLoggedIn), false);
    }
    g := Screen(jar, ledger, accessTokenCookie.value.value, verify, true);
  }

  /** Carries out `CheckToken`, deleting the cookie on the two 401 answers that call for it. */
  method Screen(jar: CookieJar, ledger: TokenTable, accessToken: string, verify: string -> Verification,
                adminOnly: bool) returns (g: GateResult)
    modifies jar
    ensures g == CheckToken(accessToken, ledger.Tokens(), verify, adminOnly)
    ensures jar.access == if g.Respond? && g.clearCookie then None else old(jar.access)
  {
    if accessToken in ledger.Tokens() {
      jar.access := None;
      return Respond(Failure(401, TokenRevoked), true);
    }
    var decoded := verify(accessToken);
    if decoded.VerifyError? {
      return Respond(Failure(500, decoded.message), false);
    }
    var payload := decoded.payload;
    if payload.email.None? || payload.email.value == "" {
      jar.access := None;
      return Respond(Failure(401, TokenInvalid), true);
    }
    if adminOnly && payload.role != Some("admin") {
      return Respond(Failure(403, Forbidden), false);
    }
    g := Proceed(Admit(accessToken, payload));
  }

  /** `apiHandlerWithAuth(handler)`: the gate's own answer, or the wrapped handler's. */
  method ApiHandlerWithAuth(jar: CookieJar, ledger: TokenTable, authorization: Option<string>,
                            verify: string -> Verification, handler: AuthRequest -> Outcome) returns (r: Response)
    modifies jar
    ensures var g := UserGate(old(jar.access), authorization, ledger.Tokens(), verify);
      r == if g.Proceed? then ApiHandler(handler(g.request)) else g.response
  {
    var g := RunUserGate(jar, ledger, authorization, verify);
    r := if g.Proceed? then ApiHandler(handler(g.request)) else g.response;
  }

  /** `apiHandlerWithAdminAuth(handler)`. */
  method ApiHandlerWithAdminAuth(jar: CookieJar, ledger: TokenTable, verify: string -> Verification,
                                 handler: AuthRequest -> Outcome) returns (r: Response)
    modifies jar
    ensures var g := AdminGate(old(jar.access), ledger.Tokens(), verify);
      r == if g.Proceed? then ApiHandler(handler(g.request)) else g.response
  {
    var g := RunAdminGate(jar, ledger, verify);
    r := if g.Proceed? then ApiHandler(handler(g.request)) else g.response;
  }
}
