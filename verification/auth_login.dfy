/**
 * `POST /api/auth/login`: checks the credentials, applies the soft-delete grace window (restoring an
 * account deleted less than three days ago), requires a verified email, then records the login and
 * issues a token without a role claim in the session cookie.
 */
module AuthLogin {
  import opened Wrappers
  import opened Accounts
  import opened Http
  import opened Json
  import opened Tokens
  import opened Store
  import opened SigninSchema
  import ApiHandlers

  const UserNotFound := "User not found"
  const InvalidCredentials := "Invalid Credentials"
  const DeletedForGood := "User was deleted, for restore contact to admin support"
  const RestoredUnverified := "Your account was restored. Please verify your email to login."
  const VerifyFirst := "Please verify your email before logging in."
  const LoggedIn := "You are logged in successful"

  /** Three days in milliseconds: `diffMs / (1000 * 60 * 60 * 24) > 3` is `diffMs > GraceMs`. */
  const GraceMs := 3 * 24 * 60 * 60 * 1000

  /** The account was deleted more than three days before `now`. */
  predicate PastGrace(deletedAt: Option<int>, now: int) {
    deletedAt.Some? && now - deletedAt.value > GraceMs
  }

  /** What one request does: the response, the user table after it, and the access-token cookie after it. */
  datatype LoginOutcome = LoginOutcome(response: Response, users: map<string, Account>, cookie: Option<Cookie>)

  /** The route's effect, step by step as the handler takes it. */
  function AuthLoginSpec(users: map<string, Account>, cookie: Option<Cookie>, body: Json, now: int,
                         emailFormat: string -> bool, check: (string, string) -> bool,
                         sign: Claims -> string): (o: LoginOutcome)
    ensures o.users.Keys == users.Keys
    ensures KeyedByEmail(users) ==> KeyedByEmail(o.users)
    ensures forall e :: e in users && o.users[e] != users[e] ==>
      var c := ParseSignin(body, emailFormat);
      c.Ok? && e == c.value.email && check(c.value.password, users[e].password)
    ensures o.cookie != cookie ==> o.response.status == 200
    ensures o.response.status == 200 ==>
      o.response.body.SessionStarted? && o.cookie == Some(SessionCookie(o.response.body.accessToken))
  {
    var parsed := ParseSignin(body, emailFormat);
    if parsed.Err? then LoginOutcome(ApiHandlers.CatchResponse(ZodError(parsed.error)), users, cookie)
    else
      var email := parsed.value.email;
      if email !in users then LoginOutcome(Failure(404, UserNotFound), users, cookie)
      else if !check(parsed.value.password, users[email].password) then
        LoginOutcome(Failure(401, InvalidCredentials), users, cookie)
      else if PastGrace(users[email].deletedAt, now) then LoginOutcome(Failure(410, DeletedForGood), users, cookie)
      else Admitted(users, cookie, email, now, sign)
  }

  /**
   * The rest of the route once the password matched within the grace window: restore a deleted
   * account, require a verified email, then record the login and issue the token.
   */
  function Admitted(users: map<string, Account>, cookie: Option<Cookie>, email: string, now: int,
                    sign: Claims -> string): (o: LoginOutcome)
    requires email in users
    ensures o.users.Keys == users.Keys
    ensures forall e :: e in users && o.users[e] != users[e] ==> e == email
    ensures o.users[email].email == users[email].email
    ensures o.response.status == 200 ==> users[email].emailVerifiedAt.Some?
    ensures o.cookie != cookie ==> o.response.status == 200
    ensures o.response.status == 200 ==>
      o.response.body.SessionStarted? && o.cookie == Some(SessionCookie(o.response.body.accessToken))
      && o.response.body.summary == SummaryOf(users[email])
  {
    var user := users[email];
    var restored := users[email := user.(deletedAt := None)];
    if user.deletedAt.Some? && user.emailVerifiedAt.None? then
      LoginOutcome(Failure(403, RestoredUnverified), restored, cookie)
    else if user.emailVerifiedAt.None? then LoginOutcome(Failure(403, VerifyFirst), users, cookie)
    else
      var finalUser := SummaryOf(user);
      var accessToken := sign(Claims(finalUser.id, finalUser.email, None));
      LoginOutcome(Response(200, SessionStarted(LoggedIn, finalUser, accessToken)),
                   restored[email := user.(deletedAt := None, lastLoginAt := Some(now))],
                   Some(SessionCookie(accessToken)))
  }

  /** The handler, on the user table and the cookie jar. */
  method AuthLogin(jar: CookieJar, store: UserTable, body: Json, now: int, emailFormat: string -> bool,
                   check: (string, string) -> bool, sign: Claims -> string) returns (r: Response)
    modifies jar, store
    ensures var o := AuthLoginSpec(old(store.users), old(jar.access), body, now, emailFormat, check, sign);
      r == o.response && store.users == o.users && jar.access == o.cookie
  {
    var parsed := ParseSignin(body, emailFormat);
    if parsed.Err? {
      return ApiHandlers.CatchResponse(ZodError(parsed.error));
    }
    var email := parsed.value.email;
    var password := parsed.value.password;
    if email !in store.users {
      return Failure(404, UserNotFound);
    }
    var user := store.users[email];
    if !check(password, user.password) {
      return Failure(401, InvalidCredentials);
    }
    if user.deletedAt.Some? && now - user.deletedAt.value > GraceMs {
      return Failure(410, DeletedForGood);
    }
    r := RecordLogin(jar, store, email, now, sign);
  }

  /** The handler's steps after the grace-window check. */
  method RecordLogin(jar: CookieJar, store: UserTable, email: string, now: int, sign: Claims -> string)
    returns (r: Response)
    requires email in store.users
    modifies jar, store
    ensures var o := Admitted(old(store.users), old(jar.access), email, now, sign);
      r == o.response && store.users == o.users && jar.access == o.cookie
  {
    var user := store.users[email];
    if user.deletedAt.Some? {
      store.users := store.users[email := store.users[email].(deletedAt := None)];
      if user.emailVerifiedAt.None? {
        return Failure(403, RestoredUnverified);
      }
    }
    if user.emailVerifiedAt.None? {
      return Failure(403, VerifyFirst);
    }
    store.users := store.users[email := store.users[email].(lastLoginAt := Some(now))];
    var finalUser := SummaryOf(store.users[email]);
    var accessToken := sign(Claims(finalUser.id, finalUser.email, None));
    jar.access := Some(SessionCookie(accessToken));
    r := Response(200, SessionStarted(LoggedIn, finalUser, accessToken));
  }

  /** An unknown email answers 404 and writes nothing. */
  lemma UnknownEmail(users: map<string, Account>, cookie: Option<Cookie>, body: Json, now: int,
                     emailFormat: string -> bool, check: (string, string) -> bool, sign: Claims -> string)
    requires ParseSignin(body, emailFormat).Ok? && ParseSignin(body, emailFormat).value.email !in users
    ensures AuthLoginSpec(users, cookie, body, now, emailFormat, check, sign) == LoginOutcome(Failure(404, UserNotFound), users, cookie)
  {
  }

  /** Once the password matched within the grace window, the outcome is `Admitted`'s. */
  lemma PasswordMatched(users: map<string, Account>, cookie: Option<Cookie>, body: Json, now: int,
                        emailFormat: string -> bool, check: (string, string) -> bool, sign: Claims -> string)
    requires ParseSignin(body, emailFormat).Ok?
    requires var c := ParseSignin(body, emailFormat).value;
      c.email in users && check(c.password, users[c.email].password) && !PastGrace(users[c.email].deletedAt, now)
    ensures AuthLoginSpec(users, cookie, body, now, emailFormat, check, sign)
      == Admitted(users, cookie, ParseSignin(body, emailFormat).value.email, now, sign)
  {
  }

  /** A wrong password answers 401 whatever the deletion and verification dates, and writes nothing. */
  lemma WrongPassword(users: map<string, Account>, cookie: Option<Cookie>, body: Json, now: int,
                      emailFormat: string -> bool, check: (string, string) -> bool, sign: Claims -> string)
    requires ParseSignin(body, emailFormat).Ok?
    requires var c := ParseSignin(body, emailFormat).value;
      c.email in users && !check(c.password, users[c.email].password)
    ensures AuthLoginSpec(users, cookie, body, now, emailFormat, check, sign) == LoginOutcome(Failure(401, InvalidCredentials), users, cookie)
  {
  }

  /**
   * The grace window: deleted more than three days ago answers 410 and leaves `deletedAt` set;
   * deleted at most three days ago (exactly three included) clears `deletedAt` before the email check.
   */
  lemma GraceWindow(users: map<string, Account>, cookie: Option<Cookie>, body: Json, now: int,
                    emailFormat: string -> bool, check: (string, string) -> bool, sign: Claims -> string)
    requires ParseSignin(body, emailFormat).Ok?
    requires var c := ParseSignin(body, emailFormat).value;
      c.email in users && check(c.password, users[c.email].password) && users[c.email].deletedAt.Some?
    ensures var c := ParseSignin(body, emailFormat).value;
      var o := AuthLoginSpec(users, cookie, body, now, emailFormat, check, sign);
      && (now - users[c.email].deletedAt.value > 259200000 ==>
            o == LoginOutcome(Failure(410, DeletedForGood), users, cookie))
      && (now - users[c.email].deletedAt.value <= 259200000 ==> o.users[c.email].deletedAt.None?)
      && (now - users[c.email].deletedAt.value <= 259200000 && users[c.email].emailVerifiedAt.None? ==>
            o == LoginOutcome(Failure(403, RestoredUnverified), users[c.email := users[c.email].(deletedAt := None)], cookie))
  {
    var c := ParseSignin(body, emailFormat).value;
    assert GraceMs == 259200000;
    if PastGrace(users[c.email].deletedAt, now) {
      assert AuthLoginSpec(users, cookie, body, now, emailFormat, check, sign)
          == LoginOutcome(Failure(410, DeletedForGood), users, cookie);
    } else {
      PasswordMatched(users, cookie, body, now, emailFormat, check, sign);
      RestoredOnLogin(users, cookie, c.email, now, sign);
    }
  }

  /** Within the grace window a deleted account is restored, and an unverified one is refused after that write. */
  lemma RestoredOnLogin(users: map<string, Account>, cookie: Option<Cookie>, email: string, now: int, sign: Claims -> string)
    requires email in users && users[email].deletedAt.Some?
    ensures Admitted(users, cookie, email, now, sign).users[email].deletedAt.None?
    ensures users[email].emailVerifiedAt.None? ==>
      Admitted(users, cookie, email, now, sign)
        == LoginOutcome(Failure(403, RestoredUnverified), users[email := users[email].(deletedAt := None)], cookie)
  {
  }

  /** An account that was never deleted and is unverified answers 403 with no token and no write. */
  lemma UnverifiedRefused(users: map<string, Account>, cookie: Option<Cookie>, body: Json, now: int,
                          emailFormat: string -> bool, check: (string, string) -> bool, sign: Claims -> string)
    requires ParseSignin(body, emailFormat).Ok?
    requires var c := ParseSignin(body, emailFormat).value;
      c.email in users && check(c.password, users[c.email].password)
      && users[c.email].deletedAt.None? && users[c.email].emailVerifiedAt.None?
    ensures AuthLoginSpec(users, cookie, body, now, emailFormat, check, sign) == LoginOutcome(Failure(403, VerifyFirst), users, cookie)
  {
    PasswordMatched(users, cookie, body, now, emailFormat, check, sign);
  }

  /**
   * A successful login: the account (restored if it was within the grace window) gets `lastLoginAt = now`,
   * the response carries only `{id, name, slug, email}` and a token signed over `{id, email}` alone.
   */
  lemma Success(users: map<string, Account>, cookie: Option<Cookie>, body: Json, now: int,
                emailFormat: string -> bool, check: (string, string) -> bool, sign: Claims -> string)
    requires ParseSignin(body, emailFormat).Ok?
    requires var c := ParseSignin(body, emailFormat).value;
      c.email in users && check(c.password, users[c.email].password)
      && !PastGrace(users[c.email].deletedAt, now) && users[c.email].emailVerifiedAt.Some?
    ensures var c := ParseSignin(body, emailFormat).value;
      var u := users[c.email];
      var o := AuthLoginSpec(users, cookie, body, now, emailFormat, check, sign);
      var token := sign(Claims(u.id, u.email, None));
      && o.response == Response(200, SessionStarted(LoggedIn, Summary(u.id, u.name, u.slug, u.email), token))
      && o.users == users[c.email := u.(deletedAt := None, lastLoginAt := Some(now))]
      && o.cookie == Some(SessionCookie(token))
  {
    var c := ParseSignin(body, emailFormat).value;
    var u := users[c.email];
    PasswordMatched(users, cookie, body, now, emailFormat, check, sign);
    VerifiedAdmitted(users, cookie, c.email, now, sign);
    OverwriteTwice(users, c.email, u.(deletedAt := None), u.(deletedAt := None, lastLoginAt := Some(now)));
  }

  /** A verified account is admitted: `lastLoginAt` recorded, `deletedAt` cleared, the token signed over `{id, email}`. */
  lemma VerifiedAdmitted(users: map<string, Account>, cookie: Option<Cookie>, email: string, now: int, sign: Claims -> string)
    requires email in users && users[email].emailVerifiedAt.Some?
    ensures var u := users[email];
      var token := sign(Claims(u.id, u.email, None));
      Admitted(users, cookie, email, now, sign) ==
        LoginOutcome(Response(200, SessionStarted(LoggedIn, Summary(u.id, u.name, u.slug, u.email), token)),
                     users[email := u.(deletedAt := None)][email := u.(deletedAt := None, lastLoginAt := Some(now))],
                     Some(SessionCookie(token)))
  {
  }

  /** Writing an account twice leaves the second write: `Success` uses it to merge the restore and the login update. */
  lemma OverwriteTwice(users: map<string, Account>, email: string, first: Account, second: Account)
    ensures users[email := first][email := second] == users[email := second]
  {
  }

  /** A 200 answer means the credentials matched an account that is verified and within the grace window. */
  lemma SuccessRequires(users: map<string, Account>, cookie: Option<Cookie>, body: Json, now: int,
                        emailFormat: string -> bool, check: (string, string) -> bool, sign: Claims -> string)
    requires AuthLoginSpec(users, cookie, body, now, emailFormat, check, sign).response.status == 200
    ensures ParseSignin(body, emailFormat).Ok?
    ensures var c := ParseSignin(body, emailFormat).value;
      && c.email in users && check(c.password, users[c.email].password)
      && !PastGrace(users[c.email].deletedAt, now) && users[c.email].emailVerifiedAt.Some?
  {
    var parsed := ParseSignin(body, emailFormat);
    assert parsed.Ok?;
    var c := parsed.value;
    assert c.email in users && check(c.password, users[c.email].password);
    assert !PastGrace(users[c.email].deletedAt, now);
    PasswordMatched(users, cookie, body, now, emailFormat, check, sign);
  }

  /** A token this route issues never passes the admin gate, whatever the account's role. */
  lemma TokenNeverAdmin(users: map<string, Account>, cookie: Option<Cookie>, body: Json, now: int,
                        emailFormat: string -> bool, check: (string, string) -> bool, sign: Claims -> string,
                        verify: string -> Verification, revoked: set<string>)
    requires forall c :: RoundTrips(verify, sign(c), c)
    requires AuthLoginSpec(users, cookie, body, now, emailFormat, check, sign).response.status == 200
    ensures !ApiHandlers.AdminGate(AuthLoginSpec(users, cookie, body, now, emailFormat, check, sign).cookie, revoked, verify).Proceed?
  {
    SuccessRequires(users, cookie, body, now, emailFormat, check, sign);
    var c := ParseSignin(body, emailFormat).value;
    var u := users[c.email];
    var claims := Claims(u.id, u.email, None);
    var token := sign(claims);
    PasswordMatched(users, cookie, body, now, emailFormat, check, sign);
    VerifiedAdmitted(users, cookie, c.email, now, sign);
    assert AuthLoginSpec(users, cookie, body, now, emailFormat, check, sign).cookie == Some(SessionCookie(token));
    assert RoundTrips(verify, token, claims);
    if token != "" {
      ApiHandlers.RolelessTokenForbidden(SessionCookie(token), revoked, verify, claims);
    }
  }
}
