/**
 * `POST /api/user/login`: checks the credentials only (no deletion or verification checks), then
 * issues a token whose claims include the role, and never writes the user table.
 */
module UserLogin {
  import opened Wrappers
  import opened Accounts
  import opened Http
  import opened Json
  import opened Tokens
  import opened Store
  import opened SigninSchema
  import ApiHandlers
  import AuthLogin

  const UserNotFound := "User not found"
  const InvalidCredentials := "Invalid Credentials"
  const LoggedIn := "You are logged in successful"

  /** The response and the access-token cookie after the request. */
  datatype Reply = Reply(response: Response, cookie: Option<Cookie>)

  /** The claims this route signs: id, email and the role's name. */
  function RoleClaims(u: Account): (c: Claims)
    ensures c.id == u.id && c.email == u.email && c.role == Some(RoleName(u.role))
  {
    Claims(u.id, u.email, Some(RoleName(u.role)))
  }

  /** The route's effect: a validation answer, or the credential steps on the parsed body. */
  function UserLoginSpec(users: map<string, Account>, cookie: Option<Cookie>, body: Json,
                         emailFormat: string -> bool, check: (string, string) -> bool,
                         sign: Claims -> string): (o: Reply)
    ensures o.cookie != cookie ==> o.response.status == 200
    ensures o.response.status == 200 ==>
      o.response.body.ProfileShown? && o.response.body.token.Some?
      && o.cookie == Some(SessionCookie(o.response.body.token.value))
  {
    var parsed := ParseSignin(body, emailFormat);
    if parsed.Err? then Reply(ApiHandlers.CatchResponse(ZodError(parsed.error)), cookie)
    else Authenticated(users, cookie, parsed.value, check, sign)
  }

  /** The steps after validation: 404 for an unknown email, 401 for a wrong password, else the token. */
  function Authenticated(users: map<string, Account>, cookie: Option<Cookie>, c: Credentials,
                         check: (string, string) -> bool, sign: Claims -> string): (o: Reply)
    ensures o.cookie != cookie ==> o.response.status == 200
    ensures o.response.status == 200 <==> c.email in users && check(c.password, users[c.email].password)
    ensures o.response.status == 200 ==>
      o.response.body.ProfileShown? && o.response.body.token.Some?
      && o.cookie == Some(SessionCookie(o.response.body.token.value))
  {
    if c.email !in users then Reply(Failure(404, UserNotFound), cookie)
    else
      var user := users[c.email];
      if !check(c.password, user.password) then Reply(Failure(401, InvalidCredentials), cookie)
      else
        var accessToken := sign(RoleClaims(user));
        Reply(Response(200, ProfileShown(LoggedIn, ProfileOf(user), Some(accessToken))),
              Some(SessionCookie(accessToken)))
  }

  /** The handler: it may set the cookie, and it cannot write the user table. */
  method UserLogin(jar: CookieJar, store: UserTable, body: Json, emailFormat: string -> bool,
                   check: (string, string) -> bool, sign: Claims -> string) returns (r: Response)
    modifies jar
    ensures var o := UserLoginSpec(store.users, old(jar.access), body, emailFormat, check, sign);
      r == o.response && jar.access == o.cookie
  {
    var parsed := ParseSignin(body, emailFormat);
    if parsed.Err? {
      return ApiHandlers.CatchResponse(ZodError(parsed.error));
    }
    r := Authenticate(jar, store, parsed.value, check, sign);
  }

  /** The handler's steps after validation. */
  method Authenticate(jar: CookieJar, store: UserTable, c: Credentials,
                      check: (string, string) -> bool, sign: Claims -> string) returns (r: Response)
    modifies jar
    ensures var o := Authenticated(store.users, old(jar.access), c, check, sign);
      r == o.response && jar.access == o.cookie
  {
    if c.email !in store.users {
      return Failure(404, UserNotFound);
    }
    var user := store.users[c.email];
    if !check(c.password, user.password) {
      return Failure(401, InvalidCredentials);
    }
    var accessToken := sign(RoleClaims(user));
    jar.access := Some(SessionCookie(accessToken));
    r := Response(200, ProfileShown(LoggedIn, ProfileOf(user), Some(accessToken)));
  }

  /**
   * The only checks are the email and the password: a correct password always yields the profile,
   * a role-bearing token and the cookie, whatever the deletion and verification dates; an unknown
   * email is 404 and a wrong password 401.
   */
  lemma CredentialsOnly(users: map<string, Account>, cookie: Option<Cookie>, body: Json,
                        emailFormat: string -> bool, check: (string, string) -> bool, sign: Claims -> string)
    requires ParseSignin(body, emailFormat).Ok?
    ensures var c := ParseSignin(body, emailFormat).value;
      var o := UserLoginSpec(users, cookie, body, emailFormat, check, sign);
      && (c.email !in users ==> o == Reply(Failure(404, UserNotFound), cookie))
      && (c.email in users && !check(c.password, users[c.email].password) ==>
            o == Reply(Failure(401, InvalidCredentials), cookie))
      && (c.email in users && check(c.password, users[c.email].password) ==>
            var token := sign(Claims(users[c.email].id, users[c.email].email, Some(RoleName(users[c.email].role))));
            o == Reply(Response(200, ProfileShown(LoggedIn, ProfileOf(users[c.email]), Some(token))),
                       Some(SessionCookie(token))))
  {
  }

  /** Whatever `auth/login` admits, this route admits too, for the same account. */
  lemma AuthLoginImpliesUserLogin(users: map<string, Account>, cookie: Option<Cookie>, body: Json, now: int,
                                  emailFormat: string -> bool, check: (string, string) -> bool, sign: Claims -> string)
    requires AuthLogin.AuthLoginSpec(users, cookie, body, now, emailFormat, check, sign).response.status == 200
    ensures var o := UserLoginSpec(users, cookie, body, emailFormat, check, sign);
      var a := AuthLogin.AuthLoginSpec(users, cookie, body, now, emailFormat, check, sign).response.body;
      && o.response.status == 200
      && o.response.body.profile.id == a.summary.id
      && o.response.body.profile.email == a.summary.email
  {
    AuthLogin.SuccessRequires(users, cookie, body, now, emailFormat, check, sign);
    var c := ParseSignin(body, emailFormat).value;
    var a := AuthLogin.AuthLoginSpec(users, cookie, body, now, emailFormat, check, sign);
    assert a == AuthLogin.Admitted(users, cookie, c.email, now, sign);
    assert a.response.body.summary == SummaryOf(users[c.email]);
    PasswordAdmits(users, cookie, body, emailFormat, check, sign);
  }

  /** A known email with the right password is answered with that account's profile and a role-bearing token. */
  lemma PasswordAdmits(users: map<string, Account>, cookie: Option<Cookie>, body: Json,
                       emailFormat: string -> bool, check: (string, string) -> bool, sign: Claims -> string)
    requires ParseSignin(body, emailFormat).Ok?
    requires ParseSignin(body, emailFormat).value.email in users
    requires var c := ParseSignin(body, emailFormat).value; check(c.password, users[c.email].password)
    ensures var u := users[ParseSignin(body, emailFormat).value.email];
      var token := sign(RoleClaims(u));
      UserLoginSpec(users, cookie, body, emailFormat, check, sign) ==
        Reply(Response(200, ProfileShown(LoggedIn, ProfileOf(u), Some(token))), Some(SessionCookie(token)))
  {
  }

  /**
   * A token from this route opens the admin gate exactly for admins: an admin's unrevoked token
   * passes, a user's is refused.
   */
  lemma AdminTokenOpensAdminGate(users: map<string, Account>, cookie: Option<Cookie>, body: Json,
                                 emailFormat: string -> bool, check: (string, string) -> bool, sign: Claims -> string,
                                 verify: string -> Verification, revoked: set<string>)
    requires forall c :: RoundTrips(verify, sign(c), c)
    requires UserLoginSpec(users, cookie, body, emailFormat, check, sign).response.status == 200
    ensures var c := ParseSignin(body, emailFormat).value;
      var u := users[c.email];
      var o := UserLoginSpec(users, cookie, body, emailFormat, check, sign);
      var token := o.response.body.token.value;
      && (u.role == User ==> !ApiHandlers.AdminGate(o.cookie, revoked, verify).Proceed?)
      && (u.role == Admin && token != "" && token !in revoked && u.email != "" ==>
            ApiHandlers.AdminGate(o.cookie, revoked, verify).Proceed?)
  {
    var c := ParseSignin(body, emailFormat).value;
    assert c.email in users && check(c.password, users[c.email].password);
    PasswordAdmits(users, cookie, body, emailFormat, check, sign);
    var claims := RoleClaims(users[c.email]);
    assert RoundTrips(verify, sign(claims), claims);
    RoleTokenAtAdminGate(sign(claims), revoked, verify, users[c.email]);
  }

  /** The admin gate on a cookie holding a token signed over an account's role claims. */
  lemma RoleTokenAtAdminGate(token: string, revoked: set<string>, verify: string -> Verification, u: Account)
    requires RoundTrips(verify, token, RoleClaims(u))
    ensures u.role == User ==> !ApiHandlers.AdminGate(Some(SessionCookie(token)), revoked, verify).Proceed?
    ensures u.role == Admin && token != "" && token !in revoked && u.email != "" ==>
      ApiHandlers.AdminGate(Some(SessionCookie(token)), revoked, verify).Proceed?
  {
  }
}
