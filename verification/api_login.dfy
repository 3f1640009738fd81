/** `POST /api/login`: a credential check behind the older wrapper that answers with the profile and issues no token. */
module ApiLogin {
  import opened Wrappers
  import opened Accounts
  import opened Http
  import opened Json
  import opened Tokens
  import opened Store
  import opened SigninSchema
  import LegacyApiHandler
  import ZodErrors
  import UserLogin

  const UserNotFound := "User not found"
  const InvalidCredentials := "Invalid Credentials"
  const LoginSuccessful := "Login successful"

  /** The route: it reads the user table and builds a response; nothing is written and no cookie is set. */
  function ApiLogin(users: map<string, Account>, body: Json, emailFormat: string -> bool,
                    check: (string, string) -> bool): (r: Response)
    ensures r.status == 200 ==> r.body.ProfileShown? && r.body.token.None?
  {
    var parsed := ParseSignin(body, emailFormat);
    if parsed.Err? then LegacyApiHandler.CatchResponse(ZodError(parsed.error))
    else if parsed.value.email !in users then Failure(401, UserNotFound)
    else
      var user := users[parsed.value.email];
      if !check(parsed.value.password, user.password) then Failure(401, InvalidCredentials)
      else Response(200, ProfileShown(LoginSuccessful, ProfileOf(user), None))
  }

  /**
   * Against `user/login`: the same validation answer, the same credential decision and the same
   * profile, but an unknown email is 401 here (404 there), and no token is issued.
   */
  lemma AgreesWithUserLogin(users: map<string, Account>, cookie: Option<Cookie>, body: Json,
                            emailFormat: string -> bool, check: (string, string) -> bool, sign: Claims -> string)
    ensures var a := ApiLogin(users, body, emailFormat, check);
      var u := UserLogin.UserLoginSpec(users, cookie, body, emailFormat, check, sign).response;
      && (a.status == 200 <==> u.status == 200)
      && (a.status == 200 ==> a.body.profile == u.body.profile && a.body.token.None? && a.body.message == LoginSuccessful)
      && (a.status != 200 && u.status != 404 ==> a == u)
      && (u.status == 404 ==> a == Failure(401, UserNotFound))
  {
    var parsed := ParseSignin(body, emailFormat);
    var a := ApiLogin(users, body, emailFormat, check);
    var u := UserLogin.UserLoginSpec(users, cookie, body, emailFormat, check, sign).response;
    if parsed.Err? {
      var v := ZodErrors.ValidationResponse(parsed.error);
      assert a == v && u == v;
    } else if parsed.value.email !in users {
      assert a == Failure(401, UserNotFound);
      assert u == Failure(404, UserLogin.UserNotFound);
    } else if !check(parsed.value.password, users[parsed.value.email].password) {
      assert a == Failure(401, InvalidCredentials) && u == a;
    } else {
      UserLogin.PasswordAdmits(users, cookie, body, emailFormat, check, sign);
      assert a == Response(200, ProfileShown(LoginSuccessful, ProfileOf(users[parsed.value.email]), None));
    }
  }
}
