/**
 * `POST /api/user/signup`: validates the body, hashes the password, refuses an email already taken,
 * and otherwise inserts one account and answers with it, without its password.
 */
module Signup {
  import opened Wrappers
  import opened Accounts
  import opened Http
  import opened Json
  import opened Tokens
  import opened Store
  import opened SignupSchema
  import ApiHandlers
  import UserLogin
  import SigninSchema

  const EmailTaken := "This email has been already taken"
  const UserCreated := "User created successfully"

  /** The response and the user table after the request. */
  datatype SignupOutcome = SignupOutcome(response: Response, users: map<string, Account>)

  /**
   * The inserted row: name, email and password from the request; every other column (id, the slug
   * derived from the name, role, dates) is what the database fills in, given as `defaults`.
   */
  function NewAccount(defaults: Account, input: SignupInput, password: string): (a: Account)
    ensures a.name == input.name && a.email == input.email && a.password == password
    ensures a.id == defaults.id && a.slug == defaults.slug && a.role == defaults.role
  {
    defaults.(name := input.name, email := input.email, password := password)
  }

  /**
   * The route as written: the schema's output password is already a hash (its transform), and the
   * route hashes it again before storing it.
   */
  function SignupSpec(users: map<string, Account>, body: Json, emailFormat: string -> bool,
                      hash: string -> string, defaults: Account): (o: SignupOutcome)
    ensures o.response.status != 201 ==> o.users == users
    ensures o.response.status == 201 ==>
      ParseSignup(body, emailFormat, hash).Ok? &&
      var input := ParseSignup(body, emailFormat, hash).value;
      && input.email !in users
      && o.users == users[input.email := NewAccount(defaults, input, hash(input.password))]
      && o.response.body == AccountCreated(UserCreated, WithoutPassword(o.users[input.email]))
    ensures ParseSignup(body, emailFormat, hash).Ok? && ParseSignup(body, emailFormat, hash).value.email in users ==>
      o == SignupOutcome(Failure(409, EmailTaken), users)
    ensures KeyedByEmail(users) ==> KeyedByEmail(o.users)
  {
    var parsed := ParseSignup(body, emailFormat, hash);
    if parsed.Err? then SignupOutcome(ApiHandlers.CatchResponse(ZodError(parsed.error)), users)
    else Register(users, parsed.value, hash(parsed.value.password), defaults)
  }

  /** The steps after validation: refuse a taken email, otherwise insert the account with `password`. */
  function Register(users: map<string, Account>, input: SignupInput, password: string, defaults: Account): (o: SignupOutcome)
    ensures o.response.status == 201 <==> input.email !in users
    ensures input.email in users ==> o == SignupOutcome(Failure(409, EmailTaken), users)
    ensures input.email !in users ==>
      && o.users == users[input.email := NewAccount(defaults, input, password)]
      && o.response.body == AccountCreated(UserCreated, WithoutPassword(o.users[input.email]))
    ensures KeyedByEmail(users) ==> KeyedByEmail(o.users)
  {
    if input.email in users then SignupOutcome(Failure(409, EmailTaken), users)
    else
      var user := NewAccount(defaults, input, password);
      SignupOutcome(Response(201, AccountCreated(UserCreated, WithoutPassword(user))),
                    users[input.email := user])
  }

  /** The handler, on the user table. */
  method Signup(store: UserTable, body: Json, emailFormat: string -> bool, hash: string -> string,
                defaults: Account) returns (r: Response)
    modifies store
    ensures var o := SignupSpec(old(store.users), body, emailFormat, hash, defaults);
      r == o.response && store.users == o.users
  {
    var parsed := ParseSignup(body, emailFormat, hash);
    if parsed.Err? {
      return ApiHandlers.CatchResponse(ZodError(parsed.error));
    }
    var password := hash(parsed.value.password);
    r := Insert(store, parsed.value, password, defaults);
  }

  /** The handler's steps after validation and hashing. */
  method Insert(store: UserTable, input: SignupInput, password: string, defaults: Account) returns (r: Response)
    modifies store
    ensures var o := Register(old(store.users), input, password, defaults);
      r == o.response && store.users == o.users
  {
    if input.email in store.users {
      return Failure(409, EmailTaken);
    }
    var user := NewAccount(defaults, input, password);
    store.users := store.users[input.email := user];
    r := Response(201, AccountCreated(UserCreated, WithoutPassword(user)));
  }

  /** A successful sign-up stores a hash of the schema's output, itself the hash of the password typed. */
  lemma StoredTwiceHashed(users: map<string, Account>, name: string, email: string, password: string,
                          emailFormat: string -> bool, hash: string -> string, defaults: Account)
    requires SignupSpec(users, SignupBody(name, email, password), emailFormat, hash, defaults).response.status == 201
    ensures var o := SignupSpec(users, SignupBody(name, email, password), emailFormat, hash, defaults);
      var e := ParseSignup(SignupBody(name, email, password), emailFormat, hash).value.email;
      e in o.users && o.users[e].password == hash(hash(password))
  {
    SignupBodyParsed(name, email, password, emailFormat, hash);
  }

  /**
   * As written, an account cannot log in with the password it signed up with: the check compares
   * the password with a hash of its hash. `check` accepts a password only against a hash of that
   * same password, and a hash never equals its input.
   */
  lemma SignupThenLoginRefused(users: map<string, Account>, name: string, email: string, password: string,
                               cookie: Option<Cookie>, emailFormat: string -> bool, hash: string -> string,
                               check: (string, string) -> bool, sign: Claims -> string, defaults: Account)
    requires forall p, q :: check(p, hash(q)) ==> p == q
    requires forall p :: hash(p) != p
    requires SignupSpec(users, SignupBody(name, email, password), emailFormat, hash, defaults).response.status == 201
    ensures var o := SignupSpec(users, SignupBody(name, email, password), emailFormat, hash, defaults);
      UserLogin.UserLoginSpec(o.users, cookie, SigninSchema.SigninBody(email, password), emailFormat, check, sign).response
        == Failure(401, UserLogin.InvalidCredentials)
  {
    StoredTwiceHashed(users, name, email, password, emailFormat, hash, defaults);
    SignupBodyParsed(name, email, password, emailFormat, hash);
    SigninSchema.SigninBodyParsed(email, password, emailFormat);
    assert hash(password) != password;
    assert !check(password, hash(hash(password)));
  }

  /** The intended route: the schema's output, already a hash, is stored as it is. */
  function SignupSpecIntended(users: map<string, Account>, body: Json, emailFormat: string -> bool,
                              hash: string -> string, defaults: Account): (o: SignupOutcome)
    ensures o.response.status != 201 ==> o.users == users
    ensures o.response.status == 201 ==>
      ParseSignup(body, emailFormat, hash).Ok? &&
      var input := ParseSignup(body, emailFormat, hash).value;
      && input.email !in users
      && o.users == users[input.email := NewAccount(defaults, input, input.password)]
    ensures KeyedByEmail(users) ==> KeyedByEmail(o.users)
  {
    var parsed := ParseSignup(body, emailFormat, hash);
    if parsed.Err? then SignupOutcome(ApiHandlers.CatchResponse(ZodError(parsed.error)), users)
    else Register(users, parsed.value, parsed.value.password, defaults)
  }

  /** With the intended route, the password signed up with logs in. */
  lemma SignupThenLoginAccepted(users: map<string, Account>, name: string, email: string, password: string,
                                cookie: Option<Cookie>, emailFormat: string -> bool, hash: string -> string,
                                check: (string, string) -> bool, sign: Claims -> string, defaults: Account)
    requires forall p :: check(p, hash(p))
    requires SignupSpecIntended(users, SignupBody(name, email, password), emailFormat, hash, defaults).response.status == 201
    ensures var o := SignupSpecIntended(users, SignupBody(name, email, password), emailFormat, hash, defaults);
      UserLogin.UserLoginSpec(o.users, cookie, SigninSchema.SigninBody(email, password), emailFormat, check, sign).response.status == 200
  {
    SignupBodyParsed(name, email, password, emailFormat, hash);
    SigninSchema.SigninBodyParsed(email, password, emailFormat);
    assert check(password, hash(password));
  }
}
