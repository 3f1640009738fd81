/** `signupSchema`: a strict object of a name, an email and a new password. */
module SignupSchema {
  import opened Wrappers
  import opened Text
  import opened Http
  import opened Json
  import opened Zod
  import opened ZodSchemas
  import opened PasswordSchema

  /** What the schema outputs: the trimmed name and email, and the password already hashed by its transform. */
  datatype SignupInput = SignupInput(name: string, email: string, password: string)

  const SignupKeys: set<string> := {"name", "email", "password"}

  /** `signupSchema.parse(body)`: the issues of the three fields in order, then the unknown keys; or the input. */
  function ParseSignup(body: Json, emailFormat: string -> bool, hash: string -> string): (r: Result<SignupInput, seq<Issue>>)
    ensures !body.JObj? ==> r == Err([ExpectedObject(body)])
    ensures body.JObj? ==>
      var name := Lookup(body.members, "name");
      var email := Lookup(body.members, "email");
      var password := Lookup(body.members, "password");
      && (r.Ok? <==>
           && name.Some? && name.value.JStr? && WellFormedName(Trim(name.value.s))
           && email.Some? && email.value.JStr? && emailFormat(Trim(email.value.s))
           && password.Some? && password.value.JStr? && StrongPassword(password.value.s)
           && KeysWithin(body.members, SignupKeys))
      && (r.Ok? ==> r.value == SignupInput(Trim(name.value.s), Trim(email.value.s), hash(password.value.s)))
    ensures r.Err? ==> r.error != []
  {
    match body
    case JObj(members) =>
      var name := ParseName(Lookup(members, "name"));
      var email := ParseEmail(Lookup(members, "email"), emailFormat);
      var password := ParseChoosePassword(Lookup(members, "password"), hash);
      var issues := Under("name", IssuesOf(name)) + Under("email", IssuesOf(email))
                    + Under("password", IssuesOf(password)) + StrictIssues(members, SignupKeys);
      if issues == [] then Ok(SignupInput(name.value, email.value, password.value)) else Err(issues)
    case _ => Err([ExpectedObject(body)])
  }

  /** The body a sign-up form sends. */
  function SignupBody(name: string, email: string, password: string): Json {
    JObj([Member("name", JStr(name)), Member("email", JStr(email)), Member("password", JStr(password))])
  }

  /** A sign-up form body that parses yields the trimmed name and email, a well-formed email, and the hashed password. */
  lemma SignupBodyParsed(name: string, email: string, password: string, emailFormat: string -> bool, hash: string -> string)
    ensures ParseSignup(SignupBody(name, email, password), emailFormat, hash).Ok? ==>
      && emailFormat(Trim(email))
      && ParseSignup(SignupBody(name, email, password), emailFormat, hash).value
         == SignupInput(Trim(name), Trim(email), hash(password))
  {
    var members := SignupBody(name, email, password).members;
    assert members[..2][..1] == [Member("name", JStr(name))];
    assert members[..2] == [Member("name", JStr(name)), Member("email", JStr(email))];
    assert Lookup(members[..2], "name") == Some(JStr(name));
    assert Lookup(members, "name") == Some(JStr(name));
    assert Lookup(members, "email") == Some(JStr(email));
    assert Lookup(members, "password") == Some(JStr(password));
  }
}
