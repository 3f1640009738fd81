/** `signinSchema`: a strict object of an email and a password of any string. */
module SigninSchema {
  import opened Wrappers
  import opened Text
  import opened Http
  import opened Json
  import opened Zod
  import opened ZodSchemas
  import opened PasswordSchema
  import Seqs

  datatype Credentials = Credentials(email: string, password: string)

  const SigninKeys: set<string> := {"email", "password"}

  /** `signinSchema.parse(body)`: the issues of both fields, then the unknown keys; or the credentials. */
  function ParseSignin(body: Json, emailFormat: string -> bool): (r: Result<Credentials, seq<Issue>>)
    ensures !body.JObj? ==> r == Err([ExpectedObject(body)])
    ensures body.JObj? ==>
      var email := Lookup(body.members, "email");
      var password := Lookup(body.members, "password");
      && (r.Ok? <==>
           && email.Some? && email.value.JStr? && emailFormat(Trim(email.value.s))
           && password.Some? && password.value.JStr?
           && KeysWithin(body.members, SigninKeys))
      && (r.Ok? ==> r.value == Credentials(Trim(email.value.s), password.value.s))
    ensures r.Err? ==> r.error != []
  {
    match body
    case JObj(members) =>
      var email := ParseEmail(Lookup(members, "email"), emailFormat);
      var password := ParsePassword(Lookup(members, "password"));
      var issues := Under("email", IssuesOf(email)) + Under("password", IssuesOf(password))
                    + StrictIssues(members, SigninKeys);
      if issues == [] then Ok(Credentials(email.value, password.value)) else Err(issues)
    case _ => Err([ExpectedObject(body)])
  }

  /** A body without a password is refused with "Password is required" on the `password` key. */
  lemma MissingPasswordReported(members: seq<Member>, emailFormat: string -> bool)
    requires !HasKey(members, "password")
    ensures ParseSignin(JObj(members), emailFormat).Err?
    ensures Issue(InvalidType, ["password"], PasswordRequired, []) in ParseSignin(JObj(members), emailFormat).error
  {
    var email := ParseEmail(Lookup(members, "email"), emailFormat);
    var fromPassword := Under("password", IssuesOf(ParsePassword(Lookup(members, "password"))));
    assert fromPassword[0] == Issue(InvalidType, ["password"], PasswordRequired, []);
    var issues := Under("email", IssuesOf(email)) + fromPassword + StrictIssues(members, SigninKeys);
    assert issues[|Under("email", IssuesOf(email))|] == fromPassword[0];
  }

  /** A key other than `email` and `password` is refused, by an `unrecognized_keys` issue that comes last. */
  lemma ExtraKeyRejected(members: seq<Member>, emailFormat: string -> bool, k: nat)
    requires k < |members| && members[k].key !in SigninKeys
    ensures var r := ParseSignin(JObj(members), emailFormat);
      && r.Err?
      && r.error[|r.error| - 1].code == UnrecognizedKeys
      && members[k].key in r.error[|r.error| - 1].keys
  {
    var email := ParseEmail(Lookup(members, "email"), emailFormat);
    var password := ParsePassword(Lookup(members, "password"));
    var strict := StrictIssues(members, SigninKeys);
    var issues := Under("email", IssuesOf(email)) + Under("password", IssuesOf(password)) + strict;
    assert strict != [];
    assert ParseSignin(JObj(members), emailFormat) == Err(issues);
    assert issues[|issues| - 1] == strict[0];
    UnknownKeyListed(members, SigninKeys, k);
  }

  /** The body a login form sends. */
  function SigninBody(email: string, password: string): Json {
    JObj([Member("email", JStr(email)), Member("password", JStr(password))])
  }

  /**
   * A login form body parses to the trimmed email and the password as typed, whenever the email is
   * well formed; the empty password included, since only its presence and type are checked.
   */
  lemma SigninBodyParsed(email: string, password: string, emailFormat: string -> bool)
    ensures emailFormat(Trim(email)) ==>
      ParseSignin(SigninBody(email, password), emailFormat) == Ok(Credentials(Trim(email), password))
  {
    if emailFormat(Trim(email)) {
      var members := [Member("email", JStr(email)), Member("password", JStr(password))];
      assert Lookup(members, "email") == Some(JStr(email)) by {
        assert members[..1] == [Member("email", JStr(email))];
      }
      assert Lookup(members, "password") == Some(JStr(password));
      SigninBodyKeys(email, password);
      CredentialsParsed(members, email, password, emailFormat);
    }
  }

  /** A login form body has no key outside the shape. */
  lemma SigninBodyKeys(email: string, password: string)
    ensures KeysWithin([Member("email", JStr(email)), Member("password", JStr(password))], SigninKeys)
  {
    var members := [Member("email", JStr(email)), Member("password", JStr(password))];
    assert members[0].key in SigninKeys && members[1].key in SigninKeys;
  }

  lemma CredentialsParsed(members: seq<Member>, email: string, password: string, emailFormat: string -> bool)
    requires Lookup(members, "email") == Some(JStr(email)) && emailFormat(Trim(email))
    requires Lookup(members, "password") == Some(JStr(password))
    requires KeysWithin(members, SigninKeys)
    ensures ParseSignin(JObj(members), emailFormat) == Ok(Credentials(Trim(email), password))
  {
    var e := ParseEmail(Lookup(members, "email"), emailFormat);
    var p := ParsePassword(Lookup(members, "password"));
    assert e == Ok(Trim(email));
    assert p == Ok(password);
    assert StrictIssues(members, SigninKeys) == [];
    assert Under("email", IssuesOf(e)) + Under("password", IssuesOf(p)) + StrictIssues(members, SigninKeys) == [];
  }
}
