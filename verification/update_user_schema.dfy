/**
 * `updateUserSchema`: the fields an administrator may change on an account, every one optional,
 * plus the rule that a restore request carries nothing else; unknown keys are refused.
 */
module UpdateUserSchema {
  import opened Wrappers
  import opened Text
  import opened Http
  import opened Json
  import opened Zod
  import opened ZodSchemas

  const RoleExpected := "role expected only user or admin"
  const EmailVerifiedExpected := "emailVerified expected true"
  const BannedExpected := "banned expected boolean"
  const BanReasonExpected := "banReason expected string"
  const BanReasonRequired := "Banned reason is required"
  const RestoreExpected := "restore expected true"
  const RestoreOnlyMessage := "No other fields allowed when restore is true"

  const UpdateKeys: set<string> :=
    {"name", "role", "emailVerified", "banned", "banReason", "paddleId", "googleId", "appleId", "restore"}

  /** The parsed update; `Absent` is a key the body did not have. */
  datatype UserUpdate = UserUpdate(
    name: Field<string>,
    role: Field<string>,
    emailVerified: Field<bool>,
    banned: Field<bool>,
    banReason: Field<string>,
    paddleId: Field<string>,
    googleId: Field<string>,
    appleId: Field<string>,
    restore: Field<bool>)

  /** `nameSchema.optional()`. */
  function ParseOptionalName(v: Option<Json>): (r: Result<Field<string>, seq<Issue>>)
    ensures r.Ok? <==> v.None? || ParseName(v).Ok?
  {
    if v.None? then Ok(Absent)
    else match ParseName(v)
      case Ok(t) => Ok(Given(t))
      case Err(issues) => Err(issues)
  }

  /** `z.literal(["user", "admin"]).optional()`. */
  function ParseRole(v: Option<Json>): (r: Result<Field<string>, seq<Issue>>)
    ensures r.Ok? <==> v.None? || v == Some(JStr("user")) || v == Some(JStr("admin"))
  {
    if v.None? then Ok(Absent)
    else if v == Some(JStr("user")) || v == Some(JStr("admin")) then Ok(Given(v.value.s))
    else Err([Problem(InvalidValue, RoleExpected)])
  }

  /** `z.literal(true).optional()`, for `emailVerified` and `restore`: `false` is refused. */
  function ParseTrue(v: Option<Json>, message: string): (r: Result<Field<bool>, seq<Issue>>)
    ensures r.Ok? <==> v.None? || v == Some(JBool(true))
  {
    if v.None? then Ok(Absent)
    else if v == Some(JBool(true)) then Ok(Given(true))
    else Err([Problem(InvalidValue, message)])
  }

  /** `z.boolean().optional()`. */
  function ParseBanned(v: Option<Json>): (r: Result<Field<bool>, seq<Issue>>)
    ensures r.Ok? <==> v.None? || v.value.JBool?
  {
    if v.None? then Ok(Absent)
    else if v.value.JBool? then Ok(Given(v.value.b))
    else Err([Problem(InvalidType, BannedExpected)])
  }

  /** `z.string().trim().min(1).nullable().optional()`: `null`, or a string that is not blank; the output is trimmed. */
  function ParseBanReason(v: Option<Json>): (r: Result<Field<string>, seq<Issue>>)
    ensures r.Ok? <==> v.None? || v == Some(JNull) || (v.value.JStr? && Trim(v.value.s) != "")
    ensures r.Ok? && v.Some? && v.value.JStr? ==> r.value == Given(Trim(v.value.s))
  {
    if v.None? then Ok(Absent)
    else if v == Some(JNull) then Ok(Null)
    else if v.value.JStr? then
      var t := Trim(v.value.s);
      if |t| >= 1 then Ok(Given(t)) else Err([Problem(TooSmall, BanReasonRequired)])
    else Err([Problem(InvalidType, BanReasonExpected)])
  }

  /** `z.string().nullable().optional()`, for the three external ids; not trimmed. */
  function ParseExternalId(v: Option<Json>, message: string): (r: Result<Field<string>, seq<Issue>>)
    ensures r.Ok? <==> v.None? || v == Some(JNull) || v.value.JStr?
  {
    if v.None? then Ok(Absent)
    else if v == Some(JNull) then Ok(Null)
    else if v.value.JStr? then Ok(Given(v.value.s))
    else Err([Problem(InvalidType, message)])
  }

  /** A field the body gave a value other than `null`. */
  predicate Set<T>(f: Field<T>) {
    f.Given?
  }

  /** `!data.restore || (no other key has a value that is neither undefined nor null)`. */
  predicate RestoreAlone(u: UserUpdate) {
    u.restore.Given? ==>
      !Set(u.name) && !Set(u.role) && !Set(u.emailVerified) && !Set(u.banned) && !Set(u.banReason)
      && !Set(u.paddleId) && !Set(u.googleId) && !Set(u.appleId)
  }

  /** Every issue the fields report, in shape order, each under its key. */
  function FieldIssues(members: seq<Member>): seq<Issue> {
    Under("name", IssuesOf(ParseOptionalName(Lookup(members, "name"))))
    + Under("role", IssuesOf(ParseRole(Lookup(members, "role"))))
    + Under("emailVerified", IssuesOf(ParseTrue(Lookup(members, "emailVerified"), EmailVerifiedExpected)))
    + Under("banned", IssuesOf(ParseBanned(Lookup(members, "banned"))))
    + Under("banReason", IssuesOf(ParseBanReason(Lookup(members, "banReason"))))
    + Under("paddleId", IssuesOf(ParseExternalId(Lookup(members, "paddleId"), "paddleId expected string")))
    + Under("googleId", IssuesOf(ParseExternalId(Lookup(members, "googleId"), "googleId expected string")))
    + Under("appleId", IssuesOf(ParseExternalId(Lookup(members, "appleId"), "appleId expected string")))
    + Under("restore", IssuesOf(ParseTrue(Lookup(members, "restore"), RestoreExpected)))
  }

  /**
   * The value a string field keeps once its type check has passed, whatever its later checks say:
   * the trimmed string (or `null`, or nothing).
   */
  function Trimmed(v: Option<Json>): (f: Field<string>)
    ensures v.Some? && v.value.JStr? ==> f == Given(Trim(v.value.s))
    ensures f.Given? ==> v.Some? && v.value.JStr?
  {
    if v.Some? && v.value.JStr? then Given(Trim(v.value.s))
    else if v == Some(JNull) then Null
    else Absent
  }

  /** A field's parsed value, or `fallback` when it reported issues. */
  function Kept<T>(r: Result<Field<T>, seq<Issue>>, fallback: Field<T>): Field<T> {
    if r.Ok? then r.value else fallback
  }

  /**
   * The fields' values, as the parse outputs them and the refinement sees them. A string field whose
   * only failures are later checks keeps its trimmed value; the value of a field with any other
   * failure plays no further part, since that failure stops the parse.
   */
  function FieldValues(members: seq<Member>): UserUpdate {
    UserUpdate(
      Kept(ParseOptionalName(Lookup(members, "name")), Trimmed(Lookup(members, "name"))),
      Kept(ParseRole(Lookup(members, "role")), Absent),
      Kept(ParseTrue(Lookup(members, "emailVerified"), EmailVerifiedExpected), Absent),
      Kept(ParseBanned(Lookup(members, "banned")), Absent),
      Kept(ParseBanReason(Lookup(members, "banReason")), Trimmed(Lookup(members, "banReason"))),
      Kept(ParseExternalId(Lookup(members, "paddleId"), "paddleId expected string"), Absent),
      Kept(ParseExternalId(Lookup(members, "googleId"), "googleId expected string"), Absent),
      Kept(ParseExternalId(Lookup(members, "appleId"), "appleId expected string"), Absent),
      Kept(ParseTrue(Lookup(members, "restore"), RestoreExpected), Absent))
  }

  /** A string name or ban reason is kept trimmed, whether or not its later checks pass. */
  lemma StringsKeptTrimmed(members: seq<Member>)
    ensures Lookup(members, "name").Some? && Lookup(members, "name").value.JStr? ==>
      FieldValues(members).name == Given(Trim(Lookup(members, "name").value.s))
    ensures Lookup(members, "banReason").Some? && Lookup(members, "banReason").value.JStr? ==>
      FieldValues(members).banReason == Given(Trim(Lookup(members, "banReason").value.s))
  {
  }

  /** The restore refinement's issue. */
  const RestoreIssue := Issue(Custom, ["restore"], RestoreOnlyMessage, [])

  /**
   * `updateUserSchema.parse(body)`: the field issues, then one issue naming the unknown keys. The
   * restore refinement runs on the parsed values unless one of those issues stopped the parse (a
   * wrong type, a wrong literal, an unknown key); a broken rule adds its issue at `["restore"]`.
   */
  function ParseUpdateUser(body: Json): (r: Result<UserUpdate, seq<Issue>>)
    ensures !body.JObj? ==> r == Err([ExpectedObject(body)])
    ensures body.JObj? ==>
      (r.Ok? <==>
        && FieldIssues(body.members) == []
        && KeysWithin(body.members, UpdateKeys)
        && RestoreAlone(FieldValues(body.members)))
    ensures r.Ok? ==> r.value == FieldValues(body.members)
    ensures body.JObj? && !RestoreAlone(FieldValues(body.members)) ==>
      var issues := FieldIssues(body.members) + StrictIssues(body.members, UpdateKeys);
      !Aborted(issues) ==> r == Err(issues + [RestoreIssue])
    ensures body.JObj? ==>
      var issues := FieldIssues(body.members) + StrictIssues(body.members, UpdateKeys);
      issues != [] && (Aborted(issues) || RestoreAlone(FieldValues(body.members))) ==> r == Err(issues)
    ensures r.Err? ==> r.error != []
  {
    match body
    case JObj(members) =>
      var issues := FieldIssues(members) + StrictIssues(members, UpdateKeys);
      var update := FieldValues(members);
      if Aborted(issues) || RestoreAlone(update) then
        if issues == [] then Ok(update) else Err(issues)
      else Err(issues + [RestoreIssue])
    case _ => Err([ExpectedObject(body)])
  }

  /** Without `restore` the refinement imposes nothing: acceptance is the field and key rules alone. */
  lemma NoRestoreNoRefinement(members: seq<Member>)
    requires !HasKey(members, "restore")
    ensures ParseUpdateUser(JObj(members)).Ok? <==>
      FieldIssues(members) == [] && KeysWithin(members, UpdateKeys)
  {
    var restore := ParseTrue(Lookup(members, "restore"), RestoreExpected);
    assert restore == Ok(Absent);
    assert FieldValues(members).restore == Absent;
  }

  /** A `null` value may accompany `restore`. */
  lemma RestoreWithNull()
    ensures ParseUpdateUser(JObj([Member("restore", JBool(true)), Member("banReason", JNull)])).Ok?
  {
    var ms := [Member("restore", JBool(true)), Member("banReason", JNull)];
    RestoreNullFields(ms);
    RestoreAndKnownKey(Member("banReason", JNull));
    AcceptedWhenRefinementHolds(ms);
  }

  /** The fields of `restore: true` with a `null` ban reason. */
  lemma RestoreNullFields(ms: seq<Member>)
    requires ms == [Member("restore", JBool(true)), Member("banReason", JNull)]
    ensures FieldIssues(ms) == []
    ensures FieldValues(ms) == UserUpdate(Absent, Absent, Absent, Absent, Null, Absent, Absent, Absent, Given(true))
  {
    assert ms[..1] == [Member("restore", JBool(true))];
    assert Lookup(ms, "restore") == Some(JBool(true));
    assert Lookup(ms, "banReason") == Some(JNull);
    assert Lookup(ms, "name") == None;
    assert Lookup(ms, "role") == None;
    assert Lookup(ms, "emailVerified") == None;
    assert Lookup(ms, "banned") == None;
    assert Lookup(ms, "paddleId") == None;
    assert Lookup(ms, "googleId") == None;
    assert Lookup(ms, "appleId") == None;
  }

  /** `restore` and one other key of the shape leave no unknown key. */
  lemma RestoreAndKnownKey(m: Member)
    requires m.key in UpdateKeys
    ensures KeysWithin([Member("restore", JBool(true)), m], UpdateKeys)
  {
    var ms := [Member("restore", JBool(true)), m];
    assert ms[0].key in UpdateKeys && ms[1].key in UpdateKeys;
  }

  lemma AcceptedWhenRefinementHolds(members: seq<Member>)
    requires FieldIssues(members) == [] && RestoreAlone(FieldValues(members))
    requires KeysWithin(members, UpdateKeys)
    ensures ParseUpdateUser(JObj(members)).Ok?
  {
  }

  /** Any other value alongside `restore` is refused, on the path `["restore"]`. */
  lemma RestoreWithValueRefused()
    ensures ParseUpdateUser(JObj([Member("restore", JBool(true)), Member("banned", JBool(false))]))
            == Err([RestoreIssue])
  {
    var ms := [Member("restore", JBool(true)), Member("banned", JBool(false))];
    RestoreBannedFields(ms);
    RestoreAndKnownKey(Member("banned", JBool(false)));
    RefusedWhenRefinementFails(ms);
  }

  /** The fields of `restore: true` with `banned: false`. */
  lemma RestoreBannedFields(ms: seq<Member>)
    requires ms == [Member("restore", JBool(true)), Member("banned", JBool(false))]
    ensures FieldIssues(ms) == []
    ensures FieldValues(ms) == UserUpdate(Absent, Absent, Absent, Given(false), Absent, Absent, Absent, Absent, Given(true))
  {
    assert ms[..1] == [Member("restore", JBool(true))];
    assert Lookup(ms, "restore") == Some(JBool(true));
    assert Lookup(ms, "banned") == Some(JBool(false));
    assert Lookup(ms, "name") == None;
    assert Lookup(ms, "role") == None;
    assert Lookup(ms, "emailVerified") == None;
    assert Lookup(ms, "banReason") == None;
    assert Lookup(ms, "paddleId") == None;
    assert Lookup(ms, "googleId") == None;
    assert Lookup(ms, "appleId") == None;
  }

  lemma RefusedWhenRefinementFails(members: seq<Member>)
    requires FieldIssues(members) == [] && !RestoreAlone(FieldValues(members))
    requires KeysWithin(members, UpdateKeys)
    ensures ParseUpdateUser(JObj(members)) == Err([RestoreIssue])
  {
    var none: seq<Issue> := [];
    assert !Aborted(none);
    ReportedAfterContinuable(members, none);
    assert none + [RestoreIssue] == [RestoreIssue];
  }

  /** Known keys and field issues that are all continuable: a broken restore rule is reported after them. */
  lemma ReportedAfterContinuable(members: seq<Member>, issues: seq<Issue>)
    requires issues == FieldIssues(members) && KeysWithin(members, UpdateKeys)
    requires !Aborted(issues) && !RestoreAlone(FieldValues(members))
    ensures ParseUpdateUser(JObj(members)) == Err(issues + [RestoreIssue])
  {
    NoStrictIssues(members);
    assert issues + [] == issues;
  }

  lemma NoStrictIssues(members: seq<Member>)
    requires KeysWithin(members, UpdateKeys)
    ensures StrictIssues(members, UpdateKeys) == []
  {
  }

  /** A name that is only too short does not stop the parse: the restore rule still reports after it. */
  lemma ShortNameWithRestore()
    ensures ParseUpdateUser(JObj([Member("restore", JBool(true)), Member("name", JStr("ab"))]))
            == Err([Issue(TooSmall, ["name"], NameTooShort, []), RestoreIssue])
  {
    var ms := [Member("restore", JBool(true)), Member("name", JStr("ab"))];
    ShortNameLookups(ms);
    RestoreAndKnownKey(Member("name", JStr("ab")));
    var issues := ShortNameFields(ms);
    ShortNameRefused(ms, issues);
  }

  lemma ShortNameRefused(ms: seq<Member>, issues: seq<Issue>)
    requires issues == FieldIssues(ms) == [Issue(TooSmall, ["name"], NameTooShort, [])] && !Aborted(issues)
    requires !RestoreAlone(FieldValues(ms)) && KeysWithin(ms, UpdateKeys)
    ensures ParseUpdateUser(JObj(ms)) == Err([Issue(TooSmall, ["name"], NameTooShort, []), RestoreIssue])
  {
    ReportedAfterContinuable(ms, issues);
    assert issues + [RestoreIssue] == [Issue(TooSmall, ["name"], NameTooShort, []), RestoreIssue];
  }

  /**
   * The fields of a body binding `restore` to `true`, `name` to `"ab"` and nothing else: the name's
   * one continuable issue, with the name still set.
   */
  lemma ShortNameFields(ms: seq<Member>) returns (issues: seq<Issue>)
    requires Lookup(ms, "restore") == Some(JBool(true)) && Lookup(ms, "name") == Some(JStr("ab"))
    requires Lookup(ms, "role") == None && Lookup(ms, "emailVerified") == None && Lookup(ms, "banned") == None
    requires Lookup(ms, "banReason") == None && Lookup(ms, "paddleId") == None
    requires Lookup(ms, "googleId") == None && Lookup(ms, "appleId") == None
    ensures issues == FieldIssues(ms) == [Issue(TooSmall, ["name"], NameTooShort, [])]
    ensures !Aborted(issues)
    ensures !RestoreAlone(FieldValues(ms))
  {
    ShortNameIssue("ab");
    OnlyNameReports(ms);
    issues := ShortNameUnder(ms);
    ShortNameValues(ms);
  }

  lemma ShortNameUnder(ms: seq<Member>) returns (issues: seq<Issue>)
    requires FieldIssues(ms) == Under("name", [Problem(TooSmall, NameTooShort)])
    ensures issues == FieldIssues(ms) == [Issue(TooSmall, ["name"], NameTooShort, [])]
    ensures !Aborted(issues)
  {
    var u := Under("name", [Problem(TooSmall, NameTooShort)]);
    assert u[0] == Issue(TooSmall, ["name"], NameTooShort, []);
    issues := FieldIssues(ms);
    assert issues == u;
  }

  lemma ShortNameValues(ms: seq<Member>)
    requires Lookup(ms, "restore") == Some(JBool(true)) && Lookup(ms, "name") == Some(JStr("ab"))
    ensures !RestoreAlone(FieldValues(ms))
  {
    TwoLettersTrimmed("ab");
    NameKept(ms, "ab");
  }

  /** A name that trims to itself is what the refinement sees, whatever its checks say. */
  lemma NameKept(ms: seq<Member>, t: string)
    requires Lookup(ms, "restore") == Some(JBool(true)) && Lookup(ms, "name") == Some(JStr(t)) && Trim(t) == t
    ensures FieldValues(ms).name == Given(t) && FieldValues(ms).restore == Given(true)
  {
    StringsKeptTrimmed(ms);
  }

  /** The bindings of the body `{"restore": true, "name": "ab"}`. */
  lemma ShortNameLookups(ms: seq<Member>)
    requires ms == [Member("restore", JBool(true)), Member("name", JStr("ab"))]
    ensures Lookup(ms, "restore") == Some(JBool(true)) && Lookup(ms, "name") == Some(JStr("ab"))
    ensures Lookup(ms, "role") == None && Lookup(ms, "emailVerified") == None && Lookup(ms, "banned") == None
    ensures Lookup(ms, "banReason") == None && Lookup(ms, "paddleId") == None
    ensures Lookup(ms, "googleId") == None && Lookup(ms, "appleId") == None
  {
    assert ms[..1] == [Member("restore", JBool(true))];
  }

  /** A two-letter name fails only the length check of the name schema. */
  lemma ShortNameIssue(t: string)
    requires |t| == 2 && IsLetter(t[0]) && IsLetter(t[1])
    ensures ParseOptionalName(Some(JStr(t))) == Err([Problem(TooSmall, NameTooShort)])
  {
    TwoLettersTrimmed(t);
    TwoLettersTooShort(t);
    ChecksReported(t, [Problem(TooSmall, NameTooShort)]);
  }

  /** A name that trims to itself and fails some checks is refused with exactly those issues. */
  lemma ChecksReported(t: string, issues: seq<Issue>)
    requires Trim(t) == t && NameCheckIssues(t) == issues && issues != []
    ensures ParseOptionalName(Some(JStr(t))) == Err(issues)
  {
    CheckNameReports(t, issues);
    TrimmedNameReports(t, issues);
  }

  lemma CheckNameReports(t: string, issues: seq<Issue>)
    requires NameCheckIssues(t) == issues && issues != []
    ensures CheckName(t) == Err(issues)
  {
  }

  lemma TrimmedNameReports(t: string, issues: seq<Issue>)
    requires Trim(t) == t && CheckName(t) == Err(issues)
    ensures ParseOptionalName(Some(JStr(t))) == Err(issues)
  {
    assert ParseName(Some(JStr(t))) == Err(issues);
  }

  lemma TwoLettersTrimmed(t: string)
    requires |t| == 2 && IsLetter(t[0]) && IsLetter(t[1])
    ensures Trim(t) == t
  {
    TrimFixedPoint(t);
  }

  /** Two letters fail the length check and nothing else. */
  lemma TwoLettersTooShort(t: string)
    requires |t| == 2 && IsLetter(t[0]) && IsLetter(t[1])
    ensures NameCheckIssues(t) == [Problem(TooSmall, NameTooShort)]
  {
    PairAbsent(t, '.', '.');
    PairAbsent(t, '-', '-');
    PairAbsent(t, '.', '-');
    PairAbsent(t, '-', '.');
    assert ".." == ['.', '.'] && "--" == ['-', '-'] && ".-" == ['.', '-'] && "-." == ['-', '.'];
    assert NameChar(t[0]) && NameChar(t[1]);
  }

  /** When every other field passes, the field issues are the name's, under the key `"name"`. */
  lemma OnlyNameReports(members: seq<Member>)
    requires ParseRole(Lookup(members, "role")).Ok?
    requires ParseTrue(Lookup(members, "emailVerified"), EmailVerifiedExpected).Ok?
    requires ParseBanned(Lookup(members, "banned")).Ok?
    requires ParseBanReason(Lookup(members, "banReason")).Ok?
    requires ParseExternalId(Lookup(members, "paddleId"), "paddleId expected string").Ok?
    requires ParseExternalId(Lookup(members, "googleId"), "googleId expected string").Ok?
    requires ParseExternalId(Lookup(members, "appleId"), "appleId expected string").Ok?
    requires ParseTrue(Lookup(members, "restore"), RestoreExpected).Ok?
    ensures FieldIssues(members) == Under("name", IssuesOf(ParseOptionalName(Lookup(members, "name"))))
  {
    var none: seq<Issue> := [];
    assert Under("role", none) == none;
    assert Under("emailVerified", none) == none;
    assert Under("banned", none) == none;
    assert Under("banReason", none) == none;
    assert Under("paddleId", none) == none;
    assert Under("googleId", none) == none;
    assert Under("appleId", none) == none;
    assert Under("restore", none) == none;
  }
}
