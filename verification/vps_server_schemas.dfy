/**
 * `createVPSServerSchema` and `updateVPSServerSchema`: the body of a request that creates or edits a
 * VPS server. The two differ in three places only: `username` and `ipAddress` are required on create
 * and optional on update, and only the create schema refuses unknown keys.
 */
module VpsServerSchemas {
  import opened Wrappers
  import opened Text
  import opened Http
  import opened Json
  import opened Zod

  const NameNotString := "Name expected a string"
  const NameTooLong := "Name too long"
  const UsernameRequired := "username is required"
  const UsernameNotString := "username expected a string"
  const UsernameEmpty := "Username is required"
  const UsernameTooLong := "Username too long"
  const IpEmpty := "IP Address is required"
  const IpTooLong := "IP Address too long"
  const IpInvalid := "Invalid IPv4 address"
  const DomainTooLong := "Domain too long"
  const DomainInvalid := "Invalid domain"
  const MaxLength := 255
  const MaxPort := 65535

  const ServerKeys: set<string> := {
    "name", "username", "ipAddress", "privateKey", "password", "port", "domain", "status",
    "bandwidth", "ramLimit", "cpuLimit", "diskLimit", "bandWidthLimitPerSecond",
    "healthScore", "cpuUsage", "ramUsage", "diskUsage", "totalMBitPerSecond"}

  /** zod's default wording for a value of the wrong type. */
  function WrongType(expected: string, v: Option<Json>): Issue {
    Problem(InvalidType, "Invalid input: expected " + expected + ", received " + TypeName(v))
  }

  // ---------------------------------------------------------------- IPv4 addresses and domains

  predicate AllDigits(p: string) {
    forall i :: 0 <= i < |p| ==> IsDigit(p[i])
  }

  /** `Number(p)` for a string of decimal digits. */
  function DecimalValue(p: string): nat
    requires AllDigits(p)
  {
    if p == [] then 0
    else
      assert IsDigit(p[|p| - 1]);
      DecimalValue(p[..|p| - 1]) * 10 + (p[|p| - 1] as int - '0' as int)
  }

  /** One group of `\d{1,3}` whose value is at most 255; leading zeros are allowed. */
  predicate Octet(p: string) {
    1 <= |p| <= 3 && AllDigits(p) && DecimalValue(p) <= 255
  }

  /** What the `ipAddress` refinement accepts: four octets separated by dots, nothing else. */
  predicate IsIPv4(t: string) {
    var parts := SplitOn(t, '.');
    |parts| == 4 && Octet(parts[0]) && Octet(parts[1]) && Octet(parts[2]) && Octet(parts[3])
  }

  /** A character of `[a-zA-Z0-9-]`. */
  predicate LabelChar(c: char) {
    IsLetter(c) || IsDigit(c) || c == '-'
  }

  predicate Label(p: string) {
    |p| >= 1 && forall i :: 0 <= i < |p| ==> LabelChar(p[i])
  }

  /** `[a-zA-Z]{2,}`. */
  predicate TopLevel(p: string) {
    |p| >= 2 && forall i :: 0 <= i < |p| ==> IsLetter(p[i])
  }

  /** What `/^(([a-zA-Z0-9-]+\.)+[a-zA-Z]{2,})$/` accepts: one or more labels, each followed by a dot, then the top level. */
  predicate IsDomain(t: string) {
    var parts := SplitOn(t, '.');
    |parts| >= 2 && TopLevel(parts[|parts| - 1]) && forall i :: 0 <= i < |parts| - 1 ==> Label(parts[i])
  }

  lemma Join4(a: string, b: string, c: string, d: string, sep: string)
    ensures Join([a, b, c, d], sep) == a + sep + b + sep + c + sep + d
  {
    assert [a, b, c, d][1..] == [b, c, d];
    assert [b, c, d][1..] == [c, d];
    assert [c, d][1..] == [d];
    assert Join([c, d], sep) == c + sep + d;
    assert Join([b, c, d], sep) == b + sep + (c + sep + d);
    assert Join([a, b, c, d], sep) == a + sep + (b + sep + (c + sep + d));
  }

  /** An accepted address is 7 to 15 characters long, so the length checks never fire on it. */
  lemma IPv4Length(t: string)
    ensures IsIPv4(t) ==> 7 <= |t| <= 15
  {
    if IsIPv4(t) {
      var parts := SplitOn(t, '.');
      SplitOnJoin(t, '.');
      assert parts == [parts[0], parts[1], parts[2], parts[3]];
      Join4(parts[0], parts[1], parts[2], parts[3], ".");
    }
  }

  /** Conversely, any four octets joined by dots are accepted. */
  lemma DottedQuadAccepted(a: string, b: string, c: string, d: string)
    requires Octet(a) && Octet(b) && Octet(c) && Octet(d)
    ensures IsIPv4(a + "." + b + "." + c + "." + d)
  {
    var parts := [a, b, c, d];
    Join4(a, b, c, d, ".");
    forall i, j | 0 <= i < 4 && 0 <= j < |parts[i]| ensures parts[i][j] != '.' {
      assert IsDigit(parts[i][j]);
    }
    SplitOnOfJoin(parts, '.');
  }

  lemma LabelHasNoDot(p: string, j: int)
    requires Label(p) && 0 <= j < |p|
    ensures p[j] != '.'
  {
    assert LabelChar(p[j]);
  }

  /** Labels and a top level, joined by dots, form an accepted domain. */
  lemma DomainAccepted(labels: seq<string>, top: string)
    requires |labels| >= 1 && TopLevel(top)
    requires forall i :: 0 <= i < |labels| ==> Label(labels[i])
    ensures IsDomain(Join(labels + [top], "."))
  {
    var parts := labels + [top];
    PartsHaveNoDot(labels, top);
    SplitOnOfJoin(parts, '.');
    assert parts[|parts| - 1] == top;
    forall i | 0 <= i < |parts| - 1 ensures Label(parts[i]) {
      assert parts[i] == labels[i];
    }
  }

  lemma PartsHaveNoDot(labels: seq<string>, top: string)
    requires TopLevel(top)
    requires forall i :: 0 <= i < |labels| ==> Label(labels[i])
    ensures forall i, j :: 0 <= i < |labels + [top]| && 0 <= j < |(labels + [top])[i]| ==> (labels + [top])[i][j] != '.'
  {
    var parts := labels + [top];
    forall i, j | 0 <= i < |parts| && 0 <= j < |parts[i]| ensures parts[i][j] != '.' {
      if i < |labels| {
        LabelHasNoDot(labels[i], j);
      } else {
        assert IsLetter(top[j]);
      }
    }
  }

  // ---------------------------------------------------------------- fields

  /** `name`: optional or null; a string is trimmed and at most 255 characters long. */
  function ParseServerName(v: Option<Json>): (r: Result<Field<string>, seq<Issue>>)
    ensures r.Ok? <==> Nullish(v) || (v.value.JStr? && |Trim(v.value.s)| <= MaxLength)
    ensures r.Ok? && v.Some? && v.value.JStr? ==> r.value == Given(Trim(v.value.s))
    ensures r.Err? ==> r.error != []
  {
    if v.None? then Ok(Absent)
    else if v == Some(JNull) then Ok(Null)
    else if v.value.JStr? then
      var t := Trim(v.value.s);
      if |t| <= MaxLength then Ok(Given(t)) else Err([Problem(TooBig, NameTooLong)])
    else Err([Problem(InvalidType, NameNotString)])
  }

  /**
   * `username`: 1 to 255 characters after trimming. On create it is required, and a missing value is
   * reported as required rather than as the wrong type; on update it may be left out.
   */
  function ParseUsername(v: Option<Json>, create: bool): (r: Result<Field<string>, seq<Issue>>)
    ensures r.Ok? <==> (v.None? && !create) || (v.Some? && v.value.JStr? && 1 <= |Trim(v.value.s)| <= MaxLength)
    ensures r.Ok? && v.Some? ==> r.value == Given(Trim(v.value.s))
    ensures create && r.Ok? ==> ParseUsername(v, false) == r
    ensures create && Nullish(v) ==> r == Err([Problem(InvalidType, UsernameRequired)])
    ensures !create && v == Some(JNull) ==> r == Err([Problem(InvalidType, UsernameNotString)])
    ensures r.Err? ==> r.error != []
  {
    if v.None? && !create then Ok(Absent)
    else if v.Some? && v.value.JStr? then
      var t := Trim(v.value.s);
      var issues := Check(|t| >= 1, TooSmall, UsernameEmpty) + Check(|t| <= MaxLength, TooBig, UsernameTooLong);
      if issues == [] then Ok(Given(t)) else Err(issues)
    else Err([Problem(InvalidType, if create && Nullish(v) then UsernameRequired else UsernameNotString)])
  }

  /** The checks on a trimmed `ipAddress`; all three run, so an empty value reports two issues. */
  function IpIssues(t: string): (r: seq<Issue>)
    ensures r == [] <==> IsIPv4(t)
    ensures t == "" ==> r == [Problem(TooSmall, IpEmpty), Problem(Custom, IpInvalid)]
  {
    IPv4Length(t);
    Check(|t| >= 1, TooSmall, IpEmpty) + Check(|t| <= MaxLength, TooBig, IpTooLong) + Check(IsIPv4(t), Custom, IpInvalid)
  }

  /**
   * `ipAddress`: an IPv4 address after trimming. On create it is required; on update a missing value
   * passes the refinement. `null` is refused on both.
   */
  function ParseIpAddress(v: Option<Json>, create: bool): (r: Result<Field<string>, seq<Issue>>)
    ensures r.Ok? <==> (v.None? && !create) || (v.Some? && v.value.JStr? && IsIPv4(Trim(v.value.s)))
    ensures r.Ok? && v.Some? ==> r.value == Given(Trim(v.value.s))
    ensures create && r.Ok? ==> ParseIpAddress(v, false) == r
    ensures r.Err? ==> r.error != []
  {
    if v.None? && !create then Ok(Absent)
    else if v.Some? && v.value.JStr? then
      var t := Trim(v.value.s);
      var issues := IpIssues(t);
      if issues == [] then Ok(Given(t)) else Err(issues)
    else Err([WrongType("string", v)])
  }

  /** `privateKey` and `password`: optional or null; a string is trimmed, nothing else is checked. */
  function ParseSecret(v: Option<Json>): (r: Result<Field<string>, seq<Issue>>)
    ensures r.Ok? <==> Nullish(v) || v.value.JStr?
    ensures r.Ok? && v.Some? && v.value.JStr? ==> r.value == Given(Trim(v.value.s))
    ensures r.Err? ==> r.error != []
  {
    if v.None? then Ok(Absent)
    else if v == Some(JNull) then Ok(Null)
    else if v.value.JStr? then Ok(Given(Trim(v.value.s)))
    else Err([WrongType("string", v)])
  }

  /** A number with no fractional part. */
  predicate Integral(n: real) {
    n.Floor as real == n
  }

  /**
   * `port`: optional, not nullable; an integer from 1 to 65535. A fractional number stops at the
   * integer check; an integer out of range reports each bound it breaks.
   */
  function ParsePort(v: Option<Json>): (r: Result<Field<int>, seq<Issue>>)
    ensures r.Ok? <==> v.None? || (v.value.JNum? && Integral(v.value.n) && 1 <= v.value.n.Floor <= MaxPort)
    ensures r.Ok? && v.Some? ==> r.value == Given(v.value.n.Floor) && r.value.value as real == v.value.n
    ensures r.Err? ==> r.error != []
  {
    if v.None? then Ok(Absent)
    else if v.value.JNum? then
      var n := v.value.n;
      if !Integral(n) then Err([Problem(InvalidType, "Invalid input: expected int, received number")])
      else
        var issues := Check(n.Floor >= 1, TooSmall, "Too small: expected number to be >=1")
                      + Check(n.Floor <= MaxPort, TooBig, "Too big: expected number to be <=65535");
        if issues == [] then Ok(Given(n.Floor)) else Err(issues)
    else Err([WrongType("number", v)])
  }

  /**
   * `domain`: optional or null; a string is trimmed, at most 255 characters, and either empty or a
   * domain name. Both checks run.
   */
  function ParseDomain(v: Option<Json>): (r: Result<Field<string>, seq<Issue>>)
    ensures r.Ok? <==> Nullish(v) || (v.value.JStr? &&
                        var t := Trim(v.value.s); t == "" || (|t| <= MaxLength && IsDomain(t)))
    ensures r.Ok? && v.Some? && v.value.JStr? ==> r.value == Given(Trim(v.value.s))
    ensures r.Err? ==> r.error != []
  {
    if v.None? then Ok(Absent)
    else if v == Some(JNull) then Ok(Null)
    else if v.value.JStr? then
      var t := Trim(v.value.s);
      var issues := Check(|t| <= MaxLength, TooBig, DomainTooLong) + Check(t == "" || IsDomain(t), Custom, DomainInvalid);
      if issues == [] then Ok(Given(t)) else Err(issues)
    else Err([WrongType("string", v)])
  }

  /** `status`: an optional boolean. */
  function ParseStatus(v: Option<Json>): (r: Result<Field<bool>, seq<Issue>>)
    ensures r.Ok? <==> v.None? || v.value.JBool?
    ensures r.Err? ==> r.error != []
  {
    if v.None? then Ok(Absent)
    else if v.value.JBool? then Ok(Given(v.value.b))
    else Err([WrongType("boolean", v)])
  }

  /** The `bigint` limits: a JSON body holds no bigint, so only a missing value or `null` passes. */
  function ParseLimit(v: Option<Json>): (r: Result<Field<int>, seq<Issue>>)
    ensures r.Ok? <==> Nullish(v)
    ensures r.Ok? ==> !r.value.Given?
    ensures r.Err? ==> r.error != []
  {
    if v.None? then Ok(Absent)
    else if v == Some(JNull) then Ok(Null)
    else Err([WrongType("bigint", v)])
  }

  /** The usage metrics: optional or null; a number at least 0 and, when `bounded`, at most 100. */
  function ParseMetric(v: Option<Json>, bounded: bool): (r: Result<Field<real>, seq<Issue>>)
    ensures r.Ok? <==> Nullish(v) || (v.value.JNum? && 0.0 <= v.value.n && (bounded ==> v.value.n <= 100.0))
    ensures r.Err? ==> r.error != []
  {
    if v.None? then Ok(Absent)
    else if v == Some(JNull) then Ok(Null)
    else if v.value.JNum? then
      var n := v.value.n;
      var issues := Check(n >= 0.0, TooSmall, "Too small: expected number to be >=0")
                    + (if bounded then Check(n <= 100.0, TooBig, "Too big: expected number to be <=100") else []);
      if issues == [] then Ok(Given(n)) else Err(issues)
    else Err([WrongType("number", v)])
  }

  // ---------------------------------------------------------------- the object

  datatype Server = Server(
    name: Field<string>, username: Field<string>, ipAddress: Field<string>,
    privateKey: Field<string>, password: Field<string>, port: Field<int>, domain: Field<string>,
    status: Field<bool>, limits: seq<Field<int>>, metrics: seq<Field<real>>)

  const LimitKeys := ["bandwidth", "ramLimit", "cpuLimit", "diskLimit", "bandWidthLimitPerSecond"]
  const MetricKeys := ["healthScore", "cpuUsage", "ramUsage", "diskUsage", "totalMBitPerSecond"]

  function LimitResults(members: seq<Member>): seq<Result<Field<int>, seq<Issue>>> {
    seq(|LimitKeys|, i requires 0 <= i < |LimitKeys| => ParseLimit(Lookup(members, LimitKeys[i])))
  }

  /** `totalMBitPerSecond`, the last metric, has no upper bound. */
  function MetricResults(members: seq<Member>): seq<Result<Field<real>, seq<Issue>>> {
    seq(|MetricKeys|, i requires 0 <= i < |MetricKeys| => ParseMetric(Lookup(members, MetricKeys[i]), i < 4))
  }

  /** A parse that fails says why. */
  predicate Reported<T>(r: Result<T, seq<Issue>>) {
    r.Err? ==> r.error != []
  }

  function GroupIssues<T>(keys: seq<string>, results: seq<Result<T, seq<Issue>>>): (r: seq<Issue>)
    requires |keys| == |results|
    requires forall i :: 0 <= i < |results| ==> Reported(results[i])
    ensures r == [] <==> forall i :: 0 <= i < |results| ==> results[i].Ok?
  {
    if keys == [] then []
    else
      var rest := GroupIssues(keys[1..], results[1..]);
      assert forall i :: 1 <= i < |results| ==> results[i] == results[1..][i - 1];
      assert Reported(results[0]);
      Under(keys[0], IssuesOf(results[0])) + rest
  }

  function Values<T>(results: seq<Result<T, seq<Issue>>>): (r: seq<T>)
    requires forall i :: 0 <= i < |results| ==> results[i].Ok?
    ensures |r| == |results| && forall i :: 0 <= i < |r| ==> r[i] == results[i].value
  {
    seq(|results|, i requires 0 <= i < |results| && results[i].Ok? => results[i].value)
  }

  /** Every field of the shape passes its rules. */
  predicate FieldsOk(members: seq<Member>, create: bool) {
    && ParseUsername(Lookup(members, "username"), create).Ok?
    && ParseIpAddress(Lookup(members, "ipAddress"), create).Ok?
    && SharedFieldsOk(members)
  }

  /** The fields whose rules are the same on create and on update pass them. */
  predicate SharedFieldsOk(members: seq<Member>) {
    ParseServerName(Lookup(members, "name")).Ok? && LaterFieldsOk(members)
  }

  /** The shared fields after `ipAddress` in the shape pass their rules. */
  predicate LaterFieldsOk(members: seq<Member>) {
    && ParseSecret(Lookup(members, "privateKey")).Ok?
    && ParseSecret(Lookup(members, "password")).Ok?
    && ParsePort(Lookup(members, "port")).Ok?
    && ParseDomain(Lookup(members, "domain")).Ok?
    && ParseStatus(Lookup(members, "status")).Ok?
    && (forall i :: 0 <= i < |LimitKeys| ==> LimitResults(members)[i].Ok?)
    && (forall i :: 0 <= i < |MetricKeys| ==> MetricResults(members)[i].Ok?)
  }

  /** The issues of every field, in shape order, each under its key; none exactly when every field passes. */
  function FieldIssues(members: seq<Member>, create: bool): (r: seq<Issue>)
    ensures r == [] <==> FieldsOk(members, create)
  {
    Under("name", IssuesOf(ParseServerName(Lookup(members, "name"))))
    + Under("username", IssuesOf(ParseUsername(Lookup(members, "username"), create)))
    + Under("ipAddress", IssuesOf(ParseIpAddress(Lookup(members, "ipAddress"), create)))
    + LaterIssues(members)
  }

  /** The issues of the fields after `ipAddress`, in shape order. */
  function LaterIssues(members: seq<Member>): (r: seq<Issue>)
    ensures r == [] <==> LaterFieldsOk(members)
  {
    var limits := LimitResults(members);
    var metrics := MetricResults(members);
    assert forall i :: 0 <= i < |limits| ==> Reported(limits[i]);
    assert forall i :: 0 <= i < |metrics| ==> Reported(metrics[i]);
    Under("privateKey", IssuesOf(ParseSecret(Lookup(members, "privateKey"))))
    + Under("password", IssuesOf(ParseSecret(Lookup(members, "password"))))
    + Under("port", IssuesOf(ParsePort(Lookup(members, "port"))))
    + Under("domain", IssuesOf(ParseDomain(Lookup(members, "domain"))))
    + Under("status", IssuesOf(ParseStatus(Lookup(members, "status"))))
    + GroupIssues(LimitKeys, limits) + GroupIssues(MetricKeys, metrics)
  }

  /** Every field of the shape, parsed in shape order; unknown keys are not looked at here. */
  function ParseServerFields(members: seq<Member>, create: bool): (r: Result<Server, seq<Issue>>)
    ensures r.Ok? <==> FieldsOk(members, create)
    ensures r.Ok? ==> (
      && r.value.name == ParseServerName(Lookup(members, "name")).value
      && r.value.username == ParseUsername(Lookup(members, "username"), create).value
      && r.value.ipAddress == ParseIpAddress(Lookup(members, "ipAddress"), create).value
      && r.value.port == ParsePort(Lookup(members, "port")).value
      && r.value.domain == ParseDomain(Lookup(members, "domain")).value)
    ensures r.Err? ==> r.error == FieldIssues(members, create) && r.error != []
  {
    if FieldsOk(members, create) then
      Ok(Assemble(members, ParseUsername(Lookup(members, "username"), create).value,
                  ParseIpAddress(Lookup(members, "ipAddress"), create).value))
    else Err(FieldIssues(members, create))
  }

  /** The output object, from the two fields that depend on the schema and the parsed shared fields. */
  function Assemble(members: seq<Member>, username: Field<string>, ipAddress: Field<string>): (s: Server)
    requires SharedFieldsOk(members)
    ensures s.username == username && s.ipAddress == ipAddress
  {
    Server(ParseServerName(Lookup(members, "name")).value, username, ipAddress,
           ParseSecret(Lookup(members, "privateKey")).value,
           ParseSecret(Lookup(members, "password")).value,
           ParsePort(Lookup(members, "port")).value,
           ParseDomain(Lookup(members, "domain")).value,
           ParseStatus(Lookup(members, "status")).value,
           Values(LimitResults(members)), Values(MetricResults(members)))
  }

  /** `createVPSServerSchema.parse(body)`: the fields, then the keys outside the shape. */
  function ParseCreateServer(body: Json): (r: Result<Server, seq<Issue>>)
    ensures !body.JObj? ==> r == Err([ExpectedObject(body)])
    ensures body.JObj? ==>
      (r.Ok? <==> FieldsOk(body.members, true)
                  && KeysWithin(body.members, ServerKeys))
    ensures r.Ok? ==> r == ParseServerFields(body.members, true)
    ensures r.Err? ==> r.error != []
  {
    match body
    case JObj(members) =>
      var fields := ParseServerFields(members, true);
      var issues := IssuesOf(fields) + StrictIssues(members, ServerKeys);
      if issues == [] then fields else Err(issues)
    case _ => Err([ExpectedObject(body)])
  }

  /** `updateVPSServerSchema.parse(body)`: the fields only; other keys are dropped from the output. */
  function ParseUpdateServer(body: Json): (r: Result<Server, seq<Issue>>)
    ensures !body.JObj? ==> r == Err([ExpectedObject(body)])
    ensures body.JObj? ==> (r.Ok? <==> FieldsOk(body.members, false))
    ensures body.JObj? ==> r == ParseServerFields(body.members, false)
  {
    match body
    case JObj(members) => ParseServerFields(members, false)
    case _ => Err([ExpectedObject(body)])
  }

  /** A body the create schema accepts is accepted by the update schema, with the same output. */
  lemma CreateImpliesUpdate(body: Json)
    requires ParseCreateServer(body).Ok?
    ensures ParseUpdateServer(body) == ParseCreateServer(body)
  {
    var members := body.members;
    assert FieldsOk(members, true);
    assert ParseUsername(Lookup(members, "username"), false) == ParseUsername(Lookup(members, "username"), true);
    assert ParseIpAddress(Lookup(members, "ipAddress"), false) == ParseIpAddress(Lookup(members, "ipAddress"), true);
  }

  /** The update schema lets a body leave out every field. */
  lemma UpdateAcceptsEmptyBody()
    ensures ParseUpdateServer(JObj([])).Ok?
  {
    EmptyBodyLaterFieldsOk();
    assert SharedFieldsOk([]);
  }

  /** The create schema reports the two required fields of an empty body, in shape order. */
  lemma CreateRejectsEmptyBody()
    ensures ParseCreateServer(JObj([])).Err?
    ensures ParseCreateServer(JObj([])).error ==
      Under("username", [Problem(InvalidType, UsernameRequired)]) + Under("ipAddress", [WrongType("string", None)])
  {
    var issues := FieldIssues([], true);
    EmptyBodyFieldIssues();
    assert |issues| == 2;
    assert !FieldsOk([], true);
    assert KeysWithin([], ServerKeys);
    CreateReportsFieldIssues([]);
  }

  /** A body whose keys are all in the shape but whose fields do not all pass is refused with the field issues alone. */
  lemma CreateReportsFieldIssues(members: seq<Member>)
    requires !FieldsOk(members, true) && KeysWithin(members, ServerKeys)
    ensures ParseCreateServer(JObj(members)) == Err(FieldIssues(members, true))
  {
    var issues := FieldIssues(members, true);
    assert ParseServerFields(members, true) == Err(issues);
    assert StrictIssues(members, ServerKeys) == [];
    assert issues + [] == issues;
  }

  /** On an empty body only the two required fields report, username first. */
  lemma EmptyBodyFieldIssues()
    ensures FieldIssues([], true) ==
      Under("username", [Problem(InvalidType, UsernameRequired)]) + Under("ipAddress", [WrongType("string", None)])
  {
    assert Lookup([], "name") == None && Lookup([], "username") == None && Lookup([], "ipAddress") == None;
    EmptyBodyLaterFieldsOk();
    OnlyRequiredFieldsReport([], true);
    assert ParseUsername(None, true) == Err([Problem(InvalidType, UsernameRequired)]);
    assert ParseIpAddress(None, true) == Err([WrongType("string", None)]);
  }

  /** When the other fields pass, the field issues are those of `username` and `ipAddress`. */
  lemma OnlyRequiredFieldsReport(members: seq<Member>, create: bool)
    requires ParseServerName(Lookup(members, "name")).Ok? && LaterFieldsOk(members)
    ensures FieldIssues(members, create) ==
      Under("username", IssuesOf(ParseUsername(Lookup(members, "username"), create)))
      + Under("ipAddress", IssuesOf(ParseIpAddress(Lookup(members, "ipAddress"), create)))
  {
    var name := Under("name", IssuesOf(ParseServerName(Lookup(members, "name"))));
    var username := Under("username", IssuesOf(ParseUsername(Lookup(members, "username"), create)));
    var ipAddress := Under("ipAddress", IssuesOf(ParseIpAddress(Lookup(members, "ipAddress"), create)));
    var later := LaterIssues(members);
    assert FieldIssues(members, create) == name + username + ipAddress + later;
    assert name == [];
    assert later == [];
    EmptyEnds(name, username, ipAddress, later);
  }

  lemma EmptyEnds(a: seq<Issue>, b: seq<Issue>, c: seq<Issue>, d: seq<Issue>)
    requires a == [] && d == []
    ensures a + b + c + d == b + c
  {
  }

  lemma EmptyBodyLaterFieldsOk()
    ensures LaterFieldsOk([])
  {
    assert forall i :: 0 <= i < |LimitKeys| ==> LimitResults([])[i] == Ok(Absent);
    assert forall i :: 0 <= i < |MetricKeys| ==> MetricResults([])[i] == Ok(Absent);
  }
}
