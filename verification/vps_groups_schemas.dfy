/**
 * `createVPSGroupSchema` and `updateVPSGroupSchema`: the body of a request that creates or edits a
 * group of VPS servers. Both refuse unknown keys; they differ only in whether `name` is required.
 */
module VpsGroupsSchemas {
  import opened Wrappers
  import opened Text
  import opened Http
  import opened Json
  import opened Zod

  const NameNotString := "Name expected a string"
  const NameEmpty := "Name is required"
  const NameTooLong := "Name too long"
  const DescriptionNotString := "description expected a string"
  const DescriptionEmpty := "description is required"
  const DescriptionTooLong := "description too long"
  const ServerIdEmpty := "Server ID is required"
  const MaxLength := 255

  const GroupKeys: set<string> := {"name", "description", "servers"}

  datatype Group = Group(name: Field<string>, description: Field<string>, servers: Field<seq<string>>)

  /** A trimmed string of 1 to 255 characters, as `name` and `description` both ask. */
  predicate Bounded(t: string) {
    1 <= |t| <= MaxLength
  }

  /** The two length checks on a trimmed string; both run. */
  function LengthIssues(t: string, empty: string, tooLong: string): (r: seq<Issue>)
    ensures r == [] <==> Bounded(t)
  {
    Check(|t| >= 1, TooSmall, empty) + Check(|t| <= MaxLength, TooBig, tooLong)
  }

  /** `name`: required on create, optional on update; 1 to 255 characters after trimming. */
  function ParseGroupName(v: Option<Json>, create: bool): (r: Result<Field<string>, seq<Issue>>)
    ensures r.Ok? <==> (v.None? && !create) || (v.Some? && v.value.JStr? && Bounded(Trim(v.value.s)))
    ensures r.Ok? && v.Some? ==> r.value == Given(Trim(v.value.s))
    ensures create && r.Ok? ==> ParseGroupName(v, false) == r
    ensures r.Err? ==> r.error != []
  {
    if v.None? && !create then Ok(Absent)
    else if v.Some? && v.value.JStr? then
      var t := Trim(v.value.s);
      var issues := LengthIssues(t, NameEmpty, NameTooLong);
      if issues == [] then Ok(Given(t)) else Err(issues)
    else Err([Problem(InvalidType, NameNotString)])
  }

  /** `description`: optional or null; a string is 1 to 255 characters after trimming. */
  function ParseDescription(v: Option<Json>): (r: Result<Field<string>, seq<Issue>>)
    ensures r.Ok? <==> Nullish(v) || (v.value.JStr? && Bounded(Trim(v.value.s)))
    ensures r.Ok? && v.Some? && v.value.JStr? ==> r.value == Given(Trim(v.value.s))
    ensures r.Err? ==> r.error != []
  {
    if v.None? then Ok(Absent)
    else if v == Some(JNull) then Ok(Null)
    else if v.value.JStr? then
      var t := Trim(v.value.s);
      var issues := LengthIssues(t, DescriptionEmpty, DescriptionTooLong);
      if issues == [] then Ok(Given(t)) else Err(issues)
    else Err([Problem(InvalidType, DescriptionNotString)])
  }

  /** The decimal digits of `n`, as an array index appears in an issue path. */
  function Decimal(n: nat): (r: string)
    ensures |r| >= 1 && forall i :: 0 <= i < |r| ==> IsDigit(r[i])
  {
    var d := ['0' + (n % 10) as char];
    if n < 10 then d else Decimal(n / 10) + d
  }

  /** The issues of one server id; the id is not trimmed. */
  function ServerIdIssues(item: Json): (r: seq<Issue>)
    ensures r == [] <==> item.JStr? && |item.s| >= 1
  {
    if item.JStr? then Check(|item.s| >= 1, TooSmall, ServerIdEmpty)
    else [Problem(InvalidType, "Invalid input: expected string, received " + TypeName(Some(item)))]
  }

  /** The issues of the ids from position `from` on, each under its index. */
  function ItemIssues(items: seq<Json>, from: nat): (r: seq<Issue>)
    requires from <= |items|
    ensures r == [] <==> forall i :: from <= i < |items| ==> items[i].JStr? && |items[i].s| >= 1
    decreases |items| - from
  {
    if from == |items| then []
    else Under(Decimal(from), ServerIdIssues(items[from])) + ItemIssues(items, from + 1)
  }

  /** The non-empty strings a valid list holds. */
  predicate ServerIds(items: seq<Json>) {
    forall i :: 0 <= i < |items| ==> items[i].JStr? && |items[i].s| >= 1
  }

  /** `servers`: an optional array of ids, each at least one character long; `null` is refused. */
  function ParseServers(v: Option<Json>): (r: Result<Field<seq<string>>, seq<Issue>>)
    ensures r.Ok? <==> v.None? || (v.value.JArr? && ServerIds(v.value.items))
    ensures r.Ok? && v.Some? ==>
      r.value.Given? && |r.value.value| == |v.value.items|
      && forall i :: 0 <= i < |v.value.items| ==> r.value.value[i] == v.value.items[i].s
    ensures r.Err? ==> r.error != []
  {
    if v.None? then Ok(Absent)
    else if v.value.JArr? then
      var items := v.value.items;
      var issues := ItemIssues(items, 0);
      if issues == [] then Ok(Given(seq(|items|, i requires 0 <= i < |items| && items[i].JStr? => items[i].s)))
      else Err(issues)
    else Err([Problem(InvalidType, "Invalid input: expected array, received " + TypeName(v))])
  }

  /** Both group schemas: the three fields in shape order, then the unknown keys. */
  function ParseGroup(body: Json, create: bool): (r: Result<Group, seq<Issue>>)
    ensures !body.JObj? ==> r == Err([ExpectedObject(body)])
    ensures body.JObj? ==> (r.Ok? <==>
      && ParseGroupName(Lookup(body.members, "name"), create).Ok?
      && ParseDescription(Lookup(body.members, "description")).Ok?
      && ParseServers(Lookup(body.members, "servers")).Ok?
      && KeysWithin(body.members, GroupKeys))
    ensures r.Ok? ==> r.value == Group(ParseGroupName(Lookup(body.members, "name"), create).value,
                                       ParseDescription(Lookup(body.members, "description")).value,
                                       ParseServers(Lookup(body.members, "servers")).value)
    ensures r.Err? ==> r.error != []
  {
    match body
    case JObj(members) =>
      var name := ParseGroupName(Lookup(members, "name"), create);
      var description := ParseDescription(Lookup(members, "description"));
      var servers := ParseServers(Lookup(members, "servers"));
      var issues := Under("name", IssuesOf(name)) + Under("description", IssuesOf(description))
                    + Under("servers", IssuesOf(servers)) + StrictIssues(members, GroupKeys);
      if issues == [] then Ok(Group(name.value, description.value, servers.value)) else Err(issues)
    case _ => Err([ExpectedObject(body)])
  }

  /** `createVPSGroupSchema.parse(body)`: a body without `name` is refused, the name issue first. */
  function ParseCreateGroup(body: Json): (r: Result<Group, seq<Issue>>)
    ensures r.Ok? ==> r.value.name.Given?
    ensures body.JObj? && Lookup(body.members, "name").None? ==>
      r.Err? && r.error != [] && r.error[0] == Issue(InvalidType, ["name"], NameNotString, [])
  {
    ParseGroup(body, true)
  }

  /** `updateVPSGroupSchema.parse(body)`: a body without `name` is judged on its other fields and keys alone. */
  function ParseUpdateGroup(body: Json): (r: Result<Group, seq<Issue>>)
    ensures body.JObj? && Lookup(body.members, "name").None? ==>
      (r.Ok? <==> && ParseDescription(Lookup(body.members, "description")).Ok?
                  && ParseServers(Lookup(body.members, "servers")).Ok?
                  && KeysWithin(body.members, GroupKeys))
    ensures r.Ok? && body.JObj? && Lookup(body.members, "name").None? ==> r.value.name == Absent
  {
    ParseGroup(body, false)
  }

  /** A body the create schema accepts is accepted by the update schema, with the same output. */
  lemma CreateImpliesUpdate(body: Json)
    requires ParseCreateGroup(body).Ok?
    ensures ParseUpdateGroup(body) == ParseCreateGroup(body)
  {
    assert ParseGroupName(Lookup(body.members, "name"), false) == ParseGroupName(Lookup(body.members, "name"), true);
  }
}
