/**
 * What the schemas share: how a zod schema reports a failing value. Every check of a schema runs,
 * and each one that fails adds one issue; an object schema parses every field of its shape, puts
 * the field's key in front of the path of each issue the field reports, and a strict object adds
 * one `unrecognized_keys` issue after all field issues.
 */
module Zod {
  import opened Wrappers
  import opened Text
  import opened Http
  import opened Json

  /** `input == null`: the value is missing (`undefined`) or `null`. */
  predicate Nullish(v: Option<Json>) {
    v.None? || v == Some(JNull)
  }

  /** The value of an `.optional()` / `.nullable()` field after parsing. */
  datatype Field<T> = Absent | Null | Given(value: T)

  /** An issue about the value itself; an enclosing object adds the key. */
  function Problem(code: IssueCode, message: string): Issue {
    Issue(code, [], message, [])
  }

  /** A check contributes its issue exactly when it fails. */
  function Check(ok: bool, code: IssueCode, message: string): (r: seq<Issue>)
    ensures r == [] <==> ok
    ensures !ok ==> r == [Problem(code, message)]
  {
    if ok then [] else [Problem(code, message)]
  }

  /** The issues of a field, as its object reports them: the key put in front of each path. */
  function Under(key: string, issues: seq<Issue>): (r: seq<Issue>)
    ensures |r| == |issues|
    ensures forall i :: 0 <= i < |r| ==> r[i] == issues[i].(path := [key] + issues[i].path)
  {
    seq(|issues|, i requires 0 <= i < |issues| => issues[i].(path := [key] + issues[i].path))
  }

  /**
   * A failed check (a length bound, a pattern, a refinement) lets parsing go on with the value it
   * had; a wrong type, a wrong literal or an unknown key stops it.
   */
  predicate Continuable(code: IssueCode) {
    code == TooSmall || code == TooBig || code == InvalidFormat || code == Custom
  }

  /** Some issue stops the parse, so the refinements of an enclosing schema are skipped. */
  predicate Aborted(issues: seq<Issue>) {
    exists i :: 0 <= i < |issues| && !Continuable(issues[i].code)
  }

  /** The issues a parse reported; none when it succeeded. */
  function IssuesOf<T>(r: Result<T, seq<Issue>>): seq<Issue> {
    if r.Err? then r.error else []
  }

  /** The type name zod's default messages use for a received value. */
  function TypeName(v: Option<Json>): string {
    match v
    case None => "undefined"
    case Some(JNull) => "null"
    case Some(JBool(_)) => "boolean"
    case Some(JNum(_)) => "number"
    case Some(JStr(_)) => "string"
    case Some(JArr(_)) => "array"
    case Some(JObj(_)) => "object"
  }

  /** The issue an object schema reports for a body that is not an object, in zod's default wording. */
  function ExpectedObject(v: Json): Issue {
    Problem(InvalidType, "Invalid input: expected object, received " + TypeName(Some(v)))
  }

  function Quoted(keys: seq<string>): seq<string> {
    seq(|keys|, i requires 0 <= i < |keys| => "\"" + keys[i] + "\"")
  }

  /** zod's default message for unrecognized keys. */
  function UnrecognizedMessage(keys: seq<string>): string {
    "Unrecognized key" + (if |keys| > 1 then "s" else "") + ": " + Join(Quoted(keys), ", ")
  }

  /** What `.strict()` adds: one issue naming every key outside the shape, or nothing. */
  function StrictIssues(members: seq<Member>, known: set<string>): (r: seq<Issue>)
    ensures r == [] <==> KeysWithin(members, known)
    ensures r != [] ==> r == [Issue(UnrecognizedKeys, [], UnrecognizedMessage(UnknownKeys(members, known)),
                                    UnknownKeys(members, known))]
  {
    NoUnknownKeys(members, known);
    var unknown := UnknownKeys(members, known);
    if unknown == [] then []
    else [Issue(UnrecognizedKeys, [], UnrecognizedMessage(unknown), unknown)]
  }
}
