/** `ErrorResponse`: maps a thrown error to a JSON response by the error's class. */
module ErrorResponse {
  import opened Wrappers
  import opened Http
  import opened Text
  import ZodErrors

  /** One step of the `reduce` that builds the P2002 message; only whether `prev` is empty survives. */
  function UniqueStep(prev: string, key: string): string {
    (if prev != "" then "," else "") + " " + key + " must be unique"
  }

  /** `keys.reduce(UniqueStep, acc)`. */
  function Reduce(acc: string, keys: seq<string>): string
    decreases |keys|
  {
    if keys == [] then acc else Reduce(UniqueStep(acc, keys[0]), keys[1..])
  }

  /** The P2002 message: `""` unless `meta.target` is an array (`None` models any non-array target). */
  function UniqueMessage(target: Option<seq<string>>): string {
    if target.Some? then Reduce("", target.value) else ""
  }

  /** The result of the `reduce` depends only on the last key and on whether there was anything before it. */
  lemma {:induction false} ReduceKeepsLastKey(acc: string, keys: seq<string>)
    requires keys != []
    ensures Reduce(acc, keys) ==
      (if acc == "" && |keys| == 1 then "" else ",") + " " + keys[|keys| - 1] + " must be unique"
    decreases |keys|
  {
    if |keys| > 1 {
      ReduceKeepsLastKey(UniqueStep(acc, keys[0]), keys[1..]);
    }
  }

  /** The three shapes of the P2002 message. */
  lemma UniqueMessageShapes(target: Option<seq<string>>)
    ensures target.None? || target.value == [] ==> UniqueMessage(target) == ""
    ensures target.Some? && |target.value| == 1 ==>
      UniqueMessage(target) == " " + target.value[0] + " must be unique"
    ensures target.Some? && |target.value| > 1 ==>
      UniqueMessage(target) == ", " + target.value[|target.value| - 1] + " must be unique"
  {
    if target.Some? && target.value != [] {
      ReduceKeepsLastKey("", target.value);
    }
  }

  /** With several keys only the last one is named: changing the others changes nothing. */
  lemma UniqueMessageIgnoresEarlierKeys(a: seq<string>, b: seq<string>, last: string)
    requires |a| == |b|
    ensures UniqueMessage(Some(a + [last])) == UniqueMessage(Some(b + [last]))
  {
    ReduceKeepsLastKey("", a + [last]);
    ReduceKeepsLastKey("", b + [last]);
  }

  /**
   * The message as written for the target `["email", "slug"]`: the email key is lost, and that is
   * the body of the 409 answer.
   */
  lemma TwoKeysAsWritten(message: string)
    ensures UniqueMessage(Some(["email", "slug"])) == ", slug must be unique"
    ensures ErrorResponse(PrismaKnownError("P2002", message, Some(["email", "slug"])))
            == Failure(409, ", slug must be unique")
  {
    UniqueMessageShapes(Some(["email", "slug"]));
    ConflictAnswer(message, Some(["email", "slug"]), ", slug must be unique");
  }

  lemma ConflictAnswer(message: string, target: Option<seq<string>>, text: string)
    requires UniqueMessage(target) == text
    ensures ErrorResponse(PrismaKnownError("P2002", message, target)) == Failure(409, text)
  {
  }

  /** What each key of the target contributes to the message. */
  function UniquePhrase(key: string): string {
    " " + key + " must be unique"
  }

  function Phrases(keys: seq<string>): (r: seq<string>)
    ensures |r| == |keys| && forall i :: 0 <= i < |keys| ==> r[i] == UniquePhrase(keys[i])
  {
    seq(|keys|, i requires 0 <= i < |keys| => UniquePhrase(keys[i]))
  }

  /** The evidently intended step: the template also carries `prev` forward. */
  function IntendedStep(prev: string, key: string): string {
    prev + (if prev != "" then "," else "") + UniquePhrase(key)
  }

  function ReduceIntended(acc: string, keys: seq<string>): string
    decreases |keys|
  {
    if keys == [] then acc else ReduceIntended(IntendedStep(acc, keys[0]), keys[1..])
  }

  /** The corrected P2002 message. */
  function UniqueMessageIntended(target: Option<seq<string>>): string {
    if target.Some? then ReduceIntended("", target.value) else ""
  }

  /** The corrected reduce appends one phrase per key, comma-separated, after what it started with. */
  lemma {:induction false} ReduceIntendedJoins(acc: string, keys: seq<string>)
    ensures ReduceIntended(acc, keys) ==
      acc + (if acc != "" && keys != [] then "," else "") + Join(Phrases(keys), ",")
    decreases |keys|
  {
    if keys != [] {
      var next := IntendedStep(acc, keys[0]);
      ReduceIntendedJoins(next, keys[1..]);
      var rest := keys[1..];
      assert Phrases(keys)[1..] == Phrases(rest);
      if rest == [] {
        assert Phrases(keys) == [UniquePhrase(keys[0])];
      } else {
        assert next != "";
      }
    }
  }

  /** The corrected message names every key of the target, in order. */
  lemma UniqueMessageIntendedNamesEveryKey(keys: seq<string>)
    ensures UniqueMessageIntended(Some(keys)) == Join(Phrases(keys), ",")
    ensures UniqueMessageIntended(Some(["email", "slug"])) == UniquePhrase("email") + "," + UniquePhrase("slug")
  {
    ReduceIntendedJoins("", keys);
    ReduceIntendedJoins("", ["email", "slug"]);
    var ph := Phrases(["email", "slug"]);
    assert ph == [UniquePhrase("email"), UniquePhrase("slug")];
    assert ph[1..] == [UniquePhrase("slug")];
  }

  /** `ErrorResponse(error)`. An Axios error without a status answers with the default status 200. */
  function ErrorResponse(e: Thrown): (r: Response)
    ensures e.ZodError? ==> r == ZodErrors.ValidationResponse(e.issues)
    ensures e.PrismaKnownError? ==> (r.status == 409 <==> e.code == "P2002")
    ensures e.PrismaKnownError? && e.code == "P2002" ==> r == Failure(409, UniqueMessage(e.target))
    ensures e.PrismaKnownError? && e.code != "P2002" ==> r == Failure(500, e.message)
    ensures e.AxiosError? ==> r.status == (if e.status.Some? then e.status.value else 200)
    ensures e.AxiosError? && e.response.None? ==> r.body == Message(Some(false), Some(e.message))
    ensures e.AxiosError? && e.response.Some? ==> r.body == Message(Some(false), e.response.value.dataMessage)
    ensures e.OtherError? || e.NonError? ==> r == Failure(500, ErrorMessage(e))
  {
    match e
    case ZodError(issues) => ZodErrors.ValidationResponse(issues)
    case PrismaKnownError(code, message, target) =>
      if code == "P2002" then Failure(409, UniqueMessage(target)) else Failure(500, message)
    case AxiosError(message, status, response) =>
      var text := if response.Some? then response.value.dataMessage else Some(message);
      Response(if status.Some? then status.value else 200, Message(Some(false), text))
    case OtherError(message) => Failure(500, message)
    case NonError => Failure(500, InternalServerError)
  }
}
