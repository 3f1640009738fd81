/**
 * The 400 response built from a failed zod parse: issues are grouped by the
 * first segment of their path, split into required / invalid / extra keys,
 * and summarised in one sentence.
 */
module ZodErrors {
  import opened Http
  import Seqs
  import opened Text

  /** `String(issue.path[0])`: an empty path stringifies `undefined`. */
  function KeyOf(issue: Issue): string {
    if issue.path == [] then "undefined" else issue.path[0]
  }

  /** The key of every issue, in issue order. */
  function IssueKeys(issues: seq<Issue>): (ks: seq<string>)
    ensures |ks| == |issues|
    ensures forall i :: 0 <= i < |issues| ==> ks[i] == KeyOf(issues[i])
  {
    seq(|issues|, i requires 0 <= i < |issues| => KeyOf(issues[i]))
  }

  /** The keys of the grouping, in first-appearance order. */
  function GroupKeys(issues: seq<Issue>): seq<string> {
    Seqs.Distinct(IssueKeys(issues))
  }

  /** The messages of the issues whose key is `k`, in issue order. */
  function MessagesFor(issues: seq<Issue>, k: string): seq<string> {
    if issues == [] then []
    else
      var last := issues[|issues| - 1];
      MessagesFor(issues[..|issues| - 1], k) + (if KeyOf(last) == k then [last.message] else [])
  }

  /** One entry per key of `ks`, each holding that key's messages. */
  function Entries(issues: seq<Issue>, ks: seq<string>): (es: seq<FieldErrors>)
    ensures |es| == |ks|
    ensures forall i :: 0 <= i < |ks| ==> es[i] == FieldErrors(ks[i], MessagesFor(issues, ks[i]))
  {
    if ks == [] then [] else [FieldErrors(ks[0], MessagesFor(issues, ks[0]))] + Entries(issues, ks[1..])
  }

  /** What `formatZodErrors` returns. */
  function Grouped(issues: seq<Issue>): seq<FieldErrors> {
    Entries(issues, GroupKeys(issues))
  }

  lemma GroupKeysStep(issues: seq<Issue>, i: nat)
    requires i < |issues|
    ensures GroupKeys(issues[..i + 1]) ==
      if KeyOf(issues[i]) in GroupKeys(issues[..i]) then GroupKeys(issues[..i])
      else GroupKeys(issues[..i]) + [KeyOf(issues[i])]
  {
    assert issues[..i + 1][..i] == issues[..i];
    assert IssueKeys(issues[..i + 1])[..i] == IssueKeys(issues[..i]);
  }

  lemma MessagesForStep(issues: seq<Issue>, i: nat, k: string)
    requires i < |issues|
    ensures MessagesFor(issues[..i + 1], k) ==
      MessagesFor(issues[..i], k) + (if KeyOf(issues[i]) == k then [issues[i].message] else [])
  {
    assert issues[..i + 1][..i] == issues[..i];
  }

  /** A key no issue has collects no message. */
  lemma {:induction false} MessagesForAbsent(issues: seq<Issue>, k: string)
    requires k !in IssueKeys(issues)
    ensures MessagesFor(issues, k) == []
  {
    if issues != [] {
      var n := |issues| - 1;
      assert IssueKeys(issues[..n]) == IssueKeys(issues)[..n];
      assert IssueKeys(issues)[n] == KeyOf(issues[n]);
      MessagesForAbsent(issues[..n], k);
    }
  }

  lemma {:induction false} EntriesStep(issues: seq<Issue>, ks: seq<string>, k: string)
    ensures Entries(issues, ks + [k]) == Entries(issues, ks) + [FieldErrors(k, MessagesFor(issues, k))]
  {
  }

  /** After `n` issues, `keys` and `m` hold the grouping of the first `n` issues. */
  ghost predicate Recorded(issues: seq<Issue>, n: nat, keys: seq<string>, m: map<string, seq<string>>)
    requires n <= |issues|
  {
    && keys == GroupKeys(issues[..n])
    && (forall k :: k in m <==> k in keys)
    && (forall k :: k in m ==> m[k] == MessagesFor(issues[..n], k))
  }

  /** One step of the `forEach`: create the key's list if missing, then push the message. */
  lemma RecordStep(issues: seq<Issue>, i: nat, keys: seq<string>, m: map<string, seq<string>>)
    requires i < |issues| && Recorded(issues, i, keys, m)
    ensures
      var key := KeyOf(issues[i]);
      var keys' := if key in m then keys else keys + [key];
      var m0 := if key in m then m else m[key := []];
      Recorded(issues, i + 1, keys', m0[key := m0[key] + [issues[i].message]])
  {
    var key := KeyOf(issues[i]);
    var keys' := if key in m then keys else keys + [key];
    var m0 := if key in m then m else m[key := []];
    var m' := m0[key := m0[key] + [issues[i].message]];
    GroupKeysStep(issues, i);
    assert keys' == GroupKeys(issues[..i + 1]);
    if key !in m {
      Seqs.DistinctMembers(IssueKeys(issues[..i]));
      MessagesForAbsent(issues[..i], key);
      assert m0[key] == MessagesFor(issues[..i], key);
    }
    forall k | k in m' ensures m'[k] == MessagesFor(issues[..i + 1], k) {
      MessagesForStep(issues, i, k);
    }
  }

  /** `formatZodErrors`: fills a key-to-messages record issue by issue, then lists its entries. */
  method FormatZodErrors(issues: seq<Issue>) returns (entries: seq<FieldErrors>)
    ensures entries == Grouped(issues)
  {
    var keys: seq<string> := [];
    var errorMap: map<string, seq<string>> := map[];
    var i := 0;
    while i < |issues|
      invariant 0 <= i <= |issues|
      invariant Recorded(issues, i, keys, errorMap)
    {
      var key := KeyOf(issues[i]);
      RecordStep(issues, i, keys, errorMap);
      if key !in errorMap {
        errorMap := errorMap[key := []];
        keys := keys + [key];
      }
      errorMap := errorMap[key := errorMap[key] + [issues[i].message]];
      i := i + 1;
    }
    assert issues[..i] == issues;
    entries := [];
    var j := 0;
    while j < |keys|
      invariant 0 <= j <= |keys|
      invariant entries == Entries(issues, keys[..j])
    {
      assert keys[..j + 1] == keys[..j] + [keys[j]];
      EntriesStep(issues, keys[..j], keys[j]);
      entries := entries + [FieldErrors(keys[j], errorMap[keys[j]])];
      j := j + 1;
    }
    assert keys[..j] == keys;
  }

  // ----- every issue lands in exactly one entry -----

  /** The total number of messages held by a list of entries. */
  function MessageCount(es: seq<FieldErrors>): nat {
    if es == [] then 0 else |es[0].messages| + MessageCount(es[1..])
  }

  lemma {:induction false} MessageCountAppend(a: seq<FieldErrors>, b: seq<FieldErrors>)
    ensures MessageCount(a + b) == MessageCount(a) + MessageCount(b)
  {
    if a != [] {
      assert (a + b)[1..] == a[1..] + b;
      MessageCountAppend(a[1..], b);
    } else {
      assert a + b == b;
    }
  }

  /** Adding one issue adds one message to the entries of the keys that include its key. */
  lemma {:induction false} CountStep(issues: seq<Issue>, ks: seq<string>)
    requires issues != [] && Seqs.NoDup(ks)
    ensures
      var n := |issues| - 1;
      MessageCount(Entries(issues, ks)) ==
        MessageCount(Entries(issues[..n], ks)) + (if KeyOf(issues[n]) in ks then 1 else 0)
  {
    var n := |issues| - 1;
    if ks != [] {
      assert issues[..n + 1] == issues;
      MessagesForStep(issues, n, ks[0]);
      assert Seqs.NoDup(ks[1..]) by {
        forall i, j | 0 <= i < j < |ks[1..]| ensures ks[1..][i] != ks[1..][j] {
          assert ks[1..][i] == ks[i + 1] && ks[1..][j] == ks[j + 1];
        }
      }
      CountStep(issues, ks[1..]);
      assert KeyOf(issues[n]) in ks <==> KeyOf(issues[n]) == ks[0] || KeyOf(issues[n]) in ks[1..];
      assert KeyOf(issues[n]) == ks[0] ==> KeyOf(issues[n]) !in ks[1..];
    }
  }

  /** `formatZodErrors` loses no message and repeats none: the entries hold one message per issue. */
  lemma {:induction false} GroupedCountsEveryIssue(issues: seq<Issue>)
    ensures MessageCount(Grouped(issues)) == |issues|
  {
    if issues != [] {
      var n := |issues| - 1;
      var p := issues[..n];
      var k := KeyOf(issues[n]);
      assert issues[..n + 1] == issues;
      GroupKeysStep(issues, n);
      GroupedCountsEveryIssue(p);
      var ks := GroupKeys(p);
      CountStep(issues, ks);
      if k !in ks {
        EntriesStep(issues, ks, k);
        MessageCountAppend(Entries(issues, ks), [FieldErrors(k, MessagesFor(issues, k))]);
        MessagesForStep(issues, n, k);
        Seqs.DistinctMembers(IssueKeys(p));
        MessagesForAbsent(p, k);
        assert MessageCount([FieldErrors(k, MessagesFor(issues, k))]) == 1;
      }
    }
  }

  /** Each issue's key names exactly one entry, and that entry holds the issue's message. */
  lemma GroupedPlacesEachIssue(issues: seq<Issue>, n: nat)
    requires n < |issues|
    ensures exists i :: 0 <= i < |Grouped(issues)| && Grouped(issues)[i].key == KeyOf(issues[n])
    ensures forall i, j :: 0 <= i < j < |Grouped(issues)| ==> Grouped(issues)[i].key != Grouped(issues)[j].key
    ensures forall i :: 0 <= i < |Grouped(issues)| && Grouped(issues)[i].key == KeyOf(issues[n]) ==>
              issues[n].message in Grouped(issues)[i].messages
  {
    var ks := GroupKeys(issues);
    Seqs.DistinctMembers(IssueKeys(issues));
    assert IssueKeys(issues)[n] in ks;
    var i :| 0 <= i < |ks| && ks[i] == KeyOf(issues[n]);
    assert Grouped(issues)[i].key == KeyOf(issues[n]);
    MessagesForContains(issues, n);
  }

  lemma {:induction false} MessagesForContains(issues: seq<Issue>, n: nat)
    requires n < |issues|
    ensures issues[n].message in MessagesFor(issues, KeyOf(issues[n]))
  {
    var m := |issues| - 1;
    if n < m {
      assert issues[..m][n] == issues[n];
      MessagesForContains(issues[..m], n);
    }
  }

  // ----- the three categories -----

  /** `invalid_type` issues: missing or wrongly typed keys. */
  function RequiredIssues(issues: seq<Issue>): (r: seq<Issue>)
    ensures forall i :: i in r ==> i in issues && i.code == InvalidType
  {
    if issues == [] then []
    else (if issues[0].code == InvalidType then [issues[0]] else []) + RequiredIssues(issues[1..])
  }

  /** Issues that are neither `invalid_type` nor `unrecognized_keys`. */
  function InvalidIssues(issues: seq<Issue>): (r: seq<Issue>)
    ensures forall i :: i in r ==> i in issues && i.code != InvalidType && i.code != UnrecognizedKeys
  {
    if issues == [] then []
    else (if issues[0].code != InvalidType && issues[0].code != UnrecognizedKeys then [issues[0]] else [])
         + InvalidIssues(issues[1..])
  }

  /** `unrecognized_keys` issues. */
  function UnrecognizedIssues(issues: seq<Issue>): (r: seq<Issue>)
    ensures forall i :: i in r ==> i in issues && i.code == UnrecognizedKeys
  {
    if issues == [] then []
    else (if issues[0].code == UnrecognizedKeys then [issues[0]] else []) + UnrecognizedIssues(issues[1..])
  }

  /** The keys of all `unrecognized_keys` issues, flattened in order (duplicates kept). */
  function ExtraKeys(issues: seq<Issue>): seq<string> {
    if issues == [] then []
    else (if issues[0].code == UnrecognizedKeys then issues[0].keys else []) + ExtraKeys(issues[1..])
  }

  /** Every issue falls in exactly one of the three categories. */
  lemma {:induction false} CategoriesPartition(issues: seq<Issue>)
    ensures |RequiredIssues(issues)| + |InvalidIssues(issues)| + |UnrecognizedIssues(issues)| == |issues|
  {
    if issues != [] {
      CategoriesPartition(issues[1..]);
    }
  }

  /** Every `invalid_type` issue's key is named in the "required" part. */
  lemma {:induction false} RequiredKeysNamed(issues: seq<Issue>, n: nat)
    requires n < |issues| && issues[n].code == InvalidType
    ensures KeyOf(issues[n]) in GroupKeys(RequiredIssues(issues))
  {
    RequiredContains(issues, n);
    var req := RequiredIssues(issues);
    var j :| 0 <= j < |req| && req[j] == issues[n];
    assert IssueKeys(req)[j] == KeyOf(issues[n]);
    Seqs.DistinctMembers(IssueKeys(req));
  }

  lemma {:induction false} RequiredContains(issues: seq<Issue>, n: nat)
    requires n < |issues| && issues[n].code == InvalidType
    ensures issues[n] in RequiredIssues(issues)
  {
    if n > 0 {
      assert issues[1..][n - 1] == issues[n];
      RequiredContains(issues[1..], n - 1);
    }
  }

  // ----- the response -----

  function RequiredPart(keys: seq<string>): string {
    Join(keys, ", ") + " " + (if |keys| > 1 then "keys are" else "key is") + " required"
  }

  function InvalidPart(keys: seq<string>): string {
    Join(keys, ", ") + " " + (if |keys| > 1 then "are invalid input values" else "is invalid input value")
  }

  function ExtraPart(keys: seq<string>): string {
    Join(keys, ", ") + " " + (if |keys| > 1 then "are extra keys" else "is extra key") + " not allowed"
  }

  /** The sentence parts, in the order required, invalid, extra; empty categories contribute none. */
  function Parts(issues: seq<Issue>): seq<string> {
    var required := GroupKeys(RequiredIssues(issues));
    var invalid := GroupKeys(InvalidIssues(issues));
    var extra := ExtraKeys(issues);
    (if |required| > 0 then [RequiredPart(required)] else [])
    + (if |invalid| > 0 then [InvalidPart(invalid)] else [])
    + (if |extra| > 0 then [ExtraPart(extra)] else [])
  }

  /** One entry per unrecognized key, replacing the issue's own message. */
  function ExtraEntries(keys: seq<string>): (es: seq<FieldErrors>)
    ensures |es| == |keys|
    ensures forall i :: 0 <= i < |keys| ==> es[i] == FieldErrors(keys[i], [keys[i] + " is not allowed"])
  {
    seq(|keys|, i requires 0 <= i < |keys| => FieldErrors(keys[i], [keys[i] + " is not allowed"]))
  }

  /** The `errors` array: required entries, then invalid entries, then extra-key entries. */
  function ValidationErrors(issues: seq<Issue>): seq<FieldErrors> {
    Grouped(RequiredIssues(issues)) + Grouped(InvalidIssues(issues)) + ExtraEntries(ExtraKeys(issues))
  }

  /** The response `ZodErrorResponse` builds. */
  function ValidationResponse(issues: seq<Issue>): (r: Response)
    ensures r.status == 400
  {
    Response(400, Validation(Join(Parts(issues), " and "), ValidationErrors(issues)))
  }

  /** The keys of a list of entries, as `errors.map((err) => err.key)` gives them. */
  function EntryKeys(es: seq<FieldErrors>): (ks: seq<string>)
    ensures |ks| == |es| && forall i :: 0 <= i < |es| ==> ks[i] == es[i].key
  {
    seq(|es|, i requires 0 <= i < |es| => es[i].key)
  }

  /**
   * `ZodErrorResponse`: pushes one sentence part and its entries per non-empty
   * category, then answers 400 with the parts joined by " and ".
   */
  method ZodErrorResponse(issues: seq<Issue>) returns (r: Response)
    ensures r.status == 400
    ensures r.body == Validation(Join(Parts(issues), " and "), ValidationErrors(issues))
  {
    var messages: seq<string> := [];
    var errors: seq<FieldErrors> := [];
    ghost var required := GroupKeys(RequiredIssues(issues));
    ghost var invalid := GroupKeys(InvalidIssues(issues));

    var requiredKeysErrors := FormatZodErrors(RequiredIssues(issues));
    if |requiredKeysErrors| > 0 {
      var keys := EntryKeys(requiredKeysErrors);
      assert keys == GroupKeys(RequiredIssues(issues));
      messages := messages + [RequiredPart(keys)];
      errors := errors + requiredKeysErrors;
    }
    assert messages == (if |required| > 0 then [RequiredPart(required)] else []);
    assert errors == Grouped(RequiredIssues(issues));

    var invalidKeysErrors := FormatZodErrors(InvalidIssues(issues));
    if |invalidKeysErrors| > 0 {
      var keys := EntryKeys(invalidKeysErrors);
      assert keys == GroupKeys(InvalidIssues(issues));
      messages := messages + [InvalidPart(keys)];
      errors := errors + invalidKeysErrors;
    }
    assert messages == (if |required| > 0 then [RequiredPart(required)] else [])
                       + (if |invalid| > 0 then [InvalidPart(invalid)] else []);
    assert errors == Grouped(RequiredIssues(issues)) + Grouped(InvalidIssues(issues));

    var unknownKeys := ExtraKeys(issues);
    if |unknownKeys| > 0 {
      messages := messages + [ExtraPart(unknownKeys)];
      errors := errors + ExtraEntries(unknownKeys);
    }
    assert messages == Parts(issues);
    assert errors == ValidationErrors(issues);

    r := Response(400, Validation(Join(messages, " and "), errors));
  }
}
