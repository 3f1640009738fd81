/** Parsed JSON request bodies, as `req.json()` hands them to the schemas. */
module Json {
  import opened Wrappers
  import Seqs

  datatype Json =
    | JNull
    | JBool(b: bool)
    | JNum(n: real)
    | JStr(s: string)
    | JArr(items: seq<Json>)
    | JObj(members: seq<Member>)

  /** One `"key": value` pair, in the order the body lists them. */
  datatype Member = Member(key: string, value: Json)

  /** Some member has the key. */
  predicate HasKey(members: seq<Member>, key: string) {
    exists i :: 0 <= i < |members| && members[i].key == key
  }

  /** Every member's key is one of `known`. */
  predicate KeysWithin(members: seq<Member>, known: set<string>) {
    forall i :: 0 <= i < |members| ==> members[i].key in known
  }

  /** The value bound to `key`; `JSON.parse` keeps the last binding of a repeated key. */
  function Lookup(members: seq<Member>, key: string): (v: Option<Json>)
    ensures v.None? <==> !HasKey(members, key)
    ensures v.Some? ==> exists i :: 0 <= i < |members| && members[i] == Member(key, v.value)
  {
    if members == [] then None
    else if members[|members| - 1].key == key then Some(members[|members| - 1].value)
    else Lookup(members[..|members| - 1], key)
  }

  /** The object's keys, once each, in the order `Object.keys` reports them. */
  function KeyOrder(members: seq<Member>): seq<string>
  {
    Seqs.Distinct(seq(|members|, i requires 0 <= i < |members| => members[i].key))
  }

  /** The keys of the object that are not in `known`, in key order (what a strict zod object reports). */
  function UnknownKeys(members: seq<Member>, known: set<string>): (r: seq<string>)
    ensures forall k :: k in r ==> k !in known
  {
    UnknownIn(KeyOrder(members), known)
  }

  function UnknownIn(keys: seq<string>, known: set<string>): (r: seq<string>)
    ensures forall k :: k in r ==> k in keys && k !in known
    ensures forall k :: k in keys && k !in known ==> k in r
  {
    if keys == [] then []
    else (if keys[0] in known then [] else [keys[0]]) + UnknownIn(keys[1..], known)
  }

  /** Every key outside `known` is reported. */
  lemma UnknownKeyListed(members: seq<Member>, known: set<string>, k: nat)
    requires k < |members| && members[k].key !in known
    ensures members[k].key in UnknownKeys(members, known)
  {
    var keys := seq(|members|, i requires 0 <= i < |members| => members[i].key);
    Seqs.DistinctMembers(keys);
    assert keys[k] in KeyOrder(members);
  }

  /** A strict object accepts only the listed keys. */
  lemma {:induction false} NoUnknownKeys(members: seq<Member>, known: set<string>)
    ensures UnknownKeys(members, known) == [] <==> KeysWithin(members, known)
  {
    var keys := seq(|members|, i requires 0 <= i < |members| => members[i].key);
    var order := KeyOrder(members);
    Seqs.DistinctMembers(keys);
    if UnknownKeys(members, known) == [] {
      forall i | 0 <= i < |members| ensures members[i].key in known {
        assert keys[i] in order;
      }
    } else {
      var k := UnknownKeys(members, known)[0];
      assert k in order;
      var j :| 0 <= j < |order| && order[j] == k;
      assert order[j] in keys;
    }
  }
}
