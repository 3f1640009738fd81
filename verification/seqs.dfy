/** Generic sequence helpers: de-duplication in first-appearance order. */
module Seqs {

  /** No element occurs twice. */
  ghost predicate NoDup<T>(s: seq<T>) {
    forall i, j :: 0 <= i < j < |s| ==> s[i] != s[j]
  }

  /** Position of the first occurrence of `x` in `s`. */
  function FirstIndex<T(==)>(s: seq<T>, x: T): (k: nat)
    requires x in s
    ensures k < |s| && s[k] == x
    ensures forall i :: 0 <= i < k ==> s[i] != x
  {
    if s[0] == x then 0 else 1 + FirstIndex(s[1..], x)
  }

  /** The distinct elements of `s`, each once, in the order of their first appearance. */
  function Distinct<T(==)>(s: seq<T>): (r: seq<T>)
    ensures NoDup(r)
  {
    if s == [] then []
    else
      var p := Distinct(s[..|s| - 1]);
      if s[|s| - 1] in p then p else p + [s[|s| - 1]]
  }

  /** `Distinct` keeps exactly the elements of `s`. */
  lemma {:induction false} DistinctMembers<T>(s: seq<T>)
    ensures forall i :: 0 <= i < |Distinct(s)| ==> Distinct(s)[i] in s
    ensures forall i :: 0 <= i < |s| ==> s[i] in Distinct(s)
  {
    if s != [] {
      var n := |s| - 1;
      DistinctMembers(s[..n]);
      assert s == s[..n] + [s[n]];
      forall i | 0 <= i < n ensures s[i] in Distinct(s) {
        assert s[..n][i] == s[i];
      }
      var p := Distinct(s[..n]);
      forall i | 0 <= i < |Distinct(s)| ensures Distinct(s)[i] in s {
        if i < |p| {
          assert p[i] in s[..n];
        }
      }
    }
  }

  lemma {:induction false} FirstIndexInPrefix<T>(s: seq<T>, n: nat, x: T)
    requires n <= |s| && x in s[..n]
    ensures FirstIndex(s, x) == FirstIndex(s[..n], x) < n
  {
    if s[0] != x {
      assert s[1..][..n - 1] == s[..n][1..];
      FirstIndexInPrefix(s[1..], n - 1, x);
    }
  }

  /** `Distinct` lists the elements in the order in which they first appear. */
  lemma {:induction false} DistinctInFirstAppearanceOrder<T>(s: seq<T>, i: nat, j: nat)
    requires i < j < |Distinct(s)|
    ensures Distinct(s)[i] in s && Distinct(s)[j] in s
    ensures FirstIndex(s, Distinct(s)[i]) < FirstIndex(s, Distinct(s)[j])
  {
    DistinctMembers(s);
    var n := |s| - 1;
    DistinctMembers(s[..n]);
    var p := Distinct(s[..n]);
    assert Distinct(s) == if s[n] in p then p else p + [s[n]];
    assert p[i] in p;
    FirstIndexInPrefix(s, n, p[i]);
    if j < |p| {
      assert p[j] in p;
      FirstIndexInPrefix(s, n, p[j]);
      DistinctInFirstAppearanceOrder(s[..n], i, j);
    } else {
      assert Distinct(s)[j] == s[n] && s[n] !in p;
      assert s[n] !in s[..n];
    }
  }
}
