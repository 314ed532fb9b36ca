/**
 The sequence operations a kernel list performs, and what they keep: distinctness and value order.
 */
module ListSeq {
  function InsertAt<T>(s: seq<T>, k: nat, x: T): (r: seq<T>)
    requires k <= |s|
    ensures |r| == |s| + 1
    ensures forall i {:trigger r[i]} :: 0 <= i < |r| ==> r[i] == if i < k then s[i] else if i == k then x else s[i - 1]
  {
    s[..k] + [x] + s[k..]
  }

  function RemoveAt<T>(s: seq<T>, k: nat): (r: seq<T>)
    requires k < |s|
    ensures |r| == |s| - 1
    ensures forall i {:trigger r[i]} :: 0 <= i < |r| ==> r[i] == if i < k then s[i] else s[i + 1]
  {
    s[..k] + s[k + 1..]
  }

  /** How many leading values are at most v. */
  function LeadingAtMost(vs: seq<nat>, v: nat): (k: nat)
    ensures k <= |vs| && (forall i :: 0 <= i < k ==> vs[i] <= v) && (k < |vs| ==> vs[k] > v)
  {
    if vs == [] || vs[0] > v then 0 else 1 + LeadingAtMost(vs[1..], v)
  }

  ghost predicate Ascending(vs: seq<nat>) {
    forall i, j :: 0 <= i < j < |vs| ==> vs[i] <= vs[j]
  }

  lemma LeadingIsUnique(vs: seq<nat>, v: nat, k: nat)
    requires k <= |vs| && (forall i :: 0 <= i < k ==> vs[i] <= v) && (k < |vs| ==> vs[k] > v)
    ensures k == LeadingAtMost(vs, v)
  {
  }

  /** vListInsert keeps the order and puts the new value behind its equals: the ones before it are at most v,
      the ones after it strictly greater. */
  lemma SortedInsert(vs: seq<nat>, v: nat)
    requires Ascending(vs)
    ensures var k := LeadingAtMost(vs, v);
            Ascending(InsertAt(vs, k, v)) &&
            forall i :: k <= i < |vs| ==> vs[i] > v
  {
    var k := LeadingAtMost(vs, v);
    forall i | k <= i < |vs| ensures vs[i] > v {
      assert vs[k] <= vs[i] || i == k;
    }
  }

  ghost predicate Distinct<T>(s: seq<T>) {
    forall i, j :: 0 <= i < j < |s| ==> s[i] != s[j]
  }

  lemma DistinctInsert<T>(s: seq<T>, k: nat, x: T)
    requires Distinct(s) && k <= |s| && x !in s
    ensures Distinct(InsertAt(s, k, x)) && (forall y :: y in InsertAt(s, k, x) <==> y in s || y == x)
  {
    hide InsertAt;
    var r := InsertAt(s, k, x);
    assert r[k] == x;
    forall y | y in s ensures y in r {
      var i :| 0 <= i < |s| && s[i] == y;
      assert r[if i < k then i else i + 1] == y;
    }
  }

  lemma DistinctRemove<T>(s: seq<T>, k: nat)
    requires Distinct(s) && k < |s|
    ensures Distinct(RemoveAt(s, k)) && (forall y :: y in RemoveAt(s, k) <==> y in s && y != s[k])
  {
    hide RemoveAt;
    var r := RemoveAt(s, k);
    forall y | y in s && y != s[k] ensures y in r {
      var i :| 0 <= i < |s| && s[i] == y;
      assert r[if i < k then i else i - 1] == y;
    }
  }
}
