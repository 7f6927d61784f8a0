/** Ordering of site collections by `key`, as `result.sort(compareKey)` does
    it. The comparison itself lives outside the core; the model takes it as a
    relation `le` on keys that is total and transitive (a collation may rank
    two different strings alike, so it need not be antisymmetric). */
module Ordering {
  import opened Json

  ghost predicate IsTotalPreorder(le: (string, string) -> bool) {
    && (forall a, b :: le(a, b) || le(b, a))
    && (forall a, b, c :: le(a, b) && le(b, c) ==> le(a, c))
  }

  ghost predicate Antisymmetric(le: (string, string) -> bool) {
    forall a, b :: le(a, b) && le(b, a) ==> a == b
  }

  /** Ascending by key. */
  ghost predicate SortedByKey(s: seq<Record>, le: (string, string) -> bool) {
    forall i, j :: 0 <= i < j < |s| ==> le(s[i].key, s[j].key)
  }

  /** No two records share a key. */
  ghost predicate DistinctKeys(s: seq<Record>) {
    forall i, j :: 0 <= i < j < |s| ==> s[i].key != s[j].key
  }

  /** The in-place sort: insertion by adjacent swaps. */
  method SortInPlace(a: array<Record>, le: (string, string) -> bool)
    requires IsTotalPreorder(le)
    modifies a
    ensures SortedByKey(a[..], le)
    ensures multiset(a[..]) == old(multiset(a[..]))
  {
    var i := 0;
    while i < a.Length
      invariant 0 <= i <= a.Length
      invariant forall p, q :: 0 <= p < q < i ==> le(a[p].key, a[q].key)
      invariant multiset(a[..]) == old(multiset(a[..]))
    {
      var j := i;
      while 0 < j && !le(a[j - 1].key, a[j].key)
        invariant 0 <= j <= i
        invariant forall p, q :: 0 <= p < q <= i && p != j && q != j ==> le(a[p].key, a[q].key)
        invariant forall q :: j < q <= i ==> le(a[j].key, a[q].key)
        invariant multiset(a[..]) == old(multiset(a[..]))
      {
        a[j - 1], a[j] := a[j], a[j - 1];
        j := j - 1;
      }
      i := i + 1;
    }
  }

  /** `result.sort(compareKey)` on a fresh copy: the outcome is ascending by
      key and holds exactly the records it was given. */
  method SortByKey(s: seq<Record>, le: (string, string) -> bool) returns (r: seq<Record>)
    requires IsTotalPreorder(le)
    ensures SortedByKey(r, le)
    ensures multiset(r) == multiset(s)
  {
    var a := new Record[|s|](i requires 0 <= i < |s| => s[i]);
    assert a[..] == s;
    SortInPlace(a, le);
    r := a[..];
  }

  /** When keys are distinct and the order is total, sorting is determined by
      the records alone: two sorted arrangements of the same records are
      equal, whatever order the input came in. */
  lemma {:induction false} SortedArrangementIsUnique(s: seq<Record>, t: seq<Record>, le: (string, string) -> bool)
    requires IsTotalPreorder(le) && Antisymmetric(le)
    requires DistinctKeys(s)
    requires SortedByKey(s, le) && SortedByKey(t, le)
    requires multiset(s) == multiset(t)
    ensures s == t
  {
    assert |s| == |multiset(s)| == |multiset(t)| == |t|;
    if s != [] {
      SortedHeadsAgree(s, t, le);
      TailsSameRecords(s, t);
      SortedArrangementIsUnique(s[1..], t[1..], le);
    }
  }

  lemma SortedHeadsAgree(s: seq<Record>, t: seq<Record>, le: (string, string) -> bool)
    requires IsTotalPreorder(le) && Antisymmetric(le)
    requires DistinctKeys(s)
    requires SortedByKey(s, le) && SortedByKey(t, le)
    requires multiset(s) == multiset(t) && s != [] && t != []
    ensures s[0] == t[0]
  {
    assert s[0] in multiset(t);
    var k :| 0 <= k < |t| && t[k] == s[0];
    assert t[0] in multiset(s);
    var m :| 0 <= m < |s| && s[m] == t[0];
    assert le(s[0].key, s[m].key);
    assert le(t[0].key, t[k].key);
  }

  lemma TailsSameRecords(s: seq<Record>, t: seq<Record>)
    requires multiset(s) == multiset(t) && s != [] && t != [] && s[0] == t[0]
    ensures multiset(s[1..]) == multiset(t[1..])
  {
    assert s == [s[0]] + s[1..] && t == [t[0]] + t[1..];
    assert multiset(s) == multiset([s[0]]) + multiset(s[1..]);
    assert multiset(t) == multiset([s[0]]) + multiset(t[1..]);
    assert multiset(s[1..]) == multiset(s) - multiset([s[0]]);
    assert multiset(t[1..]) == multiset(t) - multiset([s[0]]);
  }
}
