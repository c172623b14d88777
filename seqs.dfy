/** Sequence helpers shared by the list-producing operations, with their laws. */
module Seqs {

  /** The elements of `s` that satisfy `p`, in their original order (JavaScript's `filter`). */
  function Filter<T(!new)>(s: seq<T>, p: T -> bool): (r: seq<T>)
    ensures |r| <= |s|
    ensures forall i :: 0 <= i < |r| ==> p(r[i])
    // Membership both ways: corollaries of the multiset clause below, kept for the reader.
    ensures forall i :: 0 <= i < |r| ==> r[i] in s
    ensures forall i :: 0 <= i < |s| && p(s[i]) ==> s[i] in r
    ensures forall x :: multiset(r)[x] == if p(x) then multiset(s)[x] else 0
  {
    if s == [] then []
    else
      assert s == [s[0]] + s[1..];
      if p(s[0]) then [s[0]] + Filter(s[1..], p)
      else Filter(s[1..], p)
  }

  /** The ids of the elements of `s`, position by position, read by `id`. */
  function Ids<T>(s: seq<T>, id: T -> int): (ids: seq<int>)
    ensures |ids| == |s| && forall i :: 0 <= i < |s| ==> ids[i] == id(s[i])
  {
    seq(|s|, i requires 0 <= i < |s| => id(s[i]))
  }

  /** `a` is obtained from `b` by deleting elements, so `a` keeps the relative order of `b`. */
  predicate IsSubsequence<T(==)>(a: seq<T>, b: seq<T>)
    decreases |b|
  {
    if a == [] then true
    else if b == [] then false
    else if a[0] == b[0] then IsSubsequence(a[1..], b[1..])
    else IsSubsequence(a, b[1..])
  }

  lemma {:induction false} FilterIsSubsequence<T(!new)>(s: seq<T>, p: T -> bool)
    ensures IsSubsequence(Filter(s, p), s)
  {
    if s != [] {
      FilterIsSubsequence(s[1..], p);
      var rest := Filter(s[1..], p);
      if !p(s[0]) && rest != [] {
        assert p(rest[0]);
        assert rest[0] != s[0];
      }
    }
  }

  lemma {:induction false} FilterIdempotent<T(!new)>(s: seq<T>, p: T -> bool)
    ensures Filter(Filter(s, p), p) == Filter(s, p)
  {
    if s != [] {
      FilterIdempotent(s[1..], p);
      if p(s[0]) {
        var f := Filter(s, p);
        assert f[0] == s[0] && f[1..] == Filter(s[1..], p);
      }
    }
  }

  /** The index of the first element satisfying `p`, or -1 (JavaScript's `findIndex`). */
  function FindIndex<T>(s: seq<T>, p: T -> bool): (i: int)
    ensures -1 <= i < |s|
    ensures i == -1 <==> forall j :: 0 <= j < |s| ==> !p(s[j])
    ensures 0 <= i ==> p(s[i]) && forall j :: 0 <= j < i ==> !p(s[j])
  {
    if s == [] then -1
    else if p(s[0]) then 0
    else
      var k := FindIndex(s[1..], p);
      if k == -1 then -1 else k + 1
  }

  /** `ids` names every key of `keys` exactly once and nothing else: one entry per stored row. */
  ghost predicate ListsOnce(ids: seq<int>, keys: set<int>)
  {
    && (forall i :: 0 <= i < |ids| ==> ids[i] in keys)
    && (forall i, j :: 0 <= i < j < |ids| ==> ids[i] != ids[j])
    && (forall k :: k in keys ==> k in ids)
  }

  /** A listing that names each key once has as many entries as there are keys. */
  lemma {:induction false} ListsOnceCount(ids: seq<int>, keys: set<int>)
    requires ListsOnce(ids, keys)
    ensures |ids| == |keys|
  {
    if ids == [] {
      assert forall k :: k in keys ==> k in ids;
      assert keys == {};
    } else {
      var n := |ids| - 1;
      var last, rest := ids[n], ids[..n];
      forall k | k in keys - {last}
        ensures k in rest
      {
        assert k in ids;
        var i :| 0 <= i < |ids| && ids[i] == k;
        assert rest[i] == k;
      }
      forall i | 0 <= i < |rest|
        ensures rest[i] in keys - {last}
      {
        assert rest[i] == ids[i] && ids[i] != ids[n];
      }
      ListsOnceCount(rest, keys - {last});
    }
  }
}
