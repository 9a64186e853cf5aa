/** Sequence helpers shared by the server and client models: JavaScript's
    `filter` and `findIndex`, a newest-first reordering, and the absence of
    duplicates. */
module Seqs {

  /** `s.filter(p)`: the elements satisfying `p`, in their original order. */
  function Filter<T(==,!new)>(s: seq<T>, p: T -> bool): (r: seq<T>)
    ensures |r| <= |s|
    ensures forall x :: x in r <==> x in s && p(x)
  {
    if s == [] then []
    else if p(s[0]) then [s[0]] + Filter(s[1..], p)
    else Filter(s[1..], p)
  }

  /** The sequence read back to front. */
  function Reverse<T(==,!new)>(s: seq<T>): (r: seq<T>)
    ensures |r| == |s|
    ensures forall k :: 0 <= k < |s| ==> r[k] == s[|s| - 1 - k]
    ensures forall x :: x in r <==> x in s
  {
    if s == [] then []
    else
      var t := Reverse(s[1..]);
      assert forall k :: 0 <= k < |t| ==> t[k] == s[|s| - 1 - k] by {
        forall k | 0 <= k < |t| ensures t[k] == s[|s| - 1 - k] {
          assert t[k] == s[1..][|s| - 2 - k];
        }
      }
      t + [s[0]]
  }

  /** `findIndex`: the first position whose element passes `p`, or -1. */
  method FindIndex<T>(s: seq<T>, p: T -> bool) returns (index: int)
    ensures -1 <= index < |s|
    ensures index >= 0 ==> p(s[index])
    ensures forall j :: 0 <= j < |s| && (index < 0 || j < index) ==> !p(s[j])
  {
    index := 0;
    while index < |s|
      invariant 0 <= index <= |s|
      invariant forall j :: 0 <= j < index ==> !p(s[j])
    {
      if p(s[index]) {
        return;
      }
      index := index + 1;
    }
    index := -1;
  }

  /** No value occurs twice. */
  predicate NoDuplicates<T(==)>(s: seq<T>) {
    forall i, j :: 0 <= i < j < |s| ==> s[i] != s[j]
  }

  /** Filtering never introduces duplicates. */
  lemma {:induction false} FilterKeepsNoDuplicates<T(!new)>(s: seq<T>, p: T -> bool)
    requires NoDuplicates(s)
    ensures NoDuplicates(Filter(s, p))
  {
    if s != [] {
      FilterKeepsNoDuplicates(s[1..], p);
      assert s[0] !in s[1..] by {
        forall k | 0 <= k < |s[1..]| ensures s[1..][k] != s[0] {
          assert s[1..][k] == s[k + 1];
        }
      }
    }
  }

  /** Filtering distributes over concatenation. */
  lemma {:induction false} FilterAppend<T(!new)>(a: seq<T>, b: seq<T>, p: T -> bool)
    ensures Filter(a + b, p) == Filter(a, p) + Filter(b, p)
  {
    if a == [] {
      assert a + b == b;
    } else {
      assert (a + b)[0] == a[0];
      assert (a + b)[1..] == a[1..] + b;
      FilterAppend(a[1..], b, p);
    }
  }

  /** How often each value occurs in a filtered sequence: as often as in
      the sequence when it passes, never when it does not. */
  lemma {:induction false} FilterMultiset<T(!new)>(s: seq<T>, p: T -> bool)
    ensures forall x :: multiset(Filter(s, p))[x] == if p(x) then multiset(s)[x] else 0
  {
    if s != [] {
      FilterMultiset(s[1..], p);
      assert s == [s[0]] + s[1..];
    }
  }

  /** Filtering keeps the relative order: two kept elements come from
      positions of the sequence in the same order. */
  lemma {:induction false} FilterOrder<T(!new)>(s: seq<T>, p: T -> bool, a: int, b: int)
    requires 0 <= a < b < |Filter(s, p)|
    ensures exists i, j :: 0 <= i < j < |s| && s[i] == Filter(s, p)[a] && s[j] == Filter(s, p)[b]
  {
    var f, rest := Filter(s, p), Filter(s[1..], p);
    if p(s[0]) {
      assert f == [s[0]] + rest;
      if a == 0 {
        assert rest[b - 1] in s[1..];
        var j :| 0 <= j < |s[1..]| && s[1..][j] == rest[b - 1];
        assert s[0] == f[a] && s[j + 1] == f[b];
      } else {
        FilterOrder(s[1..], p, a - 1, b - 1);
        var i, j :| 0 <= i < j < |s[1..]| && s[1..][i] == rest[a - 1] && s[1..][j] == rest[b - 1];
        assert s[i + 1] == f[a] && s[j + 1] == f[b];
      }
    } else {
      FilterOrder(s[1..], p, a, b);
      var i, j :| 0 <= i < j < |s[1..]| && s[1..][i] == rest[a] && s[1..][j] == rest[b];
      assert s[i + 1] == f[a] && s[j + 1] == f[b];
    }
  }

  /** A filter every element passes returns the sequence itself. */
  lemma {:induction false} FilterAllKept<T(!new)>(s: seq<T>, p: T -> bool)
    requires forall i :: 0 <= i < |s| ==> p(s[i])
    ensures Filter(s, p) == s
  {
    if s != [] {
      FilterAllKept(s[1..], p);
    }
  }
}
