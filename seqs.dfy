/** `Array.prototype.find`, `findIndex` and `filter` on sequences, with the laws the client code relies on. */
module Seqs {
  import opened Wrappers

  /** `i` is the first index of `s` whose element satisfies `p`. */
  ghost predicate FirstWhere<T>(s: seq<T>, p: T -> bool, i: int)
  {
    0 <= i < |s| && p(s[i]) && forall j :: 0 <= j < i ==> !p(s[j])
  }

  /** `Array.prototype.findIndex`: the first index whose element satisfies `p`, or -1. */
  function FindIndex<T>(s: seq<T>, p: T -> bool): (i: int)
    ensures -1 <= i < |s|
    ensures i == -1 <==> forall j :: 0 <= j < |s| ==> !p(s[j])
    ensures i != -1 ==> FirstWhere(s, p, i)
  {
    if s == [] then -1
    else if p(s[0]) then 0
    else
      var i := FindIndex(s[1..], p);
      if i == -1 then -1 else i + 1
  }

  /** `Array.prototype.find`: the first element satisfying `p`, or `undefined`. */
  function Find<T>(s: seq<T>, p: T -> bool): (r: Option<T>)
    ensures r.None? <==> forall j :: 0 <= j < |s| ==> !p(s[j])
    ensures r.Some? ==> exists i :: FirstWhere(s, p, i) && s[i] == r.value
  {
    var i := FindIndex(s, p);
    if i == -1 then None else Some(s[i])
  }

  /** The elements of `s` that satisfy `keep`, in their original order. */
  function Filter<T(!new)>(s: seq<T>, keep: T -> bool): (r: seq<T>)
    ensures |r| <= |s|
    ensures forall x :: x in r <==> x in s && keep(x)
    ensures forall i :: 0 <= i < |r| ==> keep(r[i])
  {
    if s == [] then []
    else (if keep(s[0]) then [s[0]] else []) + Filter(s[1..], keep)
  }

  /** Filtering commutes with concatenation: the kept elements stay in their original order. */
  lemma {:induction false} FilterConcat<T(!new)>(a: seq<T>, b: seq<T>, keep: T -> bool)
    ensures Filter(a + b, keep) == Filter(a, keep) + Filter(b, keep)
  {
    if a == [] {
      assert a + b == b;
    } else {
      assert (a + b)[0] == a[0];
      assert (a + b)[1..] == a[1..] + b;
      FilterConcat(a[1..], b, keep);
    }
  }

  /** A filter that keeps everything is the identity. */
  lemma {:induction false} FilterKeepsAll<T(!new)>(s: seq<T>, keep: T -> bool)
    requires forall i :: 0 <= i < |s| ==> keep(s[i])
    ensures Filter(s, keep) == s
  {
    if s != [] {
      FilterKeepsAll(s[1..], keep);
    }
  }

  /** `a` can be obtained from `b` by deleting elements (checked by greedy matching from the left). */
  ghost predicate IsSubsequence<T>(a: seq<T>, b: seq<T>)
    decreases |b|
  {
    if a == [] then true
    else if b == [] then false
    else if a[0] == b[0] then IsSubsequence(a[1..], b[1..])
    else IsSubsequence(a, b[1..])
  }

  /** The kept elements appear in the result in the order they have in `s`. */
  lemma {:induction false} FilterIsSubsequence<T(!new)>(s: seq<T>, keep: T -> bool)
    ensures IsSubsequence(Filter(s, keep), s)
  {
    if s != [] {
      FilterIsSubsequence(s[1..], keep);
      var r := Filter(s, keep);
      if keep(s[0]) {
        assert r == [s[0]] + Filter(s[1..], keep);
        assert r[1..] == Filter(s[1..], keep);
      } else {
        assert r == Filter(s[1..], keep);
        if r != [] {
          assert keep(r[0]);
        }
      }
    }
  }

  /** Every kept value keeps its multiplicity; every dropped value disappears. */
  lemma {:induction false} FilterCount<T(!new)>(s: seq<T>, keep: T -> bool, x: T)
    ensures multiset(Filter(s, keep))[x] == if keep(x) then multiset(s)[x] else 0
  {
    if s != [] {
      FilterCount(s[1..], keep, x);
      assert s == [s[0]] + s[1..];
      assert multiset(s) == multiset([s[0]]) + multiset(s[1..]);
    }
  }

  /**
   * What `filter` keeps and drops: each kept value with its multiplicity, no
   * dropped value, in the original order; keeping every element changes nothing.
   */
  lemma FilterLaws<T(!new)>(s: seq<T>, keep: T -> bool)
    ensures forall x :: keep(x) ==> multiset(Filter(s, keep))[x] == multiset(s)[x]
    ensures forall x :: !keep(x) ==> multiset(Filter(s, keep))[x] == 0
    ensures IsSubsequence(Filter(s, keep), s)
    ensures (forall i :: 0 <= i < |s| ==> keep(s[i])) ==> Filter(s, keep) == s
  {
    FilterIsSubsequence(s, keep);
    forall x
      ensures multiset(Filter(s, keep))[x] == if keep(x) then multiset(s)[x] else 0
    {
      FilterCount(s, keep, x);
    }
    if forall i :: 0 <= i < |s| ==> keep(s[i]) {
      FilterKeepsAll(s, keep);
    }
  }

  /** A subsequence of a sequence with pairwise distinct keys has pairwise distinct keys. */
  lemma {:induction false} SubsequenceKeepsKeysDistinct<T, K>(a: seq<T>, b: seq<T>, key: T -> K)
    requires IsSubsequence(a, b)
    requires forall i, j :: 0 <= i < j < |b| ==> key(b[i]) != key(b[j])
    ensures forall i, j :: 0 <= i < j < |a| ==> key(a[i]) != key(a[j])
    ensures forall i :: 0 <= i < |a| ==> a[i] in b
    decreases |b|
  {
    if a != [] && b != [] {
      if a[0] == b[0] {
        SubsequenceKeepsKeysDistinct(a[1..], b[1..], key);
        forall j | 0 < j < |a|
          ensures key(a[0]) != key(a[j])
        {
          assert a[j] == a[1..][j - 1];
          var m :| 0 <= m < |b[1..]| && b[1..][m] == a[j];
          assert b[m + 1] == a[j];
        }
        forall i, j | 0 <= i < j < |a|
          ensures key(a[i]) != key(a[j])
        {
          if i > 0 {
            assert a[i] == a[1..][i - 1] && a[j] == a[1..][j - 1];
          }
        }
        forall i | 0 <= i < |a|
          ensures a[i] in b
        {
          if i > 0 {
            assert a[i] == a[1..][i - 1];
          }
        }
      } else {
        SubsequenceKeepsKeysDistinct(a, b[1..], key);
      }
    }
  }
}
