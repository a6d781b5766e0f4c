/** `Array.prototype.sort()` with no comparator, as the result handler applies it
    to its `Shp_*` strings: an in-place sort by lexicographic string order. */
module Sorting {

  /** `a <= b` in lexicographic order of characters; a proper prefix comes first. */
  predicate LexLeq(a: string, b: string)
    decreases |a|
  {
    |a| == 0 || (|b| > 0 && (a[0] < b[0] || (a[0] == b[0] && LexLeq(a[1..], b[1..]))))
  }

  lemma {:induction false} LexLeqReflexive(a: string)
    ensures LexLeq(a, a)
    decreases |a|
  {
    if |a| > 0 {
      LexLeqReflexive(a[1..]);
    }
  }

  lemma {:induction false} LexLeqTotal(a: string, b: string)
    ensures LexLeq(a, b) || LexLeq(b, a)
    decreases |a|
  {
    if |a| > 0 && |b| > 0 && a[0] == b[0] {
      LexLeqTotal(a[1..], b[1..]);
    }
  }

  lemma {:induction false} LexLeqAntisymmetric(a: string, b: string)
    requires LexLeq(a, b) && LexLeq(b, a)
    ensures a == b
    decreases |a|
  {
    if |a| > 0 {
      LexLeqAntisymmetric(a[1..], b[1..]);
      assert a == [a[0]] + a[1..];
      assert b == [b[0]] + b[1..];
    }
  }

  lemma {:induction false} LexLeqTransitive(a: string, b: string, c: string)
    requires LexLeq(a, b) && LexLeq(b, c)
    ensures LexLeq(a, c)
    decreases |a|
  {
    if |a| > 0 && a[0] == b[0] && b[0] == c[0] {
      LexLeqTransitive(a[1..], b[1..], c[1..]);
    }
  }

  /** Two strings that agree on their first `k` characters and then differ with
      `a`'s character the smaller are ordered `a` before `b`. */
  lemma {:induction false} LexLeqAtFirstDifference(a: string, b: string, k: nat)
    requires k < |a| && k < |b| && a[..k] == b[..k] && a[k] < b[k]
    ensures LexLeq(a, b)
    decreases k
  {
    if k > 0 {
      assert a[0] == a[..k][0] == b[..k][0] == b[0];
      assert a[1..][..k - 1] == a[1..k] == a[..k][1..];
      assert b[1..][..k - 1] == b[1..k] == b[..k][1..];
      LexLeqAtFirstDifference(a[1..], b[1..], k - 1);
    }
  }

  predicate Sorted(s: seq<string>) {
    forall i, j :: 0 <= i < j < |s| ==> LexLeq(s[i], s[j])
  }

  lemma SortedTail(s: seq<string>)
    requires Sorted(s) && |s| > 0
    ensures Sorted(s[1..])
  {
    forall p, q | 0 <= p < q < |s| - 1
      ensures LexLeq(s[1..][p], s[1..][q])
    {
      assert s[1..][p] == s[p + 1] && s[1..][q] == s[q + 1];
    }
  }

  /** Two sorted lists, every string of the first not above any of the second, join to a
      sorted list. */
  lemma SortedConcat(p: seq<string>, q: seq<string>)
    requires Sorted(p) && Sorted(q)
    requires forall x, y :: x in p && y in q ==> LexLeq(x, y)
    ensures Sorted(p + q)
  {
    forall i, j | 0 <= i < j < |p + q|
      ensures LexLeq((p + q)[i], (p + q)[j])
    {
      if j < |p| {
        assert (p + q)[i] == p[i] && (p + q)[j] == p[j];
      } else if i >= |p| {
        assert (p + q)[i] == q[i - |p|] && (p + q)[j] == q[j - |p|];
      } else {
        assert (p + q)[i] in p && (p + q)[j] in q;
      }
    }
  }

  /** The first `n` strings of `s` are in order. */
  predicate SortedPrefix(s: seq<string>, n: nat)
    requires n <= |s|
  {
    forall p, q :: 0 <= p < q < n ==> LexLeq(s[p], s[q])
  }

  /** While `s[j]` moves left through the sorted prefix `s[..i+1]`: the prefix without
      position `j` is in order, and `s[j]` is not above anything to its right. */
  predicate Inserting(s: seq<string>, i: nat, j: nat)
    requires j <= i < |s|
  {
    && (forall p, q :: 0 <= p < q <= i && p != j && q != j ==> LexLeq(s[p], s[q]))
    && (forall q :: j < q <= i ==> LexLeq(s[j], s[q]))
  }

  /** Swapping `s[j]` with a greater left neighbour keeps the insertion going one place left. */
  lemma SwapLeft(s: seq<string>, i: nat, j: nat)
    requires 0 < j <= i < |s| && Inserting(s, i, j) && !LexLeq(s[j - 1], s[j])
    ensures Inserting(s[j - 1 := s[j]][j := s[j - 1]], i, j - 1)
  {
    var t := s[j - 1 := s[j]][j := s[j - 1]];
    LexLeqTotal(s[j - 1], s[j]);
    forall q | j - 1 < q <= i
      ensures LexLeq(t[j - 1], t[q])
    {
      if q > j {
        LexLeqTransitive(s[j], s[j - 1], s[q]);
      }
    }
  }

  /** Once `s[j]` has no greater left neighbour, the prefix `s[..i+1]` is in order. */
  lemma InsertionDone(s: seq<string>, i: nat, j: nat)
    requires j <= i < |s| && Inserting(s, i, j)
    requires j == 0 || LexLeq(s[j - 1], s[j])
    ensures SortedPrefix(s, i + 1)
  {
    forall p, q | 0 <= p < q <= i
      ensures LexLeq(s[p], s[q])
    {
      if q == j && p < j - 1 {
        LexLeqTransitive(s[p], s[j - 1], s[j]);
      }
    }
  }

  /** Sorts `a` in place: afterwards it is ordered and holds the same strings. */
  method SortInPlace(a: array<string>)
    modifies a
    ensures Sorted(a[..])
    ensures multiset(a[..]) == multiset(old(a[..]))
  {
    var i := 0;
    while i < a.Length
      invariant 0 <= i <= a.Length
      invariant SortedPrefix(a[..], i)
      invariant multiset(a[..]) == multiset(old(a[..]))
    {
      // Move a[i] left until its left neighbour is not greater.
      var j := i;
      while j > 0 && !LexLeq(a[j - 1], a[j])
        invariant 0 <= j <= i
        invariant Inserting(a[..], i, j)
        invariant multiset(a[..]) == multiset(old(a[..]))
      {
        ghost var s := a[..];
        SwapLeft(s, i, j);
        a[j - 1], a[j] := a[j], a[j - 1];
        assert a[..] == s[j - 1 := s[j]][j := s[j - 1]];
        j := j - 1;
      }
      InsertionDone(a[..], i, j);
      i := i + 1;
    }
  }

  /** Sorting leaves no choice: two sorted arrangements of the same strings are equal. */
  lemma {:induction false} SortedPermutationUnique(a: seq<string>, b: seq<string>)
    requires Sorted(a) && Sorted(b)
    requires multiset(a) == multiset(b)
    ensures a == b
    decreases |a|
  {
    if |a| > 0 {
      assert |b| == |multiset(b)| == |multiset(a)| == |a|;
      assert a[0] in multiset(b);
      var i :| 0 <= i < |b| && b[i] == a[0];
      assert b[0] in multiset(a);
      var j :| 0 <= j < |a| && a[j] == b[0];
      assert LexLeq(b[0], a[0]) by {
        if i == 0 { LexLeqReflexive(a[0]); }
      }
      assert LexLeq(a[0], b[0]) by {
        if j == 0 { LexLeqReflexive(b[0]); }
      }
      LexLeqAntisymmetric(a[0], b[0]);
      assert a == [a[0]] + a[1..];
      assert b == [b[0]] + b[1..];
      assert multiset(a) == multiset{a[0]} + multiset(a[1..]);
      assert multiset(b) == multiset{b[0]} + multiset(b[1..]);
      assert multiset(a[1..]) == multiset(a) - multiset{a[0]};
      assert multiset(b[1..]) == multiset(b) - multiset{a[0]};
      SortedTail(a);
      SortedTail(b);
      SortedPermutationUnique(a[1..], b[1..]);
    }
  }
}
