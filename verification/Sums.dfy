/** Sums of integer sequences, and counting with finite sets of indices. */
module Sums {

  function Sum(s: seq<int>): int
  {
    if s == [] then 0 else Sum(s[..|s| - 1]) + s[|s| - 1]
  }

  /** A coefficient-wise linear relation carries over to the sums. */
  lemma {:induction false} SumLinear(k: int, a: seq<int>, l: int, b: seq<int>, c: seq<int>)
    requires |a| == |b| == |c|
    requires forall i :: 0 <= i < |a| ==> k * a[i] == l * b[i] + c[i]
    ensures k * Sum(a) == l * Sum(b) + Sum(c)
  {
    if a == [] {
    } else {
      var n := |a| - 1;
      SumLinear(k, a[..n], l, b[..n], c[..n]);
      Distribute(k, Sum(a[..n]), a[n]);
      Distribute(l, Sum(b[..n]), b[n]);
    }
  }

  lemma Distribute(k: int, x: int, y: int)
    ensures k * (x + y) == k * x + k * y
  {
  }

  lemma {:induction false} SumMonotone(a: seq<int>, b: seq<int>)
    requires |a| == |b|
    requires forall i :: 0 <= i < |a| ==> a[i] <= b[i]
    ensures Sum(a) <= Sum(b)
  {
    if a == [] {
    } else {
      SumMonotone(a[..|a| - 1], b[..|a| - 1]);
    }
  }

  lemma {:induction false} SumUpdate(s: seq<int>, i: nat, v: int)
    requires i < |s|
    ensures Sum(s[i := v]) == Sum(s) - s[i] + v
  {
    var n := |s| - 1;
    if i == n {
      assert s[i := v][..n] == s[..n];
    } else {
      assert s[i := v][..n] == s[..n][i := v];
      SumUpdate(s[..n], i, v);
    }
  }

  lemma {:induction false} SumConstant(s: seq<int>, v: int)
    requires forall i :: 0 <= i < |s| ==> s[i] == v
    ensures Sum(s) == |s| * v
  {
    if s == [] {
    } else {
      SumConstant(s[..|s| - 1], v);
    }
  }

  lemma SumNonNegative(s: seq<int>)
    requires forall i :: 0 <= i < |s| ==> s[i] >= 0
    ensures Sum(s) >= 0
  {
    var zeros := seq(|s|, _ => 0);
    SumConstant(zeros, 0);
    SumMonotone(zeros, s);
  }

  /** A sum of non-negative terms is at least any one of them, and zero only when all are. */
  lemma SumAtLeastTerm(s: seq<int>, i: nat)
    requires i < |s|
    requires forall j :: 0 <= j < |s| ==> s[j] >= 0
    ensures s[i] <= Sum(s)
  {
    var zeros := seq(|s|, _ => 0);
    SumConstant(zeros, 0);
    SumUpdate(zeros, i, s[i]);
    SumMonotone(zeros[i := s[i]], s);
  }

  lemma SumAppend(s: seq<int>, x: int)
    ensures Sum(s + [x]) == Sum(s) + x
  {
    assert (s + [x])[..|s|] == s;
  }

  lemma Sum3(s: seq<int>)
    requires |s| == 3
    ensures Sum(s) == s[0] + s[1] + s[2]
  {
    assert s[..2][..1] == s[..1];
    assert s[..1][..0] == [];
    assert Sum(s[..1]) == s[0];
    assert Sum(s[..2]) == s[0] + s[1];
  }

  lemma Sum2(s: seq<int>)
    requires |s| == 2
    ensures Sum(s) == s[0] + s[1]
  {
    assert s[..1][..0] == [];
    assert Sum(s[..1]) == s[0];
  }

  function Indices(n: nat): (r: set<nat>)
    ensures |r| == n
    ensures forall i: nat :: i in r <==> i < n
  {
    if n == 0 then {} else Indices(n - 1) + {n - 1}
  }

  function Elements(s: seq<nat>): set<nat>
  {
    set x | x in s
  }

  predicate Distinct(s: seq<nat>)
  {
    forall i, j :: 0 <= i < j < |s| ==> s[i] != s[j]
  }

  lemma {:induction false} DistinctSize(s: seq<nat>)
    requires Distinct(s)
    ensures |Elements(s)| == |s|
  {
    if s == [] {
    } else {
      var n := |s| - 1;
      DistinctSize(s[..n]);
      assert s == s[..n] + [s[n]];
      assert Elements(s) == Elements(s[..n]) + {s[n]};
      assert s[n] !in s[..n];
    }
  }

  lemma SubsetSize<T>(a: set<T>, b: set<T>)
    requires a <= b
    ensures |a| <= |b|
    ensures |a| == |b| ==> a == b
  {
    assert b == a + (b - a);
    assert |b| == |a| + |b - a|;
  }

  /** `n` different indices below `n` are all the indices below `n`. */
  lemma Pigeonhole(s: seq<nat>, i: nat)
    requires Distinct(s)
    requires forall k :: 0 <= k < |s| ==> s[k] < |s|
    requires i < |s|
    ensures i in s
  {
    DistinctSize(s);
    SubsetSize(Elements(s), Indices(|s|));
    assert i in Indices(|s|);
  }
}
