/** Permutations of [0, n), and sequences with one element taken out. */
module Permutations {
  ghost predicate Distinct<T>(s: seq<T>) {
    forall i, j :: 0 <= i < j < |s| ==> s[i] != s[j]
  }

  lemma DistinctCons<T>(x: T, s: seq<T>)
    requires Distinct(s) && x !in s
    ensures Distinct([x] + s) && Distinct(s + [x])
  {
    forall i, j | 0 <= i < j < |s| + 1 ensures ([x] + s)[i] != ([x] + s)[j] {
      assert i > 0 ==> ([x] + s)[i] == s[i - 1];
      assert ([x] + s)[j] == s[j - 1];
    }
  }

  ghost predicate IsPermutation(perm: seq<nat>) {
    (forall i :: 0 <= i < |perm| ==> perm[i] < |perm|) && Distinct(perm)
  }

  function Drop<T>(s: seq<T>, j: nat): (r: seq<T>)
    requires j < |s|
    ensures |r| == |s| - 1
  {
    s[..j] + s[j + 1..]
  }

  /** Positions above a removed one move down by one. */
  function Renumber(perm: seq<nat>, j: nat): (r: seq<nat>)
    ensures |r| == |perm|
  {
    seq(|perm|, i requires 0 <= i < |perm| => if perm[i] > j then perm[i] - 1 else perm[i])
  }

  lemma DropAt<T>(s: seq<T>, j: nat, k: nat)
    requires j < |s| && k < |s| - 1
    ensures Drop(s, j)[k] == s[if k < j then k else k + 1]
  {
  }

  lemma DropFromMultiset<T>(s: seq<T>, j: nat)
    requires j < |s|
    ensures multiset(s) == multiset(Drop(s, j)) + multiset{s[j]}
  {
    assert s == s[..j] + [s[j]] + s[j + 1..];
  }

  /** Without its last value a permutation renumbers to a smaller one. */
  lemma RenumberIsPermutation(perm: seq<nat>)
    requires IsPermutation(perm) && perm != []
    ensures IsPermutation(Renumber(perm[..|perm| - 1], perm[|perm| - 1]))
  {
    var last := |perm| - 1;
    var k := perm[last];
    forall a | 0 <= a < last ensures Renumber(perm[..last], k)[a] < last && perm[a] != k {
    }
  }

  /** A permutation hits every position. */
  lemma {:induction false} Preimage(perm: seq<nat>, j: nat) returns (i: nat)
    requires IsPermutation(perm) && j < |perm|
    ensures i < |perm| && perm[i] == j
    decreases |perm|
  {
    var last := |perm| - 1;
    var k := perm[last];
    if k == j {
      i := last;
    } else {
      RenumberIsPermutation(perm);
      i := Preimage(Renumber(perm[..last], k), if j > k then j - 1 else j);
    }
  }

  /** Values moved along a permutation form the same multiset. */
  lemma {:induction false} PermutedMultiset<T>(xs: seq<T>, ys: seq<T>, perm: seq<nat>)
    requires |xs| == |ys| == |perm| && IsPermutation(perm)
    requires forall i :: 0 <= i < |xs| ==> ys[perm[i]] == xs[i]
    ensures multiset(xs) == multiset(ys)
    decreases |xs|
  {
    if xs == [] {
      assert ys == [];
    } else {
      var last := |xs| - 1;
      var j := perm[last];
      var perm', ys' := Renumber(perm[..last], j), Drop(ys, j);
      RenumberIsPermutation(perm);
      forall i | 0 <= i < last ensures ys'[perm'[i]] == xs[..last][i] {
        assert perm[i] != j;
        DropAt(ys, j, perm'[i]);
      }
      PermutedMultiset(xs[..last], ys', perm');
      DropFromMultiset(ys, j);
      assert xs == xs[..last] + [xs[last]];
    }
  }
}
