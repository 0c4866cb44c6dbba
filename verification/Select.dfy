/** Drawing without replacement (offchain/src/pool/select.ts). */
module Select {
  import opened Options
  import opened Permutations
  import opened Refs

  /** A box of the pool, as the samplers see it (offchain/src/pool/identify.ts:36-44). */
  datatype PoolEntry = PoolEntry(ref: UtxoRef, a: string, b: string)

  /** The random source: its answer to the `call`-th question for a number below `bound`. */
  type RandomInt = (nat, nat) -> nat

  ghost predicate InRange(rng: RandomInt) {
    forall call, bound :: 0 < bound ==> rng(call, bound) < bound
  }

  /** Draw i of a tuple is below the number of elements still left. */
  ghost predicate TupleDraws(draws: seq<nat>, size: nat) {
    |draws| <= size && forall i :: 0 <= i < |draws| ==> draws[i] < size - i
  }

  function Swap<T>(s: seq<T>, i: nat, j: nat): (r: seq<T>)
    requires i < |s| && j < |s|
    ensures |r| == |s|
  {
    s[i := s[j]][j := s[i]]
  }

  /** What a draw vector picks: each draw takes one of the elements left, and the element at the
      front takes its place. */
  function Tuple<T>(work: seq<T>, draws: seq<nat>): (r: seq<T>)
    requires TupleDraws(draws, |work|)
    ensures |r| == |draws|
    decreases |draws|
  {
    if draws == [] then []
    else [work[draws[0]]] + Tuple(Swap(work, 0, draws[0])[1..], draws[1..])
  }

  // ---- partial Fisher-Yates is a bijection ----

  /** After one draw the rest is everything but the element drawn. */
  lemma RestAfterDraw<T>(work: seq<T>, d: nat)
    requires Distinct(work) && d < |work|
    ensures var rest := Swap(work, 0, d)[1..];
            Distinct(rest) && (forall x :: x in rest <==> x in work && x != work[d])
  {
    var rest := Swap(work, 0, d)[1..];
    forall i | 0 <= i < |rest| ensures rest[i] == work[if i + 1 == d then 0 else i + 1] {
    }
    forall x | x in work && x != work[d] ensures x in rest {
      var k :| 0 <= k < |work| && work[k] == x;
      assert rest[if k == 0 then d - 1 else k - 1] == x;
    }
  }

  lemma {:induction false} TupleDistinct<T>(work: seq<T>, draws: seq<nat>)
    requires Distinct(work) && TupleDraws(draws, |work|)
    ensures Distinct(Tuple(work, draws)) && forall x :: x in Tuple(work, draws) ==> x in work
    decreases |draws|
  {
    if draws != [] {
      RestAfterDraw(work, draws[0]);
      var more := Tuple(Swap(work, 0, draws[0])[1..], draws[1..]);
      TupleDistinct(Swap(work, 0, draws[0])[1..], draws[1..]);
      DistinctCons(work[draws[0]], more);
    }
  }

  /** Different draw vectors pick different tuples. */
  lemma {:induction false} TupleInjective<T>(work: seq<T>, draws: seq<nat>, draws': seq<nat>)
    requires Distinct(work) && TupleDraws(draws, |work|) && TupleDraws(draws', |work|)
    requires Tuple(work, draws) == Tuple(work, draws')
    ensures draws == draws'
    decreases |draws|
  {
    if draws != [] {
      assert Tuple(work, draws)[0] == work[draws[0]] && Tuple(work, draws')[0] == work[draws'[0]];
      var rest := Swap(work, 0, draws[0])[1..];
      RestAfterDraw(work, draws[0]);
      assert Tuple(work, draws)[1..] == Tuple(rest, draws[1..]);
      assert Tuple(work, draws')[1..] == Tuple(rest, draws'[1..]);
      TupleInjective(rest, draws[1..], draws'[1..]);
      assert draws == [draws[0]] + draws[1..] && draws' == [draws'[0]] + draws'[1..];
    }
  }

  /** Every ordered tuple of distinct elements is picked by a draw vector. */
  lemma {:induction false} TupleSurjective<T>(work: seq<T>, target: seq<T>) returns (draws: seq<nat>)
    requires Distinct(work) && Distinct(target) && forall x :: x in target ==> x in work
    ensures |draws| == |target| && TupleDraws(draws, |work|) && Tuple(work, draws) == target
    decreases |target|
  {
    if target == [] {
      draws := [];
    } else {
      assert target[0] in target;
      var d :| 0 <= d < |work| && work[d] == target[0];
      var rest := Swap(work, 0, d)[1..];
      RestAfterDraw(work, d);
      forall x | x in target[1..] ensures x in rest {
        var k :| 0 <= k < |target[1..]| && target[1..][k] == x;
        assert target[k + 1] == x;
      }
      var more := TupleSurjective(rest, target[1..]);
      draws := [d] + more;
      assert draws[1..] == more;
      assert target == [target[0]] + target[1..];
    }
  }

  // ---- the sampler ----

  predicate Excluded(e: PoolEntry, exclude: set<UtxoRef>) { e.ref in exclude }

  /** The entries the sampler may draw; references are compared as they are, case included. */
  function Eligible(pool: seq<PoolEntry>, exclude: set<UtxoRef>): seq<PoolEntry> {
    if pool == [] then []
    else
      var last := pool[|pool| - 1];
      Eligible(pool[..|pool| - 1], exclude) + if Excluded(last, exclude) then [] else [last]
  }

  function Min(a: nat, b: nat): nat { if a < b then a else b }

  function Draws(rng: RandomInt, start: nat, size: nat, n: nat): seq<nat>
    requires n <= size
  {
    seq(n, i requires 0 <= i < n => rng(start + i, size - i))
  }

  lemma DrawsInRange(rng: RandomInt, start: nat, size: nat, n: nat)
    requires InRange(rng) && n <= size
    ensures TupleDraws(Draws(rng, start, size, n), size)
  {
  }

  /** What the sampler answers, from its `start`-th question on. */
  ghost function Picked(pool: seq<PoolEntry>, n: nat, exclude: set<UtxoRef>, rng: RandomInt, start: nat): (r: seq<PoolEntry>)
    requires InRange(rng)
    ensures |r| == Min(n, |Eligible(pool, exclude)|)
  {
    var eligible := Eligible(pool, exclude);
    DrawsInRange(rng, start, |eligible|, Min(n, |eligible|));
    Tuple(eligible, Draws(rng, start, |eligible|, Min(n, |eligible|)))
  }

  /** pickRandomNTuple (select.ts:32-61). `next` is the number of answers used so far. */
  method PickRandomNTuple(pool: seq<PoolEntry>, n: int, exclude: set<UtxoRef>, rng: RandomInt, start: nat)
    returns (r: Option<seq<PoolEntry>>, next: nat)
    requires InRange(rng)
    ensures r.None? <==> n < 0
    ensures n >= 0 ==>
              var eligible := Eligible(pool, exclude);
              var k := Min(n, |eligible|);
              var draws := Draws(rng, start, |eligible|, k);
              next == start + k && TupleDraws(draws, |eligible|) && r == Some(Tuple(eligible, draws))
    ensures n >= 0 ==> r == Some(Picked(pool, n, exclude, rng, start))
  {
    if n < 0 {
      return None, start;
    }
    var eligible: seq<PoolEntry> := [];
    for i := 0 to |pool|
      invariant eligible == Eligible(pool[..i], exclude)
    {
      assert pool[..i + 1][..i] == pool[..i];
      if !Excluded(pool[i], exclude) {
        eligible := eligible + [pool[i]];
      }
    }
    assert pool[..|pool|] == pool;
    var k := Min(n, |eligible|);
    ghost var draws := Draws(rng, start, |eligible|, k);
    DrawsInRange(rng, start, |eligible|, k);
    if |eligible| == 0 || n == 0 {
      return Some([]), start;
    }
    var work := new PoolEntry[|eligible|](i requires 0 <= i < |eligible| => eligible[i]);
    assert work[..] == eligible;
    DrawInto(work, k, rng, start);
    r, next := Some(work[..k]), start + k;
  }

  method SwapAt<T>(a: array<T>, i: nat, j: nat)
    requires i < a.Length && j < a.Length
    modifies a
    ensures a[..] == Swap(old(a[..]), i, j)
  {
    if j != i {
      var tmp := a[i];
      a[i] := a[j];
      a[j] := tmp;
    }
  }

  lemma SwapBehind<T>(cur: seq<T>, i: nat, d: nat)
    requires i + d < |cur|
    ensures Swap(cur, i, i + d)[i + 1..] == Swap(cur[i..], 0, d)[1..]
  {
  }

  lemma SwapBefore<T>(cur: seq<T>, i: nat, d: nat)
    requires i + d < |cur|
    ensures Swap(cur, i, i + d)[..i + 1] == cur[..i] + [cur[i..][d]]
  {
  }

  lemma TailDraws(draws: seq<nat>, size: nat)
    requires draws != [] && TupleDraws(draws, size)
    ensures draws[0] < size && TupleDraws(draws[1..], size - 1)
  {
    forall i | 0 <= i < |draws| - 1 ensures draws[1..][i] < size - 1 - i {
      assert draws[i + 1] < size - (i + 1);
    }
  }

  lemma TupleHead<T>(work: seq<T>, draws: seq<nat>)
    requires draws != [] && TupleDraws(draws, |work|)
    ensures draws[0] < |work| && TupleDraws(draws[1..], |work| - 1)
    ensures Tuple(work, draws) == [work[draws[0]]] + Tuple(Swap(work, 0, draws[0])[1..], draws[1..])
  {
    TailDraws(draws, |work|);
  }

  lemma DrawStep<T>(cur: seq<T>, i: nat, draws: seq<nat>, next: seq<T>)
    requires i < |cur| && draws != [] && TupleDraws(draws, |cur| - i)
    requires i + draws[0] < |cur| && next == Swap(cur, i, i + draws[0])
    requires TupleDraws(draws[1..], |cur| - i - 1)
    ensures next[..i + 1] + Tuple(next[i + 1..], draws[1..]) == cur[..i] + Tuple(cur[i..], draws)
  {
    hide Swap, Tuple, TupleDraws;
    TupleHead(cur[i..], draws);
    SwapBehind(cur, i, draws[0]);
    SwapBefore(cur, i, draws[0]);
    var x, rest := cur[i..][draws[0]], Tuple(next[i + 1..], draws[1..]);
    assert cur[..i] + ([x] + rest) == cur[..i] + [x] + rest;
  }

  /** Swap the front positions with random later ones, in place (select.ts:51-59). */
  method DrawInto<T>(work: array<T>, n: nat, rng: RandomInt, start: nat)
    requires InRange(rng) && n <= work.Length && TupleDraws(Draws(rng, start, work.Length, n), work.Length)
    modifies work
    ensures work[..n] == Tuple(old(work[..]), Draws(rng, start, work.Length, n))
  {
    hide Tuple, Swap, TupleDraws;
    ghost var draws := Draws(rng, start, work.Length, n);
    ghost var all := work[..];
    assert all[0..] == all && draws[0..] == draws && all[..0] == [];
    for i := 0 to n
      invariant TupleDraws(draws[i..], work.Length - i)
      invariant work[..][..i] + Tuple(work[..][i..], draws[i..]) == Tuple(all, draws)
    {
      ghost var before := work[..];
      var d := rng(start + i, work.Length - i);
      assert draws[i..][0] == d && draws[i..][1..] == draws[i + 1..];
      TailDraws(draws[i..], work.Length - i);
      SwapAt(work, i, i + d);
      DrawStep(before, i, draws[i..], work[..]);
    }
    assert draws[n..] == [] && work[..][..n] == work[..n];
  }

  // ---- full permutations ----

  /** Draw i of a permutation of `size` elements is below size - i; one element needs no draw. */
  ghost predicate ShuffleDraws(draws: seq<nat>, size: nat) {
    |draws| == (if size == 0 then 0 else size - 1) && forall i :: 0 <= i < |draws| ==> draws[i] < size - i
  }

  /** Fisher-Yates from the back: each draw fills the last open position. */
  function Shuffle<T>(work: seq<T>, draws: seq<nat>): (r: seq<T>)
    requires ShuffleDraws(draws, |work|)
    ensures |r| == |work|
    decreases |work|
  {
    if |work| <= 1 then work
    else
      var last := |work| - 1;
      Shuffle(Swap(work, last, draws[0])[..last], draws[1..]) + [work[draws[0]]]
  }

  lemma FrontAfterDraw<T>(work: seq<T>, d: nat)
    requires Distinct(work) && d < |work|
    ensures var front := Swap(work, |work| - 1, d)[..|work| - 1];
            Distinct(front) && (forall x :: x in front <==> x in work && x != work[d])
  {
    var last := |work| - 1;
    var front := Swap(work, last, d)[..last];
    forall i | 0 <= i < |front| ensures front[i] == work[if i == d then last else i] {
    }
    forall x | x in work && x != work[d] ensures x in front {
      var k :| 0 <= k < |work| && work[k] == x;
      assert front[if k == last then d else k] == x;
    }
  }

  lemma {:induction false} ShuffleInjective<T>(work: seq<T>, draws: seq<nat>, draws': seq<nat>)
    requires Distinct(work) && ShuffleDraws(draws, |work|) && ShuffleDraws(draws', |work|)
    requires Shuffle(work, draws) == Shuffle(work, draws')
    ensures draws == draws'
    decreases |work|
  {
    if |work| > 1 {
      var last := |work| - 1;
      assert Shuffle(work, draws)[last] == work[draws[0]] && Shuffle(work, draws')[last] == work[draws'[0]];
      var front := Swap(work, last, draws[0])[..last];
      FrontAfterDraw(work, draws[0]);
      assert Shuffle(work, draws)[..last] == Shuffle(front, draws[1..]);
      assert Shuffle(work, draws')[..last] == Shuffle(front, draws'[1..]);
      ShuffleInjective(front, draws[1..], draws'[1..]);
      assert draws == [draws[0]] + draws[1..] && draws' == [draws'[0]] + draws'[1..];
    }
  }

  /** Every ordering of the elements is the outcome of a draw vector. */
  lemma {:induction false} ShuffleSurjective<T>(work: seq<T>, target: seq<T>) returns (draws: seq<nat>)
    requires Distinct(work) && Distinct(target) && |target| == |work| && forall x :: x in target ==> x in work
    ensures ShuffleDraws(draws, |work|) && Shuffle(work, draws) == target
    decreases |work|
  {
    if |work| <= 1 {
      draws := [];
      if |work| == 1 {
        assert target[0] in target;
      }
    } else {
      var last := |work| - 1;
      assert target[last] in target;
      var d :| 0 <= d < |work| && work[d] == target[last];
      var front := Swap(work, last, d)[..last];
      FrontAfterDraw(work, d);
      FrontOfTarget(target, front);
      var more := ShuffleSurjective(front, target[..last]);
      draws := [d] + more;
      ShuffleBegins(work, d, more);
      hide *;
      assert target == target[..last] + [target[last]];
    }
  }

  lemma FrontOfTarget<T>(target: seq<T>, front: seq<T>)
    requires target != [] && Distinct(target)
    requires forall x :: x in target && x != target[|target| - 1] ==> x in front
    ensures Distinct(target[..|target| - 1]) && forall x :: x in target[..|target| - 1] ==> x in front
  {
    var last := |target| - 1;
    forall x | x in target[..last] ensures x in front {
      var k :| 0 <= k < last && target[..last][k] == x;
      assert target[k] == x;
    }
  }

  lemma ShuffleBegins<T>(work: seq<T>, d: nat, more: seq<nat>)
    requires |work| > 1 && d < |work| && ShuffleDraws(more, |work| - 1)
    ensures ShuffleDraws([d] + more, |work|)
    ensures var last := |work| - 1;
            Shuffle(work, [d] + more) == Shuffle(Swap(work, last, d)[..last], more) + [work[d]]
  {
    assert ([d] + more)[1..] == more;
  }

  lemma {:induction false} ShuffleDistinct<T>(work: seq<T>, draws: seq<nat>)
    requires Distinct(work) && ShuffleDraws(draws, |work|)
    ensures Distinct(Shuffle(work, draws)) && forall x :: x in Shuffle(work, draws) ==> x in work
    decreases |work|
  {
    if |work| > 1 {
      FrontAfterDraw(work, draws[0]);
      var front := Swap(work, |work| - 1, draws[0])[..|work| - 1];
      ShuffleDistinct(front, draws[1..]);
      DistinctCons(work[draws[0]], Shuffle(front, draws[1..]));
    }
  }

  function Identity(n: nat): (s: seq<nat>)
    ensures |s| == n && forall i :: 0 <= i < n ==> s[i] == i
  {
    seq(n, i => i)
  }

  function PermutationDraws(rng: RandomInt, n: nat): seq<nat> {
    seq(if n == 0 then 0 else n - 1, i requires 0 <= i < n - 1 => rng(i, n - i))
  }

  /** randomPermutation (select.ts:68-85): a permutation, and by ShuffleInjective and
      ShuffleSurjective each permutation comes from exactly one draw vector. */
  method RandomPermutation(n: int, rng: RandomInt) returns (r: Option<seq<nat>>)
    requires InRange(rng)
    ensures r.None? <==> n < 0
    ensures n >= 0 ==>
              && ShuffleDraws(PermutationDraws(rng, n), n) && r == Some(Shuffle(Identity(n), PermutationDraws(rng, n)))
              && IsPermutation(r.value)
  {
    if n < 0 {
      return None;
    }
    ghost var draws := PermutationDraws(rng, n);
    var out := new nat[n](i => i);
    assert out[..] == Identity(n);
    ShuffleInto(out, rng);
    r := Some(out[..]);
    ShuffleDistinct(Identity(n), draws);
    forall k | 0 <= k < n ensures r.value[k] < n {
      assert r.value[k] in Identity(n);
    }
  }

  lemma PermutationDrawsInRange(rng: RandomInt, n: nat)
    requires InRange(rng)
    ensures ShuffleDraws(PermutationDraws(rng, n), n) && PermutationDraws(rng, n)[0..] == PermutationDraws(rng, n)
    ensures |PermutationDraws(rng, n)| == if n == 0 then 0 else n - 1
  {
  }

  lemma ShuffleShort<T>(work: seq<T>, draws: seq<nat>)
    requires |work| <= 1 && ShuffleDraws(draws, |work|)
    ensures Shuffle(work, draws) == work
  {
  }

  lemma ShuffleTail(draws: seq<nat>, size: nat)
    requires size >= 2 && ShuffleDraws(draws, size)
    ensures draws[0] < size && ShuffleDraws(draws[1..], size - 1)
  {
    forall i | 0 <= i < |draws| - 1 ensures draws[1..][i] < size - 1 - i {
      assert draws[i + 1] < size - (i + 1);
    }
  }

  lemma ShuffleStep<T>(cur: seq<T>, i: nat, draws: seq<nat>, next: seq<T>)
    requires 0 < i < |cur| && ShuffleDraws(draws, i + 1)
    requires draws != [] && draws[0] < |cur| && next == Swap(cur, i, draws[0]) && ShuffleDraws(draws[1..], i)
    ensures Shuffle(next[..i], draws[1..]) + next[i..] == Shuffle(cur[..i + 1], draws) + cur[i + 1..]
  {
    var j := draws[0];
    assert next[..i] == Swap(cur[..i + 1], i, j)[..i];
    assert next[i..] == [cur[..i + 1][j]] + cur[i + 1..];
  }

  /** Fisher-Yates over the whole array, in place (select.ts:76-83). */
  method ShuffleInto<T>(out: array<T>, rng: RandomInt)
    requires InRange(rng)
    modifies out
    ensures ShuffleDraws(PermutationDraws(rng, out.Length), out.Length)
    ensures out[..] == Shuffle(old(out[..]), PermutationDraws(rng, out.Length))
  {
    hide Swap, ShuffleDraws, Shuffle, PermutationDraws;
    ghost var all := out[..];
    ghost var rest := PermutationDraws(rng, out.Length);
    PermutationDrawsInRange(rng, out.Length);
    if out.Length == 0 {
      ShuffleShort(all, rest);
      return;
    }
    var i := out.Length - 1;
    assert all[..out.Length] == all && all[out.Length..] == [];
    while i > 0
      invariant 0 <= i < out.Length
      invariant rest == PermutationDraws(rng, out.Length)[out.Length - 1 - i..]
      invariant ShuffleDraws(rest, i + 1)
      invariant Shuffle(out[..][..i + 1], rest) + out[..][i + 1..] == Shuffle(all, PermutationDraws(rng, out.Length))
    {
      ghost var before := out[..];
      var j := rng(out.Length - 1 - i, i + 1);
      NextDraw(rng, out.Length, out.Length - 1 - i);
      ShuffleTail(rest, i + 1);
      SwapAt(out, i, j);
      ShuffleStep(before, i, rest, out[..]);
      rest := rest[1..];
      i := i - 1;
    }
    ShuffleShort(out[..][..1], rest);
    assert out[..][..1] + out[..][1..] == out[..];
  }

  lemma NextDraw(rng: RandomInt, n: nat, k: nat)
    requires k + 1 < n
    ensures var draws := PermutationDraws(rng, n);
            k < |draws| && draws[k..][0] == rng(k, n - k) && draws[k..][1..] == draws[k + 1..]
  {
  }

  /** inversePermutation (select.ts:92-105): it throws on everything that is not a permutation. */
  method InversePermutation(p: seq<int>) returns (r: Option<seq<nat>>)
    ensures r.Some? <==> (forall i :: 0 <= i < |p| ==> 0 <= p[i] < |p|) && Distinct(p)
    ensures r.Some? ==> |r.value| == |p| && IsPermutation(r.value)
    ensures r.Some? ==> forall i :: 0 <= i < |p| ==> r.value[p[i]] == i && p[r.value[i]] == i
  {
    var out := new Option<nat>[|p|](_ => None);
    for i := 0 to |p|
      invariant forall k :: 0 <= k < i ==> 0 <= p[k] < |p| && out[p[k]] == Some(k)
      invariant forall j :: 0 <= j < |p| && out[j].Some? ==> out[j].value < i && p[out[j].value] == j
      invariant forall k, l :: 0 <= k < l < i ==> p[k] != p[l]
    {
      var j := p[i];
      if j < 0 || j >= |p| {
        return None;
      }
      if out[j] != None {
        assert p[out[j].value] == p[i];
        return None;
      }
      out[j] := Some(i);
    }
    InverseIsTotal(p, out[..]);
    var inv: seq<nat> := seq(|p|, i requires 0 <= i < |p| && out[..][i].Some? reads out => out[..][i].value);
    r := Some(inv);
    forall i | 0 <= i < |p| ensures inv[i] < |p| && p[inv[i]] == i && inv[p[i]] == i {
    }
  }

  lemma InverseIsTotal(p: seq<int>, out: seq<Option<nat>>)
    requires |out| == |p| && (forall k :: 0 <= k < |p| ==> 0 <= p[k] < |p| && out[p[k]] == Some(k)) && Distinct(p)
    ensures forall j :: 0 <= j < |p| ==> out[j].Some?
  {
    var q: seq<nat> := seq(|p|, i requires 0 <= i < |p| => p[i]);
    forall j | 0 <= j < |p| ensures out[j].Some? {
      var i := Preimage(q, j);
      assert p[i] == j;
    }
  }
}
