/** The n-ary tree of mix transactions and its planner (offchain/src/strategy/fanout.ts). */
module Fanout {
  import opened Arith
  import opened Options
  import opened Permutations
  import opened Refs
  import opened Select

  const FANOUT_MAX_N: nat := 4

  const FANOUT_MAX_DEPTH: nat := 4

  /** `w<wave>s<slot>`; Refs.SlotKeyRoundTrip shows the text carries exactly these two numbers. */
  datatype SlotId = SlotId(wave: nat, slot: nat)

  datatype Input =
    | Root(entry: PoolEntry)
    | Pool(entry: PoolEntry)
    | Parent(parent: SlotId, position: nat)

  datatype Slot = Slot(id: SlotId, inputs: seq<Input>)

  datatype Plan = Plan(
    n: nat,
    depth: nat,
    rootBox: PoolEntry,
    waves: seq<seq<Slot>>,
    poolRefsUsed: seq<UtxoRef>,
    totalMixes: nat,
    boxesTouched: nat)

  datatype FanoutError = BadDepth | BadWidth | PoolTooSmall | SamplerShort

  /** powN (fanout.ts:401-405). */
  method PowN(n: nat, k: nat) returns (r: nat)
    ensures r == Pow(n, k)
  {
    r := 1;
    for i := 0 to k
      invariant r == Pow(n, i)
    {
      r := r * n;
    }
  }

  // ---- the plan as a function of the boxes drawn ----

  /** Slot s of wave k: the root or one parent output, then n - 1 boxes of this wave's draw. */
  function SlotAt(n: nat, k: nat, s: nat, root: PoolEntry, drawn: seq<PoolEntry>): Slot
    requires n >= 1 && s * (n - 1) + (n - 1) <= |drawn|
  {
    Slot(SlotId(k, s), [FirstInput(n, k, s, root)] + FreshInputs(Block(drawn, n - 1, s)))
  }

  function FirstInput(n: nat, k: nat, s: nat, root: PoolEntry): (r: Input)
    requires n >= 1
    ensures !r.Pool?
  {
    if k == 0 then Root(root) else Parent(SlotId(k - 1, s / n), s % n)
  }

  /** The s-th run of m boxes. */
  function Block(drawn: seq<PoolEntry>, m: nat, s: nat): (r: seq<PoolEntry>)
    requires s * m + m <= |drawn|
    ensures |r| == m
  {
    drawn[s * m..s * m + m]
  }

  function FreshInputs(drawn: seq<PoolEntry>): (r: seq<Input>)
    ensures |r| == |drawn|
  {
    seq(|drawn|, i requires 0 <= i < |drawn| => Pool(drawn[i]))
  }

  function WaveOf(n: nat, k: nat, root: PoolEntry, drawn: seq<PoolEntry>): (w: seq<Slot>)
    requires n >= 1 && |drawn| == Pow(n, k) * (n - 1)
    ensures |w| == Pow(n, k)
  {
    seq(Pow(n, k), s requires 0 <= s < Pow(n, k) =>
      BlockFits(n - 1, Pow(n, k), s);
      SlotAt(n, k, s, root, drawn))
  }

  /** Blocks of m items: the block of slot s ends within all of them. */
  lemma BlockFits(m: nat, slots: nat, s: nat)
    requires s < slots
    ensures s * m + m <= slots * m
  {
    var rest := slots - s - 1;
    assert slots * m == (s + 1 + rest) * m;
    Distribute(s + 1, rest, m);
    Distribute(s, 1, m);
  }

  lemma Distribute(t: int, p: int, m: int)
    ensures (t + p) * m == t * m + p * m
  {
  }

  lemma PowGrows(n: nat, k: nat)
    requires n >= 1
    ensures Pow(n, k) >= 1
    ensures Pow(n, k + 1) == Pow(n, k) + Pow(n, k) * (n - 1)
  {
    if k > 0 {
      PowGrows(n, k - 1);
    }
  }

  lemma {:induction false} PowMonotone(n: nat, j: nat, k: nat)
    requires n >= 1 && j <= k
    ensures 1 <= Pow(n, j) <= Pow(n, k)
  {
    PowGrows(n, j);
    if j < k {
      PowMonotone(n, j, k - 1);
      PowGrows(n, k - 1);
    }
  }

  /** The share of `used` drawn for wave k: positions n^k - 1 up to n^(k+1) - 1. */
  function DrawnFor(n: nat, k: nat, used: seq<PoolEntry>): (drawn: seq<PoolEntry>)
    requires n >= 1 && Pow(n, k + 1) - 1 <= |used|
    ensures |drawn| == Pow(n, k) * (n - 1)
  {
    PowGrows(n, k);
    used[Pow(n, k) - 1..Pow(n, k + 1) - 1]
  }

  function RefsOf(es: seq<PoolEntry>): (r: seq<UtxoRef>)
    ensures |r| == |es|
  {
    seq(|es|, i requires 0 <= i < |es| => es[i].ref)
  }

  function Waves(n: nat, depth: nat, root: PoolEntry, used: seq<PoolEntry>): (w: seq<seq<Slot>>)
    requires n >= 1 && Pow(n, depth) - 1 <= |used|
    ensures |w| == depth
  {
    seq(depth, k requires 0 <= k < depth =>
      PowMonotone(n, k + 1, depth);
      WaveOf(n, k, root, DrawnFor(n, k, used)))
  }

  function PlanOf(n: nat, depth: nat, root: PoolEntry, used: seq<PoolEntry>): Plan
    requires n >= 2 && |used| == Pow(n, depth) - 1
  {
    Plan(n, depth, root, Waves(n, depth, root, used), RefsOf(used), (Pow(n, depth) - 1) / (n - 1), Pow(n, depth))
  }

  /** What one slot of the plan holds. */
  lemma SlotShape(n: nat, depth: nat, root: PoolEntry, used: seq<PoolEntry>, k: nat, s: nat)
    requires n >= 2 && |used| == Pow(n, depth) - 1 && k < depth && s < Pow(n, k)
    ensures Pow(n, k + 1) - 1 <= |used| && |Waves(n, depth, root, used)[k]| == Pow(n, k)
    ensures s * (n - 1) + (n - 1) <= Pow(n, k) * (n - 1)
    ensures Waves(n, depth, root, used)[k][s] == SlotAt(n, k, s, root, DrawnFor(n, k, used))
  {
    hide Pow, SlotAt, DrawnFor;
    PowMonotone(n, k + 1, depth);
    BlockFits(n - 1, Pow(n, k), s);
  }

  /** The first input is the root or the parent output; the other n - 1 are this wave's boxes. */
  lemma SlotInputs(n: nat, k: nat, s: nat, root: PoolEntry, drawn: seq<PoolEntry>)
    requires n >= 1 && s * (n - 1) + (n - 1) <= |drawn|
    ensures var inputs := SlotAt(n, k, s, root, drawn).inputs;
            && |inputs| == n
            && inputs[0] == FirstInput(n, k, s, root)
            && forall i :: 1 <= i < n ==> inputs[i].Pool?
  {
    hide Block, FirstInput;
  }

  lemma BlockAt(drawn: seq<PoolEntry>, m: nat, s: nat, f: nat)
    requires s * m + m <= |drawn| && f < m
    ensures s * m >= 0 && Block(drawn, m, s)[f] == drawn[s * m + f]
  {
  }

  lemma SlotDraws(n: nat, k: nat, s: nat, root: PoolEntry, drawn: seq<PoolEntry>, f: nat)
    requires n >= 1 && s * (n - 1) + (n - 1) <= |drawn| && f < n - 1
    ensures |SlotAt(n, k, s, root, drawn).inputs| == n
    ensures SlotAt(n, k, s, root, drawn).inputs[1 + f] == Pool(Block(drawn, n - 1, s)[f])
  {
    hide Block, FirstInput;
  }

  /** Drawing a wave's boxes appends that wave and leaves the earlier ones as they were. */
  lemma WavesGrow(n: nat, k: nat, root: PoolEntry, used: seq<PoolEntry>, drawn: seq<PoolEntry>)
    requires n >= 2 && |used| == Pow(n, k) - 1 && |drawn| == Pow(n, k) * (n - 1)
    ensures |used + drawn| == Pow(n, k + 1) - 1
    ensures Waves(n, k + 1, root, used + drawn) == Waves(n, k, root, used) + [WaveOf(n, k, root, drawn)]
  {
    hide Pow, WaveOf;
    PowGrows(n, k);
    var more := used + drawn;
    forall j | 0 <= j < k ensures Waves(n, k + 1, root, more)[j] == Waves(n, k, root, used)[j] {
      PowMonotone(n, j + 1, k);
      PowGrows(n, j);
      assert DrawnFor(n, j, more) == DrawnFor(n, j, used);
    }
    assert DrawnFor(n, k, more) == drawn;
  }

  /** Fresh, distinct pool boxes, none of them excluded. */
  ghost predicate Sampled(pool: seq<PoolEntry>, excluded: set<UtxoRef>, used: seq<PoolEntry>) {
    && Distinct(RefsOf(used))
    && (forall e :: e in used ==> e in pool && LowerRef(e.ref) !in excluded)
  }

  /** Distinct references, transaction ids in lower case. */
  ghost predicate CleanPool(pool: seq<PoolEntry>) {
    Distinct(RefsOf(pool)) && forall e :: e in pool ==> LowerRef(e.ref) == e.ref
  }

  function PoolRefs(pool: seq<PoolEntry>): set<UtxoRef> { set e | e in pool :: e.ref }

  function LowerRefs(refs: seq<UtxoRef>): set<UtxoRef> { set r | r in refs :: LowerRef(r) }

  // ---- counting eligible boxes ----

  lemma {:induction false} EligibleMembers(pool: seq<PoolEntry>, exclude: set<UtxoRef>)
    ensures forall e :: e in Eligible(pool, exclude) <==> e in pool && e.ref !in exclude
  {
    if pool != [] {
      EligibleMembers(pool[..|pool| - 1], exclude);
      assert pool == pool[..|pool| - 1] + [pool[|pool| - 1]];
    }
  }

  lemma {:induction false} EligibleRefs(pool: seq<PoolEntry>, exclude: set<UtxoRef>)
    requires Distinct(RefsOf(pool))
    ensures Distinct(RefsOf(Eligible(pool, exclude)))
  {
    if pool != [] {
      var front, last := pool[..|pool| - 1], pool[|pool| - 1];
      LastIsNew(pool);
      EligibleRefs(front, exclude);
      EligibleMembers(front, exclude);
      forall x | x in front ensures x.ref != last.ref {
        assert x.ref in PoolRefs(front);
      }
      var before := Eligible(front, exclude);
      AppendedRefs(before, last);
      assert before + [] == before;
    }
  }

  lemma AppendedRefs(es: seq<PoolEntry>, e: PoolEntry)
    requires Distinct(RefsOf(es)) && forall x :: x in es ==> x.ref != e.ref
    ensures Distinct(RefsOf(es + [e]))
  {
    RefOfMember(es, e.ref);
    DistinctCons(e.ref, RefsOf(es));
    assert RefsOf(es + [e]) == RefsOf(es) + [e.ref];
  }

  lemma {:induction false} EligibleCount(pool: seq<PoolEntry>, exclude: set<UtxoRef>)
    requires Distinct(RefsOf(pool))
    ensures |Eligible(pool, exclude)| == |PoolRefs(pool) - exclude|
  {
    if pool == [] {
      assert PoolRefs(pool) - exclude == {};
    } else {
      var front, last := pool[..|pool| - 1], pool[|pool| - 1];
      LastIsNew(pool);
      EligibleCount(front, exclude);
      hide RefsOf, Distinct;
      assert pool == front + [last];
      var rest := PoolRefs(front) - exclude;
      if last.ref in exclude {
        assert PoolRefs(pool) - exclude == rest;
      } else {
        assert PoolRefs(pool) - exclude == rest + {last.ref};
      }
    }
  }

  lemma EligibleDistinct(pool: seq<PoolEntry>, exclude: set<UtxoRef>)
    requires Distinct(RefsOf(pool))
    ensures Distinct(Eligible(pool, exclude)) && Distinct(RefsOf(Eligible(pool, exclude)))
    ensures |Eligible(pool, exclude)| == |PoolRefs(pool) - exclude|
  {
    EligibleRefs(pool, exclude);
    EligibleCount(pool, exclude);
    DistinctByRef(Eligible(pool, exclude));
  }

  lemma RefOfMember(es: seq<PoolEntry>, r: UtxoRef)
    ensures r in RefsOf(es) <==> exists e :: e in es && e.ref == r
  {
    if r in RefsOf(es) {
      var i :| 0 <= i < |es| && RefsOf(es)[i] == r;
      assert es[i] in es;
    }
    if e :| e in es && e.ref == r {
      var i :| 0 <= i < |es| && es[i] == e;
      assert RefsOf(es)[i] == r;
    }
  }

  lemma LastIsNew(pool: seq<PoolEntry>)
    requires pool != [] && Distinct(RefsOf(pool))
    ensures Distinct(RefsOf(pool[..|pool| - 1])) && pool[|pool| - 1].ref !in PoolRefs(pool[..|pool| - 1])
  {
    var last := |pool| - 1;
    assert RefsOf(pool)[..last] == RefsOf(pool[..last]);
    forall e | e in pool[..last] ensures e.ref != pool[last].ref {
      var i :| 0 <= i < last && pool[i] == e;
      assert RefsOf(pool)[i] == e.ref && RefsOf(pool)[last] == pool[last].ref;
    }
  }

  lemma DistinctByRef(es: seq<PoolEntry>)
    requires Distinct(RefsOf(es))
    ensures Distinct(es)
  {
    forall i, j | 0 <= i < j < |es| ensures es[i] != es[j] {
      assert RefsOf(es)[i] == es[i].ref && RefsOf(es)[j] == es[j].ref;
    }
  }

  /** Boxes already used leave the pool of eligible ones one by one. */
  lemma EligibleAfterUse(pool: seq<PoolEntry>, excluded: set<UtxoRef>, used: seq<PoolEntry>)
    requires CleanPool(pool) && Sampled(pool, excluded, used)
    ensures |Eligible(pool, excluded + PoolRefs(used))| == |Eligible(pool, excluded)| - |used|
  {
    EligibleDistinct(pool, excluded);
    EligibleDistinct(pool, excluded + PoolRefs(used));
    UsedCount(used);
    var all := PoolRefs(pool) - excluded;
    assert PoolRefs(used) <= all by {
      forall r | r in PoolRefs(used) ensures r in all {
        var e :| e in used && e.ref == r;
        assert e in pool && LowerRef(e.ref) == e.ref;
      }
    }
    assert PoolRefs(pool) - (excluded + PoolRefs(used)) == all - PoolRefs(used);
  }

  lemma {:induction false} UsedCount(used: seq<PoolEntry>)
    requires Distinct(RefsOf(used))
    ensures |PoolRefs(used)| == |used|
  {
    if used != [] {
      LastIsNew(used);
      UsedCount(used[..|used| - 1]);
      assert used == used[..|used| - 1] + [used[|used| - 1]];
      assert PoolRefs(used) == PoolRefs(used[..|used| - 1]) + {used[|used| - 1].ref};
    }
  }

  /** Drawing more boxes that avoid the used ones keeps the sample fresh and distinct. */
  lemma SampleGrows(pool: seq<PoolEntry>, excluded: set<UtxoRef>, used: seq<PoolEntry>, draws: seq<nat>)
    requires CleanPool(pool) && Sampled(pool, excluded, used)
    requires TupleDraws(draws, |Eligible(pool, excluded + PoolRefs(used))|)
    ensures Sampled(pool, excluded, used + Tuple(Eligible(pool, excluded + PoolRefs(used)), draws))
  {
    var eligible := Eligible(pool, excluded + PoolRefs(used));
    var drawn := Tuple(eligible, draws);
    EligibleDistinct(pool, excluded + PoolRefs(used));
    EligibleMembers(pool, excluded + PoolRefs(used));
    TupleDistinct(eligible, draws);
    forall e | e in used + drawn ensures e in pool && LowerRef(e.ref) !in excluded {
      if e in drawn {
        assert e in eligible;
      }
    }
    forall i, j | 0 <= i < j < |used + drawn| ensures RefsOf(used + drawn)[i] != RefsOf(used + drawn)[j] {
      var x, y := (used + drawn)[i], (used + drawn)[j];
      if j < |used| {
        assert RefsOf(used)[i] == x.ref && RefsOf(used)[j] == y.ref;
      } else if i < |used| {
        assert x in used && y in drawn && y in eligible;
      } else {
        SameRefSameEntry(pool, drawn[i - |used|], drawn[j - |used|]);
      }
    }
  }

  lemma SameRefSameEntry(pool: seq<PoolEntry>, x: PoolEntry, y: PoolEntry)
    requires Distinct(RefsOf(pool)) && x in pool && y in pool
    ensures x.ref == y.ref ==> x == y
  {
    var i :| 0 <= i < |pool| && pool[i] == x;
    var j :| 0 <= j < |pool| && pool[j] == y;
    assert RefsOf(pool)[i] == x.ref && RefsOf(pool)[j] == y.ref;
  }

  /** Excluding more looks only at what is left. */
  lemma {:induction false} EligibleTwice(pool: seq<PoolEntry>, exclude: set<UtxoRef>, more: set<UtxoRef>)
    requires exclude <= more
    ensures Eligible(Eligible(pool, exclude), more) == Eligible(pool, more)
  {
    if pool != [] {
      var front, last := pool[..|pool| - 1], pool[|pool| - 1];
      EligibleTwice(front, exclude, more);
      var left := Eligible(front, exclude);
      assert (left + [last])[..|left|] == left && left + [] == left;
      assert Eligible(front, more) + [] == Eligible(front, more);
    }
  }

  // ---- the planner ----

  /** One slot's inputs (fanout.ts:280-305). */
  method PlanSlot(n: nat, k: nat, s: nat, root: PoolEntry, drawn: seq<PoolEntry>) returns (slot: Slot)
    requires n >= 2 && s * (n - 1) + (n - 1) <= |drawn|
    ensures slot == SlotAt(n, k, s, root, drawn)
  {
    var inputs: seq<Input> := [];
    if k == 0 {
      inputs := inputs + [Root(root)];
    } else {
      inputs := inputs + [Parent(SlotId(k - 1, s / n), s % n)];
    }
    var baseFresh := s * (n - 1);
    ghost var mine := Block(drawn, n - 1, s);
    for f := 0 to n - 1
      invariant inputs == [FirstInput(n, k, s, root)] + FreshInputs(mine)[..f]
    {
      assert mine[f] == drawn[baseFresh + f];
      inputs := inputs + [Pool(drawn[baseFresh + f])];
    }
    assert FreshInputs(mine)[..n - 1] == FreshInputs(mine);
    slot := Slot(SlotId(k, s), inputs);
  }

  /** One wave's slots (fanout.ts:278-306). */
  method PlanWave(n: nat, k: nat, slotCount: nat, root: PoolEntry, drawn: seq<PoolEntry>) returns (slots: seq<Slot>)
    requires n >= 2 && slotCount == Pow(n, k) && |drawn| == slotCount * (n - 1)
    ensures slots == WaveOf(n, k, root, drawn)
  {
    hide Pow, SlotAt;
    slots := [];
    for s := 0 to slotCount
      invariant |slots| == s
      invariant slots == WaveOf(n, k, root, drawn)[..s]
    {
      BlockFits(n - 1, slotCount, s);
      var slot := PlanSlot(n, k, s, root, drawn);
      slots := slots + [slot];
    }
  }

  /** The drawn boxes needed by the first k waves (fanout.ts:228-234). */
  method FreshNeeded(n: nat, depth: nat) returns (perWaveFresh: seq<nat>, totalFresh: nat)
    requires n >= 2
    ensures |perWaveFresh| == depth && forall k :: 0 <= k < depth ==> perWaveFresh[k] == Pow(n, k) * (n - 1)
    ensures totalFresh == Pow(n, depth) - 1
  {
    perWaveFresh, totalFresh := [], 0;
    for k := 0 to depth
      invariant |perWaveFresh| == k && forall j :: 0 <= j < k ==> perWaveFresh[j] == Pow(n, j) * (n - 1)
      invariant totalFresh == Pow(n, k) - 1
    {
      var p := PowN(n, k);
      PowGrows(n, k);
      perWaveFresh := perWaveFresh + [p * (n - 1)];
      totalFresh := totalFresh + p * (n - 1);
    }
  }

  /** The boxes the pre-flight counts: references are compared in lower case here. */
  function Counted(pool: seq<PoolEntry>, excluded: set<UtxoRef>): nat {
    if pool == [] then 0
    else Counted(pool[..|pool| - 1], excluded) + (if LowerRef(pool[|pool| - 1].ref) in excluded then 0 else 1)
  }

  /** The program's exclusions are written in lower case. */
  ghost predicate LowerCase(refs: set<UtxoRef>) { forall r :: r in refs ==> LowerRef(r) == r }

  /** The pre-flight counts no box that the sampler may not draw. */
  lemma {:induction false} CountedAtMost(pool: seq<PoolEntry>, excluded: set<UtxoRef>)
    requires LowerCase(excluded)
    ensures Counted(pool, excluded) <= |Eligible(pool, excluded)|
  {
    hide LowerRef;
    if pool != [] {
      CountedAtMost(pool[..|pool| - 1], excluded);
    }
  }

  lemma LowerRefTwice(r: UtxoRef)
    ensures LowerRef(LowerRef(r)) == LowerRef(r)
  {
    forall i | 0 <= i < |r.txId| ensures LowerChar(LowerChar(r.txId[i])) == LowerChar(r.txId[i]) {
    }
  }

  lemma ExclusionsAreLower(refs: seq<UtxoRef>, root: UtxoRef)
    ensures LowerCase(LowerRefs(refs) + {LowerRef(root)})
  {
    forall r | r in LowerRefs(refs) + {LowerRef(root)} ensures LowerRef(r) == r {
      var x :| (x in refs || x == root) && LowerRef(x) == r;
      LowerRefTwice(x);
    }
  }

  /** The pre-flight count (fanout.ts:237-240). */
  method CountEligible(pool: seq<PoolEntry>, excluded: set<UtxoRef>) returns (count: nat)
    ensures count == Counted(pool, excluded)
  {
    count := 0;
    for i := 0 to |pool|
      invariant count == Counted(pool[..i], excluded)
    {
      assert pool[..i + 1][..i] == pool[..i];
      if LowerRef(pool[i].ref) !in excluded {
        count := count + 1;
      }
    }
    assert pool[..|pool|] == pool;
  }

  lemma LowerOfClean(pool: seq<PoolEntry>, drawn: seq<PoolEntry>)
    requires CleanPool(pool) && forall e :: e in drawn ==> e in pool
    ensures LowerRefs(RefsOf(drawn)) == PoolRefs(drawn)
  {
    forall r ensures r in LowerRefs(RefsOf(drawn)) <==> r in PoolRefs(drawn) {
      if r in LowerRefs(RefsOf(drawn)) {
        var i :| 0 <= i < |drawn| && LowerRef(RefsOf(drawn)[i]) == r;
        assert drawn[i] in drawn;
      }
      if r in PoolRefs(drawn) {
        var i :| 0 <= i < |drawn| && drawn[i].ref == r;
        assert drawn[i] in drawn && RefsOf(drawn)[i] == r;
      }
    }
  }

  /** The boxes the first k waves draw: `used` in order, every reference to avoid from now on, and the
      number of questions asked. `None` once the sampler falls short. */
  datatype Drawing = Drawing(used: seq<PoolEntry>, usedRefs: set<UtxoRef>, calls: nat)

  ghost function DrawnBy(n: nat, k: nat, pool: seq<PoolEntry>, excluded: set<UtxoRef>, rng: RandomInt): (r: Option<Drawing>)
    requires InRange(rng) && n >= 2
    ensures r.Some? ==> |r.value.used| == Pow(n, k) - 1
  {
    if k == 0 then Some(Drawing([], excluded, 0))
    else
      var d := DrawnBy(n, k - 1, pool, excluded, rng);
      if d.None? then None
      else
        DrawnCount(n, k - 1, |d.value.used|);
        NextDrawing(pool, Pow(n, k - 1) * (n - 1), rng, d.value)
  }

  lemma DrawnCount(n: nat, k: nat, count: nat)
    requires n >= 2 && count == Pow(n, k) - 1
    ensures Pow(n, k) * (n - 1) >= 0 && count + Pow(n, k) * (n - 1) == Pow(n, k + 1) - 1
  {
    PowGrows(n, k);
  }

  ghost function NextDrawing(pool: seq<PoolEntry>, need: nat, rng: RandomInt, d: Drawing): (r: Option<Drawing>)
    requires InRange(rng)
    ensures r.Some? ==> |r.value.used| == |d.used| + need
  {
    var drawn := Picked(pool, need, d.usedRefs, rng, d.calls);
    if |drawn| != need then None
    else Some(Drawing(d.used + drawn, d.usedRefs + LowerRefs(RefsOf(drawn)), d.calls + need))
  }

  lemma DrawStep(n: nat, k: nat, pool: seq<PoolEntry>, excluded: set<UtxoRef>, rng: RandomInt, used: seq<PoolEntry>,
                 usedRefs: set<UtxoRef>, calls: nat, drawn: seq<PoolEntry>)
    requires InRange(rng) && n >= 2 && DrawnBy(n, k, pool, excluded, rng) == Some(Drawing(used, usedRefs, calls))
    requires drawn == Picked(pool, Pow(n, k) * (n - 1), usedRefs, rng, calls)
    ensures DrawnBy(n, k + 1, pool, excluded, rng) ==
            if |drawn| != Pow(n, k) * (n - 1) then None
            else Some(Drawing(used + drawn, usedRefs + LowerRefs(RefsOf(drawn)), calls + |drawn|))
  {
    hide Pow, Picked, LowerRefs, RefsOf;
  }

  lemma {:induction false} StaysShort(n: nat, k: nat, m: nat, pool: seq<PoolEntry>, excluded: set<UtxoRef>, rng: RandomInt)
    requires InRange(rng) && n >= 2 && k <= m && DrawnBy(n, k, pool, excluded, rng).None?
    ensures DrawnBy(n, m, pool, excluded, rng).None?
  {
    if k < m {
      StaysShort(n, k, m - 1, pool, excluded, rng);
    }
  }

  /** With clean eligible boxes: what was drawn so far is fresh, and `usedRefs` is everything to avoid. */
  ghost predicate OnTrack(pool: seq<PoolEntry>, excluded: set<UtxoRef>, used: seq<PoolEntry>, usedRefs: set<UtxoRef>) {
    && CleanPool(Eligible(pool, excluded))
    && Sampled(Eligible(pool, excluded), excluded, used) && usedRefs == excluded + PoolRefs(used)
  }

  /** A wave drawn from clean eligible boxes is fresh, and short only when too few are left. */
  lemma WaveIsFresh(pool: seq<PoolEntry>, need: nat, excluded: set<UtxoRef>, used: seq<PoolEntry>, usedRefs: set<UtxoRef>,
                    rng: RandomInt, calls: nat)
    requires InRange(rng) && OnTrack(pool, excluded, used, usedRefs)
    ensures var drawn := Picked(pool, need, usedRefs, rng, calls);
            && OnTrack(pool, excluded, used + drawn, usedRefs + LowerRefs(RefsOf(drawn)))
            && (need + |used| <= |Eligible(pool, excluded)| ==> |drawn| == need)
  {
    var eligible := Eligible(pool, excluded);
    var drawn := Picked(pool, need, usedRefs, rng, calls);
    EligibleTwice(pool, excluded, excluded);
    EligibleTwice(pool, excluded, usedRefs);
    hide Eligible, Tuple, LowerRefs, RefsOf, PoolRefs, CleanPool, Sampled;
    EligibleAfterUse(eligible, excluded, used);
    DrawsInRange(rng, calls, |Eligible(pool, usedRefs)|, |drawn|);
    SampleGrows(eligible, excluded, used, Draws(rng, calls, |Eligible(pool, usedRefs)|, |drawn|));
    SampledMembers(eligible, excluded, used + drawn);
    LowerOfClean(eligible, drawn);
    PoolRefsAppend(used, drawn);
  }

  lemma SampledMembers(pool: seq<PoolEntry>, excluded: set<UtxoRef>, used: seq<PoolEntry>)
    requires Sampled(pool, excluded, used)
    ensures forall e :: e in used ==> e in pool
  {
  }

  /** One wave's draw (fanout.ts:256-276). */
  method DrawWave(pool: seq<PoolEntry>, need: nat, usedRefs: set<UtxoRef>, rng: RandomInt, calls: nat,
                  ghost excluded: set<UtxoRef>, ghost used: seq<PoolEntry>)
    returns (drawn: seq<PoolEntry>, next: nat)
    requires InRange(rng)
    ensures drawn == Picked(pool, need, usedRefs, rng, calls) && next == calls + |drawn|
    ensures OnTrack(pool, excluded, used, usedRefs) ==>
              && OnTrack(pool, excluded, used + drawn, usedRefs + LowerRefs(RefsOf(drawn)))
              && (need + |used| <= |Eligible(pool, excluded)| ==> |drawn| == need)
  {
    var picked, after := PickRandomNTuple(pool, need, usedRefs, rng, calls);
    drawn, next := picked.value, after;
    hide Eligible, Tuple, LowerRefs, TupleDraws, RefsOf, PoolRefs, Draws, Picked, OnTrack;
    if OnTrack(pool, excluded, used, usedRefs) {
      WaveIsFresh(pool, need, excluded, used, usedRefs, rng, calls);
    }
  }

  /** From clean eligible boxes, enough of them, no wave is short and everything drawn is fresh. */
  lemma {:induction false} CleanDraws(n: nat, k: nat, pool: seq<PoolEntry>, excluded: set<UtxoRef>, rng: RandomInt)
    requires InRange(rng) && n >= 2 && CleanPool(Eligible(pool, excluded)) && Pow(n, k) - 1 <= |Eligible(pool, excluded)|
    ensures var d := DrawnBy(n, k, pool, excluded, rng);
            d.Some? && OnTrack(pool, excluded, d.value.used, d.value.usedRefs)
  {
    hide *;
    if k == 0 {
      NothingUsed(pool, excluded);
      NothingDrawn(n, pool, excluded, rng);
    } else {
      PowMonotone(n, k - 1, k);
      CleanDraws(n, k - 1, pool, excluded, rng);
      var d := DrawnBy(n, k - 1, pool, excluded, rng).value;
      DrawnCount(n, k - 1, |d.used|);
      var need := Pow(n, k - 1) * (n - 1);
      WaveIsFresh(pool, need, excluded, d.used, d.usedRefs, rng, d.calls);
      DrawStep(n, k - 1, pool, excluded, rng, d.used, d.usedRefs, d.calls, Picked(pool, need, d.usedRefs, rng, d.calls));
    }
  }

  lemma NothingUsed(pool: seq<PoolEntry>, excluded: set<UtxoRef>)
    requires CleanPool(Eligible(pool, excluded))
    ensures OnTrack(pool, excluded, [], excluded)
  {
    assert PoolRefs([]) == {};
  }

  lemma PoolRefsAppend(xs: seq<PoolEntry>, ys: seq<PoolEntry>)
    ensures PoolRefs(xs + ys) == PoolRefs(xs) + PoolRefs(ys)
  {
  }

  /** The waves in order (fanout.ts:249-309); `None` when the sampler falls short. */
  method LayWaves(root: PoolEntry, pool: seq<PoolEntry>, depth: nat, n: nat, excluded: set<UtxoRef>, rng: RandomInt,
                  perWaveFresh: seq<nat>)
    returns (r: Option<(seq<seq<Slot>>, seq<UtxoRef>)>)
    requires InRange(rng) && n >= 2
    requires |perWaveFresh| == depth && forall k :: 0 <= k < depth ==> perWaveFresh[k] == Pow(n, k) * (n - 1)
    ensures var drawing := DrawnBy(n, depth, pool, excluded, rng);
            r == if drawing.None? then None
                 else Some((Waves(n, depth, root, drawing.value.used), RefsOf(drawing.value.used)))
  {
    hide *;
    NothingPlanned(n, root);
    NothingDrawn(n, pool, excluded, rng);
    ghost var used: seq<PoolEntry> := [];
    var usedRefs := excluded;
    var poolRefsUsed: seq<UtxoRef> := [];
    var waves: seq<seq<Slot>> := [];
    var calls := 0;
    for k := 0 to depth
      invariant DrawnBy(n, k, pool, excluded, rng) == Some(Drawing(used, usedRefs, calls))
      invariant |used| == Pow(n, k) - 1
      invariant poolRefsUsed == RefsOf(used)
      invariant waves == Waves(n, k, root, used)
    {
      var slotCount := PowN(n, k);
      DrawnCount(n, k, |used|);
      PowMonotone(n, k + 1, depth);
      var drawn, next := DrawWave(pool, perWaveFresh[k], usedRefs, rng, calls, excluded, used);
      DrawStep(n, k, pool, excluded, rng, used, usedRefs, calls, drawn);
      calls := next;
      if |drawn| != perWaveFresh[k] {
        StaysShort(n, k + 1, depth, pool, excluded, rng);
        return None;
      }
      WavesGrow(n, k, root, used, drawn);
      RefsAppend(used, drawn);
      used := used + drawn;
      usedRefs := usedRefs + LowerRefs(RefsOf(drawn));
      poolRefsUsed := poolRefsUsed + RefsOf(drawn);
      var slots := PlanWave(n, k, slotCount, root, drawn);
      waves := waves + [slots];
    }
    r := Some((waves, poolRefsUsed));
  }

  /** The references a plan must avoid from the start (fanout.ts:221-223). */
  function ExcludedAtFirst(root: PoolEntry, excludeRefs: seq<UtxoRef>): set<UtxoRef> {
    LowerRefs(excludeRefs) + {LowerRef(root.ref)}
  }

  /** What planFanout answers past its argument checks. */
  ghost function Planned(root: PoolEntry, pool: seq<PoolEntry>, depth: nat, n: nat, excludeRefs: seq<UtxoRef>, rng: RandomInt)
    : Result<Plan, FanoutError>
    requires InRange(rng) && n >= 2
  {
    var excluded := ExcludedAtFirst(root, excludeRefs);
    var drawing := DrawnBy(n, depth, pool, excluded, rng);
    if Counted(pool, excluded) < Pow(n, depth) - 1 then Err(PoolTooSmall)
    else if drawing.None? then Err(SamplerShort)
    else Ok(PlanOf(n, depth, root, drawing.value.used))
  }

  /** The boxes the waves draw are distinct boxes of the pool, none of them excluded. */
  ghost predicate SampledBy(n: nat, depth: nat, pool: seq<PoolEntry>, excluded: set<UtxoRef>, rng: RandomInt)
    requires InRange(rng) && n >= 2
  {
    var drawing := DrawnBy(n, depth, pool, excluded, rng);
    drawing.Some? && Sampled(pool, excluded, drawing.value.used)
  }

  /** The answer is a plan whose boxes, their references in lower case, are distinct and not excluded. */
  ghost predicate FreshPlan(r: Result<Plan, FanoutError>, excluded: set<UtxoRef>) {
    r.Ok? && Distinct(LowerAll(r.value.poolRefsUsed)) && forall x :: x in LowerAll(r.value.poolRefsUsed) ==> x !in excluded
  }

  function LowerAll(refs: seq<UtxoRef>): (r: seq<UtxoRef>)
    ensures |r| == |refs|
  {
    seq(|refs|, i requires 0 <= i < |refs| => LowerRef(refs[i]))
  }

  /** planFanout past its argument checks, for any width and depth (fanout.ts:221-320): the plan laid out
      over the boxes the sampler draws. When the boxes it may draw are clean the sampler never falls short
      once the pre-flight passed, and the boxes drawn are distinct and not excluded. */
  method LayOut(root: PoolEntry, pool: seq<PoolEntry>, depth: nat, n: nat, excludeRefs: seq<UtxoRef>, rng: RandomInt)
    returns (r: Result<Plan, FanoutError>)
    requires InRange(rng) && n >= 2
    ensures r == Planned(root, pool, depth, n, excludeRefs, rng)
    ensures CleanPool(Eligible(pool, ExcludedAtFirst(root, excludeRefs))) ==>
              if Counted(pool, ExcludedAtFirst(root, excludeRefs)) < Pow(n, depth) - 1 then r == Err(PoolTooSmall)
              else FreshPlan(r, ExcludedAtFirst(root, excludeRefs)) && SampledBy(n, depth, pool, ExcludedAtFirst(root, excludeRefs), rng)
  {
    hide *;
    var excluded := ExcludedAtFirst(root, excludeRefs);
    if CleanPool(Eligible(pool, excluded)) {
      CleanPlan(root, pool, depth, n, excludeRefs, rng);
    }
    PlannedCases(root, pool, depth, n, excludeRefs, rng);
    var perWaveFresh, totalFresh := FreshNeeded(n, depth);
    var eligibleCount := CountEligible(pool, excluded);
    if eligibleCount < totalFresh {
      return Err(PoolTooSmall);
    }
    var laid := LayWaves(root, pool, depth, n, excluded, rng, perWaveFresh);
    if laid.None? {
      return Err(SamplerShort);
    }
    var boxes := PowN(n, depth);
    PlanParts(n, depth, root, DrawnBy(n, depth, pool, excluded, rng).value.used);
    r := Ok(Plan(n, depth, root, laid.value.0, laid.value.1, (boxes - 1) / (n - 1), boxes));
  }

  lemma PlannedCases(root: PoolEntry, pool: seq<PoolEntry>, depth: nat, n: nat, excludeRefs: seq<UtxoRef>, rng: RandomInt)
    requires InRange(rng) && n >= 2
    ensures var excluded := ExcludedAtFirst(root, excludeRefs);
            var drawing := DrawnBy(n, depth, pool, excluded, rng);
            Planned(root, pool, depth, n, excludeRefs, rng) ==
            if Counted(pool, excluded) < Pow(n, depth) - 1 then Err(PoolTooSmall)
            else if drawing.None? then Err(SamplerShort)
            else Ok(PlanOf(n, depth, root, drawing.value.used))
  {
    hide Pow, PlanOf, Counted, DrawnBy, ExcludedAtFirst;
  }

  lemma PlanParts(n: nat, depth: nat, root: PoolEntry, used: seq<PoolEntry>)
    requires n >= 2 && |used| == Pow(n, depth) - 1
    ensures PlanOf(n, depth, root, used) ==
            Plan(n, depth, root, Waves(n, depth, root, used), RefsOf(used), (Pow(n, depth) - 1) / (n - 1), Pow(n, depth))
  {
    hide Pow, Waves, RefsOf;
  }

  lemma CleanPlan(root: PoolEntry, pool: seq<PoolEntry>, depth: nat, n: nat, excludeRefs: seq<UtxoRef>, rng: RandomInt)
    requires InRange(rng) && n >= 2 && CleanPool(Eligible(pool, ExcludedAtFirst(root, excludeRefs)))
    ensures Counted(pool, ExcludedAtFirst(root, excludeRefs)) >= Pow(n, depth) - 1 ==>
              && FreshPlan(Planned(root, pool, depth, n, excludeRefs, rng), ExcludedAtFirst(root, excludeRefs))
              && SampledBy(n, depth, pool, ExcludedAtFirst(root, excludeRefs), rng)
  {
    var excluded := ExcludedAtFirst(root, excludeRefs);
    ExclusionsAreLower(excludeRefs, root.ref);
    CountedAtMost(pool, excluded);
    if Counted(pool, excluded) >= Pow(n, depth) - 1 {
      CleanDraws(n, depth, pool, excluded, rng);
      var used := DrawnBy(n, depth, pool, excluded, rng).value.used;
      FreshBoxes(Eligible(pool, excluded), excluded, used);
      SampledFromPool(pool, excluded, used);
      hide Pow, Waves, Counted, DrawnBy, CleanPool, Eligible;
      assert Planned(root, pool, depth, n, excludeRefs, rng).value.poolRefsUsed == RefsOf(used);
    }
  }

  lemma SampledFromPool(pool: seq<PoolEntry>, excluded: set<UtxoRef>, used: seq<PoolEntry>)
    requires Sampled(Eligible(pool, excluded), excluded, used)
    ensures Sampled(pool, excluded, used)
  {
    EligibleMembers(pool, excluded);
  }

  lemma FreshBoxes(pool: seq<PoolEntry>, excluded: set<UtxoRef>, used: seq<PoolEntry>)
    requires CleanPool(pool) && Sampled(pool, excluded, used)
    ensures LowerAll(RefsOf(used)) == RefsOf(used) && Distinct(RefsOf(used))
    ensures forall x :: x in RefsOf(used) ==> x !in excluded
  {
    hide LowerRef;
    forall i | 0 <= i < |used| ensures LowerRef(RefsOf(used)[i]) == RefsOf(used)[i] && RefsOf(used)[i] !in excluded {
      assert used[i] in used;
    }
  }

  lemma NothingPlanned(n: nat, root: PoolEntry)
    requires n >= 2
    ensures Pow(n, 0) == 1 && Waves(n, 0, root, []) == [] && RefsOf([]) == []
  {
  }

  lemma NothingDrawn(n: nat, pool: seq<PoolEntry>, excluded: set<UtxoRef>, rng: RandomInt)
    requires n >= 2 && InRange(rng)
    ensures DrawnBy(n, 0, pool, excluded, rng) == Some(Drawing([], excluded, 0))
  {
  }

  lemma RefsAppend(xs: seq<PoolEntry>, ys: seq<PoolEntry>)
    ensures RefsOf(xs + ys) == RefsOf(xs) + RefsOf(ys)
  {
  }

  /** planFanout with its guards (fanout.ts:206-219). */
  method PlanFanout(root: PoolEntry, pool: seq<PoolEntry>, depth: int, n: int, excludeRefs: seq<UtxoRef>, rng: RandomInt)
    returns (r: Result<Plan, FanoutError>)
    requires InRange(rng)
    ensures r == if !(2 <= depth <= FANOUT_MAX_DEPTH) then Err(BadDepth)
                 else if !(2 <= n <= FANOUT_MAX_N) then Err(BadWidth)
                 else Planned(root, pool, depth, n, excludeRefs, rng)
    ensures 2 <= depth <= FANOUT_MAX_DEPTH && 2 <= n <= FANOUT_MAX_N &&
            CleanPool(Eligible(pool, ExcludedAtFirst(root, excludeRefs))) ==>
              if Counted(pool, ExcludedAtFirst(root, excludeRefs)) < Pow(n, depth) - 1 then r == Err(PoolTooSmall)
              else FreshPlan(r, ExcludedAtFirst(root, excludeRefs)) && SampledBy(n, depth, pool, ExcludedAtFirst(root, excludeRefs), rng)
  {
    if depth < 2 || depth > FANOUT_MAX_DEPTH {
      return Err(BadDepth);
    }
    if n < 2 || n > FANOUT_MAX_N {
      return Err(BadWidth);
    }
    r := LayOut(root, pool, depth, n, excludeRefs, rng);
  }

  // ---- what the plan promises ----

  lemma DivMod(s: nat, q: nat, p: nat, n: nat)
    requires n >= 1 && p < n
    ensures (s / n == q && s % n == p) <==> s == q * n + p
  {
    if s == q * n + p {
      var k := s / n - q;
      assert k * n == (s / n) * n - q * n;
      assert s == (s / n) * n + s % n;
      MultipleGrows(k, n);
    }
  }

  lemma ChildInRange(q: nat, p: nat, n: nat, k: nat)
    requires n >= 1 && q < Pow(n, k) && p < n
    ensures q * n + p < Pow(n, k + 1)
  {
    BlockFits(n, Pow(n, k), q);
  }

  predicate Takes(slot: Slot, parent: SlotId, position: nat) {
    exists i :: 0 <= i < |slot.inputs| && slot.inputs[i] == Parent(parent, position)
  }

  lemma TakesOnlyItsParent(n: nat, k: nat, s: nat, root: PoolEntry, drawn: seq<PoolEntry>, parent: SlotId, p: nat)
    requires n >= 1 && s * (n - 1) + (n - 1) <= |drawn|
    ensures Takes(SlotAt(n, k + 1, s, root, drawn), parent, p) <==> parent == SlotId(k, s / n) && p == s % n
  {
    SlotInputs(n, k + 1, s, root, drawn);
    var inputs := SlotAt(n, k + 1, s, root, drawn).inputs;
    hide SlotAt;
    assert inputs[0] == Parent(SlotId(k, s / n), s % n);
  }

  /** Every output of a non-final wave is an input of exactly one slot of the next wave. */
  lemma EveryOutputTakenOnce(n: nat, depth: nat, root: PoolEntry, used: seq<PoolEntry>, k: nat, q: nat, p: nat)
    requires n >= 2 && |used| == Pow(n, depth) - 1
    requires k + 1 < depth && q < Pow(n, k) && p < n
    ensures var wave := PlanOf(n, depth, root, used).waves[k + 1];
            && q * n + p < |wave|
            && forall s :: 0 <= s < |wave| ==> (Takes(wave[s], SlotId(k, q), p) <==> s == q * n + p)
  {
    hide Pow, SlotAt, DrawnFor, Takes, Waves;
    var wave := Waves(n, depth, root, used)[k + 1];
    ChildInRange(q, p, n, k);
    PowMonotone(n, k + 1, k + 1);
    SlotShape(n, depth, root, used, k + 1, 0);
    forall s | 0 <= s < |wave| ensures Takes(wave[s], SlotId(k, q), p) <==> s == q * n + p {
      SlotShape(n, depth, root, used, k + 1, s);
      DivMod(s, q, p, n);
      TakesOnlyItsParent(n, k, s, root, DrawnFor(n, k + 1, used), SlotId(k, q), p);
    }
  }

  /** The position of drawn input f of slot s of wave k among all boxes drawn. */
  function FreshPosition(n: nat, k: nat, s: nat, f: nat): int { Pow(n, k) - 1 + s * (n - 1) + f }

  lemma FreshInputIs(n: nat, depth: nat, root: PoolEntry, used: seq<PoolEntry>, k: nat, s: nat, f: nat)
    requires n >= 2 && |used| == Pow(n, depth) - 1 && k < depth && s < Pow(n, k) && f < n - 1
    ensures var slot := PlanOf(n, depth, root, used).waves[k][s];
            && |slot.inputs| == n
            && Pow(n, k) - 1 <= FreshPosition(n, k, s, f) < Pow(n, k + 1) - 1 <= |used|
            && slot.inputs[1 + f] == Pool(used[FreshPosition(n, k, s, f)])
  {
    SlotShape(n, depth, root, used, k, s);
    var drawn := DrawnFor(n, k, used);
    SlotInputs(n, k, s, root, drawn);
    SlotDraws(n, k, s, root, drawn, f);
    WavesAreApart(n, k, s, f);
    BlockAt(drawn, n - 1, s, f);
    hide Pow, SlotAt, Waves;
  }

  lemma PositionsDiffer(n: nat, k: nat, s: nat, f: nat, k': nat, s': nat, f': nat)
    requires n >= 2 && s < Pow(n, k) && s' < Pow(n, k') && f < n - 1 && f' < n - 1
    requires FreshPosition(n, k, s, f) == FreshPosition(n, k', s', f')
    ensures k == k' && s == s' && f == f'
  {
    WavesAreApart(n, k, s, f);
    WavesAreApart(n, k', s', f');
    if k < k' {
      PowMonotone(n, k + 1, k');
    }
    if k' < k {
      PowMonotone(n, k' + 1, k);
    }
    DivMod(s * (n - 1) + f, s, f, n - 1);
    DivMod(s' * (n - 1) + f', s', f', n - 1);
  }

  lemma WavesAreApart(n: nat, k: nat, s: nat, f: nat)
    requires n >= 2 && s < Pow(n, k) && f < n - 1
    ensures Pow(n, k) - 1 <= FreshPosition(n, k, s, f) < Pow(n, k + 1) - 1
  {
    PowGrows(n, k);
    BlockFits(n - 1, Pow(n, k), s);
  }

  /** No drawn reference is an input twice, in any two slots of any two waves. */
  lemma FreshUsedOnce(n: nat, depth: nat, root: PoolEntry, pool: seq<PoolEntry>, excluded: set<UtxoRef>, used: seq<PoolEntry>,
                      k: nat, s: nat, f: nat, k': nat, s': nat, f': nat)
    requires n >= 2 && |used| == Pow(n, depth) - 1 && Sampled(pool, excluded, used)
    requires k < depth && s < Pow(n, k) && f < n - 1 && k' < depth && s' < Pow(n, k') && f' < n - 1
    ensures var waves := PlanOf(n, depth, root, used).waves;
            && |waves[k][s].inputs| == n == |waves[k'][s'].inputs|
            && waves[k][s].inputs[1 + f].Pool? && waves[k'][s'].inputs[1 + f'].Pool?
            && LowerRef(waves[k][s].inputs[1 + f].entry.ref) !in excluded
            && (waves[k][s].inputs[1 + f].entry.ref == waves[k'][s'].inputs[1 + f'].entry.ref ==> k == k' && s == s' && f == f')
  {
    FreshInputIs(n, depth, root, used, k, s, f);
    FreshInputIs(n, depth, root, used, k', s', f');
    var i, j := FreshPosition(n, k, s, f), FreshPosition(n, k', s', f');
    assert RefsOf(used)[i] == used[i].ref && RefsOf(used)[j] == used[j].ref;
    assert used[i] in used;
    if used[i].ref == used[j].ref {
      assert i == j;
      PositionsDiffer(n, k, s, f, k', s', f');
    }
  }

  function SlotTotal(waves: seq<seq<Slot>>): nat {
    if waves == [] then 0 else SlotTotal(waves[..|waves| - 1]) + |waves[|waves| - 1]|
  }

  lemma {:induction false} SlotTotalOf(n: nat, depth: nat, waves: seq<seq<Slot>>)
    requires n >= 2 && |waves| == depth && forall k :: 0 <= k < depth ==> |waves[k]| == Pow(n, k)
    ensures SlotTotal(waves) * (n - 1) == Pow(n, depth) - 1
  {
    if depth == 0 {
      assert Pow(n, 0) == 1;
    } else {
      hide Pow;
      SlotTotalOf(n, depth - 1, waves[..depth - 1]);
      PowGrows(n, depth - 1);
      Distribute(SlotTotal(waves[..depth - 1]), Pow(n, depth - 1), n - 1);
    }
  }

  /** The three counts agree: slots laid out, boxes drawn, boxes touched. */
  lemma CountsAgree(n: nat, depth: nat, root: PoolEntry, used: seq<PoolEntry>)
    requires n >= 2 && |used| == Pow(n, depth) - 1
    ensures var p := PlanOf(n, depth, root, used);
            && p.totalMixes == SlotTotal(p.waves)
            && p.totalMixes * (n - 1) == Pow(n, depth) - 1
            && 1 + |p.poolRefsUsed| == p.boxesTouched == Pow(n, depth)
  {
    hide Pow, Waves;
    var p := PlanOf(n, depth, root, used);
    forall k | 0 <= k < depth ensures |p.waves[k]| == Pow(n, k) {
      PowMonotone(n, k, k);
      SlotShape(n, depth, root, used, k, 0);
    }
    SlotTotalOf(n, depth, p.waves);
    var t := SlotTotal(p.waves);
    DivMod(t * (n - 1), t, 0, n - 1);
  }
}
