/** Which plans repeat a box (offchain/src/strategy/fanout.ts:222-276, offchain/src/pool/select.ts:42-43). The
    planner excludes references in lower case, the sampler compares them as they are. */
module FreshPlans {
  import opened Arith
  import opened Options
  import opened Permutations
  import opened Refs
  import opened Select
  import opened Fanout

  // ---- a random source that answers a few questions as wished ----

  /** Zero wherever the script is silent or out of range. */
  function Scripted(script: map<nat, nat>): RandomInt {
    (call: nat, bound: nat) => if call in script && script[call] < bound then script[call] else 0
  }

  lemma ScriptInRange(script: map<nat, nat>)
    ensures InRange(Scripted(script))
  {
  }

  /** Questions answered alike draw alike. */
  lemma SameAnswers(pool: seq<PoolEntry>, need: nat, exclude: set<UtxoRef>, rng: RandomInt, rng': RandomInt, start: nat)
    requires InRange(rng) && InRange(rng')
    requires forall call, bound :: start <= call < start + need ==> rng(call, bound) == rng'(call, bound)
    ensures Picked(pool, need, exclude, rng, start) == Picked(pool, need, exclude, rng', start)
  {
    var size := |Eligible(pool, exclude)|;
    hide Tuple, Eligible;
    assert Draws(rng, start, size, Min(need, size)) == Draws(rng', start, size, Min(need, size));
  }

  lemma FirstDrawn(pool: seq<PoolEntry>, need: nat, exclude: set<UtxoRef>, rng: RandomInt, start: nat, i: nat)
    requires InRange(rng) && need >= 1 && i < |Eligible(pool, exclude)| && rng(start, |Eligible(pool, exclude)|) == i
    ensures Picked(pool, need, exclude, rng, start) != [] && Picked(pool, need, exclude, rng, start)[0] == Eligible(pool, exclude)[i]
  {
  }

  lemma HeadOf(work: seq<PoolEntry>, draws: seq<nat>)
    requires TupleDraws(draws, |work|) && draws != []
    ensures Tuple(work, draws)[0] == work[draws[0]]
    ensures TupleDraws(draws[1..], |work| - 1)
    ensures Tuple(work, draws)[1..] == Tuple(Swap(work, 0, draws[0])[1..], draws[1..])
  {
  }

  lemma RestHas(work: seq<PoolEntry>, i: nat, j: nat)
    requires i < j < |work|
    ensures Swap(work, 0, i)[1..][j - 1] == work[j]
  {
  }

  lemma FirstTwoOf(work: seq<PoolEntry>, draws: seq<nat>, i: nat, j: nat)
    requires TupleDraws(draws, |work|) && |draws| >= 2 && draws[0] == i < j < |work| && draws[1] == j - 1
    ensures Tuple(work, draws)[0] == work[i] && Tuple(work, draws)[1] == work[j]
  {
    hide *;
    HeadOf(work, draws);
    RestHas(work, i, j);
    var rest, more := Swap(work, 0, i)[1..], draws[1..];
    HeadOf(rest, more);
    assert more[0] == j - 1;
    var all := Tuple(work, draws);
    assert all[1] == all[1..][0];
  }

  lemma FirstTwoDrawn(pool: seq<PoolEntry>, need: nat, exclude: set<UtxoRef>, rng: RandomInt, start: nat, i: nat, j: nat)
    requires InRange(rng) && need >= 2 && i < j < |Eligible(pool, exclude)|
    requires rng(start, |Eligible(pool, exclude)|) == i && rng(start + 1, |Eligible(pool, exclude)| - 1) == j - 1
    ensures var picked := Picked(pool, need, exclude, rng, start);
            |picked| >= 2 && picked[0] == Eligible(pool, exclude)[i] && picked[1] == Eligible(pool, exclude)[j]
  {
    var work := Eligible(pool, exclude);
    hide Eligible, Tuple;
    DrawsInRange(rng, start, |work|, Min(need, |work|));
    FirstTwoOf(work, Draws(rng, start, |work|, Min(need, |work|)), i, j);
  }

  // ---- what spoils a plan ----

  /** After `k` waves the sampler fell short or drew two boxes with one lower-cased reference. */
  ghost predicate Spoiled(n: nat, k: nat, pool: seq<PoolEntry>, excluded: set<UtxoRef>, rng: RandomInt)
    requires InRange(rng) && n >= 2
  {
    var d := DrawnBy(n, k, pool, excluded, rng);
    d.None? || exists i, j :: 0 <= i < j < |d.value.used| && LowerRef(d.value.used[i].ref) == LowerRef(d.value.used[j].ref)
  }

  lemma {:induction false} UsedGrows(n: nat, k: nat, m: nat, pool: seq<PoolEntry>, excluded: set<UtxoRef>, rng: RandomInt)
    requires InRange(rng) && n >= 2 && k <= m && DrawnBy(n, m, pool, excluded, rng).Some?
    ensures DrawnBy(n, k, pool, excluded, rng).Some?
    ensures DrawnBy(n, k, pool, excluded, rng).value.used <= DrawnBy(n, m, pool, excluded, rng).value.used
  {
    hide Picked, Pow, LowerRefs, RefsOf;
    if k < m {
      UsedGrows(n, k, m - 1, pool, excluded, rng);
    }
  }

  lemma SpoiledStays(root: PoolEntry, pool: seq<PoolEntry>, depth: nat, n: nat, excludeRefs: seq<UtxoRef>, rng: RandomInt, k: nat)
    requires InRange(rng) && n >= 2 && k <= depth && Spoiled(n, k, pool, ExcludedAtFirst(root, excludeRefs), rng)
    ensures !FreshPlan(Planned(root, pool, depth, n, excludeRefs, rng), ExcludedAtFirst(root, excludeRefs))
  {
    var excluded := ExcludedAtFirst(root, excludeRefs);
    PlannedCases(root, pool, depth, n, excludeRefs, rng);
    hide Planned, Pow, DrawnBy, PlanOf, ExcludedAtFirst, LowerRef, Counted;
    if Planned(root, pool, depth, n, excludeRefs, rng).Ok? {
      UsedGrows(n, k, depth, pool, excluded, rng);
      var few, used := DrawnBy(n, k, pool, excluded, rng).value.used, DrawnBy(n, depth, pool, excluded, rng).value.used;
      PlanUses(n, depth, root, used);
      var i, j :| 0 <= i < j < |few| && LowerRef(few[i].ref) == LowerRef(few[j].ref);
      assert used[i] == few[i] && used[j] == few[j];
      assert LowerAll(RefsOf(used))[i] == LowerAll(RefsOf(used))[j];
    }
  }

  /** The first two waves. */
  lemma TwoWaves(n: nat, pool: seq<PoolEntry>, excluded: set<UtxoRef>, rng: RandomInt)
    requires InRange(rng) && n >= 2
    ensures var drawn := Picked(pool, n - 1, excluded, rng, 0);
            if |drawn| != n - 1 then DrawnBy(n, 1, pool, excluded, rng).None?
            else
              var more := Picked(pool, n * (n - 1), excluded + LowerRefs(RefsOf(drawn)), rng, n - 1);
              && DrawnBy(n, 1, pool, excluded, rng).Some? && DrawnBy(n, 1, pool, excluded, rng).value.used == drawn
              && if |more| != n * (n - 1) then DrawnBy(n, 2, pool, excluded, rng).None?
                 else DrawnBy(n, 2, pool, excluded, rng).Some? && DrawnBy(n, 2, pool, excluded, rng).value.used == drawn + more
  {
    hide Picked, LowerRefs, RefsOf;
    assert Pow(n, 0) == 1 && Pow(n, 1) == n;
    NothingDrawn(n, pool, excluded, rng);
    var drawn := Picked(pool, n - 1, excluded, rng, 0);
    Fanout.DrawStep(n, 0, pool, excluded, rng, [], excluded, 0, drawn);
    assert [] + drawn == drawn;
    if |drawn| == n - 1 {
      var used := excluded + LowerRefs(RefsOf(drawn));
      Fanout.DrawStep(n, 1, pool, excluded, rng, drawn, used, n - 1, Picked(pool, n * (n - 1), used, rng, n - 1));
    } else {
      StaysShort(n, 1, 2, pool, excluded, rng);
    }
  }

  // ---- a box written in upper case is drawn twice ----

  lemma UpperIsNotExcluded(e: PoolEntry, refs: seq<UtxoRef>)
    requires LowerRef(e.ref) != e.ref
    ensures e.ref !in LowerRefs(refs)
  {
    if e.ref in LowerRefs(refs) {
      var r :| r in refs && LowerRef(r) == e.ref;
      LowerRefTwice(r);
    }
  }

  lemma PositionOf(s: seq<PoolEntry>, e: PoolEntry) returns (i: nat)
    requires e in s
    ensures i < |s| && s[i] == e
  {
    i :| i < |s| && s[i] == e;
  }

  lemma UpperStaysEligible(pool: seq<PoolEntry>, excluded: set<UtxoRef>, e: PoolEntry, drawn: seq<PoolEntry>)
    requires e in Eligible(pool, excluded) && LowerRef(e.ref) != e.ref
    ensures e in Eligible(pool, excluded + LowerRefs(RefsOf(drawn)))
  {
    UpperIsNotExcluded(e, RefsOf(drawn));
    EligibleMembers(pool, excluded);
    EligibleMembers(pool, excluded + LowerRefs(RefsOf(drawn)));
  }

  lemma DrawnTwice(n: nat, pool: seq<PoolEntry>, excluded: set<UtxoRef>, rng: RandomInt, e: PoolEntry)
    requires n >= 2 && InRange(rng)
    requires var drawn := Picked(pool, n - 1, excluded, rng, 0);
             var more := Picked(pool, n * (n - 1), excluded + LowerRefs(RefsOf(drawn)), rng, n - 1);
             drawn != [] && drawn[0] == e && more != [] && more[0] == e
    ensures Spoiled(n, 2, pool, excluded, rng)
  {
    TwoWaves(n, pool, excluded, rng);
    hide Picked, Eligible, LowerRef, LowerRefs, RefsOf, DrawnBy;
    if DrawnBy(n, 2, pool, excluded, rng).Some? {
      var both := DrawnBy(n, 2, pool, excluded, rng).value.used;
      assert both[0] == e && both[n - 1] == e;
    }
  }

  lemma ScriptAnswers(i: nat, later: nat, again: nat)
    requires later > 0
    ensures var rng, once := Scripted(map[0 := i, later := again]), Scripted(map[0 := i]);
            && (forall call: nat, bound: nat :: call < later ==> rng(call, bound) == once(call, bound))
            && (forall bound: nat :: i < bound ==> rng(0, bound) == i)
            && (forall bound: nat :: again < bound ==> rng(later, bound) == again)
  {
  }

  lemma ManyFollow(n: nat)
    requires n >= 2
    ensures n * (n - 1) >= n - 1 >= 1
  {
  }

  lemma UpperSpoils(n: nat, pool: seq<PoolEntry>, excluded: set<UtxoRef>, e: PoolEntry) returns (rng: RandomInt)
    requires n >= 2 && e in Eligible(pool, excluded) && LowerRef(e.ref) != e.ref
    ensures InRange(rng) && Spoiled(n, 2, pool, excluded, rng)
  {
    hide *;
    var i := PositionOf(Eligible(pool, excluded), e);
    var once := Scripted(map[0 := i]);
    ScriptInRange(map[0 := i]);
    var used := excluded + LowerRefs(RefsOf(Picked(pool, n - 1, excluded, once, 0)));
    UpperStaysEligible(pool, excluded, e, Picked(pool, n - 1, excluded, once, 0));
    var again := PositionOf(Eligible(pool, used), e);
    var script: map<nat, nat> := map[0 := i, n - 1 := again];
    rng := Scripted(script);
    ScriptInRange(script);
    ScriptAnswers(i, n - 1, again);
    SameAnswers(pool, n - 1, excluded, rng, once, 0);
    ManyFollow(n);
    FirstDrawn(pool, n - 1, excluded, rng, 0, i);
    FirstDrawn(pool, n * (n - 1), used, rng, n - 1, again);
    DrawnTwice(n, pool, excluded, rng, e);
  }

  // ---- two copies of a reference are both drawn ----

  lemma {:induction false} PositionStays(s: seq<PoolEntry>, exclude: set<UtxoRef>, i: nat) returns (k: nat)
    requires i < |s| && s[i].ref !in exclude
    ensures k < |Eligible(s, exclude)| && Eligible(s, exclude)[k] == s[i]
  {
    if i == |s| - 1 {
      k := |Eligible(s[..i], exclude)|;
    } else {
      k := PositionStays(s[..|s| - 1], exclude, i);
    }
  }

  lemma {:induction false} PairStays(s: seq<PoolEntry>, exclude: set<UtxoRef>, i: nat, j: nat) returns (k: nat, m: nat)
    requires i < j < |s| && s[i].ref == s[j].ref && s[i].ref !in exclude
    ensures k < m < |Eligible(s, exclude)| && Eligible(s, exclude)[k] == s[i] && Eligible(s, exclude)[m] == s[j]
  {
    if j == |s| - 1 {
      k := PositionStays(s[..j], exclude, i);
      m := |Eligible(s[..j], exclude)|;
    } else {
      k, m := PairStays(s[..|s| - 1], exclude, i, j);
    }
  }

  /** With three inputs or more the first wave takes both copies. */
  lemma PairSpoilsFirst(n: nat, pool: seq<PoolEntry>, excluded: set<UtxoRef>, i: nat, j: nat) returns (rng: RandomInt)
    requires n >= 3 && i < j < |Eligible(pool, excluded)| && Eligible(pool, excluded)[i].ref == Eligible(pool, excluded)[j].ref
    ensures InRange(rng) && Spoiled(n, 1, pool, excluded, rng)
  {
    var script: map<nat, nat> := map[0 := i, 1 := j - 1];
    rng := Scripted(script);
    ScriptInRange(script);
    FirstTwoDrawn(pool, n - 1, excluded, rng, 0, i, j);
    TwoWaves(n, pool, excluded, rng);
    hide Picked, Eligible, LowerRef, LowerRefs, RefsOf, DrawnBy, Scripted;
    if DrawnBy(n, 1, pool, excluded, rng).Some? {
      var used := DrawnBy(n, 1, pool, excluded, rng).value.used;
      assert used[0].ref == used[1].ref;
    }
  }

  lemma TwoCopiesSpoil(pool: seq<PoolEntry>, excluded: set<UtxoRef>, rng: RandomInt, other: PoolEntry)
    requires InRange(rng) && Picked(pool, 1, excluded, rng, 0) == [other]
    requires var more := Picked(pool, 2, excluded + {LowerRef(other.ref)}, rng, 1);
             |more| >= 2 && more[0].ref == more[1].ref
    ensures Spoiled(2, 2, pool, excluded, rng)
  {
    assert LowerRefs(RefsOf([other])) == {LowerRef(other.ref)} by {
      assert RefsOf([other]) == [other.ref];
    }
    TwoWaves(2, pool, excluded, rng);
    hide Picked, Eligible, LowerRef, LowerRefs, RefsOf, DrawnBy;
    if DrawnBy(2, 2, pool, excluded, rng).Some? {
      var both := DrawnBy(2, 2, pool, excluded, rng).value.used;
      assert both[1].ref == both[2].ref;
    }
  }

  /** Both copies stay eligible when another box has been taken. */
  lemma PairStaysEligible(pool: seq<PoolEntry>, excluded: set<UtxoRef>, other: UtxoRef, i: nat, j: nat) returns (k: nat, l: nat)
    requires i < j < |Eligible(pool, excluded)| && Eligible(pool, excluded)[i].ref == Eligible(pool, excluded)[j].ref != other
    ensures var left := Eligible(pool, excluded + {other}); k < l < |left| && left[k].ref == left[l].ref
  {
    var eligible := Eligible(pool, excluded);
    EligibleMembers(pool, excluded);
    assert eligible[i] in eligible;
    EligibleTwice(pool, excluded, excluded + {other});
    hide Eligible;
    k, l := PairStays(eligible, excluded + {other}, i, j);
  }

  lemma ThreeAnswers(m: nat, k: nat, l: nat)
    requires k < l
    ensures var rng := Scripted(map[0 := m, 1 := k, 2 := l - 1]);
            && (forall bound: nat :: m < bound ==> rng(0, bound) == m)
            && (forall bound: nat :: l < bound ==> rng(1, bound) == k && rng(2, bound - 1) == l - 1)
  {
  }

  /** With two inputs the first wave takes another box and the second wave both copies. */
  lemma PairSpoilsSecond(pool: seq<PoolEntry>, excluded: set<UtxoRef>, i: nat, j: nat, m: nat) returns (rng: RandomInt)
    requires i < j < |Eligible(pool, excluded)| && Eligible(pool, excluded)[i].ref == Eligible(pool, excluded)[j].ref
    requires m < |Eligible(pool, excluded)| && LowerRef(Eligible(pool, excluded)[m].ref) != Eligible(pool, excluded)[i].ref
    ensures InRange(rng) && Spoiled(2, 2, pool, excluded, rng)
  {
    hide *;
    var other := Eligible(pool, excluded)[m];
    var used := excluded + {LowerRef(other.ref)};
    var k, l := PairStaysEligible(pool, excluded, LowerRef(other.ref), i, j);
    var script: map<nat, nat> := map[0 := m, 1 := k, 2 := l - 1];
    rng := Scripted(script);
    ScriptInRange(script);
    ThreeAnswers(m, k, l);
    FirstDrawn(pool, 1, excluded, rng, 0, m);
    OnlyOne(pool, excluded, rng);
    FirstTwoDrawn(pool, 2, used, rng, 1, k, l);
    TwoCopiesSpoil(pool, excluded, rng, other);
  }

  lemma OnlyOne(pool: seq<PoolEntry>, excluded: set<UtxoRef>, rng: RandomInt)
    requires InRange(rng)
    ensures |Picked(pool, 1, excluded, rng, 0)| <= 1
  {
  }

  /** When every box has one reference, the first wave uses all of them up. */
  lemma OneReferenceIsShort(pool: seq<PoolEntry>, excluded: set<UtxoRef>, r: UtxoRef) returns (rng: RandomInt)
    requires Eligible(pool, excluded) != [] && forall e :: e in Eligible(pool, excluded) ==> e.ref == LowerRef(e.ref) == r
    ensures InRange(rng) && Spoiled(2, 2, pool, excluded, rng)
  {
    rng := Scripted(map[]);
    ScriptInRange(map[]);
    FirstDrawn(pool, 1, excluded, rng, 0, 0);
    var drawn := Picked(pool, 1, excluded, rng, 0);
    var used := excluded + LowerRefs(RefsOf(drawn));
    assert drawn[0] in Eligible(pool, excluded) && RefsOf(drawn)[0] == drawn[0].ref;
    assert r in used;
    EligibleMembers(pool, excluded);
    EligibleMembers(pool, used);
    TwoWaves(2, pool, excluded, rng);
    hide Picked, Eligible, LowerRef, LowerRefs, RefsOf, DrawnBy, Scripted;
    assert Eligible(pool, used) == [] by {
      if Eligible(pool, used) != [] {
        assert Eligible(pool, used)[0] in Eligible(pool, used);
      }
    }
  }

  lemma PairSpoils(n: nat, pool: seq<PoolEntry>, excluded: set<UtxoRef>, i: nat, j: nat) returns (rng: RandomInt)
    requires n >= 2 && i < j < |Eligible(pool, excluded)| && Eligible(pool, excluded)[i].ref == Eligible(pool, excluded)[j].ref
    requires forall e :: e in Eligible(pool, excluded) ==> LowerRef(e.ref) == e.ref
    ensures InRange(rng) && (Spoiled(n, 1, pool, excluded, rng) || Spoiled(n, 2, pool, excluded, rng))
  {
    var eligible := Eligible(pool, excluded);
    hide Eligible, LowerRef, Spoiled;
    if n >= 3 {
      rng := PairSpoilsFirst(n, pool, excluded, i, j);
    } else if m :| 0 <= m < |eligible| && eligible[m].ref != eligible[i].ref {
      assert eligible[m] in eligible;
      rng := PairSpoilsSecond(pool, excluded, i, j, m);
    } else {
      rng := OneReferenceIsShort(pool, excluded, eligible[i].ref);
    }
  }

  // ---- the exact condition ----

  lemma UncleanSpoils(n: nat, pool: seq<PoolEntry>, excluded: set<UtxoRef>) returns (rng: RandomInt, k: nat)
    requires n >= 2 && !CleanPool(Eligible(pool, excluded))
    ensures 1 <= k <= 2 && InRange(rng) && Spoiled(n, k, pool, excluded, rng)
  {
    var eligible := Eligible(pool, excluded);
    hide Eligible, LowerRef, Spoiled;
    if e :| e in eligible && LowerRef(e.ref) != e.ref {
      rng := UpperSpoils(n, pool, excluded, e);
      k := 2;
    } else {
      var i, j :| 0 <= i < j < |eligible| && RefsOf(eligible)[i] == RefsOf(eligible)[j];
      rng := PairSpoils(n, pool, excluded, i, j);
      k := if Spoiled(n, 1, pool, excluded, rng) then 1 else 2;
    }
  }

  /** Once the pre-flight has passed: whatever the random source answers, planFanout lays out a plan whose
      boxes are distinct and not excluded, if and only if the boxes the sampler may draw at first are
      written in lower case and no two of them share a reference. */
  lemma PlansFreshIff(root: PoolEntry, pool: seq<PoolEntry>, depth: nat, n: nat, excludeRefs: seq<UtxoRef>)
    requires n >= 2 && depth >= 2 && Counted(pool, ExcludedAtFirst(root, excludeRefs)) >= Pow(n, depth) - 1
    ensures (forall rng: RandomInt :: InRange(rng) ==>
               FreshPlan(Planned(root, pool, depth, n, excludeRefs, rng), ExcludedAtFirst(root, excludeRefs))) <==>
            CleanPool(Eligible(pool, ExcludedAtFirst(root, excludeRefs)))
  {
    var excluded := ExcludedAtFirst(root, excludeRefs);
    hide *;
    if CleanPool(Eligible(pool, excluded)) {
      forall rng: RandomInt | InRange(rng) ensures FreshPlan(Planned(root, pool, depth, n, excludeRefs, rng), excluded) {
        CleanPlan(root, pool, depth, n, excludeRefs, rng);
      }
    } else {
      var rng, k := UncleanSpoils(n, pool, excluded);
      SpoiledStays(root, pool, depth, n, excludeRefs, rng, k);
    }
  }

  // ---- a plan that repeats a box ----

  /** The first answer below any bound. */
  function First(call: nat, bound: nat): nat { 0 }

  /** Four boxes, the first of them written in upper case. */
  function MixedCasePool(): seq<PoolEntry> {
    [PoolEntry(UtxoRef("AA", 0), "", ""), PoolEntry(UtxoRef("bb", 0), "", ""),
     PoolEntry(UtxoRef("cc", 0), "", ""), PoolEntry(UtxoRef("dd", 0), "", "")]
  }

  lemma LowerOfMixedCase()
    ensures Lower("AA") == "aa" && Lower("aa") == "aa" && Lower("ff") == "ff"
    ensures forall i :: 1 <= i < 4 ==> LowerRef(MixedCasePool()[i].ref) == MixedCasePool()[i].ref
    ensures LowerRef(MixedCasePool()[0].ref) == UtxoRef("aa", 0)
  {
    assert Lower("bb") == "bb" && Lower("cc") == "cc" && Lower("dd") == "dd";
  }

  lemma AllEligible(excluded: set<UtxoRef>)
    requires forall e :: e in MixedCasePool() ==> e.ref !in excluded
    ensures Eligible(MixedCasePool(), excluded) == MixedCasePool()
  {
    var pool := MixedCasePool();
    forall i | 0 <= i < |pool| ensures !Excluded(pool[i], excluded) {
      assert pool[i] in pool;
    }
    NothingExcluded(pool, excluded);
  }

  lemma {:induction false} NothingExcluded(pool: seq<PoolEntry>, excluded: set<UtxoRef>)
    requires forall i :: 0 <= i < |pool| ==> !Excluded(pool[i], excluded)
    ensures Eligible(pool, excluded) == pool
  {
    hide Excluded;
    if pool != [] {
      var front, last := pool[..|pool| - 1], pool[|pool| - 1];
      NothingExcluded(front, excluded);
      assert pool == front + [last];
    }
  }

  lemma FirstPicks(n: nat, excluded: set<UtxoRef>, calls: nat)
    requires InRange(First) && forall e :: e in MixedCasePool() ==> e.ref !in excluded
    ensures n == 1 ==> Picked(MixedCasePool(), n, excluded, First, calls) == [MixedCasePool()[0]]
    ensures n == 2 ==> Picked(MixedCasePool(), n, excluded, First, calls) == [MixedCasePool()[0], MixedCasePool()[1]]
  {
    var pool := MixedCasePool();
    AllEligible(excluded);
    hide Eligible;
    if n == 1 {
      assert Draws(First, calls, 4, 1) == [0];
    }
    if n == 2 {
      assert Draws(First, calls, 4, 2) == [0, 0] && [0, 0][1..] == [0];
      assert Swap(pool, 0, 0)[1..][0] == pool[1];
    }
  }

  lemma FirstInRange()
    ensures InRange(First)
  {
  }

  lemma ThreeCounted(excluded: set<UtxoRef>)
    requires excluded == {UtxoRef("aa", 0), UtxoRef("ff", 0)}
    ensures Counted(MixedCasePool(), excluded) == 3
  {
    LowerOfMixedCase();
    var pool := MixedCasePool();
    hide LowerRef, Lower;
    assert pool[..4] == pool && pool[..3][..2] == pool[..2] && pool[..2][..1] == pool[..1] && pool[..1][..0] == [];
    assert Counted(pool[..1], excluded) == 0 && Counted(pool[..2], excluded) == 1 && Counted(pool[..3], excluded) == 2;
  }

  /** An excluded box is drawn, and drawn again in the next wave: its reference is in upper case. */
  lemma ExcludedBoxComesBack()
    ensures InRange(First)
    ensures var root, box := PoolEntry(UtxoRef("ff", 0), "", ""), UtxoRef("AA", 0);
            var r := Planned(root, MixedCasePool(), 2, 2, [UtxoRef("aa", 0)], First);
            && LowerRef(box) == UtxoRef("aa", 0)
            && r.Ok? && r.value.poolRefsUsed == [box, box, UtxoRef("bb", 0)]
  {
    FirstInRange();
    LowerOfMixedCase();
    var pool, root := MixedCasePool(), PoolEntry(UtxoRef("ff", 0), "", "");
    var excluded := ExcludedAtFirst(root, [UtxoRef("aa", 0)]);
    assert LowerRefs([UtxoRef("aa", 0)]) == {LowerRef(UtxoRef("aa", 0))};
    assert excluded == {UtxoRef("aa", 0), UtxoRef("ff", 0)};
    ThreeCounted(excluded);
    FirstPicks(1, excluded, 0);
    FirstPicks(2, excluded, 1);
    FirstTwoWaves(excluded);
    PlannedCases(root, pool, 2, 2, [UtxoRef("aa", 0)], First);
    hide LowerRef, Lower, Counted, Picked, Eligible, PlanOf, DrawnBy, Planned, ExcludedAtFirst, RefsOf;
    assert Pow(2, 2) == 4;
    var used := [pool[0]] + [pool[0], pool[1]];
    PlanUses(2, 2, root, used);
    ThreeRefs(pool[0], pool[1]);
  }

  lemma ThreeRefs(x: PoolEntry, y: PoolEntry)
    ensures RefsOf([x] + [x, y]) == [x.ref, x.ref, y.ref]
  {
  }

  lemma FirstTwoWaves(excluded: set<UtxoRef>)
    requires excluded == {UtxoRef("aa", 0), UtxoRef("ff", 0)} && InRange(First)
    requires Picked(MixedCasePool(), 1, excluded, First, 0) == [MixedCasePool()[0]]
    requires Picked(MixedCasePool(), 2, excluded, First, 1) == [MixedCasePool()[0], MixedCasePool()[1]]
    ensures var d := DrawnBy(2, 2, MixedCasePool(), excluded, First);
            d.Some? && d.value.used == [MixedCasePool()[0]] + [MixedCasePool()[0], MixedCasePool()[1]]
  {
    var pool := MixedCasePool();
    LowerOfMixedCase();
    TwoWaves(2, pool, excluded, First);
    assert RefsOf([pool[0]]) == [pool[0].ref];
    hide LowerRef, Lower, Picked, Eligible, DrawnBy;
    assert excluded + LowerRefs(RefsOf([pool[0]])) == excluded;
  }

  lemma PlanUses(n: nat, depth: nat, root: PoolEntry, used: seq<PoolEntry>)
    requires n >= 2 && |used| == Pow(n, depth) - 1
    ensures PlanOf(n, depth, root, used).poolRefsUsed == RefsOf(used)
  {
  }
}
