/** The tree behind a fan-out plan, and the walk over a slot's descendants
    (offchain/src/strategy/fanout.ts:322-373). */
module FanoutTree {
  import opened Arith
  import opened Options
  import opened Permutations
  import opened Fanout

  type Waves = seq<seq<Slot>>

  predicate InPlan(waves: Waves, x: SlotId) { x.wave < |waves| && x.slot < |waves[x.wave]| }

  function SlotOf(waves: Waves, x: SlotId): Slot
    requires InPlan(waves, x)
  {
    waves[x.wave][x.slot]
  }

  /** A slot of wave 0 has no parent; any other has one, the first of its inputs. */
  ghost predicate Rooted(waves: Waves, x: SlotId)
    requires InPlan(waves, x)
  {
    var slot := SlotOf(waves, x);
    && slot.id == x
    && slot.inputs != []
    && (forall i :: 1 <= i < |slot.inputs| ==> !slot.inputs[i].Parent?)
    && (x.wave == 0 ==> !slot.inputs[0].Parent?)
    && (x.wave > 0 ==> slot.inputs[0].Parent? && slot.inputs[0].parent.wave == x.wave - 1 && InPlan(waves, slot.inputs[0].parent))
  }

  ghost predicate Tree(waves: Waves) {
    forall x: SlotId :: InPlan(waves, x) ==> Rooted(waves, x)
  }

  function ParentOf(waves: Waves, x: SlotId): (p: SlotId)
    requires Tree(waves) && InPlan(waves, x) && x.wave > 0
    ensures InPlan(waves, p) && p.wave == x.wave - 1
  {
    assert Rooted(waves, x);
    SlotOf(waves, x).inputs[0].parent
  }

  /** `x` is `top` or lies below it. */
  predicate Descends(waves: Waves, x: SlotId, top: SlotId)
    requires Tree(waves) && InPlan(waves, x)
    decreases x.wave
  {
    x == top || (x.wave > 0 && Descends(waves, ParentOf(waves, x), top))
  }

  lemma {:induction false} DescendsIsLower(waves: Waves, x: SlotId, top: SlotId)
    requires Tree(waves) && InPlan(waves, x) && Descends(waves, x, top)
    ensures top.wave <= x.wave && (top.wave == x.wave ==> x == top)
    decreases x.wave
  {
    if x != top {
      DescendsIsLower(waves, ParentOf(waves, x), top);
    }
  }

  // ---- every plan is a tree ----

  /** What the planner lays out is a tree, whatever the width and depth. */
  lemma PlanIsTree(n: nat, depth: nat, root: Select.PoolEntry, used: seq<Select.PoolEntry>)
    requires n >= 2 && |used| == Pow(n, depth) - 1
    ensures Tree(PlanOf(n, depth, root, used).waves)
  {
    var waves := PlanOf(n, depth, root, used).waves;
    forall x: SlotId | InPlan(waves, x) ensures Rooted(waves, x) {
      SlotIsRooted(n, depth, root, used, x);
    }
    hide PlanOf, Rooted, Pow;
  }

  lemma SlotIsRooted(n: nat, depth: nat, root: Select.PoolEntry, used: seq<Select.PoolEntry>, x: SlotId)
    requires n >= 2 && |used| == Pow(n, depth) - 1 && InPlan(PlanOf(n, depth, root, used).waves, x)
    ensures Rooted(PlanOf(n, depth, root, used).waves, x)
  {
    WaveSize(n, depth, root, used, x.wave);
    SlotShape(n, depth, root, used, x.wave, x.slot);
    SlotInputs(n, x.wave, x.slot, root, DrawnFor(n, x.wave, used));
    if x.wave > 0 {
      WaveSize(n, depth, root, used, x.wave - 1);
      ParentInRange(n, x.wave - 1, x.slot);
    }
  }

  lemma WaveSize(n: nat, depth: nat, root: Select.PoolEntry, used: seq<Select.PoolEntry>, k: nat)
    requires n >= 2 && |used| == Pow(n, depth) - 1 && k < depth
    ensures |PlanOf(n, depth, root, used).waves[k]| == Pow(n, k)
  {
    PowMonotone(n, k, k);
    SlotShape(n, depth, root, used, k, 0);
  }

  lemma ParentInRange(n: nat, k: nat, s: nat)
    requires n >= 1 && s < Pow(n, k + 1)
    ensures s / n < Pow(n, k)
  {
    var q := s / n;
    if q >= Pow(n, k) {
      Distribute(Pow(n, k), q - Pow(n, k), n);
      MultipleGrowsWeakly(q - Pow(n, k), n);
    }
  }

  lemma MultipleGrowsWeakly(k: nat, n: nat)
    ensures k * n >= 0
  {
  }

  // ---- the children of a slot ----

  function KidsOfInputs(id: SlotId, inputs: seq<Input>, p: SlotId): seq<SlotId> {
    if inputs == [] then []
    else
      var last := inputs[|inputs| - 1];
      KidsOfInputs(id, inputs[..|inputs| - 1], p) + if last.Parent? && last.parent == p then [id] else []
  }

  function KidsOfWave(wave: seq<Slot>, p: SlotId): seq<SlotId> {
    if wave == [] then []
    else
      var last := wave[|wave| - 1];
      KidsOfWave(wave[..|wave| - 1], p) + KidsOfInputs(last.id, last.inputs, p)
  }

  /** The slots with an input from `p`, in plan order; wave 0 is not scanned. */
  function KidsOf(waves: Waves, p: SlotId): seq<SlotId> {
    if |waves| <= 1 then []
    else KidsOf(waves[..|waves| - 1], p) + KidsOfWave(waves[|waves| - 1], p)
  }

  function Entry(byParent: map<SlotId, seq<SlotId>>, p: SlotId): seq<SlotId> {
    if p in byParent then byParent[p] else []
  }

  /** `r` is `base` with the slot's edges added. */
  ghost predicate HasInputs(r: map<SlotId, seq<SlotId>>, base: map<SlotId, seq<SlotId>>, id: SlotId, inputs: seq<Input>) {
    forall p :: Entry(r, p) == Entry(base, p) + KidsOfInputs(id, inputs, p)
  }

  function WithEdge(r: map<SlotId, seq<SlotId>>, id: SlotId, input: Input): map<SlotId, seq<SlotId>> {
    if input.Parent? then r[input.parent := Entry(r, input.parent) + [id]] else r
  }

  lemma EdgeAdded(r: map<SlotId, seq<SlotId>>, base: map<SlotId, seq<SlotId>>, id: SlotId, inputs: seq<Input>, i: nat)
    requires i < |inputs| && HasInputs(r, base, id, inputs[..i])
    ensures HasInputs(WithEdge(r, id, inputs[i]), base, id, inputs[..i + 1])
  {
    assert inputs[..i + 1][..i] == inputs[..i];
    forall p ensures Entry(WithEdge(r, id, inputs[i]), p) == Entry(base, p) + KidsOfInputs(id, inputs[..i + 1], p) {
      var before := KidsOfInputs(id, inputs[..i], p);
      assert Entry(r, p) == Entry(base, p) + before;
      assert before + [] == before;
      assert Entry(base, p) + (before + [id]) == Entry(base, p) + before + [id];
    }
  }

  method AddInputs(byParent: map<SlotId, seq<SlotId>>, id: SlotId, inputs: seq<Input>)
    returns (r: map<SlotId, seq<SlotId>>)
    ensures HasInputs(r, byParent, id, inputs)
  {
    r := byParent;
    assert HasInputs(r, byParent, id, inputs[..0]);
    hide HasInputs;
    for i := 0 to |inputs|
      invariant HasInputs(r, byParent, id, inputs[..i])
    {
      EdgeAdded(r, byParent, id, inputs, i);
      if inputs[i].Parent? {
        var p := inputs[i].parent;
        r := r[p := Entry(r, p) + [id]];
      }
    }
    assert inputs[..|inputs|] == inputs;
  }

  /** `r` holds the edges of the first k waves and of the first slots of the next. */
  ghost predicate HasEdges(r: map<SlotId, seq<SlotId>>, waves: Waves, wave: seq<Slot>) {
    forall p :: Entry(r, p) == KidsOf(waves, p) + KidsOfWave(wave, p)
  }

  lemma SlotAdded(r: map<SlotId, seq<SlotId>>, base: map<SlotId, seq<SlotId>>, waves: Waves, wave: seq<Slot>, s: nat)
    requires s < |wave| && HasEdges(base, waves, wave[..s]) && HasInputs(r, base, wave[s].id, wave[s].inputs)
    ensures HasEdges(r, waves, wave[..s + 1])
  {
    hide KidsOf, KidsOfInputs;
    assert wave[..s + 1][..s] == wave[..s];
    forall p ensures Entry(r, p) == KidsOf(waves, p) + KidsOfWave(wave[..s + 1], p) {
      assert Entry(base, p) == KidsOf(waves, p) + KidsOfWave(wave[..s], p);
    }
  }

  lemma WaveAdded(r: map<SlotId, seq<SlotId>>, waves: Waves, k: nat)
    requires 1 <= k < |waves| && HasEdges(r, waves[..k], waves[k])
    ensures HasEdges(r, waves[..k + 1], [])
  {
    assert waves[..k + 1][..k] == waves[..k];
    forall p ensures Entry(r, p) == KidsOf(waves[..k + 1], p) + KidsOfWave([], p) {
      assert Entry(r, p) == KidsOf(waves[..k], p) + KidsOfWave(waves[k], p);
      assert KidsOf(waves[..k + 1], p) == KidsOf(waves[..k], p) + KidsOfWave(waves[k], p);
      hide KidsOf, Entry;
      assert KidsOf(waves[..k + 1], p) + [] == KidsOf(waves[..k + 1], p);
    }
  }

  /** The parent-to-children map (fanout.ts:335-347). */
  method ByParent(waves: Waves) returns (byParent: map<SlotId, seq<SlotId>>)
    ensures forall p :: Entry(byParent, p) == KidsOf(waves, p)
  {
    byParent := map[];
    if waves == [] {
      return;
    }
    assert HasEdges(byParent, waves[..1], []);
    for k := 1 to |waves|
      invariant HasEdges(byParent, waves[..k], [])
    {
      hide HasEdges, HasInputs;
      var wave := waves[k];
      assert wave[..0] == [];
      for s := 0 to |wave|
        invariant HasEdges(byParent, waves[..k], wave[..s])
      {
        ghost var before := byParent;
        byParent := AddInputs(byParent, wave[s].id, wave[s].inputs);
        SlotAdded(byParent, before, waves[..k], wave, s);
      }
      assert wave[..|wave|] == wave;
      WaveAdded(byParent, waves, k);
    }
    assert waves[..|waves|] == waves;
    forall p ensures Entry(byParent, p) == KidsOf(waves, p) {
      assert KidsOf(waves, p) + [] == KidsOf(waves, p);
    }
  }

  lemma {:induction false} NoKids(id: SlotId, inputs: seq<Input>, p: SlotId)
    requires forall i :: 0 <= i < |inputs| ==> !inputs[i].Parent?
    ensures KidsOfInputs(id, inputs, p) == []
  {
    if inputs != [] {
      NoKids(id, inputs[..|inputs| - 1], p);
    }
  }

  lemma {:induction false} OneKid(id: SlotId, inputs: seq<Input>, p: SlotId)
    requires inputs != [] && inputs[0].Parent? && forall i :: 1 <= i < |inputs| ==> !inputs[i].Parent?
    ensures KidsOfInputs(id, inputs, p) == if inputs[0].parent == p then [id] else []
  {
    if |inputs| == 1 {
      assert inputs[..0] == [];
    } else {
      OneKid(id, inputs[..|inputs| - 1], p);
    }
  }

  lemma KidOfSlot(waves: Waves, x: SlotId, p: SlotId)
    requires Tree(waves) && InPlan(waves, x) && x.wave > 0
    ensures SlotOf(waves, x).id == x
    ensures KidsOfInputs(x, SlotOf(waves, x).inputs, p) == if ParentOf(waves, x) == p then [x] else []
  {
    assert Rooted(waves, x);
    OneKid(x, SlotOf(waves, x).inputs, p);
  }

  ghost predicate ChildOf(waves: Waves, x: SlotId, p: SlotId)
    requires Tree(waves)
  {
    InPlan(waves, x) && x.wave > 0 && ParentOf(waves, x) == p
  }

  lemma LastKid(waves: Waves, k: nat, s: nat, p: SlotId)
    requires Tree(waves) && 0 < k < |waves| && 0 < s <= |waves[k]|
    ensures KidsOfWave(waves[k][..s], p) ==
            KidsOfWave(waves[k][..s - 1], p) + if ChildOf(waves, SlotId(k, s - 1), p) then [SlotId(k, s - 1)] else []
  {
    KidOfSlot(waves, SlotId(k, s - 1), p);
    hide KidsOfInputs;
    assert waves[k][..s][..s - 1] == waves[k][..s - 1];
  }

  /** The children of `p` in the first s slots of wave k. */
  lemma {:induction false} KidsInWave(waves: Waves, k: nat, s: nat, p: SlotId)
    requires Tree(waves) && 0 < k < |waves| && s <= |waves[k]|
    ensures Distinct(KidsOfWave(waves[k][..s], p))
    ensures forall x :: x in KidsOfWave(waves[k][..s], p) <==> x.wave == k && x.slot < s && ChildOf(waves, x, p)
  {
    if s == 0 {
      assert KidsOfWave(waves[k][..0], p) == [];
    } else {
      var id := SlotId(k, s - 1);
      KidsInWave(waves, k, s - 1, p);
      LastKid(waves, k, s, p);
      hide *;
      var front := KidsOfWave(waves[k][..s - 1], p);
      DistinctCons(id, front);
      assert front + [] == front;
      forall x ensures x in KidsOfWave(waves[k][..s], p) <==> x.wave == k && x.slot < s && ChildOf(waves, x, p) {
        if x.wave == k && x.slot == s - 1 {
          assert x == id;
        }
      }
    }
  }

  lemma {:induction false} KidsUpTo(waves: Waves, k: nat, p: SlotId)
    requires Tree(waves) && 1 <= k <= |waves|
    ensures Distinct(KidsOf(waves[..k], p))
    ensures forall x :: x in KidsOf(waves[..k], p) <==> x.wave < k && ChildOf(waves, x, p)
  {
    if k > 1 {
      assert waves[..k][..k - 1] == waves[..k - 1] && waves[..k][k - 1] == waves[k - 1];
      KidsUpTo(waves, k - 1, p);
      var wave := waves[k - 1];
      assert wave[..|wave|] == wave;
      KidsInWave(waves, k - 1, |wave|, p);
      assert KidsOf(waves[..k], p) == KidsOf(waves[..k - 1], p) + KidsOfWave(wave, p);
      hide Tree, KidsOf, KidsOfWave, ParentOf;
      DistinctAppend(KidsOf(waves[..k - 1], p), KidsOfWave(wave, p));
    }
  }

  /** The children of `p`: each once, all in the next wave. */
  lemma KidsAre(waves: Waves, p: SlotId)
    requires Tree(waves)
    ensures Distinct(KidsOf(waves, p))
    ensures forall x :: x in KidsOf(waves, p) <==> ChildOf(waves, x, p)
  {
    if waves != [] {
      assert waves[..|waves|] == waves;
      KidsUpTo(waves, |waves|, p);
    }
  }

  // ---- the walk ----

  ghost predicate Below(waves: Waves, x: SlotId, top: SlotId)
    requires Tree(waves)
  {
    x == top || (InPlan(waves, x) && Descends(waves, x, top))
  }

  function Ids(waves: Waves): set<SlotId> {
    set k, s | 0 <= k < |waves| && 0 <= s < |waves[k]| :: SlotId(k, s)
  }

  lemma {:induction false} DistinctFits<T>(s: seq<T>, all: set<T>)
    requires Distinct(s) && forall x :: x in s ==> x in all
    ensures |s| <= |all|
  {
    if s != [] {
      var last := s[|s| - 1];
      assert Distinct(s[..|s| - 1]);
      forall x | x in s[..|s| - 1] ensures x in all - {last} {
      }
      DistinctFits(s[..|s| - 1], all - {last});
    }
  }

  /** `all` is what was taken from the queue followed by what is still in it. */
  ghost predicate Sound(waves: Waves, top: SlotId, out: seq<SlotId>, all: seq<SlotId>)
    requires Tree(waves)
  {
    && all != [] && all[0] == top && Distinct(all)
    && (forall x :: x in all ==> Below(waves, x, top))
    && (forall x :: x in all && x != top ==> InPlan(waves, x) && x.wave > 0 && ParentOf(waves, x) in out)
  }

  ghost predicate Closed(waves: Waves, out: seq<SlotId>, all: seq<SlotId>)
    requires Tree(waves)
  {
    forall x, p :: p in out && ChildOf(waves, x, p) ==> x in all
  }

  ghost predicate ByWave(all: seq<SlotId>) {
    forall i, j :: 0 <= i < j < |all| ==> all[i].wave <= all[j].wave
  }

  ghost predicate WithinOne(all: seq<SlotId>, queue: seq<SlotId>) {
    queue != [] ==> forall x :: x in all ==> x.wave <= queue[0].wave + 1
  }

  ghost predicate Walk(waves: Waves, top: SlotId, out: seq<SlotId>, queue: seq<SlotId>)
    requires Tree(waves)
  {
    var all := out + queue;
    Sound(waves, top, out, all) && Closed(waves, out, all) && ByWave(all) && WithinOne(all, queue)
  }

  lemma KidIsNew(waves: Waves, top: SlotId, out: seq<SlotId>, queue: seq<SlotId>, x: SlotId)
    requires Tree(waves) && queue != [] && Sound(waves, top, out, out + queue) && ChildOf(waves, x, queue[0])
    ensures x !in out + queue && Below(waves, x, top)
  {
    var cur := queue[0];
    forall i | 0 <= i < |out| ensures out[i] != cur {
      assert (out + queue)[i] == out[i] && (out + queue)[|out|] == cur;
    }
    if cur != top {
      DescendsIsLower(waves, cur, top);
    }
  }

  lemma DistinctAppend<T>(xs: seq<T>, ys: seq<T>)
    requires Distinct(xs) && Distinct(ys) && forall y :: y in ys ==> y !in xs
    ensures Distinct(xs + ys)
  {
    forall i, j | 0 <= i < j < |xs + ys| ensures (xs + ys)[i] != (xs + ys)[j] {
      if i < |xs| <= j {
        assert ys[j - |xs|] in ys;
      }
    }
  }

  lemma SoundStep(waves: Waves, top: SlotId, out: seq<SlotId>, queue: seq<SlotId>)
    requires Tree(waves) && queue != [] && Sound(waves, top, out, out + queue)
    ensures Sound(waves, top, out + [queue[0]], out + queue + KidsOf(waves, queue[0]))
  {
    var kids := KidsOf(waves, queue[0]);
    KidsAre(waves, queue[0]);
    forall x | x in kids ensures x !in out + queue && Below(waves, x, top) {
      KidIsNew(waves, top, out, queue, x);
    }
    hide Below, Tree, KidsOf, Distinct;
    DistinctAppend(out + queue, kids);
  }

  lemma ClosedStep(waves: Waves, out: seq<SlotId>, queue: seq<SlotId>)
    requires Tree(waves) && queue != [] && Closed(waves, out, out + queue)
    ensures Closed(waves, out + [queue[0]], out + queue + KidsOf(waves, queue[0]))
  {
    KidsAre(waves, queue[0]);
    hide Tree, ChildOf, KidsOf;
  }

  lemma ByWaveStep(waves: Waves, out: seq<SlotId>, queue: seq<SlotId>)
    requires Tree(waves) && queue != [] && ByWave(out + queue) && WithinOne(out + queue, queue)
    ensures ByWave(out + queue + KidsOf(waves, queue[0]))
    ensures WithinOne(out + queue + KidsOf(waves, queue[0]), queue[1..] + KidsOf(waves, queue[0]))
  {
    var all, kids, cur := out + queue, KidsOf(waves, queue[0]), queue[0];
    KidsAre(waves, cur);
    forall x | x in kids ensures x.wave == cur.wave + 1 {
      assert ChildOf(waves, x, cur);
    }
    hide KidsOf, Tree, ChildOf;
    forall i, j | 0 <= i < j < |all + kids| ensures (all + kids)[i].wave <= (all + kids)[j].wave {
      if |all| <= j {
        assert (all + kids)[j] in kids;
        assert i < |all| ==> (all + kids)[i] in all;
        assert i >= |all| ==> (all + kids)[i] in kids;
      }
    }
    var rest := queue[1..] + kids;
    if rest != [] {
      if |queue| > 1 {
        assert all[|out|] == cur && all[|out| + 1] == rest[0];
      } else {
        assert rest[0] in kids;
      }
    }
  }

  lemma HeadMoves<T>(out: seq<T>, queue: seq<T>, more: seq<T>)
    requires queue != []
    ensures out + queue + more == out + [queue[0]] + (queue[1..] + more)
  {
    assert queue == [queue[0]] + queue[1..];
  }

  lemma WalkStep(waves: Waves, top: SlotId, out: seq<SlotId>, queue: seq<SlotId>)
    requires Tree(waves) && queue != [] && Walk(waves, top, out, queue)
    ensures Walk(waves, top, out + [queue[0]], queue[1..] + KidsOf(waves, queue[0]))
  {
    HeadMoves(out, queue, KidsOf(waves, queue[0]));
    hide Sound, Closed, ByWave, WithinOne, KidsOf, Tree;
    SoundStep(waves, top, out, queue);
    ClosedStep(waves, out, queue);
    ByWaveStep(waves, out, queue);
  }

  /** A finished walk holds everything below its top. */
  lemma {:induction false} WalkCovers(waves: Waves, top: SlotId, out: seq<SlotId>, x: SlotId)
    requires Tree(waves) && Walk(waves, top, out, []) && InPlan(waves, x) && Descends(waves, x, top)
    ensures x in out
    decreases x.wave
  {
    assert out + [] == out;
    if x != top {
      var p := ParentOf(waves, x);
      WalkCovers(waves, top, out, p);
      assert ChildOf(waves, x, p);
    }
  }

  /** The slots that cannot run without `top`: `top` first, each once, earlier waves first. */
  ghost predicate Cascade(waves: Waves, top: SlotId, out: seq<SlotId>)
    requires Tree(waves)
  {
    && out != [] && out[0] == top && Distinct(out) && ByWave(out)
    && (forall x :: x in out <==> Below(waves, x, top))
  }

  /** fanoutDescendants (fanout.ts:332-357). */
  method Descendants(waves: Waves, top: SlotId) returns (out: seq<SlotId>)
    requires Tree(waves)
    ensures Cascade(waves, top, out)
  {
    var byParent := ByParent(waves);
    out := [];
    var queue: seq<SlotId> := [top];
    assert Walk(waves, top, out, queue);
    ghost var all := Ids(waves) + {top};
    while |queue| > 0
      invariant Walk(waves, top, out, queue)
      decreases |all| - |out|
    {
      WalkFits(waves, top, out, queue);
      hide Walk, KidsOf, Tree;
      var cur := queue[0];
      assert Entry(byParent, cur) == KidsOf(waves, cur);
      WalkStep(waves, top, out, queue);
      queue := queue[1..];
      out := out + [cur];
      var kids := Entry(byParent, cur);
      if kids == [] {
        assert queue + kids == queue;
      }
      queue := queue + kids;
    }
    assert out + [] == out;
    forall x ensures x in out <==> Below(waves, x, top) {
      if Below(waves, x, top) && x != top {
        WalkCovers(waves, top, out, x);
      }
    }
  }

  lemma WalkFits(waves: Waves, top: SlotId, out: seq<SlotId>, queue: seq<SlotId>)
    requires Tree(waves) && queue != [] && Walk(waves, top, out, queue)
    ensures |out| + 1 <= |Ids(waves) + {top}|
  {
    forall x | x in out + queue ensures x in Ids(waves) + {top} {
      assert x == SlotId(x.wave, x.slot);
    }
    DistinctFits(out + queue, Ids(waves) + {top});
  }
}
