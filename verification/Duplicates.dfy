/** When a block throws the duplicate error, and when the throw leaves the view as it was
    (backend/src/indexer/state.ts:175-284). The answers are read off the view before the block and
    the steps of the block, which carry the generation each transaction gives its outputs. */
module Duplicates {
  import opened Options
  import opened Refs
  import opened IndexerTypes
  import opened Replay

  /** A block in order: each transaction's inputs, then its outputs one by one, with the generation
      the transaction gives them. */
  datatype Step = Take(refs: seq<UtxoRef>) | Make(p: ProducedUtxo, generation: nat)

  function Makes(ps: seq<ProducedUtxo>, g: nat): seq<Step> {
    seq(|ps|, i requires 0 <= i < |ps| => Make(ps[i], g))
  }

  function TxSteps(v: View, tx: TxDiff): seq<Step> {
    [Take(tx.consumed)] + Makes(tx.produced, ChildGeneration(v.pool, tx.consumed))
  }

  function Steps(f: Filter, v: View, txs: seq<TxDiff>, slot: int): seq<Step> {
    if txs == [] then []
    else
      var before := txs[..|txs| - 1];
      Steps(f, v, before, slot) + TxSteps(ApplyTxs(f, v, before, slot).view, txs[|txs| - 1])
  }

  function RunStep(f: Filter, v: View, s: Step, slot: int): Outcome {
    match s
    case Take(refs) => Applied(Consume(v, refs, slot))
    case Make(p, g) => Produce(f, v, p, slot, g)
  }

  function Run(f: Filter, v: View, steps: seq<Step>, slot: int): Outcome {
    if steps == [] then Applied(v)
    else
      var before := Run(f, v, steps[..|steps| - 1], slot);
      if before.Duplicate? then before else RunStep(f, before.view, steps[|steps| - 1], slot)
  }

  lemma {:induction false} RunAppend(f: Filter, v: View, s: seq<Step>, t: seq<Step>, slot: int)
    ensures var before := Run(f, v, s, slot);
            Run(f, v, s + t, slot) == if before.Duplicate? then before else Run(f, before.view, t, slot)
  {
    if t == [] {
      assert s + t == s;
    } else {
      RunAppend(f, v, s, t[..|t| - 1], slot);
      assert (s + t)[..|s + t| - 1] == s + t[..|t| - 1];
    }
  }

  lemma {:induction false} RunMakes(f: Filter, v: View, ps: seq<ProducedUtxo>, slot: int, g: nat)
    ensures Run(f, v, Makes(ps, g), slot) == ProduceAll(f, v, ps, slot, g)
  {
    if ps != [] {
      var last := |ps| - 1;
      RunMakes(f, v, ps[..last], slot, g);
      assert Makes(ps, g)[..last] == Makes(ps[..last], g);
    }
  }

  lemma {:induction false} RunIsApply(f: Filter, v: View, txs: seq<TxDiff>, slot: int)
    ensures Run(f, v, Steps(f, v, txs, slot), slot) == ApplyTxs(f, v, txs, slot)
  {
    hide ProduceAll, Consume;
    if txs != [] {
      var last := |txs| - 1;
      var before := ApplyTxs(f, v, txs[..last], slot);
      var g := ChildGeneration(before.view.pool, txs[last].consumed);
      var take := [Take(txs[last].consumed)];
      RunIsApply(f, v, txs[..last], slot);
      RunAppend(f, v, Steps(f, v, txs[..last], slot), TxSteps(before.view, txs[last]), slot);
      RunAppend(f, before.view, take, Makes(txs[last].produced, g), slot);
      assert take[..0] == [];
      assert Run(f, before.view, take, slot) == Applied(Consume(before.view, txs[last].consumed, slot));
      RunMakes(f, Consume(before.view, txs[last].consumed, slot), txs[last].produced, slot, g);
    }
  }

  // ---- one map, one key ----

  datatype Tracked = PoolBoxes | FeeShards

  datatype Row = Absent | Box(entry: PoolEntry) | Shard(shard: FeeShard)

  function RowOf(v: View, m: Tracked, k: UtxoRef): Row {
    match m
    case PoolBoxes => if k in v.pool then Box(v.pool[k]) else Absent
    case FeeShards => if k in v.fee then Shard(v.fee[k]) else Absent
  }

  /** The map an output is checked against, by its address. */
  function MapFor(f: Filter, p: ProducedUtxo): Option<Tracked> {
    if p.address == f.mixBoxAddress then Some(PoolBoxes)
    else if p.address == f.feeContractAddress then Some(FeeShards)
    else None
  }

  /** What a step stores under `k` in `m`; boxes with an undecodable datum are checked but not stored. */
  function Stored(f: Filter, s: Step, m: Tracked, k: UtxoRef, slot: int): Row {
    if s.Take? || s.p.ref != k || MapFor(f, s.p) != Some(m) then Absent
    else if m.FeeShards? then Shard(ShardOf(s.p, slot))
    else
      var entry := ParsePoolEntry(f, s.p, slot, s.generation);
      if entry.None? then Absent else Box(entry.value)
  }

  predicate Takes(s: Step, k: UtxoRef) { s.Take? && k in s.refs }

  /** Some step in [lo, hi) spends `k`. */
  predicate TakenIn(steps: seq<Step>, lo: nat, hi: nat, k: UtxoRef)
    requires hi <= |steps|
  {
    exists q :: lo <= q < hi && Takes(steps[q], k)
  }

  /** Step `q` stores `k` and no step before `n` spends it again. */
  predicate LiveStore(f: Filter, steps: seq<Step>, q: nat, n: nat, m: Tracked, k: UtxoRef, slot: int)
    requires n <= |steps|
  {
    q < n && Stored(f, steps[q], m, k, slot) != Absent && !TakenIn(steps, q + 1, n, k)
  }

  /** `k` is held when step `n` comes: it was in the view and not spent so far, or it was stored
      earlier in the block and not spent since. */
  ghost predicate Held(f: Filter, v: View, steps: seq<Step>, n: nat, m: Tracked, k: UtxoRef, slot: int)
    requires n <= |steps|
  {
    || (RowOf(v, m, k) != Absent && !TakenIn(steps, 0, n, k))
    || (exists q: nat :: LiveStore(f, steps, q, n, m, k, slot))
  }

  /** Step `n` is an output whose reference is held in its map at its turn. */
  ghost predicate Collides(f: Filter, v: View, steps: seq<Step>, n: nat, slot: int)
    requires n < |steps|
  {
    && steps[n].Make? && MapFor(f, steps[n].p).Some?
    && Held(f, v, steps, n, MapFor(f, steps[n].p).value, steps[n].p.ref, slot)
  }

  ghost predicate NoneBefore(f: Filter, v: View, steps: seq<Step>, n: nat, slot: int)
    requires n <= |steps|
  {
    forall q :: 0 <= q < n ==> !Collides(f, v, steps, q, slot)
  }

  lemma OneStepOn(f: Filter, v: View, steps: seq<Step>, n: nat, slot: int)
    requires 0 < n <= |steps| && Run(f, v, steps[..n - 1], slot).Applied?
    ensures Run(f, v, steps[..n], slot) == RunStep(f, Run(f, v, steps[..n - 1], slot).view, steps[n - 1], slot)
  {
    assert steps[..n][..n - 1] == steps[..n - 1];
  }

  lemma StepOnRow(f: Filter, v: View, s: Step, m: Tracked, k: UtxoRef, slot: int)
    ensures RunStep(f, v, s, slot).Duplicate? <==>
              s.Make? && MapFor(f, s.p).Some? && RowOf(v, MapFor(f, s.p).value, s.p.ref) != Absent
    ensures var o := RunStep(f, v, s, slot);
            o.Duplicate? ==> o.view == v
    ensures var o := RunStep(f, v, s, slot);
            o.Applied? ==>
              RowOf(o.view, m, k) ==
              if Takes(s, k) then Absent
              else if Stored(f, s, m, k, slot) != Absent then Stored(f, s, m, k, slot)
              else RowOf(v, m, k)
  {
  }

  lemma TakenOneMore(steps: seq<Step>, lo: nat, n: nat, k: UtxoRef)
    requires 0 < n <= |steps|
    ensures TakenIn(steps, lo, n, k) <==> TakenIn(steps, lo, n - 1, k) || (lo < n && Takes(steps[n - 1], k))
    ensures lo >= n ==> !TakenIn(steps, lo, n, k)
  {
  }

  /** What a map holds under one key after `n` steps without a throw. */
  ghost predicate RowIs(f: Filter, v: View, steps: seq<Step>, n: nat, m: Tracked, k: UtxoRef, slot: int, row: Row)
    requires n <= |steps|
  {
    && (row != Absent <==> Held(f, v, steps, n, m, k, slot))
    && (RowOf(v, m, k) != Absent && !TakenIn(steps, 0, n, k) ==> row == RowOf(v, m, k))
    && (forall q: nat :: LiveStore(f, steps, q, n, m, k, slot) ==> row == Stored(f, steps[q], m, k, slot))
  }

  lemma StoringStep(f: Filter, s: Step, m: Tracked, k: UtxoRef, slot: int)
    requires Stored(f, s, m, k, slot) != Absent
    ensures !Takes(s, k) && s.Make? && s.p.ref == k && MapFor(f, s.p) == Some(m)
  {
  }

  lemma LiveOneMore(f: Filter, steps: seq<Step>, n: nat, m: Tracked, k: UtxoRef, slot: int)
    requires 0 < n <= |steps|
    ensures forall q: nat ::
              LiveStore(f, steps, q, n, m, k, slot) <==>
              || (LiveStore(f, steps, q, n - 1, m, k, slot) && !Takes(steps[n - 1], k))
              || (q == n - 1 && Stored(f, steps[n - 1], m, k, slot) != Absent)
  {
    hide Stored, Takes;
    forall q: nat
      ensures LiveStore(f, steps, q, n, m, k, slot) <==>
              || (LiveStore(f, steps, q, n - 1, m, k, slot) && !Takes(steps[n - 1], k))
              || (q == n - 1 && Stored(f, steps[n - 1], m, k, slot) != Absent)
    {
      if q < n {
        TakenOneMore(steps, q + 1, n, k);
      }
    }
  }

  lemma RowStep(f: Filter, v: View, steps: seq<Step>, n: nat, m: Tracked, k: UtxoRef, slot: int, before: Row)
    requires 0 < n <= |steps| && !Collides(f, v, steps, n - 1, slot)
    requires RowIs(f, v, steps, n - 1, m, k, slot, before)
    ensures var s := steps[n - 1];
            RowIs(f, v, steps, n, m, k, slot,
                  if Takes(s, k) then Absent
                  else if Stored(f, s, m, k, slot) != Absent then Stored(f, s, m, k, slot)
                  else before)
  {
    var last := n - 1;
    var s := steps[last];
    TakenOneMore(steps, 0, n, k);
    LiveOneMore(f, steps, n, m, k, slot);
    if Stored(f, s, m, k, slot) != Absent {
      StoringStep(f, s, m, k, slot);
      assert !Held(f, v, steps, n - 1, m, k, slot);
    }
    hide RowOf, Stored, TakenIn, LiveStore, Takes;
    if Stored(f, s, m, k, slot) != Absent {
      assert LiveStore(f, steps, last, n, m, k, slot);
    } else if !Takes(s, k) {
      if q: nat :| LiveStore(f, steps, q, last, m, k, slot) {
        assert LiveStore(f, steps, q, n, m, k, slot);
      }
    }
  }

  /** Until an output collides nothing throws, and every map holds under every key what the steps say. */
  lemma {:induction false} RowHistory(f: Filter, v: View, steps: seq<Step>, n: nat, m: Tracked, k: UtxoRef, slot: int)
    requires n <= |steps| && NoneBefore(f, v, steps, n, slot)
    ensures Run(f, v, steps[..n], slot).Applied?
    ensures RowIs(f, v, steps, n, m, k, slot, RowOf(Run(f, v, steps[..n], slot).view, m, k))
  {
    if n > 0 {
      var s := steps[n - 1];
      RowHistory(f, v, steps, n - 1, m, k, slot);
      var before := Run(f, v, steps[..n - 1], slot).view;
      if s.Make? && MapFor(f, s.p).Some? {
        RowHistory(f, v, steps, n - 1, MapFor(f, s.p).value, s.p.ref, slot);
      }
      StepOnRow(f, before, s, m, k, slot);
      OneStepOn(f, v, steps, n, slot);
      RowStep(f, v, steps, n, m, k, slot, RowOf(before, m, k));
      hide RowOf, Stored, TakenIn, LiveStore, Takes, Held, RunStep, Run;
    } else {
      assert steps[..0] == [];
    }
  }

  /** The throw itself: the view is left as it was when the output came. */
  lemma ThrowsAt(f: Filter, v: View, steps: seq<Step>, n: nat, slot: int)
    requires n < |steps| && NoneBefore(f, v, steps, n, slot) && Collides(f, v, steps, n, slot)
    ensures Run(f, v, steps[..n], slot).Applied?
    ensures Run(f, v, steps, slot) == Duplicate(Run(f, v, steps[..n], slot).view)
  {
    var m := MapFor(f, steps[n].p).value;
    RowHistory(f, v, steps, n, m, steps[n].p.ref, slot);
    OneStepOn(f, v, steps, n + 1, slot);
    StepOnRow(f, Run(f, v, steps[..n], slot).view, steps[n], m, steps[n].p.ref, slot);
    assert steps == steps[..n + 1] + steps[n + 1..];
    RunAppend(f, v, steps[..n + 1], steps[n + 1..], slot);
  }

  lemma FirstCollision(f: Filter, v: View, steps: seq<Step>, n: nat, slot: int) returns (first: nat)
    requires n < |steps| && Collides(f, v, steps, n, slot)
    ensures first <= n && Collides(f, v, steps, first, slot) && NoneBefore(f, v, steps, first, slot)
  {
    hide Collides;
    first := 0;
    while !Collides(f, v, steps, first, slot)
      invariant first <= n && NoneBefore(f, v, steps, first, slot)
      decreases n - first
    {
      first := first + 1;
    }
  }

  /** A block throws if and only if some kept output's reference is held at its turn. */
  lemma BlockThrowsIff(f: Filter, v: View, b: BlockDiff)
    ensures ApplyBlock(f, v, b).Duplicate? <==>
            exists n :: 0 <= n < |Steps(f, v, b.txs, b.slot)| && Collides(f, v, Steps(f, v, b.txs, b.slot), n, b.slot)
  {
    var steps := Steps(f, v, b.txs, b.slot);
    RunIsApply(f, v, b.txs, b.slot);
    hide Collides, Run, Steps;
    if n :| 0 <= n < |steps| && Collides(f, v, steps, n, b.slot) {
      var first := FirstCollision(f, v, steps, n, b.slot);
      ThrowsAt(f, v, steps, first, b.slot);
    } else {
      assert steps[..|steps|] == steps;
      RowHistory(f, v, steps, |steps|, PoolBoxes, UtxoRef("", 0), b.slot);
    }
  }

  // ---- when a throw leaves the view as it was ----

  predicate MakesReference(f: Filter, s: Step) {
    s.Make? && MapFor(f, s.p).None? && CarriesNft(f, s.p.assets)
  }

  /** The newest reference output among the first `n` steps. */
  predicate LastReference(f: Filter, steps: seq<Step>, q: nat, n: nat)
    requires n <= |steps|
  {
    q < n && MakesReference(f, steps[q]) && forall r :: q < r < n ==> !MakesReference(f, steps[r])
  }

  /** The first `n` steps leave reference and alarm where they were. Without a reference output that
      means that the reference was not spent; otherwise the newest of them must be the old reference
      over again, or have been spent by the transaction the old alarm tells of. */
  ghost predicate ReferenceStays(f: Filter, v: View, steps: seq<Step>, n: nat, slot: int)
    requires n <= |steps|
  {
    && ((forall q :: 0 <= q < n ==> !MakesReference(f, steps[q])) ==>
          v.reference.None? || !TakenIn(steps, 0, n, v.reference.value))
    && (forall q: nat :: LastReference(f, steps, q, n) ==>
          var k := steps[q].p.ref;
          if TakenIn(steps, q + 1, n, k) then v.reference == None && v.alarm == Some(ReferenceConsumed(k, slot))
          else v.reference == Some(k) && v.alarm == None)
  }

  /** Every box of the view spent in the first `n` steps was put back as it was, and every other box
      stored was spent again. */
  ghost predicate RowsStay(f: Filter, v: View, steps: seq<Step>, n: nat, slot: int)
    requires n <= |steps|
  {
    && (forall m, k :: RowOf(v, m, k) != Absent && TakenIn(steps, 0, n, k) ==>
          exists q: nat :: LiveStore(f, steps, q, n, m, k, slot) && Stored(f, steps[q], m, k, slot) == RowOf(v, m, k))
    && (forall q: nat, m, k :: q < n && Stored(f, steps[q], m, k, slot) != Absent && RowOf(v, m, k) == Absent ==>
          TakenIn(steps, q + 1, n, k))
  }

  lemma SameRows(v: View, w: View)
    requires forall m, k :: RowOf(v, m, k) == RowOf(w, m, k)
    ensures v.pool == w.pool && v.fee == w.fee
  {
    forall k ensures (k in v.pool <==> k in w.pool) && (k in v.pool ==> v.pool[k] == w.pool[k]) {
      assert RowOf(v, PoolBoxes, k) == RowOf(w, PoolBoxes, k);
    }
    forall k ensures (k in v.fee <==> k in w.fee) && (k in v.fee ==> v.fee[k] == w.fee[k]) {
      assert RowOf(v, FeeShards, k) == RowOf(w, FeeShards, k);
    }
  }

  lemma RowsStayIff(f: Filter, v: View, steps: seq<Step>, n: nat, slot: int)
    requires n <= |steps| && NoneBefore(f, v, steps, n, slot)
    ensures Run(f, v, steps[..n], slot).Applied?
    ensures var w := Run(f, v, steps[..n], slot).view;
            w.pool == v.pool && w.fee == v.fee <==> RowsStay(f, v, steps, n, slot)
  {
    RowHistory(f, v, steps, n, PoolBoxes, UtxoRef("", 0), slot);
    var w := Run(f, v, steps[..n], slot).view;
    forall m, k ensures RowIs(f, v, steps, n, m, k, slot, RowOf(w, m, k)) {
      RowHistory(f, v, steps, n, m, k, slot);
    }
    hide Run, NoneBefore, Stored, TakenIn;
    if RowsStay(f, v, steps, n, slot) {
      forall m, k ensures RowOf(v, m, k) == RowOf(w, m, k) {
        assert RowIs(f, v, steps, n, m, k, slot, RowOf(w, m, k));
        hide RowOf;
      }
      SameRows(v, w);
    }
    if w.pool == v.pool && w.fee == v.fee {
      forall m, k ensures RowOf(v, m, k) == RowOf(w, m, k) {
      }
      hide RowOf;
      forall m, k | RowOf(v, m, k) != Absent && TakenIn(steps, 0, n, k)
        ensures exists q: nat :: LiveStore(f, steps, q, n, m, k, slot) && Stored(f, steps[q], m, k, slot) == RowOf(v, m, k)
      {
        assert Held(f, v, steps, n, m, k, slot);
      }
      forall q: nat, m, k | q < n && Stored(f, steps[q], m, k, slot) != Absent && RowOf(v, m, k) == Absent
        ensures TakenIn(steps, q + 1, n, k)
      {
        assert !Held(f, v, steps, n, m, k, slot);
        assert !LiveStore(f, steps, q, n, m, k, slot);
      }
    }
  }

  /** The reference `start`, current before step `lo`, after step `n`: gone with an alarm if it was spent. */
  ghost predicate KeptOrGone(start: Option<UtxoRef>, alarm: Option<Alarm>, steps: seq<Step>, lo: nat, n: nat, slot: int, w: View)
    requires n <= |steps|
  {
    if start.Some? && TakenIn(steps, lo, n, start.value)
    then w.reference == None && w.alarm == Some(ReferenceConsumed(start.value, slot))
    else w.reference == start && w.alarm == alarm
  }

  /** The reference that step `q` makes, after step `n`. */
  ghost predicate MadeAt(steps: seq<Step>, q: nat, n: nat, slot: int, w: View)
    requires n <= |steps|
  {
    q < n && steps[q].Make? && KeptOrGone(Some(steps[q].p.ref), None, steps, q + 1, n, slot, w)
  }

  /** Reference and alarm after `n` steps. */
  ghost predicate ReferenceIs(f: Filter, v: View, steps: seq<Step>, n: nat, slot: int, w: View)
    requires n <= |steps|
  {
    && ((forall q :: 0 <= q < n ==> !MakesReference(f, steps[q])) ==> KeptOrGone(v.reference, v.alarm, steps, 0, n, slot, w))
    && (forall q: nat :: LastReference(f, steps, q, n) ==> MadeAt(steps, q, n, slot, w))
  }

  /** What one step does to reference and alarm. */
  ghost predicate ReferenceMoves(f: Filter, s: Step, slot: int, before: View, after: View) {
    if MakesReference(f, s) then after.reference == Some(s.p.ref) && after.alarm == None
    else if before.reference.Some? && Takes(s, before.reference.value)
    then after.reference == None && after.alarm == Some(ReferenceConsumed(before.reference.value, slot))
    else after.reference == before.reference && after.alarm == before.alarm
  }

  lemma StepOnReference(f: Filter, v: View, s: Step, slot: int)
    requires RunStep(f, v, s, slot).Applied?
    ensures ReferenceMoves(f, s, slot, v, RunStep(f, v, s, slot).view)
  {
  }

  lemma {:induction false} ReferenceHistory(f: Filter, v: View, steps: seq<Step>, n: nat, slot: int)
    requires n <= |steps| && Run(f, v, steps[..n], slot).Applied?
    ensures ReferenceIs(f, v, steps, n, slot, Run(f, v, steps[..n], slot).view)
  {
    if n > 0 {
      assert steps[..n][..n - 1] == steps[..n - 1];
      ReferenceHistory(f, v, steps, n - 1, slot);
      OneStepOn(f, v, steps, n, slot);
      StepOnReference(f, Run(f, v, steps[..n - 1], slot).view, steps[n - 1], slot);
      ReferenceStep(f, v, steps, n, slot, Run(f, v, steps[..n - 1], slot).view, Run(f, v, steps[..n], slot).view);
    } else {
      assert steps[..0] == [];
    }
  }

  lemma KeepStep(f: Filter, start: Option<UtxoRef>, alarm: Option<Alarm>, steps: seq<Step>, lo: nat, n: nat, slot: int, before: View, after: View)
    requires lo < n <= |steps| && KeptOrGone(start, alarm, steps, lo, n - 1, slot, before)
    requires !MakesReference(f, steps[n - 1]) && ReferenceMoves(f, steps[n - 1], slot, before, after)
    ensures KeptOrGone(start, alarm, steps, lo, n, slot, after)
  {
    if start.Some? {
      TakenOneMore(steps, lo, n, start.value);
    }
    hide TakenIn, Takes, MakesReference;
  }

  lemma LastBefore(f: Filter, steps: seq<Step>, q: nat, n: nat)
    requires 0 < n <= |steps| && LastReference(f, steps, q, n) && !MakesReference(f, steps[n - 1])
    ensures q < n - 1 && LastReference(f, steps, q, n - 1)
  {
    hide MakesReference;
  }

  lemma LastIsMaker(f: Filter, steps: seq<Step>, q: nat, n: nat)
    requires 0 < n <= |steps| && LastReference(f, steps, q, n) && MakesReference(f, steps[n - 1])
    ensures q == n - 1
  {
    hide MakesReference;
  }

  lemma MadeStep(f: Filter, steps: seq<Step>, q: nat, n: nat, slot: int, before: View, after: View)
    requires 0 < n <= |steps| && ReferenceMoves(f, steps[n - 1], slot, before, after) && LastReference(f, steps, q, n)
    requires LastReference(f, steps, q, n - 1) ==> MadeAt(steps, q, n - 1, slot, before)
    ensures MadeAt(steps, q, n, slot, after)
  {
    if MakesReference(f, steps[n - 1]) {
      LastIsMaker(f, steps, q, n);
      hide Takes, MapFor, LastReference;
    } else {
      LastBefore(f, steps, q, n);
      hide ReferenceMoves, KeptOrGone, MapFor, LastReference;
      KeepStep(f, Some(steps[q].p.ref), None, steps, q + 1, n, slot, before, after);
    }
  }

  lemma NoneMadeStep(f: Filter, v: View, steps: seq<Step>, n: nat, slot: int, before: View)
    requires 0 < n <= |steps| && ReferenceIs(f, v, steps, n - 1, slot, before)
    requires forall q :: 0 <= q < n ==> !MakesReference(f, steps[q])
    ensures KeptOrGone(v.reference, v.alarm, steps, 0, n - 1, slot, before)
  {
    hide MakesReference, LastReference, KeptOrGone;
  }

  lemma ReferenceStep(f: Filter, v: View, steps: seq<Step>, n: nat, slot: int, before: View, after: View)
    requires 0 < n <= |steps| && ReferenceIs(f, v, steps, n - 1, slot, before)
    requires ReferenceMoves(f, steps[n - 1], slot, before, after)
    ensures ReferenceIs(f, v, steps, n, slot, after)
  {
    hide TakenIn, Takes, MakesReference, ReferenceMoves, KeptOrGone, LastReference;
    if forall q :: 0 <= q < n ==> !MakesReference(f, steps[q]) {
      NoneMadeStep(f, v, steps, n, slot, before);
      KeepStep(f, v.reference, v.alarm, steps, 0, n, slot, before, after);
    }
    hide MadeAt;
    forall q: nat | LastReference(f, steps, q, n) ensures MadeAt(steps, q, n, slot, after) {
      MadeStep(f, steps, q, n, slot, before, after);
    }
  }

  lemma {:induction false} SomeLastReference(f: Filter, steps: seq<Step>, q: nat, n: nat) returns (last: nat)
    requires q < n <= |steps| && MakesReference(f, steps[q])
    ensures LastReference(f, steps, last, n)
  {
    if q == n - 1 || MakesReference(f, steps[n - 1]) {
      last := n - 1;
    } else {
      last := SomeLastReference(f, steps, q, n - 1);
    }
  }

  lemma ReferenceStaysIff(f: Filter, v: View, steps: seq<Step>, n: nat, slot: int)
    requires n <= |steps| && Run(f, v, steps[..n], slot).Applied?
    ensures var w := Run(f, v, steps[..n], slot).view;
            w.reference == v.reference && w.alarm == v.alarm <==> ReferenceStays(f, v, steps, n, slot)
  {
    ReferenceHistory(f, v, steps, n, slot);
    if q :| 0 <= q < n && MakesReference(f, steps[q]) {
      var last := SomeLastReference(f, steps, q, n);
    }
  }

  /** Given that a block throws at step `n`, the view is as it was if and only if every box spent before
      that step was put back as it was, every other box stored before it was spent again, and reference
      and alarm did not move. */
  lemma ThrowLeavesViewIff(f: Filter, v: View, b: BlockDiff, n: nat)
    requires var steps := Steps(f, v, b.txs, b.slot);
             n < |steps| && Collides(f, v, steps, n, b.slot) && NoneBefore(f, v, steps, n, b.slot)
    ensures ApplyBlock(f, v, b).Duplicate?
    ensures var steps := Steps(f, v, b.txs, b.slot);
            ApplyBlock(f, v, b).view == v <==>
            RowsStay(f, v, steps, n, b.slot) && ReferenceStays(f, v, steps, n, b.slot)
  {
    var steps := Steps(f, v, b.txs, b.slot);
    RunIsApply(f, v, b.txs, b.slot);
    ThrowsAt(f, v, steps, n, b.slot);
    RowsStayIff(f, v, steps, n, b.slot);
    ReferenceStaysIff(f, v, steps, n, b.slot);
    hide *;
  }

  /** No step spends what that step or a later one makes, as in every block of a chain. */
  ghost predicate Causal(steps: seq<Step>) {
    forall q, r :: 0 <= q < r < |steps| && steps[r].Make? ==> !Takes(steps[q], steps[r].p.ref)
  }

  lemma CausalStoresAreNew(f: Filter, v: View, steps: seq<Step>, n: nat, q: nat, m: Tracked, k: UtxoRef, slot: int)
    requires Causal(steps) && q < n <= |steps| && NoneBefore(f, v, steps, n, slot)
    requires Stored(f, steps[q], m, k, slot) != Absent
    ensures RowOf(v, m, k) == Absent
  {
    StoringStep(f, steps[q], m, k, slot);
    assert !Collides(f, v, steps, q, slot);
    hide RowOf, Stored, NoneBefore, LiveStore, Takes;
  }

  /** No box of the view was spent in the first `n` steps, and every box stored was spent again. */
  ghost predicate NothingSpentNothingKept(f: Filter, v: View, steps: seq<Step>, n: nat, slot: int)
    requires n <= |steps|
  {
    && (forall m, k :: RowOf(v, m, k) != Absent ==> !TakenIn(steps, 0, n, k))
    && (forall q: nat, m, k :: q < n && Stored(f, steps[q], m, k, slot) != Absent ==> TakenIn(steps, q + 1, n, k))
  }

  /** In a causal block nothing is put back, so the rows survive only untouched. */
  lemma CausalRowsStayIff(f: Filter, v: View, steps: seq<Step>, n: nat, slot: int)
    requires Causal(steps) && n <= |steps| && NoneBefore(f, v, steps, n, slot)
    ensures RowsStay(f, v, steps, n, slot) <==> NothingSpentNothingKept(f, v, steps, n, slot)
  {
    forall q: nat, m, k | q < n && Stored(f, steps[q], m, k, slot) != Absent ensures RowOf(v, m, k) == Absent {
      CausalStoresAreNew(f, v, steps, n, q, m, k, slot);
    }
    hide Causal, NoneBefore, Stored, RowOf, TakenIn;
    if RowsStay(f, v, steps, n, slot) {
      forall q: nat, m, k | q < n && Stored(f, steps[q], m, k, slot) != Absent ensures TakenIn(steps, q + 1, n, k) {
        assert RowOf(v, m, k) == Absent;
      }
    } else {
      assert !NothingSpentNothingKept(f, v, steps, n, slot);
    }
  }

  /** In a causal block the view survives the throw if and only if no box of it was spent before, every
      box stored before was spent again, and reference and alarm did not move. */
  lemma ThrowInCausalBlock(f: Filter, v: View, b: BlockDiff, n: nat)
    requires var steps := Steps(f, v, b.txs, b.slot);
             n < |steps| && Collides(f, v, steps, n, b.slot) && NoneBefore(f, v, steps, n, b.slot) && Causal(steps)
    ensures var steps := Steps(f, v, b.txs, b.slot);
            ApplyBlock(f, v, b).view == v <==>
            NothingSpentNothingKept(f, v, steps, n, b.slot) && ReferenceStays(f, v, steps, n, b.slot)
  {
    ThrowLeavesViewIff(f, v, b, n);
    CausalRowsStayIff(f, v, Steps(f, v, b.txs, b.slot), n, b.slot);
    hide *;
  }
}
