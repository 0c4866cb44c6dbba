/** A plain replay of blocks, without any undo bookkeeping: the reference the stateful indexer
    is compared with. */
module Replay {
  import opened Options
  import opened Refs
  import opened IndexerTypes
  import opened Permutations

  datatype View = View(
    pool: map<UtxoRef, PoolEntry>,
    fee: map<UtxoRef, FeeShard>,
    reference: Option<UtxoRef>,
    alarm: Option<Alarm>)

  /** `Duplicate` is the thrown error; it carries the half-applied view left behind. */
  datatype Outcome = Applied(view: View) | Duplicate(view: View)

  predicate SpendsReference(v: View, refs: seq<UtxoRef>) {
    v.reference.Some? && v.reference.value in refs
  }

  /** The effect of a transaction's inputs. */
  function Consume(v: View, refs: seq<UtxoRef>, slot: int): View {
    var gone := Elements(refs);
    View(v.pool - gone, v.fee - gone,
         if SpendsReference(v, refs) then None else v.reference,
         if SpendsReference(v, refs) then Some(ReferenceConsumed(v.reference.value, slot)) else v.alarm)
  }

  /** One more than the largest generation among the boxes spent, 0 when no box is spent. */
  ghost predicate IsChildGeneration(pool: map<UtxoRef, PoolEntry>, refs: seq<UtxoRef>, g: nat) {
    if exists r :: r in refs && r in pool then
      && (exists r :: r in refs && r in pool && pool[r].generation + 1 == g)
      && (forall r :: r in refs && r in pool ==> pool[r].generation < g)
    else g == 0
  }

  function ChildGeneration(pool: map<UtxoRef, PoolEntry>, refs: seq<UtxoRef>): (g: nat)
    ensures IsChildGeneration(pool, refs, g)
  {
    if refs == [] then 0
    else
      var last := |refs| - 1;
      var g := ChildGeneration(pool, refs[..last]);
      assert forall r :: r in refs <==> r in refs[..last] || r == refs[last];
      if refs[last] in pool && pool[refs[last]].generation >= g then pool[refs[last]].generation + 1 else g
  }

  function Produce(f: Filter, v: View, p: ProducedUtxo, slot: int, generation: nat): Outcome {
    if p.address == f.mixBoxAddress then
      if p.ref in v.pool then Duplicate(v)
      else
        var entry := ParsePoolEntry(f, p, slot, generation);
        Applied(if entry.None? then v else v.(pool := v.pool[p.ref := entry.value]))
    else if p.address == f.feeContractAddress then
      if p.ref in v.fee then Duplicate(v)
      else Applied(v.(fee := v.fee[p.ref := ShardOf(p, slot)]))
    else if CarriesNft(f, p.assets) then
      Applied(v.(reference := Some(p.ref), alarm := None))
    else Applied(v)
  }

  function ProduceAll(f: Filter, v: View, ps: seq<ProducedUtxo>, slot: int, generation: nat): Outcome {
    if ps == [] then Applied(v)
    else
      var before := ProduceAll(f, v, ps[..|ps| - 1], slot, generation);
      if before.Duplicate? then before else Produce(f, before.view, ps[|ps| - 1], slot, generation)
  }

  function ApplyTx(f: Filter, v: View, tx: TxDiff, slot: int): Outcome {
    ProduceAll(f, Consume(v, tx.consumed, slot), tx.produced, slot, ChildGeneration(v.pool, tx.consumed))
  }

  function ApplyTxs(f: Filter, v: View, txs: seq<TxDiff>, slot: int): Outcome {
    if txs == [] then Applied(v)
    else
      var before := ApplyTxs(f, v, txs[..|txs| - 1], slot);
      if before.Duplicate? then before else ApplyTx(f, before.view, txs[|txs| - 1], slot)
  }

  function ApplyBlock(f: Filter, v: View, b: BlockDiff): Outcome {
    ApplyTxs(f, v, b.txs, b.slot)
  }

  function ReplayChain(f: Filter, v: View, blocks: seq<BlockDiff>): Outcome {
    if blocks == [] then Applied(v)
    else
      var before := ReplayChain(f, v, blocks[..|blocks| - 1]);
      if before.Duplicate? then before else ApplyBlock(f, before.view, blocks[|blocks| - 1])
  }

  /** Every entry sits under the key its own fields name. */
  ghost predicate Keyed(v: View) {
    && (forall k :: k in v.pool ==> v.pool[k].Key() == k)
    && (forall k :: k in v.fee ==> v.fee[k].Key() == k)
  }

  // ---- chains whose outputs are fresh never hit the duplicate error ----

  function BlockOutputs(txs: seq<TxDiff>): seq<UtxoRef> {
    if txs == [] then []
    else BlockOutputs(txs[..|txs| - 1]) + OutputRefs(txs[|txs| - 1].produced)
  }

  function ChainOutputs(blocks: seq<BlockDiff>): seq<UtxoRef> {
    if blocks == [] then []
    else ChainOutputs(blocks[..|blocks| - 1]) + BlockOutputs(blocks[|blocks| - 1].txs)
  }

  /** No output reference of the chain is created twice or already known to the starting view. */
  ghost predicate Fresh(v: View, outputs: seq<UtxoRef>) {
    Distinct(outputs) && forall r :: r in outputs ==> r !in v.pool && r !in v.fee
  }

  /** The keys of `v'` come from `v` or from `outputs`. */
  ghost predicate KeysWithin(v: View, v': View, outputs: seq<UtxoRef>) {
    && (forall k :: k in v'.pool ==> k in v.pool || k in outputs)
    && (forall k :: k in v'.fee ==> k in v.fee || k in outputs)
  }

  lemma DistinctPrefix<T>(s: seq<T>, t: seq<T>)
    requires Distinct(s + t)
    ensures Distinct(s) && Distinct(t)
    ensures forall x :: x in s ==> x !in t
  {
    assert s == (s + t)[..|s|];
    assert t == (s + t)[|s|..];
    forall i, j | 0 <= i < |s| && 0 <= j < |t| ensures s[i] != t[j] {
      assert (s + t)[i] == s[i] && (s + t)[|s| + j] == t[j];
    }
  }

  function OutputRefs(ps: seq<ProducedUtxo>): seq<UtxoRef> {
    seq(|ps|, i requires 0 <= i < |ps| => ps[i].ref)
  }

  lemma {:induction false} FreshOutputsApply(f: Filter, v: View, ps: seq<ProducedUtxo>, slot: int, g: nat)
    requires Fresh(v, OutputRefs(ps))
    ensures var o := ProduceAll(f, v, ps, slot, g);
            o.Applied? && KeysWithin(v, o.view, OutputRefs(ps))
  {
    if ps != [] {
      var last := |ps| - 1;
      assert OutputRefs(ps) == OutputRefs(ps[..last]) + [ps[last].ref];
      DistinctPrefix(OutputRefs(ps[..last]), [ps[last].ref]);
      FreshOutputsApply(f, v, ps[..last], slot, g);
      assert ps[last].ref in OutputRefs(ps);
      var o := ProduceAll(f, v, ps[..last], slot, g);
      assert ps[last].ref !in o.view.pool && ps[last].ref !in o.view.fee by {
        assert ps[last].ref in [ps[last].ref];
      }
    }
  }

  lemma {:induction false} FreshBlockApplies(f: Filter, v: View, txs: seq<TxDiff>, slot: int)
    requires Fresh(v, BlockOutputs(txs))
    ensures var o := ApplyTxs(f, v, txs, slot);
            o.Applied? && KeysWithin(v, o.view, BlockOutputs(txs))
  {
    if txs != [] {
      var last := |txs| - 1;
      var outs := OutputRefs(txs[last].produced);
      assert BlockOutputs(txs) == BlockOutputs(txs[..last]) + outs;
      DistinctPrefix(BlockOutputs(txs[..last]), outs);
      FreshBlockApplies(f, v, txs[..last], slot);
      var before := ApplyTxs(f, v, txs[..last], slot).view;
      var mid := Consume(before, txs[last].consumed, slot);
      assert Fresh(mid, outs) by {
        forall r | r in outs ensures r !in mid.pool && r !in mid.fee {
          assert r in BlockOutputs(txs);
          assert r !in BlockOutputs(txs[..last]);
        }
      }
      FreshOutputsApply(f, mid, txs[last].produced, slot, ChildGeneration(before.pool, txs[last].consumed));
    }
  }

  /** state.ts's duplicate error never fires on a chain whose output references are fresh. */
  lemma {:induction false} FreshChainNeverDuplicates(f: Filter, v: View, blocks: seq<BlockDiff>)
    requires Fresh(v, ChainOutputs(blocks))
    ensures var o := ReplayChain(f, v, blocks);
            o.Applied? && KeysWithin(v, o.view, ChainOutputs(blocks))
  {
    if blocks != [] {
      var last := |blocks| - 1;
      var outs := BlockOutputs(blocks[last].txs);
      assert ChainOutputs(blocks) == ChainOutputs(blocks[..last]) + outs;
      DistinctPrefix(ChainOutputs(blocks[..last]), outs);
      FreshChainNeverDuplicates(f, v, blocks[..last]);
      var before := ReplayChain(f, v, blocks[..last]).view;
      assert Fresh(before, outs) by {
        forall r | r in outs ensures r !in before.pool && r !in before.fee {
          assert r in ChainOutputs(blocks);
          assert r !in ChainOutputs(blocks[..last]);
        }
      }
      FreshBlockApplies(f, before, blocks[last].txs, blocks[last].slot);
    }
  }

  // ---- what the undo record remembers about the reference UTxO ----

  /** The reference the undo record restores: the one last spent inside the block, or the
      block's starting reference when none was spent. */
  function SpentBefore(f: Filter, v: View, txs: seq<TxDiff>, slot: int): Option<UtxoRef> {
    if txs == [] then v.reference
    else
      var last := |txs| - 1;
      var before := ApplyTxs(f, v, txs[..last], slot);
      if before.Applied? && SpendsReference(before.view, txs[last].consumed) then before.view.reference
      else SpentBefore(f, v, txs[..last], slot)
  }

  /** A reference still in place at the end of a prefix was there at the start or was produced. */
  lemma {:induction false} ReferenceOrigin(f: Filter, v: View, ps: seq<ProducedUtxo>, slot: int, g: nat)
    ensures var o := ProduceAll(f, v, ps, slot, g).view;
            o.reference == v.reference || (o.reference.Some? && o.reference.value in OutputRefs(ps))
  {
    if ps != [] {
      var last := |ps| - 1;
      assert OutputRefs(ps) == OutputRefs(ps[..last]) + [ps[last].ref];
      ReferenceOrigin(f, v, ps[..last], slot, g);
    }
  }

  lemma {:induction false} ReferenceOriginInBlock(f: Filter, v: View, txs: seq<TxDiff>, slot: int)
    ensures var o := ApplyTxs(f, v, txs, slot).view;
            o.reference.None? || o.reference == v.reference || o.reference.value in BlockOutputs(txs)
  {
    if txs != [] {
      var last := |txs| - 1;
      ReferenceOriginInBlock(f, v, txs[..last], slot);
      var before := ApplyTxs(f, v, txs[..last], slot);
      if before.Applied? {
        ReferenceOrigin(f, Consume(before.view, txs[last].consumed, slot), txs[last].produced, slot,
                        ChildGeneration(before.view.pool, txs[last].consumed));
      }
      assert BlockOutputs(txs) == BlockOutputs(txs[..last]) + OutputRefs(txs[last].produced);
    }
  }

  /** No transaction spends, as the current reference, an output made earlier in the same block. */
  ghost predicate SpendsNoOwnReference(f: Filter, v: View, txs: seq<TxDiff>, slot: int) {
    forall i :: 0 <= i < |txs| ==> !SpendsOwnReference(f, v, txs, slot, i)
  }

  predicate SpendsOwnReference(f: Filter, v: View, txs: seq<TxDiff>, slot: int, i: nat)
    requires i < |txs|
  {
    var o := ApplyTxs(f, v, txs[..i], slot);
    o.Applied? && SpendsReference(o.view, txs[i].consumed) && o.view.reference.value in BlockOutputs(txs[..i])
  }

  lemma OwnSpendInPrefix(f: Filter, v: View, txs: seq<TxDiff>, slot: int, i: nat)
    requires i + 1 < |txs|
    ensures SpendsOwnReference(f, v, txs, slot, i) == SpendsOwnReference(f, v, txs[..|txs| - 1], slot, i)
  {
    assert txs[..|txs| - 1][..i] == txs[..i];
  }

  lemma {:induction false} SafeBlockRemembersReference(f: Filter, v: View, txs: seq<TxDiff>, slot: int)
    requires SpendsNoOwnReference(f, v, txs, slot)
    ensures SpentBefore(f, v, txs, slot) == v.reference
  {
    if txs != [] {
      var last := |txs| - 1;
      forall i | 0 <= i < last ensures !SpendsOwnReference(f, v, txs[..last], slot, i) {
        OwnSpendInPrefix(f, v, txs, slot, i);
      }
      SafeBlockRemembersReference(f, v, txs[..last], slot);
      ReferenceOriginInBlock(f, v, txs[..last], slot);
      assert !SpendsOwnReference(f, v, txs, slot, last);
    }
  }

  /** Once the starting reference is displaced, fresh outputs never bring it back. */
  lemma {:induction false} DisplacedStaysDisplaced(f: Filter, v: View, txs: seq<TxDiff>, slot: int, i: nat)
    requires i <= |txs| && v.reference.Some? && v.reference.value !in BlockOutputs(txs)
    requires ApplyTxs(f, v, txs[..i], slot).view.reference != v.reference
    ensures ApplyTxs(f, v, txs, slot).view.reference != v.reference
  {
    if i == |txs| {
      assert txs[..i] == txs;
    } else {
      var last := |txs| - 1;
      assert txs[..last][..i] == txs[..i];
      assert BlockOutputs(txs) == BlockOutputs(txs[..last]) + OutputRefs(txs[last].produced);
      DisplacedStaysDisplaced(f, v, txs[..last], slot, i);
      var before := ApplyTxs(f, v, txs[..last], slot);
      if before.Applied? {
        ReferenceOrigin(f, Consume(before.view, txs[last].consumed, slot), txs[last].produced, slot,
                        ChildGeneration(before.view.pool, txs[last].consumed));
      }
    }
  }

  lemma {:induction false} PrefixOutputs(txs: seq<TxDiff>, i: nat)
    requires i <= |txs|
    ensures forall r :: r in BlockOutputs(txs[..i]) ==> r in BlockOutputs(txs)
  {
    if i < |txs| {
      PrefixOutputs(txs[..|txs| - 1], i);
      assert txs[..|txs| - 1][..i] == txs[..i];
    } else {
      assert txs[..i] == txs;
    }
  }

  lemma {:induction false} OwnSpendForgetsReference(f: Filter, v: View, txs: seq<TxDiff>, slot: int, i: nat)
    requires i < |txs| && SpendsOwnReference(f, v, txs, slot, i)
    requires v.reference.Some? ==> v.reference.value !in BlockOutputs(txs)
    ensures var s := SpentBefore(f, v, txs, slot); s.Some? && s.value in BlockOutputs(txs)
  {
    var last := |txs| - 1;
    PrefixOutputs(txs, last);
    if i < last {
      var before := ApplyTxs(f, v, txs[..last], slot);
      OwnSpendInPrefix(f, v, txs, slot, i);
      OwnSpendForgetsReference(f, v, txs[..last], slot, i);
      if before.Applied? && SpendsReference(before.view, txs[last].consumed) {
        ReferenceOriginInBlock(f, v, txs[..last], slot);
        if v.reference.Some? {
          PrefixOutputs(txs, i);
          assert txs[..last][..i] == txs[..i];
          DisplacedStaysDisplaced(f, v, txs[..last], slot, i);
        }
      }
    }
  }

  /** The undo record restores the starting reference exactly when no transaction of the block
      spends a reference UTxO the block itself created. */
  lemma RemembersReferenceIff(f: Filter, v: View, b: BlockDiff)
    requires Fresh(v, BlockOutputs(b.txs)) && (v.reference.Some? ==> v.reference.value !in BlockOutputs(b.txs))
    ensures SpentBefore(f, v, b.txs, b.slot) == v.reference <==> SpendsNoOwnReference(f, v, b.txs, b.slot)
  {
    if SpendsNoOwnReference(f, v, b.txs, b.slot) {
      SafeBlockRemembersReference(f, v, b.txs, b.slot);
    } else {
      var i :| 0 <= i < |b.txs| && SpendsOwnReference(f, v, b.txs, b.slot, i);
      OwnSpendForgetsReference(f, v, b.txs, b.slot, i);
    }
  }
}
