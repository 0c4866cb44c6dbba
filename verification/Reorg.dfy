/** Whole runs of forward blocks and rollbacks (backend/src/indexer/state.ts). */
module Reorg {
  import opened Options
  import opened Refs
  import opened IndexerTypes
  import opened Replay
  import opened UndoLog
  import opened IndexerState

  datatype Event = Forward(block: BlockDiff) | Rollback(target: ChainTip)

  ghost predicate UniqueHashes(chain: seq<BlockDiff>) {
    forall i, j :: 0 <= i < j < |chain| ==> chain[i].blockHash != chain[j].blockHash
  }

  /** The chain itself: a forward block extends it, a rollback cuts it after the target block. */
  function NextChain(chain: seq<BlockDiff>, e: Event): seq<BlockDiff> {
    match e
    case Forward(b) => chain + [b]
    case Rollback(t) => chain[..NewestMatch(chain, t)]
  }

  function Survivors(chain: seq<BlockDiff>, events: seq<Event>): seq<BlockDiff>
    decreases |events|
  {
    if events == [] then chain else Survivors(NextChain(chain, events[0]), events[1..])
  }

  /** How many of the newest blocks can still be rolled back after the event. */
  function NextDepth(chain: seq<BlockDiff>, depth: nat, e: Event): int {
    match e
    case Forward(b) => if depth < ROLLBACK_BUFFER_BLOCKS then depth + 1 else depth
    case Rollback(t) => NewestMatch(chain, t) + depth - |chain|
  }

  /** A forward block has a fresh hash, applies without a duplicate and spends no reference UTxO of its own;
      a rollback names one of the `depth` newest blocks. Duplicates.BlockThrowsIff says which blocks apply;
      those with fresh outputs do (FreshStepApplies). */
  ghost predicate GoodEvent(f: Filter, base: View, chain: seq<BlockDiff>, depth: nat, e: Event) {
    match e
    case Forward(b) =>
      && (forall i :: 0 <= i < |chain| ==> chain[i].blockHash != b.blockHash)
      && ReplayChain(f, base, chain + [b]).Applied?
      && SpendsNoOwnReference(f, ReplayChain(f, base, chain).view, b.txs, b.slot)
    case Rollback(t) =>
      var n := NewestMatch(chain, t);
      n > 0 && n + depth > |chain| && TipOf(chain[n - 1]) == t
  }

  ghost predicate Faithful(f: Filter, base: View, chain: seq<BlockDiff>, depth: nat, events: seq<Event>)
    decreases |events|
  {
    events == [] ||
    (GoodEvent(f, base, chain, depth, events[0]) &&
     Faithful(f, base, NextChain(chain, events[0]), NextDepth(chain, depth, events[0]), events[1..]))
  }

  /** On a chain with distinct hashes a rollback to a buffered block keeps exactly the blocks up to it. */
  lemma KeptUpToTarget(chain: seq<BlockDiff>, buffer: seq<BlockDiff>, tip: Option<ChainTip>, t: ChainTip)
    requires UniqueHashes(chain) && |buffer| <= |chain| && buffer == chain[|chain| - |buffer|..]
    requires chain != [] && tip == Some(TipOf(chain[|chain| - 1]))
    requires NewestMatch(chain, t) + |buffer| > |chain|
    ensures !TooDeep(buffer, tip, t)
    ensures Kept(buffer, tip, t) == NewestMatch(chain, t) - (|chain| - |buffer|)
  {
    var n := NewestMatch(chain, t);
    var k := n - (|chain| - |buffer|);
    assert buffer[k - 1] == chain[n - 1];
    assert SamePoint(buffer[k - 1], t);
    var m := NewestMatch(buffer, t);
    assert m >= k;
    assert buffer[m - 1] == chain[|chain| - |buffer| + m - 1];
    if tip.value.blockHash == t.blockHash {
      assert n == |chain|;
    }
  }

  method FollowOne(s: IndexerState, e: Event)
    requires s.Valid() && s.AtTip() && UniqueHashes(s.chain)
    requires GoodEvent(s.filter, s.base, s.chain, |s.buffer|, e)
    modifies s
    ensures s.Valid() && s.AtTip() && UniqueHashes(s.chain)
    ensures s.base == old(s.base) && s.baseTip == old(s.baseTip)
    ensures s.chain == NextChain(old(s.chain), e)
    ensures |s.buffer| == NextDepth(old(s.chain), |old(s.buffer)|, e)
  {
    match e
    case Forward(b) => FollowForward(s, b);
    case Rollback(t) => FollowRollback(s, t);
  }

  method FollowForward(s: IndexerState, b: BlockDiff)
    requires s.Valid() && s.AtTip() && UniqueHashes(s.chain)
    requires GoodEvent(s.filter, s.base, s.chain, |s.buffer|, Forward(b))
    modifies s
    ensures s.Valid() && s.AtTip() && UniqueHashes(s.chain)
    ensures s.base == old(s.base) && s.baseTip == old(s.baseTip) && s.chain == old(s.chain) + [b]
    ensures |s.buffer| == NextDepth(old(s.chain), |old(s.buffer)|, Forward(b))
  {
    StepApplies(s.filter, s.base, s.chain, b);
    SafeBlockRemembersReference(s.filter, s.CurrentView(), b.txs, b.slot);
    hide History, UndoView, ApplyTxs, ReplayChain, SpentBefore, Keyed, SpendsNoOwnReference;
    var ok := s.ApplyForward(b);
  }

  method FollowRollback(s: IndexerState, t: ChainTip)
    requires s.Valid() && s.AtTip() && UniqueHashes(s.chain)
    requires GoodEvent(s.filter, s.base, s.chain, |s.buffer|, Rollback(t))
    modifies s
    ensures s.Valid() && s.AtTip() && UniqueHashes(s.chain)
    ensures s.base == old(s.base) && s.baseTip == old(s.baseTip) && s.chain == old(s.chain)[..NewestMatch(old(s.chain), t)]
    ensures |s.buffer| == NextDepth(old(s.chain), |old(s.buffer)|, Rollback(t))
  {
    hide *;
    ghost var cut := s.chain[..NewestMatch(s.chain, t)];
    s.BufferIsSuffix();
    RollbackPlan(s, t);
    var deep := s.ApplyRollback(t);
    assert s.chain == cut;
    RolledBackTo(s, t);
  }

  /** What applyRollback will keep, read off chain and buffer before it runs. */
  lemma RollbackPlan(s: IndexerState, t: ChainTip)
    requires UniqueHashes(s.chain) && |s.buffer| <= |s.chain| && s.buffer == s.chain[|s.chain| - |s.buffer|..] && s.AtTip()
    requires GoodEvent(s.filter, s.base, s.chain, |s.buffer|, Rollback(t))
    ensures !TooDeep(s.buffer, s.tip, t)
    ensures Kept(s.buffer, s.tip, t) == NewestMatch(s.chain, t) - (|s.chain| - |s.buffer|)
    ensures Kept(s.buffer, s.tip, t) == NextDepth(s.chain, |s.buffer|, Rollback(t))
    ensures var cut := s.chain[..NewestMatch(s.chain, t)];
            UniqueHashes(cut) && cut != [] && TipOf(cut[|cut| - 1]) == t
  {
    hide NewestMatch, SpendsNoOwnReference, ReplayChain, TooDeep, Kept, InBuffer;
    KeptUpToTarget(s.chain, s.buffer, s.tip, t);
  }

  lemma RolledBackTo(s: IndexerState, t: ChainTip)
    requires s.chain != [] && TipOf(s.chain[|s.chain| - 1]) == t && s.tip == Some(t)
    ensures s.AtTip()
  {
  }

  /** state.ts keeps its promise over every faithful run: the state is a plain replay of the
      surviving blocks, whatever was undone on the way. */
  method Follow(s: IndexerState, events: seq<Event>)
    requires s.Valid() && s.AtTip() && UniqueHashes(s.chain)
    requires Faithful(s.filter, s.base, s.chain, |s.buffer|, events)
    modifies s
    ensures s.Valid() && s.AtTip() && s.base == old(s.base) && s.baseTip == old(s.baseTip)
    ensures s.chain == Survivors(old(s.chain), events)
    ensures ReplayChain(s.filter, old(s.base), Survivors(old(s.chain), events)) == Applied(s.CurrentView())
  {
    for i := 0 to |events|
      invariant s.Valid() && s.AtTip() && UniqueHashes(s.chain)
      invariant s.base == old(s.base) && s.baseTip == old(s.baseTip)
      invariant Survivors(old(s.chain), events) == Survivors(s.chain, events[i..])
      invariant Faithful(s.filter, s.base, s.chain, |s.buffer|, events[i..])
    {
      assert events[i..][0] == events[i] && events[i..][1..] == events[i + 1..];
      hide GoodEvent, NextChain, NextDepth, UniqueHashes;
      FollowOne(s, events[i]);
    }
  }

  lemma StepApplies(f: Filter, base: View, chain: seq<BlockDiff>, b: BlockDiff)
    requires ReplayChain(f, base, chain + [b]).Applied?
    ensures ReplayChain(f, base, chain).Applied? && ApplyBlock(f, ReplayChain(f, base, chain).view, b).Applied?
  {
    assert (chain + [b])[..|chain|] == chain;
  }

  /** A block whose outputs are new to the base and to the whole chain applies. */
  lemma FreshStepApplies(f: Filter, base: View, chain: seq<BlockDiff>, b: BlockDiff)
    requires Fresh(base, ChainOutputs(chain + [b]))
    ensures ReplayChain(f, base, chain + [b]).Applied?
  {
    FreshChainNeverDuplicates(f, base, chain + [b]);
  }

  /** Two faithful runs with the same surviving chain end in the same view: rolling back and
      re-applying is invisible. */
  method ReorgIsInvisible(s: IndexerState, events: seq<Event>, t: IndexerState, events': seq<Event>)
    requires s != t && s.filter == t.filter
    requires s.Valid() && s.AtTip() && UniqueHashes(s.chain) && t.Valid() && t.AtTip() && UniqueHashes(t.chain)
    requires s.base == t.base && s.baseTip == t.baseTip
    requires Faithful(s.filter, s.base, s.chain, |s.buffer|, events)
    requires Faithful(t.filter, t.base, t.chain, |t.buffer|, events')
    requires Survivors(s.chain, events) == Survivors(t.chain, events')
    modifies s, t
    ensures s.CurrentView() == t.CurrentView() && s.tip == t.tip
  {
    hide History, ReplayChain, Faithful, Survivors, UniqueHashes, Keyed;
    Follow(s, events);
    Follow(t, events');
  }

  // ---- rollbacks whose height is not the block's own ----

  /** For a target that names a buffered block by hash, applyRollback leaves exactly the blocks up
      to it if and only if the block is the tip, or the height given is the block's own, or the
      block is the one just below the tip and the height reaches the buffer. */
  lemma RollbackLandsIff(buffer: seq<BlockDiff>, tip: Option<ChainTip>, target: ChainTip, j: nat)
    requires UniqueHashes(buffer) && j < |buffer| && buffer[j].blockHash == target.blockHash
    requires tip.Some? && tip.value.blockHash == buffer[|buffer| - 1].blockHash
    ensures !TooDeep(buffer, tip, target) && Kept(buffer, tip, target) == j + 1
            <==> || j == |buffer| - 1
                 || buffer[j].height == target.height
                 || (j == |buffer| - 2 && target.height >= buffer[0].height)
  {
    assert forall i :: 0 <= i < |buffer| && i != j ==> !SamePoint(buffer[i], target);
    if buffer[j].height == target.height {
      assert SamePoint(buffer[j], target);
    } else {
      assert !InBuffer(buffer, target);
    }
  }

  /** Right after a prime the buffer is empty, so a rollback to a point before the primed tip is
      not reported as deep: the primed view stays and only the tip moves. */
  method RollbackAfterPrimeIsSilent(s: IndexerState, snapshot: PrimeSnapshot, target: ChainTip)
    requires target.height < snapshot.tip.height && target.blockHash != snapshot.tip.blockHash
    modifies s
    ensures s.CurrentView() == PrimedView(s.filter, snapshot) && s.tip == Some(target)
  {
    s.PrimeFrom(snapshot);
    var deep := s.ApplyRollback(target);
    assert s.chain == [];
  }

  /** A block that moves the reference NFT twice is not undone: the record keeps the middle holder. */
  lemma MovedTwiceIsForgotten(f: Filter, r0: UtxoRef, p1: ProducedUtxo, p2: ProducedUtxo, slot: int)
    requires p1.address != f.mixBoxAddress && p1.address != f.feeContractAddress && CarriesNft(f, p1.assets)
    requires p1.ref != r0
    ensures var v := View(map[], map[], Some(r0), None);
            var txs := [TxDiff([r0], [p1]), TxDiff([p1.ref], [p2])];
            SpentBefore(f, v, txs, slot) == Some(p1.ref) != v.reference
  {
    var v := View(map[], map[], Some(r0), None);
    var t1, t2 := TxDiff([r0], [p1]), TxDiff([p1.ref], [p2]);
    var txs := [t1, t2];
    assert txs[..|txs| - 1] == [t1] && txs[|txs| - 1] == t2 && [t1][..0] == [] && [p1][..0] == [];
    assert r0 in t1.consumed && p1.ref in t2.consumed;
    assert ApplyTxs(f, v, [t1], slot) == ApplyTx(f, v, t1, slot);
    assert ApplyTx(f, v, t1, slot).Applied? && ApplyTx(f, v, t1, slot).view.reference == Some(p1.ref) by {
      var w := Consume(v, [r0], slot);
      assert ProduceAll(f, w, [p1], slot, ChildGeneration(v.pool, [r0])) == Produce(f, w, p1, slot, ChildGeneration(v.pool, [r0]));
    }
    assert SpendsReference(ApplyTxs(f, v, [t1], slot).view, t2.consumed);
    assert SpentBefore(f, v, txs, slot) == Some(p1.ref);
  }
}
