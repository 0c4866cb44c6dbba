/** What the indexer shows at the end of a run of the whole pipeline: node blocks are filtered
    (backend/src/indexer/ogmios.ts), decoded (datum.ts) and indexed with rollbacks (state.ts). */
module Projection {
  import opened Options
  import opened Refs
  import opened IndexerTypes
  import opened Replay
  import opened IndexerState
  import opened Reorg
  import opened Ledger
  import Datum
  import Hex
  import Cbor

  /** What the node sends: a whole block, or the point to go back to. */
  datatype NodeEvent = Arrives(block: Block) | Undone(target: ChainTip)

  /** One past the newest block at the target point, 0 if there is none. */
  function NewestBlock(chain: seq<Block>, target: ChainTip): (n: nat)
    ensures n <= |chain|
  {
    if chain == [] then 0
    else
      var b := chain[|chain| - 1];
      if b.hash == target.blockHash && b.height == target.height then |chain|
      else NewestBlock(chain[..|chain| - 1], target)
  }

  function NextBlocks(chain: seq<Block>, e: NodeEvent): seq<Block> {
    match e
    case Arrives(b) => chain + [b]
    case Undone(t) => chain[..NewestBlock(chain, t)]
  }

  /** The blocks of the node's chain after the events. */
  function SurvivingBlocks(chain: seq<Block>, events: seq<NodeEvent>): seq<Block>
    decreases |events|
  {
    if events == [] then chain else SurvivingBlocks(NextBlocks(chain, events[0]), events[1..])
  }

  /** The event after the filter (ogmios.ts:307-338). */
  function Filtered(f: Filter, e: NodeEvent): Event {
    match e
    case Arrives(b) => Forward(DiffOf(f, b))
    case Undone(t) => Rollback(t)
  }

  function AllFiltered(f: Filter, events: seq<NodeEvent>): seq<Event> {
    seq(|events|, i requires 0 <= i < |events| => Filtered(f, events[i]))
  }

  lemma {:induction false} NewestCommutes(f: Filter, chain: seq<Block>, target: ChainTip)
    ensures NewestMatch(Diffs(f, chain), target) == NewestBlock(chain, target)
  {
    hide TxsToDiff;
    if chain != [] {
      var last := |chain| - 1;
      assert Diffs(f, chain)[..last] == Diffs(f, chain[..last]);
      NewestCommutes(f, chain[..last], target);
    }
  }

  lemma NextCommutes(f: Filter, chain: seq<Block>, e: NodeEvent)
    ensures NextChain(Diffs(f, chain), Filtered(f, e)) == Diffs(f, NextBlocks(chain, e))
  {
    hide TxsToDiff;
    if e.Undone? {
      NewestCommutes(f, chain, e.target);
    }
  }

  /** Filtering commutes with the chain: the surviving filtered blocks are the filtered surviving blocks. */
  lemma {:induction false} SurvivorsCommute(f: Filter, chain: seq<Block>, events: seq<NodeEvent>)
    ensures Survivors(Diffs(f, chain), AllFiltered(f, events)) == Diffs(f, SurvivingBlocks(chain, events))
    decreases |events|
  {
    hide Diffs, NextChain, NextBlocks, Filtered;
    if events == [] {
      assert AllFiltered(f, events) == [];
    } else {
      assert AllFiltered(f, events)[1..] == AllFiltered(f, events[1..]);
      NextCommutes(f, chain, events[0]);
      SurvivorsCommute(f, NextBlocks(chain, events[0]), events[1..]);
    }
  }

  // ---- runs a node sends ----

  /** No transaction of the block spends a reference UTxO that an earlier one of the block made. */
  ghost predicate SparesOwnReference(f: Filter, u: Utxos, txs: seq<Tx>) {
    forall i, j, k :: 0 <= j < i < |txs| && SpendsReferenceAt(f, u, txs, i, k) ==> k !in OutputsOf(txs[j].id, txs[j].outputs)
  }

  ghost predicate SpendsReferenceAt(f: Filter, u: Utxos, txs: seq<Tx>, i: nat, k: UtxoRef)
    requires i < |txs|
  {
    var here := LedgerTxs(u, txs[..i]);
    k in LowerRefs(txs[i].inputs) && k in here && IsReference(f, here[k])
  }

  /** How many of the newest blocks can still be undone after the event. */
  function NextNodeDepth(chain: seq<Block>, depth: nat, e: NodeEvent): int {
    match e
    case Arrives(_) => if depth < ROLLBACK_BUFFER_BLOCKS then depth + 1 else depth
    case Undone(t) => NewestBlock(chain, t) + depth - |chain|
  }

  /** A block with a new hash that the ledger accepts after `chain`, or a rollback to one of the `depth`
      newest blocks. */
  ghost predicate GoodNodeEvent(f: Filter, u: Utxos, chain: seq<Block>, depth: nat, e: NodeEvent) {
    match e
    case Arrives(b) =>
      && (forall i :: 0 <= i < |chain| ==> chain[i].hash != b.hash)
      && LedgerAcceptsAll(f, LedgerChain(u, chain), b.txs)
      && SparesOwnReference(f, LedgerChain(u, chain), b.txs)
    case Undone(t) =>
      var n := NewestBlock(chain, t);
      n > 0 && n + depth > |chain| && t == ChainTip(chain[n - 1].slot, chain[n - 1].hash, chain[n - 1].height)
  }

  ghost predicate NodeFaithful(f: Filter, u: Utxos, chain: seq<Block>, depth: nat, events: seq<NodeEvent>)
    decreases |events|
  {
    events == [] ||
    (GoodNodeEvent(f, u, chain, depth, events[0]) &&
     NodeFaithful(f, u, NextBlocks(chain, events[0]), NextNodeDepth(chain, depth, events[0]), events[1..]))
  }

  /** What the filter keeps of earlier transactions of a block is what they output. */
  lemma {:induction false} KeptAreOutputs(f: Filter, id: string, outputs: seq<Output>)
    ensures forall r :: r in OutputRefs(KeptOutputs(f, id, outputs)) ==> r in OutputsOf(id, outputs)
  {
    if outputs != [] {
      var last := |outputs| - 1;
      KeptAreOutputs(f, id, outputs[..last]);
      OutputKeys(id, outputs[..last]);
      OutputKeys(id, outputs);
      hide Relevant, OutputsOf;
      var before := KeptOutputs(f, id, outputs[..last]);
      if Relevant(f, outputs[last]) {
        assert OutputRefs(before + [ParseOutput(outputs[last], id, last)]) == OutputRefs(before) + [UtxoRef(Lower(id), last)];
      } else {
        assert before + [] == before;
      }
    }
  }

  lemma {:induction false} BlockOutputsFrom(f: Filter, txs: seq<Tx>, r: UtxoRef) returns (j: nat)
    requires r in BlockOutputs(TxsToDiff(f, txs))
    ensures j < |txs| && r in OutputsOf(txs[j].id, txs[j].outputs)
  {
    var last := |txs| - 1;
    assert TxsToDiff(f, txs)[..last] == TxsToDiff(f, txs[..last]);
    assert TxsToDiff(f, txs)[last] == TxToDiff(f, txs[last]);
    KeptAreOutputs(f, txs[last].id, txs[last].outputs);
    hide OutputsOf, KeptOutputs;
    if r in OutputRefs(TxToDiff(f, txs[last]).produced) {
      j := last;
    } else {
      j := BlockOutputsFrom(f, txs[..last], r);
    }
  }

  lemma AcceptsFirst(f: Filter, u: Utxos, txs: seq<Tx>, i: nat)
    requires LedgerAcceptsAll(f, u, txs) && i <= |txs|
    ensures LedgerAcceptsAll(f, u, txs[..i])
  {
    hide LedgerAccepts, LedgerTxs;
    forall j | 0 <= j < i ensures LedgerAccepts(f, LedgerTxs(u, txs[..i][..j]), txs[..i][j]) {
      assert txs[..i][..j] == txs[..j];
    }
  }

  /** A spent reference is a reference UTxO of the ledger at that transaction. */
  lemma SpentReferenceIs(f: Filter, v: View, u: Utxos, txs: seq<Tx>, slot: int, i: nat)
    requires Projects(f, v, u) && LedgerAcceptsAll(f, u, txs) && i < |txs|
    ensures var o := ApplyTxs(f, v, TxsToDiff(f, txs)[..i], slot);
            o.Applied? && (SpendsReference(o.view, TxsToDiff(f, txs)[i].consumed) ==> SpendsReferenceAt(f, u, txs, i, o.view.reference.value))
  {
    assert TxsToDiff(f, txs)[..i] == TxsToDiff(f, txs[..i]);
    assert TxsToDiff(f, txs)[i] == TxToDiff(f, txs[i]);
    hide LedgerAccepts, LedgerTxs, TxsToDiff, ApplyTxs, IsReference, PoolProjects, FeeProjects, KeptOutputs, LowerRefs;
    AcceptsFirst(f, u, txs, i);
    IndexingCommutesWithLedger(f, v, u, txs[..i], slot);
  }

  lemma SparingBlockIsSafe(f: Filter, v: View, u: Utxos, txs: seq<Tx>, slot: int)
    requires Projects(f, v, u) && LedgerAcceptsAll(f, u, txs) && SparesOwnReference(f, u, txs)
    ensures SpendsNoOwnReference(f, v, TxsToDiff(f, txs), slot)
  {
    hide Projects, LedgerAcceptsAll, ApplyTxs, OutputsOf, SpendsReferenceAt, BlockOutputs;
    forall i | 0 <= i < |txs| ensures !SpendsOwnReference(f, v, TxsToDiff(f, txs), slot, i) {
      SpentReferenceIs(f, v, u, txs, slot, i);
      var o := ApplyTxs(f, v, TxsToDiff(f, txs)[..i], slot);
      if SpendsReference(o.view, TxsToDiff(f, txs)[i].consumed) && o.view.reference.value in BlockOutputs(TxsToDiff(f, txs)[..i]) {
        assert TxsToDiff(f, txs)[..i] == TxsToDiff(f, txs[..i]);
        var j := BlockOutputsFrom(f, txs[..i], o.view.reference.value);
      }
    }
  }

  lemma AcceptsOneMore(f: Filter, u: Utxos, chain: seq<Block>, b: Block)
    requires LedgerAcceptsChain(f, u, chain) && LedgerAcceptsAll(f, LedgerChain(u, chain), b.txs)
    ensures LedgerAcceptsChain(f, u, chain + [b])
  {
    hide LedgerAcceptsAll, LedgerChain;
    var more := chain + [b];
    forall i | 0 <= i < |more| ensures LedgerAcceptsAll(f, LedgerChain(u, more[..i]), more[i].txs) {
      assert more[..i] == if i < |chain| then chain[..i] else chain;
    }
  }

  lemma AcceptsFirstBlocks(f: Filter, u: Utxos, chain: seq<Block>, n: nat)
    requires LedgerAcceptsChain(f, u, chain) && n <= |chain|
    ensures LedgerAcceptsChain(f, u, chain[..n])
  {
    hide LedgerAcceptsAll, LedgerChain;
    forall i | 0 <= i < n ensures LedgerAcceptsAll(f, LedgerChain(u, chain[..n][..i]), chain[..n][i].txs) {
      assert chain[..n][..i] == chain[..i];
    }
  }

  ghost predicate NewHash(chain: seq<BlockDiff>, b: BlockDiff) {
    forall i :: 0 <= i < |chain| ==> chain[i].blockHash != b.blockHash
  }

  lemma NodeBlockMeans(f: Filter, u: Utxos, chain: seq<Block>, depth: nat, b: Block)
    requires GoodNodeEvent(f, u, chain, depth, Arrives(b))
    ensures NewHash(Diffs(f, chain), DiffOf(f, b))
    ensures LedgerAcceptsAll(f, LedgerChain(u, chain), b.txs) && SparesOwnReference(f, LedgerChain(u, chain), b.txs)
    ensures Diffs(f, chain + [b]) == Diffs(f, chain) + [DiffOf(f, b)]
    ensures DiffOf(f, b).txs == TxsToDiff(f, b.txs) && DiffOf(f, b).slot == b.slot
  {
    hide LedgerAcceptsAll, LedgerChain, SparesOwnReference, TxsToDiff;
  }

  lemma ForwardIsGood(f: Filter, base: View, chain: seq<BlockDiff>, depth: nat, b: BlockDiff)
    requires NewHash(chain, b) && ReplayChain(f, base, chain + [b]).Applied?
    requires SpendsNoOwnReference(f, ReplayChain(f, base, chain).view, b.txs, b.slot)
    ensures GoodEvent(f, base, chain, depth, Forward(b))
  {
    hide ReplayChain, SpendsNoOwnReference;
  }

  lemma NodeBlockIsGood(f: Filter, base: View, u: Utxos, chain: seq<Block>, depth: nat, b: Block)
    requires Projects(f, base, u) && LedgerAcceptsChain(f, u, chain) && GoodNodeEvent(f, u, chain, depth, Arrives(b))
    ensures GoodEvent(f, base, Diffs(f, chain), depth, Forward(DiffOf(f, b)))
    ensures LedgerAcceptsChain(f, u, chain + [b])
  {
    hide *;
    NodeBlockMeans(f, u, chain, depth, b);
    AcceptsOneMore(f, u, chain, b);
    ReplayCommutesWithLedger(f, base, u, chain);
    ReplayCommutesWithLedger(f, base, u, chain + [b]);
    SparingBlockIsSafe(f, ReplayChain(f, base, Diffs(f, chain)).view, LedgerChain(u, chain), b.txs, b.slot);
    ForwardIsGood(f, base, Diffs(f, chain), depth, DiffOf(f, b));
  }

  lemma NodeRollbackIsGood(f: Filter, base: View, u: Utxos, chain: seq<Block>, depth: nat, t: ChainTip)
    requires LedgerAcceptsChain(f, u, chain) && GoodNodeEvent(f, u, chain, depth, Undone(t))
    ensures GoodEvent(f, base, Diffs(f, chain), depth, Rollback(t))
    ensures LedgerAcceptsChain(f, u, chain[..NewestBlock(chain, t)])
  {
    NewestCommutes(f, chain, t);
    AcceptsFirstBlocks(f, u, chain, NewestBlock(chain, t));
    hide LedgerAcceptsChain, TxsToDiff;
  }

  lemma NodeEventIsGood(f: Filter, base: View, u: Utxos, chain: seq<Block>, depth: nat, e: NodeEvent)
    requires Projects(f, base, u) && LedgerAcceptsChain(f, u, chain) && GoodNodeEvent(f, u, chain, depth, e)
    ensures GoodEvent(f, base, Diffs(f, chain), depth, Filtered(f, e))
    ensures LedgerAcceptsChain(f, u, NextBlocks(chain, e))
    ensures NextDepth(Diffs(f, chain), depth, Filtered(f, e)) == NextNodeDepth(chain, depth, e) >= 0
  {
    hide Projects, LedgerAcceptsChain, GoodEvent, DiffOf;
    match e
    case Arrives(b) =>
      NodeBlockIsGood(f, base, u, chain, depth, b);
    case Undone(t) =>
      NodeRollbackIsGood(f, base, u, chain, depth, t);
      NewestCommutes(f, chain, t);
  }

  lemma RunStep(f: Filter, base: View, u: Utxos, chain: seq<Block>, depth: nat, events: seq<NodeEvent>)
    requires events != [] && NodeFaithful(f, u, chain, depth, events)
    ensures GoodNodeEvent(f, u, chain, depth, events[0])
    ensures NextNodeDepth(chain, depth, events[0]) >= 0 ==>
              NodeFaithful(f, u, NextBlocks(chain, events[0]), NextNodeDepth(chain, depth, events[0]), events[1..])
    ensures SurvivingBlocks(chain, events) == SurvivingBlocks(NextBlocks(chain, events[0]), events[1..])
    ensures AllFiltered(f, events) == [Filtered(f, events[0])] + AllFiltered(f, events[1..])
  {
    hide GoodNodeEvent, NextBlocks, NextNodeDepth, Filtered;
  }

  lemma FaithfulStep(f: Filter, base: View, chain: seq<BlockDiff>, depth: nat, e: Event, next: seq<BlockDiff>, left: nat, events: seq<Event>)
    requires GoodEvent(f, base, chain, depth, e) && next == NextChain(chain, e) && left == NextDepth(chain, depth, e)
    requires Faithful(f, base, next, left, events)
    ensures Faithful(f, base, chain, depth, [e] + events)
  {
    hide GoodEvent, NextChain, NextDepth;
    assert ([e] + events)[1..] == events;
  }

  lemma NothingFiltered(f: Filter, base: View, chain: seq<BlockDiff>, depth: nat)
    ensures AllFiltered(f, []) == [] && Faithful(f, base, chain, depth, [])
  {
  }

  /** A run whose blocks the ledger accepts one after the other is a faithful run of the indexer, and the
      ledger accepts what survives of it. */
  lemma {:induction false} NodeRunIsFaithful(f: Filter, base: View, u: Utxos, chain: seq<Block>, depth: nat, events: seq<NodeEvent>)
    requires Projects(f, base, u) && LedgerAcceptsChain(f, u, chain) && NodeFaithful(f, u, chain, depth, events)
    ensures Faithful(f, base, Diffs(f, chain), depth, AllFiltered(f, events))
    ensures LedgerAcceptsChain(f, u, SurvivingBlocks(chain, events))
    decreases |events|
  {
    hide *;
    if events == [] {
      NothingFiltered(f, base, Diffs(f, chain), depth);
      NothingSurvives(chain);
    } else {
      RunStep(f, base, u, chain, depth, events);
      NodeEventIsGood(f, base, u, chain, depth, events[0]);
      NextCommutes(f, chain, events[0]);
      var next, left := NextBlocks(chain, events[0]), NextNodeDepth(chain, depth, events[0]);
      NodeRunIsFaithful(f, base, u, next, left, events[1..]);
      FaithfulStep(f, base, Diffs(f, chain), depth, Filtered(f, events[0]), Diffs(f, next), left, AllFiltered(f, events[1..]));
    }
  }

  lemma NothingSurvives(chain: seq<Block>)
    ensures SurvivingBlocks(chain, []) == chain
  {
  }

  /** After every run of node events, with whatever rollbacks, in which the ledger accepts each block at its
      place, the state shows exactly the ledger: its view is the projection of the UTxO set that the
      surviving full blocks leave. No freshness is assumed: acceptance excludes the duplicate error. */
  method FollowProjects(s: IndexerState, ghost chain: seq<Block>, events: seq<NodeEvent>, ghost u: Utxos)
    requires s.Valid() && s.AtTip() && UniqueHashes(s.chain)
    requires s.chain == Diffs(s.filter, chain) && Projects(s.filter, s.base, u)
    requires LedgerAcceptsChain(s.filter, u, chain) && NodeFaithful(s.filter, u, chain, |s.buffer|, events)
    modifies s
    ensures s.Valid() && s.AtTip()
    ensures s.chain == Diffs(s.filter, SurvivingBlocks(chain, events))
    ensures Projects(s.filter, s.CurrentView(), LedgerChain(u, SurvivingBlocks(chain, events)))
  {
    hide *;
    ghost var base := s.base;
    NodeRunIsFaithful(s.filter, base, u, chain, |s.buffer|, events);
    Follow(s, AllFiltered(s.filter, events));
    SurvivorsCommute(s.filter, chain, events);
    ReplayCommutesWithLedger(s.filter, base, u, SurvivingBlocks(chain, events));
  }

  /** The same from a snapshot, as the program starts: primed at `u`, then driven by the node. */
  method PrimeAndFollow(s: IndexerState, snapshot: PrimeSnapshot, events: seq<NodeEvent>, ghost u: Utxos)
    requires Snapshots(s.filter, u, snapshot) && NodeFaithful(s.filter, u, [], 0, events)
    modifies s
    ensures s.Valid() && s.AtTip()
    ensures Projects(s.filter, s.CurrentView(), LedgerChain(u, SurvivingBlocks([], events)))
  {
    PrimedProjects(s.filter, u, snapshot);
    s.PrimeFrom(snapshot);
    assert Diffs(s.filter, []) == [];
    hide Projects, NodeFaithful, Snapshots, PrimedView, SurvivingBlocks, AllFiltered, LedgerChain;
    FollowProjects(s, [], events, u);
  }

  // ---- with the program's own datum decoder ----

  /** tryDecodeMixDatum as the filter's decoder: points come out as lower-case hex. */
  function MixDatumOfHex(cborHex: string): Option<MixDatum> {
    var d := Datum.DecodedText(cborHex);
    if d.None? then None else Some(MixDatum(Hex.HexOf(d.value.a), Hex.HexOf(d.value.b)))
  }

  ghost predicate DecodesDatums(f: Filter) { forall x :: f.decode(x) == MixDatumOfHex(x) }

  /** The text is the hex of an encoding of two distinct 48-byte points under constructor 0. */
  ghost predicate EncodesPoints(cborHex: string, item: Cbor.Item, d: Datum.DecodedMixDatum) {
    && |d.a| == 48 && |d.b| == 48 && d.a != d.b
    && Cbor.WellFormed(item) && Hex.BytesOfHex(cborHex) == Some(Cbor.Print(item)) && Datum.EncodesMixDatum(item, d.a, d.b)
  }

  /** A projection lists as pool boxes exactly the outputs at the mix address whose datum encodes two
      distinct 48-byte points, and shows those points. */
  lemma PoolListsEncodedBoxes(f: Filter, v: View, u: Utxos, k: UtxoRef)
    requires Projects(f, v, u) && DecodesDatums(f)
    ensures k in v.pool <==>
              && k in u && u[k].address == Some(f.mixBoxAddress) && u[k].datum.Some?
              && (exists item, d :: EncodesPoints(u[k].datum.value, item, d))
    ensures k in v.pool ==>
              exists item, d :: EncodesPoints(v.pool[k].inlineDatumHex, item, d) &&
                                v.pool[k].a == Hex.HexOf(d.a) && v.pool[k].b == Hex.HexOf(d.b)
  {
    if k in u && u[k].datum.Some? {
      MixBoxIff(f, u[k]);
    }
    hide EncodesPoints;
  }

  lemma MixBoxIff(f: Filter, o: Output)
    requires DecodesDatums(f) && o.datum.Some?
    ensures IsMixBox(f, o) <==>
            o.address == Some(f.mixBoxAddress) && exists item, d :: EncodesPoints(o.datum.value, item, d)
    ensures IsMixBox(f, o) ==>
            exists item, d :: EncodesPoints(o.datum.value, item, d) &&
                              f.decode(o.datum.value) == Some(MixDatum(Hex.HexOf(d.a), Hex.HexOf(d.b)))
  {
    hide Datum.DecodedText, Cbor.WellFormed, Cbor.Print, Datum.EncodesMixDatum, Hex.BytesOfHex, Hex.HexOf;
    var x := o.datum.value;
    var r := Datum.DecodedText(x);
    assert f.decode(x) == MixDatumOfHex(x);
    if r.Some? {
      Datum.TextDecodedIff(x, r.value);
      var item :| Cbor.WellFormed(item) && Hex.BytesOfHex(x) == Some(Cbor.Print(item)) && Datum.EncodesMixDatum(item, r.value.a, r.value.b);
      assert EncodesPoints(x, item, r.value);
    }
    if item, d :| EncodesPoints(x, item, d) {
      Datum.TextDecodedIff(x, d);
    }
    EmptyTextDecodesToNothing();
  }

  lemma EmptyTextDecodesToNothing()
    ensures Datum.DecodedText("").None?
  {
    var e := Hex.BytesOfHex("");
    assert e == Some([]);
  }
}
