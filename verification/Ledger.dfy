/** The filter between the chain and the indexer (backend/src/indexer/ogmios.ts:307-367), and the
    full UTxO set it projects from. */
module Ledger {
  import opened Options
  import opened Refs
  import opened IndexerTypes
  import opened Replay
  import opened IndexerState

  datatype Output = Output(address: Option<string>, lovelace: int, datum: Option<string>, assets: map<string, int>)

  datatype Tx = Tx(id: string, inputs: seq<UtxoRef>, outputs: seq<Output>)

  datatype Block = Block(slot: int, hash: string, height: int, txs: seq<Tx>)

  /** The whole UTxO set, under lower-case transaction ids. */
  type Utxos = map<UtxoRef, Output>

  function LowerRefs(rs: seq<UtxoRef>): seq<UtxoRef> {
    seq(|rs|, i requires 0 <= i < |rs| => LowerRef(rs[i]))
  }

  predicate Relevant(f: Filter, o: Output) {
    o.address.Some? &&
    (o.address.value == f.mixBoxAddress || o.address.value == f.feeContractAddress || CarriesNft(f, o.assets))
  }

  function ParseOutput(o: Output, id: string, index: nat): ProducedUtxo
    requires o.address.Some?
  {
    ProducedUtxo(UtxoRef(Lower(id), index), o.address.value, o.lovelace, o.datum, o.assets)
  }

  function KeptOutputs(f: Filter, id: string, outputs: seq<Output>): seq<ProducedUtxo> {
    if outputs == [] then []
    else
      var last := |outputs| - 1;
      KeptOutputs(f, id, outputs[..last]) +
      if Relevant(f, outputs[last]) then [ParseOutput(outputs[last], id, last)] else []
  }

  function TxToDiff(f: Filter, tx: Tx): TxDiff {
    TxDiff(LowerRefs(tx.inputs), KeptOutputs(f, tx.id, tx.outputs))
  }

  function TxsToDiff(f: Filter, txs: seq<Tx>): seq<TxDiff> {
    seq(|txs|, i requires 0 <= i < |txs| => TxToDiff(f, txs[i]))
  }

  /** A transaction as the node reports it: newer shapes carry `id`, older ones `hash`. */
  datatype RawTx = RawTx(id: Option<string>, hash: Option<string>, inputs: seq<UtxoRef>, outputs: seq<Output>)

  datatype RawBlock = RawBlock(slot: int, hash: string, height: int, txs: seq<RawTx>)

  /** txIdOfTx (ogmios.ts:344-354), which is asked only when there is an output. */
  function IdOf(tx: RawTx): Option<string> {
    if tx.id.Some? then tx.id else if tx.hash.Some? then tx.hash else if tx.outputs == [] then Some("") else None
  }

  function Named(txs: seq<RawTx>): Option<seq<Tx>> {
    if txs == [] then Some([])
    else
      var last := txs[|txs| - 1];
      var front := Named(txs[..|txs| - 1]);
      if front.None? || IdOf(last).None? then None
      else Some(front.value + [Tx(IdOf(last).value, last.inputs, last.outputs)])
  }

  lemma {:induction false} StaysUnnamed(txs: seq<RawTx>, n: nat)
    requires n <= |txs| && Named(txs[..n]).None?
    ensures Named(txs).None?
  {
    if n == |txs| {
      assert txs[..n] == txs;
    } else {
      assert txs[..|txs| - 1][..n] == txs[..n];
      StaysUnnamed(txs[..|txs| - 1], n);
    }
  }

  lemma OneMoreNamed(txs: seq<RawTx>, n: nat)
    requires n < |txs| && Named(txs[..n]).Some?
    ensures Named(txs[..n + 1]) ==
            if IdOf(txs[n]).None? then None else Some(Named(txs[..n]).value + [Tx(IdOf(txs[n]).value, txs[n].inputs, txs[n].outputs)])
  {
    assert txs[..n + 1][..n] == txs[..n];
  }

  lemma OneMoreDiff(f: Filter, txs: seq<Tx>, tx: Tx)
    ensures TxsToDiff(f, txs + [tx]) == TxsToDiff(f, txs) + [TxToDiff(f, tx)]
  {
    hide TxToDiff;
  }

  /** One transaction's outputs (ogmios.ts:320-329); `None` for the missing-id error. */
  method KeepOutputs(f: Filter, tx: RawTx) returns (r: Option<seq<ProducedUtxo>>)
    ensures r == if IdOf(tx).None? then None else Some(KeptOutputs(f, IdOf(tx).value, tx.outputs))
  {
    var produced: seq<ProducedUtxo> := [];
    for i := 0 to |tx.outputs|
      invariant i > 0 ==> IdOf(tx).Some?
      invariant IdOf(tx).Some? ==> produced == KeptOutputs(f, IdOf(tx).value, tx.outputs[..i])
    {
      assert tx.outputs[..i + 1][..i] == tx.outputs[..i];
      var id := if tx.id.Some? then tx.id else tx.hash;
      if id.None? {
        return None;
      }
      var out := tx.outputs[i];
      if out.address.Some? && Relevant(f, out) {
        produced := produced + [ParseOutput(out, id.value, i)];
      }
    }
    assert tx.outputs[..|tx.outputs|] == tx.outputs;
    r := Some(produced);
  }

  /** ogmios.ts:307-338; `None` for the missing-id error. */
  method BlockToDiff(f: Filter, block: RawBlock) returns (r: Option<BlockDiff>)
    ensures r == if Named(block.txs).None? then None
                 else Some(DiffOf(f, Block(block.slot, block.hash, block.height, Named(block.txs).value)))
  {
    var txs: seq<TxDiff> := [];
    for t := 0 to |block.txs|
      invariant Named(block.txs[..t]).Some? && txs == TxsToDiff(f, Named(block.txs[..t]).value)
    {
      var tx := block.txs[t];
      OneMoreNamed(block.txs, t);
      hide Named, IdOf, KeptOutputs, LowerRef;
      var consumed: seq<UtxoRef> := [];
      for i := 0 to |tx.inputs|
        invariant consumed == LowerRefs(tx.inputs[..i])
      {
        consumed := consumed + [LowerRef(tx.inputs[i])];
      }
      assert tx.inputs[..|tx.inputs|] == tx.inputs;
      var produced := KeepOutputs(f, tx);
      if produced.None? {
        StaysUnnamed(block.txs, t + 1);
        return None;
      }
      OneMoreDiff(f, Named(block.txs[..t]).value, Tx(IdOf(tx).value, tx.inputs, tx.outputs));
      txs := txs + [TxDiff(consumed, produced.value)];
    }
    assert block.txs[..|block.txs|] == block.txs;
    r := Some(BlockDiff(block.slot, block.hash, block.height, txs));
  }

  // ---- the ledger ----

  function OutputsOf(id: string, outputs: seq<Output>): Utxos {
    if outputs == [] then map[]
    else
      var last := |outputs| - 1;
      OutputsOf(id, outputs[..last])[UtxoRef(Lower(id), last) := outputs[last]]
  }

  function Spend(u: Utxos, tx: Tx): Utxos { u - Elements(LowerRefs(tx.inputs)) }

  function LedgerTx(u: Utxos, tx: Tx): Utxos { Spend(u, tx) + OutputsOf(tx.id, tx.outputs) }

  function LedgerTxs(u: Utxos, txs: seq<Tx>): Utxos {
    if txs == [] then u else LedgerTx(LedgerTxs(u, txs[..|txs| - 1]), txs[|txs| - 1])
  }

  predicate IsMixBox(f: Filter, o: Output) {
    o.address == Some(f.mixBoxAddress) && o.datum.Some? && o.datum.value != "" && f.decode(o.datum.value).Some?
  }

  predicate IsShard(f: Filter, o: Output) {
    o.address == Some(f.feeContractAddress) && f.feeContractAddress != f.mixBoxAddress
  }

  predicate IsReference(f: Filter, o: Output) {
    && o.address.Some? && o.address.value != f.mixBoxAddress && o.address.value != f.feeContractAddress
    && CarriesNft(f, o.assets)
  }

  predicate SameBox(f: Filter, k: UtxoRef, e: PoolEntry, o: Output)
    requires IsMixBox(f, o)
  {
    e.Key() == k && MixDatum(e.a, e.b) == f.decode(o.datum.value).value &&
    e.inlineDatumHex == o.datum.value && e.lovelace == o.lovelace
  }

  predicate SameShard(k: UtxoRef, s: FeeShard, o: Output) {
    s.Key() == k && s.lovelace == o.lovelace && s.inlineDatumHex == o.datum
  }

  /** The view is the projection of the UTxO set: exactly its decodable mix boxes, its fee shards
      and its NFT holder outside both scripts; `slot` and `generation` are not on the ledger. */
  ghost predicate Projects(f: Filter, v: View, u: Utxos) {
    PoolProjects(f, v.pool, u) && FeeProjects(f, v.fee, u) && ReferenceProjects(f, v.reference, u)
  }

  ghost predicate PoolProjects(f: Filter, pool: map<UtxoRef, PoolEntry>, u: Utxos) {
    && (forall k :: k in pool <==> k in u && IsMixBox(f, u[k]))
    && (forall k :: k in pool ==> SameBox(f, k, pool[k], u[k]))
  }

  ghost predicate FeeProjects(f: Filter, fee: map<UtxoRef, FeeShard>, u: Utxos) {
    && (forall k :: k in fee <==> k in u && IsShard(f, u[k]))
    && (forall k :: k in fee ==> SameShard(k, fee[k], u[k]))
  }

  ghost predicate ReferenceProjects(f: Filter, reference: Option<UtxoRef>, u: Utxos) {
    forall k :: reference == Some(k) <==> k in u && IsReference(f, u[k])
  }

  /** The NFT is unique: at most one output carries it. */
  ghost predicate OneCarrier(f: Filter, u: Utxos) {
    forall k, k' :: k in u && k' in u && CarriesNft(f, u[k].assets) && CarriesNft(f, u[k'].assets) ==> k == k'
  }

  /** The ledger's own rules a transaction meets: its outputs are new and the NFT stays unique. */
  ghost predicate LedgerAccepts(f: Filter, u: Utxos, tx: Tx) {
    && (forall k :: k in OutputsOf(tx.id, tx.outputs) ==> k !in u)
    && OneCarrier(f, LedgerTx(u, tx))
  }

  ghost predicate LedgerAcceptsAll(f: Filter, u: Utxos, txs: seq<Tx>) {
    forall i :: 0 <= i < |txs| ==> LedgerAccepts(f, LedgerTxs(u, txs[..i]), txs[i])
  }

  lemma SpendingProjects(f: Filter, v: View, u: Utxos, tx: Tx, slot: int)
    requires Projects(f, v, u)
    ensures Projects(f, Consume(v, LowerRefs(tx.inputs), slot), Spend(u, tx))
  {
    var gone := Elements(LowerRefs(tx.inputs));
    var v' := Consume(v, LowerRefs(tx.inputs), slot);
    assert v'.pool == v.pool - gone && v'.fee == v.fee - gone && Spend(u, tx) == u - gone;
    forall k ensures v'.reference == Some(k) <==> k in u - gone && IsReference(f, (u - gone)[k]) {
      assert v.reference == Some(k) <==> k in u && IsReference(f, u[k]);
    }
  }

  lemma {:induction false} OutputKeys(id: string, outputs: seq<Output>)
    ensures forall k :: k in OutputsOf(id, outputs) <==> k.txId == Lower(id) && k.outputIndex < |outputs|
    ensures forall i :: 0 <= i < |outputs| ==> OutputsOf(id, outputs)[UtxoRef(Lower(id), i)] == outputs[i]
  {
    if outputs != [] {
      OutputKeys(id, outputs[..|outputs| - 1]);
    }
  }

  lemma AddingKeepsPool(f: Filter, pool: map<UtxoRef, PoolEntry>, u: Utxos, k: UtxoRef, o: Output)
    requires PoolProjects(f, pool, u) && k !in u && !IsMixBox(f, o)
    ensures PoolProjects(f, pool, u[k := o])
  {
  }

  lemma AddingKeepsFee(f: Filter, fee: map<UtxoRef, FeeShard>, u: Utxos, k: UtxoRef, o: Output)
    requires FeeProjects(f, fee, u) && k !in u && !IsShard(f, o)
    ensures FeeProjects(f, fee, u[k := o])
  {
  }

  lemma AddingGrowsPool(f: Filter, pool: map<UtxoRef, PoolEntry>, u: Utxos, k: UtxoRef, o: Output, slot: int, g: nat)
    requires PoolProjects(f, pool, u) && k !in u && IsMixBox(f, o)
    ensures k !in pool
    ensures var e := ParsePoolEntry(f, ProducedUtxo(k, o.address.value, o.lovelace, o.datum, o.assets), slot, g);
            e.Some? && PoolProjects(f, pool[k := e.value], u[k := o])
  {
  }

  lemma AddingGrowsFee(f: Filter, fee: map<UtxoRef, FeeShard>, u: Utxos, k: UtxoRef, o: Output, slot: int)
    requires FeeProjects(f, fee, u) && k !in u && IsShard(f, o)
    ensures k !in fee
    ensures FeeProjects(f, fee[k := ShardOf(ProducedUtxo(k, o.address.value, o.lovelace, o.datum, o.assets), slot)], u[k := o])
  {
  }

  lemma AddingKeepsReference(f: Filter, reference: Option<UtxoRef>, u: Utxos, k: UtxoRef, o: Output)
    requires ReferenceProjects(f, reference, u) && k !in u && !IsReference(f, o)
    ensures ReferenceProjects(f, reference, u[k := o])
  {
    var u' := u[k := o];
    forall k' ensures reference == Some(k') <==> k' in u' && IsReference(f, u'[k']) {
      assert reference == Some(k') <==> k' in u && IsReference(f, u[k']);
    }
  }

  lemma AddingMovesReference(f: Filter, u: Utxos, k: UtxoRef, o: Output)
    requires OneCarrier(f, u[k := o]) && k !in u && IsReference(f, o)
    ensures ReferenceProjects(f, Some(k), u[k := o])
  {
    var u' := u[k := o];
    forall k' ensures Some(k) == Some(k') <==> k' in u' && IsReference(f, u'[k']) {
      if k' in u' && IsReference(f, u'[k']) {
        assert CarriesNft(f, u'[k'].assets) && CarriesNft(f, u'[k].assets);
      }
    }
  }

  /** Adding one output to both sides keeps the projection. */
  lemma AddingProjects(f: Filter, v: View, u: Utxos, k: UtxoRef, o: Output, slot: int, g: nat)
    requires Projects(f, v, u) && k !in u && OneCarrier(f, u[k := o])
    ensures !Relevant(f, o) ==> Projects(f, v, u[k := o])
    ensures Relevant(f, o) ==>
              var r := Produce(f, v, ProducedUtxo(k, o.address.value, o.lovelace, o.datum, o.assets), slot, g);
              r.Applied? && Projects(f, r.view, u[k := o])
  {
    assert k !in v.pool;
    if IsMixBox(f, o) {
      AddingGrowsPool(f, v.pool, u, k, o, slot, g);
    } else {
      AddingKeepsPool(f, v.pool, u, k, o);
    }
    if IsShard(f, o) {
      AddingGrowsFee(f, v.fee, u, k, o, slot);
    } else {
      AddingKeepsFee(f, v.fee, u, k, o);
    }
    if IsReference(f, o) {
      AddingMovesReference(f, u, k, o);
    } else {
      AddingKeepsReference(f, v.reference, u, k, o);
    }
  }

  lemma OneCarrierBefore(f: Filter, u: Utxos, k: UtxoRef, o: Output)
    requires k !in u && OneCarrier(f, u[k := o])
    ensures OneCarrier(f, u)
  {
    hide CarriesNft;
    forall a, b | a in u && b in u && CarriesNft(f, u[a].assets) && CarriesNft(f, u[b].assets) ensures a == b {
      assert u[k := o][a] == u[a] && u[k := o][b] == u[b];
    }
  }

  lemma {:induction false} OutputsProject(f: Filter, v: View, u: Utxos, id: string, outputs: seq<Output>, slot: int, g: nat)
    requires Projects(f, v, u)
    requires forall k :: k in OutputsOf(id, outputs) ==> k !in u
    requires OneCarrier(f, u + OutputsOf(id, outputs))
    ensures var r := ProduceAll(f, v, KeptOutputs(f, id, outputs), slot, g);
            r.Applied? && Projects(f, r.view, u + OutputsOf(id, outputs))
  {
    if outputs == [] {
      assert u + OutputsOf(id, outputs) == u;
    } else {
      var last := |outputs| - 1;
      var k, o := UtxoRef(Lower(id), last), outputs[last];
      var mid := u + OutputsOf(id, outputs[..last]);
      OutputKeys(id, outputs[..last]);
      assert u + OutputsOf(id, outputs) == mid[k := o];
      OneCarrierBefore(f, mid, k, o);
      hide Projects, Produce, OneCarrier, IsMixBox, IsShard, IsReference, CarriesNft;
      OutputsProject(f, v, u, id, outputs[..last], slot, g);
      var before := KeptOutputs(f, id, outputs[..last]);
      AddingProjects(f, ProduceAll(f, v, before, slot, g).view, mid, k, o, slot, g);
      if Relevant(f, o) {
        assert KeptOutputs(f, id, outputs)[..|before|] == before;
      } else {
        assert KeptOutputs(f, id, outputs) == before;
      }
    }
  }

  lemma TxProjects(f: Filter, v: View, u: Utxos, tx: Tx, slot: int)
    requires Projects(f, v, u) && LedgerAccepts(f, u, tx)
    ensures var r := ApplyTx(f, v, TxToDiff(f, tx), slot);
            r.Applied? && Projects(f, r.view, LedgerTx(u, tx))
  {
    SpendingProjects(f, v, u, tx, slot);
    OutputsProject(f, Consume(v, LowerRefs(tx.inputs), slot), Spend(u, tx), tx.id, tx.outputs, slot,
                   ChildGeneration(v.pool, LowerRefs(tx.inputs)));
  }

  /** Filtering then indexing a block commutes with the ledger: the view after the block is the
      projection of the UTxO set after the block, and the duplicate error does not fire. */
  lemma {:induction false} IndexingCommutesWithLedger(f: Filter, v: View, u: Utxos, txs: seq<Tx>, slot: int)
    requires Projects(f, v, u) && LedgerAcceptsAll(f, u, txs)
    ensures var r := ApplyTxs(f, v, TxsToDiff(f, txs), slot);
            r.Applied? && Projects(f, r.view, LedgerTxs(u, txs))
  {
    if txs == [] {
      return;
    }
    hide *;
    AcceptsPrefix(f, u, txs);
    IndexingCommutesWithLedger(f, v, u, txs[..|txs| - 1], slot);
    OneMoreTx(f, v, u, txs, slot);
  }

  lemma OneMoreTx(f: Filter, v: View, u: Utxos, txs: seq<Tx>, slot: int)
    requires txs != []
    requires var r := ApplyTxs(f, v, TxsToDiff(f, txs[..|txs| - 1]), slot);
             r.Applied? && Projects(f, r.view, LedgerTxs(u, txs[..|txs| - 1]))
    requires LedgerAccepts(f, LedgerTxs(u, txs[..|txs| - 1]), txs[|txs| - 1])
    ensures var r := ApplyTxs(f, v, TxsToDiff(f, txs), slot);
            r.Applied? && Projects(f, r.view, LedgerTxs(u, txs))
  {
    hide Projects, LedgerAccepts, ApplyTx, TxToDiff, LedgerTx;
    var last := |txs| - 1;
    assert TxsToDiff(f, txs)[..last] == TxsToDiff(f, txs[..last]);
    assert TxsToDiff(f, txs)[last] == TxToDiff(f, txs[last]);
    TxProjects(f, ApplyTxs(f, v, TxsToDiff(f, txs[..last]), slot).view, LedgerTxs(u, txs[..last]), txs[last], slot);
  }

  lemma AcceptsPrefix(f: Filter, u: Utxos, txs: seq<Tx>)
    requires LedgerAcceptsAll(f, u, txs) && txs != []
    ensures LedgerAcceptsAll(f, u, txs[..|txs| - 1])
    ensures LedgerAccepts(f, LedgerTxs(u, txs[..|txs| - 1]), txs[|txs| - 1])
  {
    hide LedgerAccepts, LedgerTxs;
    var last := |txs| - 1;
    forall i | 0 <= i < last ensures LedgerAccepts(f, LedgerTxs(u, txs[..last][..i]), txs[..last][i]) {
      assert txs[..last][..i] == txs[..i];
    }
  }

  function DiffOf(f: Filter, b: Block): BlockDiff { BlockDiff(b.slot, b.hash, b.height, TxsToDiff(f, b.txs)) }

  function Diffs(f: Filter, blocks: seq<Block>): seq<BlockDiff> {
    seq(|blocks|, i requires 0 <= i < |blocks| => DiffOf(f, blocks[i]))
  }

  function LedgerChain(u: Utxos, blocks: seq<Block>): Utxos {
    if blocks == [] then u else LedgerTxs(LedgerChain(u, blocks[..|blocks| - 1]), blocks[|blocks| - 1].txs)
  }

  ghost predicate LedgerAcceptsChain(f: Filter, u: Utxos, blocks: seq<Block>) {
    forall i :: 0 <= i < |blocks| ==> LedgerAcceptsAll(f, LedgerChain(u, blocks[..i]), blocks[i].txs)
  }

  /** Over a whole chain: the replayed view is the projection of the final UTxO set. With
      Reorg.Follow this is the state after any run whose surviving chain is `blocks`. */
  lemma {:induction false} ReplayCommutesWithLedger(f: Filter, v: View, u: Utxos, blocks: seq<Block>)
    requires Projects(f, v, u) && LedgerAcceptsChain(f, u, blocks)
    ensures var r := ReplayChain(f, v, Diffs(f, blocks));
            r.Applied? && Projects(f, r.view, LedgerChain(u, blocks))
  {
    if blocks == [] {
      return;
    }
    hide *;
    AcceptsChainPrefix(f, u, blocks);
    ReplayCommutesWithLedger(f, v, u, blocks[..|blocks| - 1]);
    OneMoreBlock(f, v, u, blocks);
  }

  lemma OneMoreBlock(f: Filter, v: View, u: Utxos, blocks: seq<Block>)
    requires blocks != []
    requires var r := ReplayChain(f, v, Diffs(f, blocks[..|blocks| - 1]));
             r.Applied? && Projects(f, r.view, LedgerChain(u, blocks[..|blocks| - 1]))
    requires LedgerAcceptsAll(f, LedgerChain(u, blocks[..|blocks| - 1]), blocks[|blocks| - 1].txs)
    ensures var r := ReplayChain(f, v, Diffs(f, blocks));
            r.Applied? && Projects(f, r.view, LedgerChain(u, blocks))
  {
    hide Projects, LedgerAcceptsAll, ApplyTxs, LedgerTxs, TxsToDiff;
    var last := |blocks| - 1;
    assert Diffs(f, blocks)[..last] == Diffs(f, blocks[..last]);
    assert Diffs(f, blocks)[last] == DiffOf(f, blocks[last]);
    IndexingCommutesWithLedger(f, ReplayChain(f, v, Diffs(f, blocks[..last])).view, LedgerChain(u, blocks[..last]),
                               blocks[last].txs, blocks[last].slot);
  }

  lemma AcceptsChainPrefix(f: Filter, u: Utxos, blocks: seq<Block>)
    requires LedgerAcceptsChain(f, u, blocks) && blocks != []
    ensures LedgerAcceptsChain(f, u, blocks[..|blocks| - 1])
    ensures LedgerAcceptsAll(f, LedgerChain(u, blocks[..|blocks| - 1]), blocks[|blocks| - 1].txs)
  {
    hide LedgerAcceptsAll, LedgerChain;
    var last := |blocks| - 1;
    forall i | 0 <= i < last ensures LedgerAcceptsAll(f, LedgerChain(u, blocks[..last][..i]), blocks[..last][i].txs) {
      assert blocks[..last][..i] == blocks[..i];
    }
  }

  // ---- priming from a snapshot ----

  /** Two views with the same boxes, shards and reference; slots, generations and alarms may differ. */
  ghost predicate SameBoxes(v: View, w: View) {
    && v.pool.Keys == w.pool.Keys && v.fee.Keys == w.fee.Keys && v.reference == w.reference
    && (forall k :: k in v.pool ==> v.pool[k] == w.pool[k].(slot := v.pool[k].slot, generation := v.pool[k].generation))
    && (forall k :: k in v.fee ==> v.fee[k] == w.fee[k].(slot := v.fee[k].slot))
  }

  lemma ProjectionsAgree(f: Filter, v: View, w: View, u: Utxos)
    requires Projects(f, v, u) && Projects(f, w, u)
    ensures SameBoxes(v, w)
  {
    assert forall k :: k in v.pool <==> k in w.pool;
    assert forall k :: k in v.fee <==> k in w.fee;
    if v.reference.Some? {
      assert v.reference.value in u && IsReference(f, u[v.reference.value]);
    } else if w.reference.Some? {
      assert v.reference == Some(w.reference.value);
    }
  }

  /** `ps` lists, without repetition, exactly the outputs of `u` at `address`, as db-sync reports them. */
  ghost predicate ListsOutputsAt(u: Utxos, address: string, ps: seq<ProducedUtxo>) {
    && (forall i, j :: 0 <= i < j < |ps| ==> ps[i].ref != ps[j].ref)
    && (forall k :: (k in u && u[k].address == Some(address)) <==> (exists i :: 0 <= i < |ps| && ps[i].ref == k))
    && (forall i :: 0 <= i < |ps| && ps[i].ref in u ==>
          ps[i].lovelace == u[ps[i].ref].lovelace && ps[i].inlineDatumHex == u[ps[i].ref].datum)
  }

  ghost predicate Snapshots(f: Filter, u: Utxos, s: PrimeSnapshot) {
    && f.mixBoxAddress != f.feeContractAddress
    && ListsOutputsAt(u, f.mixBoxAddress, s.mixBoxUtxos)
    && ListsOutputsAt(u, f.feeContractAddress, s.feeShardUtxos)
    && (forall k :: (s.referenceUtxo.Some? && s.referenceUtxo.value.ref == k) <==> (k in u && IsReference(f, u[k])))
  }

  lemma {:induction false} PrimedPoolEntries(f: Filter, ps: seq<ProducedUtxo>, slot: int)
    requires forall i, j :: 0 <= i < j < |ps| ==> ps[i].ref != ps[j].ref
    ensures forall k :: k in PrimedPool(f, ps, slot) ==>
              exists i :: 0 <= i < |ps| && ps[i].ref == k && ParsePoolEntry(f, ps[i], slot, 0) == Some(PrimedPool(f, ps, slot)[k])
    ensures forall i :: 0 <= i < |ps| ==>
              (ParsePoolEntry(f, ps[i], slot, 0).Some? <==> ps[i].ref in PrimedPool(f, ps, slot))
  {
    if ps != [] {
      var last := |ps| - 1;
      PrimedPoolEntries(f, ps[..last], slot);
      var before := PrimedPool(f, ps[..last], slot);
      assert ps[last].ref !in before;
      forall k | k in PrimedPool(f, ps, slot)
        ensures exists i :: 0 <= i < |ps| && ps[i].ref == k && ParsePoolEntry(f, ps[i], slot, 0) == Some(PrimedPool(f, ps, slot)[k])
      {
        if k in before {
          var i :| 0 <= i < last && ps[..last][i].ref == k && ParsePoolEntry(f, ps[..last][i], slot, 0) == Some(before[k]);
          assert ps[i].ref == k;
        } else {
          assert ps[last].ref == k;
        }
      }
      forall i | 0 <= i < |ps|
        ensures ParsePoolEntry(f, ps[i], slot, 0).Some? <==> ps[i].ref in PrimedPool(f, ps, slot)
      {
        if i < last {
          assert ps[..last][i] == ps[i];
        }
      }
    }
  }

  lemma {:induction false} PrimedFeeEntries(ps: seq<ProducedUtxo>, slot: int)
    requires forall i, j :: 0 <= i < j < |ps| ==> ps[i].ref != ps[j].ref
    ensures forall k :: k in PrimedFee(ps, slot) <==> exists i :: 0 <= i < |ps| && ps[i].ref == k
    ensures forall i :: 0 <= i < |ps| ==> ps[i].ref in PrimedFee(ps, slot) && PrimedFee(ps, slot)[ps[i].ref] == ShardOf(ps[i], slot)
  {
    if ps != [] {
      var last := |ps| - 1;
      PrimedFeeEntries(ps[..last], slot);
      forall i | 0 <= i < |ps|
        ensures ps[i].ref in PrimedFee(ps, slot) && PrimedFee(ps, slot)[ps[i].ref] == ShardOf(ps[i], slot)
      {
        if i < last {
          assert ps[..last][i] == ps[i];
        }
      }
      forall k ensures k in PrimedFee(ps, slot) <==> exists i :: 0 <= i < |ps| && ps[i].ref == k {
        if i :| 0 <= i < last && ps[..last][i].ref == k {
          assert ps[i].ref == k;
        }
        if i :| 0 <= i < |ps| && ps[i].ref == k && i < last {
          assert ps[..last][i].ref == k;
        }
      }
    }
  }

  lemma PrimedPoolProjects(f: Filter, u: Utxos, ps: seq<ProducedUtxo>, slot: int)
    requires ListsOutputsAt(u, f.mixBoxAddress, ps)
    ensures PoolProjects(f, PrimedPool(f, ps, slot), u)
  {
    var pool := PrimedPool(f, ps, slot);
    PrimedPoolEntries(f, ps, slot);
    forall k | k in pool ensures k in u && IsMixBox(f, u[k]) && SameBox(f, k, pool[k], u[k]) {
      var i :| 0 <= i < |ps| && ps[i].ref == k && ParsePoolEntry(f, ps[i], slot, 0) == Some(pool[k]);
      assert k in u;
    }
    forall k | k in u && IsMixBox(f, u[k]) ensures k in pool {
      var i :| 0 <= i < |ps| && ps[i].ref == k;
      assert ParsePoolEntry(f, ps[i], slot, 0).Some?;
    }
  }

  lemma PrimedFeeProjects(f: Filter, u: Utxos, ps: seq<ProducedUtxo>, slot: int)
    requires ListsOutputsAt(u, f.feeContractAddress, ps) && f.feeContractAddress != f.mixBoxAddress
    ensures FeeProjects(f, PrimedFee(ps, slot), u)
  {
    var fee := PrimedFee(ps, slot);
    PrimedFeeEntries(ps, slot);
    forall k | k in fee ensures k in u && IsShard(f, u[k]) && SameShard(k, fee[k], u[k]) {
      var i :| 0 <= i < |ps| && ps[i].ref == k;
      assert fee[ps[i].ref] == ShardOf(ps[i], slot);
    }
  }

  lemma PrimedProjects(f: Filter, u: Utxos, s: PrimeSnapshot)
    requires Snapshots(f, u, s)
    ensures Projects(f, PrimedView(f, s), u)
  {
    PrimedPoolProjects(f, u, s.mixBoxUtxos, s.tip.slot);
    PrimedFeeProjects(f, u, s.feeShardUtxos, s.tip.slot);
  }

  /** A primed state and a state that replayed every block agree, up to slots, generations and
      the alarm text. */
  lemma PrimedAgreesWithReplayed(f: Filter, v: View, u: Utxos, blocks: seq<Block>, s: PrimeSnapshot)
    requires Projects(f, v, u) && LedgerAcceptsChain(f, u, blocks)
    requires Snapshots(f, LedgerChain(u, blocks), s)
    ensures SameBoxes(ReplayChain(f, v, Diffs(f, blocks)).view, PrimedView(f, s))
  {
    ReplayCommutesWithLedger(f, v, u, blocks);
    PrimedProjects(f, LedgerChain(u, blocks), s);
    ProjectionsAgree(f, ReplayChain(f, v, Diffs(f, blocks)).view, PrimedView(f, s), LedgerChain(u, blocks));
  }
}
