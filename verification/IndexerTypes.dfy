/** The values that flow through the indexer (backend/src/indexer/types.ts, state.ts).

    A UTxO key is the string `txId#index` in the program; Refs.UtxoKeyInjective shows that the
    string determines the reference, so the maps here are keyed by the reference itself. */
module IndexerTypes {
  import opened Options
  import opened Refs

  datatype ProducedUtxo = ProducedUtxo(
    ref: UtxoRef,
    address: string,
    lovelace: int,
    inlineDatumHex: Option<string>,
    assets: map<string, int>)

  datatype TxDiff = TxDiff(consumed: seq<UtxoRef>, produced: seq<ProducedUtxo>)

  datatype BlockDiff = BlockDiff(slot: int, blockHash: string, height: int, txs: seq<TxDiff>)

  datatype ChainTip = ChainTip(slot: int, blockHash: string, height: int)

  datatype MixDatum = MixDatum(a: string, b: string)

  datatype PoolEntry = PoolEntry(
    txHash: string,
    outputIndex: nat,
    a: string,
    b: string,
    slot: int,
    generation: nat,
    inlineDatumHex: string,
    lovelace: int)
  {
    function Key(): UtxoRef { UtxoRef(txHash, outputIndex) }
  }

  datatype FeeShard = FeeShard(
    txHash: string,
    outputIndex: nat,
    lovelace: int,
    slot: int,
    inlineDatumHex: Option<string>)
  {
    function Key(): UtxoRef { UtxoRef(txHash, outputIndex) }
  }

  /** The alarm texts of state.ts, with the values they interpolate. */
  datatype Alarm = ReferenceConsumed(ref: UtxoRef, slot: int) | PrimedWithoutReference(slot: int)

  /** The two addresses, the reference NFT, and the datum decoder (datum.ts). */
  datatype Filter = Filter(
    mixBoxAddress: string,
    feeContractAddress: string,
    referenceNftUnit: string,
    decode: string -> Option<MixDatum>)

  function TipOf(b: BlockDiff): ChainTip { ChainTip(b.slot, b.blockHash, b.height) }

  function Elements(s: seq<UtxoRef>): (e: set<UtxoRef>)
    ensures forall r :: r in e <==> r in s
  {
    set r | r in s
  }

  predicate CarriesNft(f: Filter, assets: map<string, int>) {
    f.referenceNftUnit in assets && assets[f.referenceNftUnit] == 1
  }

  /** parsePoolEntry: absent, empty and undecodable datums are skipped. */
  function ParsePoolEntry(f: Filter, p: ProducedUtxo, slot: int, generation: nat): Option<PoolEntry> {
    if p.inlineDatumHex.None? || p.inlineDatumHex.value == "" then None
    else
      var d := f.decode(p.inlineDatumHex.value);
      if d.None? then None
      else Some(PoolEntry(p.ref.txId, p.ref.outputIndex, d.value.a, d.value.b, slot, generation,
                          p.inlineDatumHex.value, p.lovelace))
  }

  function ShardOf(p: ProducedUtxo, slot: int): FeeShard {
    FeeShard(p.ref.txId, p.ref.outputIndex, p.lovelace, slot, p.inlineDatumHex)
  }
}
