/** The stateful indexer with its undo buffer (backend/src/indexer/state.ts). */
module IndexerState {
  import opened Options
  import opened Refs
  import opened IndexerTypes
  import opened Replay
  import opened UndoLog

  const ROLLBACK_BUFFER_BLOCKS: nat := 2000

  datatype ReverseSnapshot = ReverseSnapshot(
    blockHash: string,
    addedPool: seq<UtxoRef>,
    removedPool: seq<PoolEntry>,
    addedFee: seq<UtxoRef>,
    removedFee: seq<FeeShard>,
    referenceBefore: Option<UtxoRef>,
    alarmBefore: Option<Alarm>)

  /** The locals of applyForward that grow while a block is applied. */
  datatype BlockLog = BlockLog(pool: MapLog<PoolEntry>, fee: MapLog<FeeShard>, referenceBefore: Option<UtxoRef>)

  datatype PrimeSnapshot = PrimeSnapshot(
    tip: ChainTip,
    mixBoxUtxos: seq<ProducedUtxo>,
    feeShardUtxos: seq<ProducedUtxo>,
    referenceUtxo: Option<ProducedUtxo>)

  function PoolKey(e: PoolEntry): UtxoRef { e.Key() }

  function FeeKey(e: FeeShard): UtxoRef { e.Key() }

  /** The view one undo record leads back to. */
  function UndoView(v: View, rec: ReverseSnapshot): View {
    View(Undo(v.pool, rec.addedPool, rec.removedPool, PoolKey),
         Undo(v.fee, rec.addedFee, rec.removedFee, FeeKey),
         rec.referenceBefore, rec.alarmBefore)
  }

  ghost predicate Logs(v0: View, v: View, log: BlockLog) {
    Tracks(v0.pool, v.pool, log.pool, PoolKey) && Tracks(v0.fee, v.fee, log.fee, FeeKey)
  }

  /** The last `n` elements, or all of them when there are fewer. */
  function Newest<T>(s: seq<T>, n: nat): seq<T> {
    if |s| <= n then s else s[|s| - n..]
  }

  /** A sequence without its last `n` elements, or nothing when there are fewer. */
  function WithoutNewest<T>(s: seq<T>, n: nat): seq<T> {
    if |s| <= n then [] else s[..|s| - n]
  }

  /** How a primed state reads its snapshot: later rows win, undecodable boxes are skipped. */
  function PrimedPool(f: Filter, ps: seq<ProducedUtxo>, slot: int): map<UtxoRef, PoolEntry> {
    if ps == [] then map[]
    else
      var p := ps[|ps| - 1];
      var before := PrimedPool(f, ps[..|ps| - 1], slot);
      var entry := ParsePoolEntry(f, p, slot, 0);
      if entry.None? then before else before[p.ref := entry.value]
  }

  function PrimedFee(ps: seq<ProducedUtxo>, slot: int): map<UtxoRef, FeeShard> {
    if ps == [] then map[]
    else PrimedFee(ps[..|ps| - 1], slot)[ps[|ps| - 1].ref := ShardOf(ps[|ps| - 1], slot)]
  }

  function PrimedView(f: Filter, s: PrimeSnapshot): View {
    View(PrimedPool(f, s.mixBoxUtxos, s.tip.slot), PrimedFee(s.feeShardUtxos, s.tip.slot),
         if s.referenceUtxo.Some? then Some(s.referenceUtxo.value.ref) else None,
         if s.referenceUtxo.Some? then None else Some(PrimedWithoutReference(s.tip.slot)))
  }

  predicate SamePoint(b: BlockDiff, target: ChainTip) {
    b.blockHash == target.blockHash && b.height == target.height
  }

  predicate InBuffer(buffer: seq<BlockDiff>, target: ChainTip) {
    exists i :: 0 <= i < |buffer| && SamePoint(buffer[i], target)
  }

  /** applyRollback's DeepRollbackError guard. */
  predicate TooDeep(buffer: seq<BlockDiff>, tip: Option<ChainTip>, target: ChainTip) {
    && !(tip.Some? && tip.value.blockHash == target.blockHash)
    && !InBuffer(buffer, target)
    && buffer != [] && target.height < buffer[0].height
  }

  /** One past the newest buffered block at the target point, 0 if there is none. */
  function NewestMatch(buffer: seq<BlockDiff>, target: ChainTip): (n: nat)
    ensures n <= |buffer|
    ensures n > 0 ==> SamePoint(buffer[n - 1], target)
    ensures forall i :: n <= i < |buffer| ==> !SamePoint(buffer[i], target)
  {
    if buffer == [] || SamePoint(buffer[|buffer| - 1], target) then |buffer|
    else NewestMatch(buffer[..|buffer| - 1], target)
  }

  /** How many buffered blocks a rollback that does not throw leaves in place. */
  function Kept(buffer: seq<BlockDiff>, tip: Option<ChainTip>, target: ChainTip): (n: nat)
    ensures n <= |buffer|
  {
    if tip.Some? && tip.value.blockHash == target.blockHash then |buffer|
    else if InBuffer(buffer, target) then NewestMatch(buffer, target)
    else if buffer == [] then 0 else |buffer| - 1
  }

  /** Everything the indexer holds at one moment, with the base and the chain since. */
  datatype Moment = Moment(
    view: View,
    tip: Option<ChainTip>,
    buffer: seq<BlockDiff>,
    reverse: seq<ReverseSnapshot>,
    base: View,
    chain: seq<BlockDiff>)

  /** The records undone one after the other, the newest first. */
  function UndoAll(v: View, recs: seq<ReverseSnapshot>): View {
    if recs == [] then v else UndoView(UndoAll(v, recs[1..]), recs[0])
  }

  /** Unwound to the oldest `n` buffered blocks, with the tip given. */
  function Unwound(m: Moment, n: nat, tip: Option<ChainTip>): Moment
    requires n <= |m.buffer| == |m.reverse|
  {
    Moment(UndoAll(m.view, m.reverse[n..]), tip, m.buffer[..n], m.reverse[..n], m.base, WithoutNewest(m.chain, |m.buffer| - n))
  }

  /** The moment after a rollback that does not throw. */
  function RolledBack(m: Moment, target: ChainTip): Moment
    requires |m.reverse| == |m.buffer|
  {
    Unwound(m, Kept(m.buffer, m.tip, target), Some(target))
  }

  function PrimedMoment(f: Filter, s: PrimeSnapshot): Moment {
    Moment(PrimedView(f, s), Some(s.tip), [], [], PrimedView(f, s), [])
  }

  /** What a block does to everything the indexer holds: on a throw only the view may move. */
  ghost predicate Advances(f: Filter, m: Moment, b: BlockDiff, m': Moment) {
    var o := ApplyBlock(f, m.view, b);
    && m'.view == o.view && m'.base == m.base
    && if o.Duplicate? then m' == m.(view := o.view)
       else
         && m'.tip == Some(TipOf(b)) && m'.chain == m.chain + [b]
         && m'.buffer == Newest(m.buffer + [b], ROLLBACK_BUFFER_BLOCKS)
         && m'.reverse != [] && m'.reverse == Newest(m.reverse + [m'.reverse[|m'.reverse| - 1]], ROLLBACK_BUFFER_BLOCKS)
         && UndoView(m'.view, m'.reverse[|m'.reverse| - 1]) == m.view.(reference := SpentBefore(f, m.view, b.txs, b.slot))
  }

  lemma EmptyLog(v: View)
    requires Keyed(v)
    ensures Logs(v, v, BlockLog(MapLog([], map[], []), MapLog([], map[], []), v.reference))
  {
    assert v.pool - Elements([]) == v.pool && v.fee - Elements([]) == v.fee;
  }

  lemma ConsumeOneMore(v: View, refs: seq<UtxoRef>, i: nat, slot: int)
    requires i < |refs|
    ensures Consume(v, refs[..i + 1], slot) == Consume(Consume(v, refs[..i], slot), [refs[i]], slot)
  {
    assert refs[..i + 1] == refs[..i] + [refs[i]];
    assert v.pool - Elements(refs[..i + 1]) == v.pool - Elements(refs[..i]) - Elements([refs[i]]);
    assert v.fee - Elements(refs[..i + 1]) == v.fee - Elements(refs[..i]) - Elements([refs[i]]);
  }

  class IndexerState {
    const filter: Filter
    var pool: map<UtxoRef, PoolEntry>
    var feeShards: map<UtxoRef, FeeShard>
    var referenceRef: Option<UtxoRef>
    var referenceAlarm: Option<Alarm>
    var tip: Option<ChainTip>
    var buffer: seq<BlockDiff>
    var reverse: seq<ReverseSnapshot>

    /** The view and tip the state was last sourced from, and the surviving blocks since. */
    ghost var base: View
    ghost var baseTip: Option<ChainTip>
    ghost var chain: seq<BlockDiff>

    function CurrentView(): View
      reads `pool, `feeShards, `referenceRef, `referenceAlarm
    {
      View(pool, feeShards, referenceRef, referenceAlarm)
    }

    ghost function Now(): Moment
      reads this
    {
      Moment(CurrentView(), tip, buffer, reverse, base, chain)
    }

    /** What every method keeps, whatever blocks arrive. */
    ghost predicate Shape()
      reads `pool, `feeShards, `referenceRef, `referenceAlarm, `buffer, `reverse
    {
      Keyed(CurrentView()) && |reverse| == |buffer| <= ROLLBACK_BUFFER_BLOCKS
    }

    /** The state equals a plain replay of the surviving chain, the buffer is a suffix of that
        chain, and each buffered undo record leads from one replayed view to the one before. */
    ghost predicate Valid()
      reads `pool, `feeShards, `referenceRef, `referenceAlarm, `buffer, `reverse, `base, `chain
    {
      && Shape()
      && ReplayChain(filter, base, chain) == Applied(CurrentView())
      && History(filter, base, chain, buffer, reverse)
    }

    /** The tip names the newest surviving block. */
    ghost predicate AtTip()
      reads this
    {
      tip == if chain == [] then baseTip else Some(TipOf(chain[|chain| - 1]))
    }

    constructor (filter: Filter)
      ensures Valid() && AtTip() && this.filter == filter
      ensures base == View(map[], map[], None, None) && baseTip == None && chain == []
    {
      this.filter := filter;
      pool, feeShards, referenceRef, referenceAlarm, tip := map[], map[], None, None, None;
      buffer, reverse := [], [];
      base, baseTip, chain := View(map[], map[], None, None), None, [];
    }

    /** state.ts:180-188. */
    method InputGeneration(consumed: seq<UtxoRef>) returns (childGeneration: nat)
      ensures childGeneration == ChildGeneration(pool, consumed)
    {
      var inputGenMax: int := -1;
      for i := 0 to |consumed|
        invariant inputGenMax >= -1
        invariant inputGenMax + 1 == ChildGeneration(pool, consumed[..i])
      {
        assert consumed[..i + 1][..i] == consumed[..i];
        var k := consumed[i];
        if k in pool && pool[k].generation > inputGenMax {
          inputGenMax := pool[k].generation;
        }
      }
      assert consumed[..|consumed|] == consumed;
      childGeneration := if inputGenMax >= 0 then inputGenMax + 1 else 0;
    }

    /** state.ts:192-238. */
    method SpendInputs(consumed: seq<UtxoRef>, slot: int, log: BlockLog, ghost v0: View) returns (r: BlockLog)
      requires Logs(v0, CurrentView(), log)
      modifies this`pool, this`feeShards, this`referenceRef, this`referenceAlarm
      ensures CurrentView() == Consume(old(CurrentView()), consumed, slot)
      ensures Logs(v0, CurrentView(), r)
      ensures r.referenceBefore ==
              if SpendsReference(old(CurrentView()), consumed) then old(referenceRef) else log.referenceBefore
    {
      ghost var start := CurrentView();
      r := log;
      assert Consume(start, consumed[..0], slot) == start by {
        assert start.pool - {} == start.pool && start.fee - {} == start.fee;
      }
      for i := 0 to |consumed|
        invariant CurrentView() == Consume(start, consumed[..i], slot)
        invariant Logs(v0, CurrentView(), r)
        invariant r.referenceBefore ==
                  if SpendsReference(start, consumed[..i]) then start.reference else log.referenceBefore
      {
        ConsumeOneMore(start, consumed, i, slot);
        var k := consumed[i];
        ghost var before := CurrentView();
        var poolLog, feeLog;
        pool, poolLog := TakeOut(pool, r.pool, k, PoolKey, v0.pool);
        feeShards, feeLog := TakeOut(feeShards, r.fee, k, FeeKey, v0.fee);
        r := BlockLog(poolLog, feeLog, r.referenceBefore);
        if referenceRef == Some(k) {
          r := r.(referenceBefore := referenceRef);
          referenceRef := None;
          referenceAlarm := Some(ReferenceConsumed(k, slot));
        }
        assert Elements([k]) == {k};
        assert CurrentView() == Consume(before, [k], slot);
      }
      assert consumed[..|consumed|] == consumed;
    }

    /** One output (state.ts:241-282); `ok` is false when the duplicate error is thrown. */
    method AddOutput(p: ProducedUtxo, slot: int, childGeneration: nat, log: BlockLog, ghost v0: View)
      returns (ok: bool, r: BlockLog)
      requires Logs(v0, CurrentView(), log)
      modifies this`pool, this`feeShards, this`referenceRef, this`referenceAlarm
      ensures Produce(filter, old(CurrentView()), p, slot, childGeneration) ==
              if ok then Applied(CurrentView()) else Duplicate(CurrentView())
      ensures Logs(v0, CurrentView(), r) && r.referenceBefore == log.referenceBefore
    {
      hide Tracks, CarriesNft;
      r, ok := log, true;
      var k := p.ref;
      if p.address == filter.mixBoxAddress {
        if k in pool {
          return false, r;
        }
        var poolEntry := ParsePoolEntry(filter, p, slot, childGeneration);
        if poolEntry.Some? {
          var poolLog;
          pool, poolLog := PutIn(pool, r.pool, k, poolEntry.value, PoolKey, v0.pool);
          r := r.(pool := poolLog);
        }
      } else if p.address == filter.feeContractAddress {
        if k in feeShards {
          return false, r;
        }
        var feeLog;
        feeShards, feeLog := PutIn(feeShards, r.fee, k, ShardOf(p, slot), FeeKey, v0.fee);
        r := r.(fee := feeLog);
      } else if CarriesNft(filter, p.assets) {
        referenceRef := Some(k);
        if referenceAlarm.Some? {
          referenceAlarm := None;
        }
      }
    }

    /** state.ts:240-283; `ok` is false when the duplicate error is thrown. */
    method AddOutputs(produced: seq<ProducedUtxo>, slot: int, childGeneration: nat, log: BlockLog, ghost v0: View)
      returns (ok: bool, r: BlockLog)
      requires Logs(v0, CurrentView(), log)
      modifies this`pool, this`feeShards, this`referenceRef, this`referenceAlarm
      ensures var o := ProduceAll(filter, old(CurrentView()), produced, slot, childGeneration);
              o == if ok then Applied(CurrentView()) else Duplicate(CurrentView())
      ensures Logs(v0, CurrentView(), r) && r.referenceBefore == log.referenceBefore
    {
      hide Logs, Produce;
      ghost var start := CurrentView();
      r := log;
      for i := 0 to |produced|
        invariant ProduceAll(filter, start, produced[..i], slot, childGeneration) == Applied(CurrentView())
        invariant Logs(v0, CurrentView(), r) && r.referenceBefore == log.referenceBefore
      {
        assert produced[..i + 1][..i] == produced[..i];
        ok, r := AddOutput(produced[i], slot, childGeneration, r, v0);
        if !ok {
          StaysDuplicate(filter, start, produced, slot, childGeneration, i + 1);
          return;
        }
      }
      assert produced[..|produced|] == produced;
      ok := true;
    }

    /** One transaction: inputs first, then outputs (state.ts:175-283). */
    method ApplyTransaction(tx: TxDiff, slot: int, log: BlockLog, ghost v0: View) returns (ok: bool, r: BlockLog)
      requires Logs(v0, CurrentView(), log)
      modifies this`pool, this`feeShards, this`referenceRef, this`referenceAlarm
      ensures ApplyTx(filter, old(CurrentView()), tx, slot) ==
              if ok then Applied(CurrentView()) else Duplicate(CurrentView())
      ensures Logs(v0, CurrentView(), r)
      ensures r.referenceBefore ==
              if SpendsReference(old(CurrentView()), tx.consumed) then old(referenceRef) else log.referenceBefore
    {
      var childGeneration := InputGeneration(tx.consumed);
      r := SpendInputs(tx.consumed, slot, log, v0);
      ok, r := AddOutputs(tx.produced, slot, childGeneration, r, v0);
    }

    /** The transaction loop of applyForward (state.ts:175-284). */
    method ApplyTransactions(diff: BlockDiff) returns (ok: bool, log: BlockLog)
      requires Keyed(CurrentView())
      modifies this`pool, this`feeShards, this`referenceRef, this`referenceAlarm
      ensures ApplyBlock(filter, old(CurrentView()), diff) ==
              if ok then Applied(CurrentView()) else Duplicate(CurrentView())
      ensures Logs(old(CurrentView()), CurrentView(), log)
      ensures ok ==> log.referenceBefore == SpentBefore(filter, old(CurrentView()), diff.txs, diff.slot)
    {
      ghost var v0 := CurrentView();
      log := BlockLog(MapLog([], map[], []), MapLog([], map[], []), referenceRef);
      EmptyLog(v0);
      assert diff.txs[..0] == [];
      assert ApplyTxs(filter, v0, [], diff.slot) == Applied(v0) && SpentBefore(filter, v0, [], diff.slot) == v0.reference;
      hide ApplyTxs, ApplyTx, SpentBefore, Logs, Keyed, SpendsReference;
      for i := 0 to |diff.txs|
        invariant ApplyTxs(filter, v0, diff.txs[..i], diff.slot) == Applied(CurrentView())
        invariant Logs(v0, CurrentView(), log)
        invariant log.referenceBefore == SpentBefore(filter, v0, diff.txs[..i], diff.slot)
      {
        OneMoreTransaction(filter, v0, diff.txs, diff.slot, i);
        ok, log := ApplyTransaction(diff.txs[i], diff.slot, log, v0);
        if !ok {
          BlockStaysDuplicate(filter, v0, diff.txs, diff.slot, i + 1);
          return;
        }
      }
      assert diff.txs[..|diff.txs|] == diff.txs;
      ok := true;
    }

    /** Push a block and its undo record, and drop the oldest beyond the cap (state.ts:286-292). */
    method Push(diff: BlockDiff, rec: ReverseSnapshot)
      requires |reverse| == |buffer|
      modifies this`buffer, this`reverse, this`tip, this`chain
      ensures buffer == Newest(old(buffer) + [diff], ROLLBACK_BUFFER_BLOCKS)
      ensures reverse == Newest(old(reverse) + [rec], ROLLBACK_BUFFER_BLOCKS)
      ensures tip == Some(TipOf(diff)) && chain == old(chain) + [diff]
      ensures History(filter, base, old(chain), old(buffer), old(reverse)) && Undoes(filter, base, chain, |old(chain)|, rec)
              ==> History(filter, base, chain, buffer, reverse)
    {
      ghost var good := History(filter, base, chain, buffer, reverse) && Undoes(filter, base, chain + [diff], |chain|, rec);
      if good {
        HistoryExtends(filter, base, chain, diff, buffer, reverse, rec);
      }
      reverse := reverse + [rec];
      buffer := buffer + [diff];
      chain := chain + [diff];
      Trim();
      tip := Some(TipOf(diff));
    }

    /** Drop the oldest buffered blocks beyond the cap (state.ts:288-291). */
    method Trim()
      requires |reverse| == |buffer|
      modifies this`buffer, this`reverse
      ensures buffer == Newest(old(buffer), ROLLBACK_BUFFER_BLOCKS)
      ensures reverse == Newest(old(reverse), ROLLBACK_BUFFER_BLOCKS)
      ensures History(filter, base, chain, old(buffer), old(reverse)) ==> History(filter, base, chain, buffer, reverse)
    {
      ghost var reverse1, buffer1 := reverse, buffer;
      ghost var good := History(filter, base, chain, buffer, reverse);
      while |buffer| > ROLLBACK_BUFFER_BLOCKS
        invariant |reverse| == |buffer| <= |buffer1|
        invariant buffer == buffer1[|buffer1| - |buffer|..] && reverse == reverse1[|reverse1| - |reverse|..]
        invariant |buffer| >= ROLLBACK_BUFFER_BLOCKS || buffer == buffer1
        invariant good ==> History(filter, base, chain, buffer, reverse)
      {
        if good {
          HistoryForgets(filter, base, chain, buffer, reverse);
        }
        buffer := buffer[1..];
        reverse := reverse[1..];
      }
    }

    /** Apply one block (state.ts:149-293). `ok` is false when the duplicate error is thrown; the
        undo buffer and the tip are then untouched but the maps keep the part already applied. */
    method ApplyForward(diff: BlockDiff) returns (ok: bool)
      requires Shape()
      modifies this
      ensures Shape()
      ensures ApplyBlock(filter, old(CurrentView()), diff) ==
              if ok then Applied(CurrentView()) else Duplicate(CurrentView())
      ensures base == old(base) && baseTip == old(baseTip)
      ensures !ok ==> buffer == old(buffer) && reverse == old(reverse) && tip == old(tip) && chain == old(chain)
      ensures ok ==> tip == Some(TipOf(diff)) && chain == old(chain) + [diff]
      ensures ok ==> buffer == Newest(old(buffer) + [diff], ROLLBACK_BUFFER_BLOCKS)
      ensures ok ==> reverse != [] && reverse == Newest(old(reverse) + [reverse[|reverse| - 1]], ROLLBACK_BUFFER_BLOCKS)
      ensures ok ==> UndoView(CurrentView(), reverse[|reverse| - 1]) ==
                     old(CurrentView()).(reference := SpentBefore(filter, old(CurrentView()), diff.txs, diff.slot))
      ensures ok && old(Valid()) && SpentBefore(filter, old(CurrentView()), diff.txs, diff.slot) == old(referenceRef)
              ==> Valid() && AtTip()
    {
      var alarmBefore := referenceAlarm;
      var log;
      ok, log := ApplyTransactions(diff);
      LogLeadsBack(old(CurrentView()), CurrentView(), log);
      hide Logs, Undo, Undoes, UndoView, History, ReplayChain, ApplyBlock, Keyed, SpentBefore;
      if ok {
        var rec := ReverseSnapshot(diff.blockHash, log.pool.added, log.pool.removed, log.fee.added, log.fee.removed,
                                   log.referenceBefore, alarmBefore);
        RecordLeadsBack(old(CurrentView()), CurrentView(), log, rec);
        ChainGrows(filter, base, chain, diff, old(CurrentView()), CurrentView(), rec);
        Push(diff, rec);
      }
    }

    /** The maps and the reference go back (state.ts:390-402). */
    method Restore(rec: ReverseSnapshot)
      requires Keyed(CurrentView())
      modifies `pool, `feeShards, `referenceRef, `referenceAlarm
      ensures Keyed(CurrentView()) && CurrentView() == UndoView(old(CurrentView()), rec)
    {
      hide Undo;
      pool := Unwind(pool, rec.addedPool, rec.removedPool, PoolKey);
      feeShards := Unwind(feeShards, rec.addedFee, rec.removedFee, FeeKey);
      referenceRef := rec.referenceBefore;
      referenceAlarm := rec.alarmBefore;
    }

    /** Unwind the most recently applied block (state.ts:386-408). */
    method UnwindLast()
      requires Shape()
      modifies this
      ensures Shape()
      ensures baseTip == old(baseTip)
      ensures old(buffer) == [] ==> unchanged(this)
      ensures old(buffer) != [] ==> Now() == Unwound(old(Now()), |old(buffer)| - 1, TipAfter(buffer))
      ensures old(Valid()) ==> Valid()
    {
      ghost var before, wasValid := Now(), Valid();
      hide *;
      ShapeMeans();
      if reverse == [] || buffer == [] {
        return;
      }
      var rec := reverse[|reverse| - 1];
      ghost var view := CurrentView();
      UnwoundOnce(before, TipAfter(buffer[..|buffer| - 1]));
      if wasValid {
        ValidShrinks();
      }
      reverse := reverse[..|reverse| - 1];
      buffer := buffer[..|buffer| - 1];
      Restore(rec);
      tip := TipAfter(buffer);
      if |chain| > 0 {
        chain := chain[..|chain| - 1];
      }
      ShapeHolds();
      NowIs();
      if wasValid {
        ValidHolds();
      }
    }

    lemma ShapeMeans()
      requires Shape()
      ensures Keyed(CurrentView()) && |reverse| == |buffer| <= ROLLBACK_BUFFER_BLOCKS
      ensures Now() == Moment(CurrentView(), tip, buffer, reverse, base, chain)
    {
    }

    lemma ShapeHolds()
      requires Keyed(CurrentView()) && |reverse| == |buffer| <= ROLLBACK_BUFFER_BLOCKS
      ensures Shape()
    {
    }

    lemma NowIs()
      ensures Now() == Moment(CurrentView(), tip, buffer, reverse, base, chain)
    {
    }

    /** What a valid state becomes without its newest block. */
    lemma ValidShrinks()
      requires Valid() && buffer != [] && reverse != []
      ensures 0 < |buffer| == |reverse| <= |chain|
      ensures ReplayChain(filter, base, chain[..|chain| - 1]) == Applied(UndoView(CurrentView(), reverse[|reverse| - 1]))
      ensures History(filter, base, chain[..|chain| - 1], buffer[..|buffer| - 1], reverse[..|reverse| - 1])
    {
      hide History, Undoes, ReplayChain, UndoView, Keyed;
      HistoryShrinks(filter, base, chain, buffer, reverse);
    }

    lemma ValidHolds()
      requires Shape() && ReplayChain(filter, base, chain) == Applied(CurrentView()) && History(filter, base, chain, buffer, reverse)
      ensures Valid()
    {
    }

    lemma BufferIsSuffix()
      requires Valid()
      ensures Shape() && |buffer| <= |chain| && buffer == chain[|chain| - |buffer|..]
    {
      HistoryIsSuffix(filter, base, chain, buffer, reverse);
    }

    /** Roll back to `target` (state.ts:356-383); `deep` is DeepRollbackError. */
    method ApplyRollback(target: ChainTip) returns (deep: bool)
      requires Shape()
      modifies this
      ensures Shape()
      ensures base == old(base) && baseTip == old(baseTip)
      ensures deep == TooDeep(old(buffer), old(tip), target)
      ensures deep ==> unchanged(this)
      ensures !deep ==> Now() == RolledBack(old(Now()), target)
      ensures !deep ==> tip == Some(target)
      ensures !deep ==> buffer == old(buffer)[..Kept(old(buffer), old(tip), target)]
      ensures old(Valid()) && !deep ==> Valid() && chain == old(chain)[..|old(chain)| - |old(buffer)| + |buffer|]
    {
      ghost var before := Now();
      RollbackCases(buffer, tip, target);
      if Valid() {
        BufferIsSuffix();
      }
      hide *;
      ShapeMeans();
      RolledBackParts(before, target);
      if tip.Some? && tip.value.blockHash == target.blockHash {
        NothingUnwound(before, Some(target));
        tip := Some(target);
        NowIs();
        return false;
      }
      var targetInBuffer := InBuffer(buffer, target);
      if !targetInBuffer && buffer != [] && target.height < buffer[0].height {
        return true;
      }
      UnwindToward(target, targetInBuffer);
      UnwoundTip(before, |buffer|, tip, Some(target));
      NowIs();
      tip := Some(target);
      NowIs();
      deep := false;
    }

    /** The loop of applyRollback (state.ts:369-377). */
    method UnwindToward(target: ChainTip, targetInBuffer: bool)
      requires Shape() && targetInBuffer == InBuffer(buffer, target)
      modifies this
      ensures Shape()
      ensures baseTip == old(baseTip) && |old(reverse)| == |old(buffer)|
      ensures |buffer| == if targetInBuffer then NewestMatch(old(buffer), target)
                          else if old(buffer) == [] then 0 else |old(buffer)| - 1
      ensures Now() == Unwound(old(Now()), |buffer|, tip)
      ensures old(Valid()) ==> Valid()
    {
      ghost var start, before, wasValid := buffer, Now(), Valid();
      NoneMatches(buffer, target);
      hide *;
      ShapeMeans();
      NothingUnwound(before, tip);
      while |buffer| > 0
        invariant Shape() && baseTip == old(baseTip)
        invariant buffer <= start && Now() == Unwound(before, |buffer|, tip)
        invariant !targetInBuffer ==> |buffer| == |start|
        invariant NewestMatch(buffer, target) == NewestMatch(start, target)
        invariant wasValid ==> Valid()
      {
        MatchStep(buffer, target);
        var top := buffer[|buffer| - 1];
        if SamePoint(top, target) {
          MatchInPrefix(start, buffer, target);
          return;
        }
        ghost var here := Now();
        ShapeMeans();
        UnwoundTwice(before, |buffer|, tip, TipAfter(buffer[..|buffer| - 1]));
        UnwindLast();
        UnwoundBuffer(here, |here.buffer| - 1, TipAfter(buffer));
        NowIs();
        if !targetInBuffer {
          break;
        }
      }
    }

    method PrimePool(ps: seq<ProducedUtxo>, slot: int) returns (m: map<UtxoRef, PoolEntry>)
      ensures m == PrimedPool(filter, ps, slot)
      ensures forall k :: k in m ==> m[k].Key() == k
    {
      m := map[];
      for i := 0 to |ps|
        invariant m == PrimedPool(filter, ps[..i], slot)
        invariant forall k :: k in m ==> m[k].Key() == k
      {
        assert ps[..i + 1][..i] == ps[..i];
        var entry := ParsePoolEntry(filter, ps[i], slot, 0);
        if entry.Some? {
          m := m[ps[i].ref := entry.value];
        }
      }
      assert ps[..|ps|] == ps;
    }

    method PrimeShards(ps: seq<ProducedUtxo>, slot: int) returns (m: map<UtxoRef, FeeShard>)
      ensures m == PrimedFee(ps, slot)
      ensures forall k :: k in m ==> m[k].Key() == k
    {
      m := map[];
      for i := 0 to |ps|
        invariant m == PrimedFee(ps[..i], slot)
        invariant forall k :: k in m ==> m[k].Key() == k
      {
        assert ps[..i + 1][..i] == ps[..i];
        m := m[ps[i].ref := ShardOf(ps[i], slot)];
      }
      assert ps[..|ps|] == ps;
    }

    /** The maps and the reference from a snapshot (state.ts:318-340). */
    method ReadSnapshot(snapshot: PrimeSnapshot)
      modifies `pool, `feeShards, `referenceRef, `referenceAlarm
      ensures Keyed(CurrentView()) && CurrentView() == PrimedView(filter, snapshot)
    {
      hide PrimedPool, PrimedFee, ParsePoolEntry;
      referenceRef, referenceAlarm := None, None;
      pool := PrimePool(snapshot.mixBoxUtxos, snapshot.tip.slot);
      feeShards := PrimeShards(snapshot.feeShardUtxos, snapshot.tip.slot);
      if snapshot.referenceUtxo.Some? {
        referenceRef := Some(snapshot.referenceUtxo.value.ref);
      } else {
        referenceAlarm := Some(PrimedWithoutReference(snapshot.tip.slot));
      }
    }

    /** Replace the whole state by a snapshot (state.ts:313-341). */
    method PrimeFrom(snapshot: PrimeSnapshot)
      modifies this
      ensures Valid() && AtTip()
      ensures CurrentView() == base == PrimedView(filter, snapshot) && baseTip == Some(snapshot.tip) && chain == []
      ensures Now() == PrimedMoment(filter, snapshot)
    {
      EmptyHistory(filter, PrimedView(filter, snapshot));
      hide PrimedPool, PrimedFee, ParsePoolEntry, History, ReplayChain;
      ReadSnapshot(snapshot);
      hide PrimedView, Keyed;
      buffer, reverse := [], [];
      tip := Some(snapshot.tip);
      base, baseTip, chain := CurrentView(), Some(snapshot.tip), [];
    }
  }

  /** The tip after the newest of these blocks. */
  function TipAfter(buffer: seq<BlockDiff>): Option<ChainTip> {
    if buffer == [] then None else Some(TipOf(buffer[|buffer| - 1]))
  }

  lemma NothingUnwound(m: Moment, tip: Option<ChainTip>)
    requires |m.buffer| == |m.reverse|
    ensures Unwound(m, |m.buffer|, tip) == m.(tip := tip)
  {
  }

  /** One block unwound, written out. */
  lemma UnwoundOnce(m: Moment, tip: Option<ChainTip>)
    requires 0 < |m.buffer| == |m.reverse|
    ensures var n := |m.buffer| - 1;
            Unwound(m, n, tip) ==
            Moment(UndoView(m.view, m.reverse[n]), tip, m.buffer[..n], m.reverse[..n], m.base,
                   if |m.chain| > 0 then m.chain[..|m.chain| - 1] else m.chain)
  {
    hide UndoView;
    var n := |m.buffer| - 1;
    assert m.reverse[n..] == [m.reverse[n]] && [m.reverse[n]][1..] == [];
    assert UndoAll(m.view, []) == m.view;
  }

  /** Unwinding one more block. */
  lemma UnwoundTwice(m: Moment, n: nat, tip: Option<ChainTip>, tip': Option<ChainTip>)
    requires 0 < n <= |m.buffer| == |m.reverse|
    ensures Unwound(Unwound(m, n, tip), n - 1, tip') == Unwound(m, n - 1, tip')
  {
    hide UndoView;
    var mid := Unwound(m, n, tip);
    UnwoundOnce(mid, tip');
    assert mid.reverse[n - 1] == m.reverse[n - 1] && mid.buffer[..n - 1] == m.buffer[..n - 1] && mid.reverse[..n - 1] == m.reverse[..n - 1];
    assert m.reverse[n - 1..][1..] == m.reverse[n..];
    assert UndoAll(m.view, m.reverse[n - 1..]) == UndoView(UndoAll(m.view, m.reverse[n..]), m.reverse[n - 1]);
  }

  lemma UnwoundTip(m: Moment, n: nat, tip: Option<ChainTip>, tip': Option<ChainTip>)
    requires n <= |m.buffer| == |m.reverse|
    ensures Unwound(m, n, tip).(tip := tip') == Unwound(m, n, tip')
  {
    hide UndoAll;
  }

  lemma UnwoundBuffer(m: Moment, n: nat, tip: Option<ChainTip>)
    requires n <= |m.buffer| == |m.reverse|
    ensures Unwound(m, n, tip).buffer == m.buffer[..n] && Unwound(m, n, tip).tip == tip
  {
    hide UndoAll;
  }

  lemma NoneMatches(buffer: seq<BlockDiff>, target: ChainTip)
    ensures InBuffer(buffer, target) <==> NewestMatch(buffer, target) > 0
  {
  }

  lemma MatchStep(buffer: seq<BlockDiff>, target: ChainTip)
    requires buffer != []
    ensures if SamePoint(buffer[|buffer| - 1], target) then NewestMatch(buffer, target) == |buffer|
            else NewestMatch(buffer, target) == NewestMatch(buffer[..|buffer| - 1], target)
  {
  }

  lemma MatchInPrefix(start: seq<BlockDiff>, buffer: seq<BlockDiff>, target: ChainTip)
    requires buffer <= start && buffer != [] && SamePoint(buffer[|buffer| - 1], target)
    ensures InBuffer(start, target)
  {
    assert SamePoint(start[|buffer| - 1], target);
  }

  /** How many blocks stay, case by case. */
  lemma RollbackCases(buffer: seq<BlockDiff>, tip: Option<ChainTip>, target: ChainTip)
    ensures var here := tip.Some? && tip.value.blockHash == target.blockHash;
            && TooDeep(buffer, tip, target) == (!here && !InBuffer(buffer, target) && buffer != [] && target.height < buffer[0].height)
            && Kept(buffer, tip, target) ==
               (if here then |buffer| else if InBuffer(buffer, target) then NewestMatch(buffer, target)
                else if buffer == [] then 0 else |buffer| - 1)
  {
  }

  lemma RolledBackParts(m: Moment, target: ChainTip)
    requires |m.buffer| == |m.reverse|
    ensures var n := Kept(m.buffer, m.tip, target);
            && RolledBack(m, target) == Unwound(m, n, Some(target))
            && Unwound(m, n, Some(target)).buffer == m.buffer[..n] && Unwound(m, n, Some(target)).base == m.base
            && (|m.buffer| <= |m.chain| ==> Unwound(m, n, Some(target)).chain == m.chain[..|m.chain| - |m.buffer| + n])
  {
    hide UndoAll, Kept;
  }

  lemma EmptyHistory(f: Filter, base: View)
    ensures History(f, base, [], [], []) && ReplayChain(f, base, []) == Applied(base)
  {
  }

  lemma {:induction false} StaysDuplicate(f: Filter, v: View, ps: seq<ProducedUtxo>, slot: int, g: nat, n: nat)
    requires n <= |ps| && ProduceAll(f, v, ps[..n], slot, g).Duplicate?
    ensures ProduceAll(f, v, ps, slot, g) == ProduceAll(f, v, ps[..n], slot, g)
  {
    if n == |ps| {
      assert ps[..n] == ps;
    } else {
      assert ps[..|ps| - 1][..n] == ps[..n];
      StaysDuplicate(f, v, ps[..|ps| - 1], slot, g, n);
    }
  }

  lemma LogLeadsBack(v0: View, v: View, log: BlockLog)
    requires Logs(v0, v, log)
    ensures Keyed(v) && Undo(v.pool, log.pool.added, log.pool.removed, PoolKey) == v0.pool
    ensures Undo(v.fee, log.fee.added, log.fee.removed, FeeKey) == v0.fee
  {
    hide Undo, Indexed;
    forall k | k in v.pool ensures v.pool[k].Key() == k {
      assert PoolKey(v.pool[k]) == k;
    }
    forall k | k in v.fee ensures v.fee[k].Key() == k {
      assert FeeKey(v.fee[k]) == k;
    }
  }

  lemma RecordLeadsBack(v0: View, v: View, log: BlockLog, rec: ReverseSnapshot)
    requires Undo(v.pool, log.pool.added, log.pool.removed, PoolKey) == v0.pool
    requires Undo(v.fee, log.fee.added, log.fee.removed, FeeKey) == v0.fee
    requires rec == ReverseSnapshot(rec.blockHash, log.pool.added, log.pool.removed, log.fee.added, log.fee.removed,
                                    log.referenceBefore, v0.alarm)
    ensures UndoView(v, rec) == v0.(reference := log.referenceBefore)
  {
    hide Undo;
  }

  /** A block that applies extends the replay, and a record that leads back over it undoes it. */
  lemma ChainGrows(f: Filter, base: View, chain: seq<BlockDiff>, diff: BlockDiff, v0: View, v: View, rec: ReverseSnapshot)
    requires ApplyBlock(f, v0, diff) == Applied(v)
    ensures ReplayChain(f, base, chain) == Applied(v0) ==>
              && ReplayChain(f, base, chain + [diff]) == Applied(v)
              && (UndoView(v, rec) == v0 ==> Undoes(f, base, chain + [diff], |chain|, rec))
  {
    hide ApplyBlock, UndoView;
    assert (chain + [diff])[..|chain|] == chain && (chain + [diff])[..|chain| + 1] == chain + [diff];
  }

  lemma OneMoreTransaction(f: Filter, v: View, txs: seq<TxDiff>, slot: int, i: nat)
    requires i < |txs| && ApplyTxs(f, v, txs[..i], slot).Applied?
    ensures var before := ApplyTxs(f, v, txs[..i], slot).view;
            && ApplyTxs(f, v, txs[..i + 1], slot) == ApplyTx(f, before, txs[i], slot)
            && SpentBefore(f, v, txs[..i + 1], slot) ==
               if SpendsReference(before, txs[i].consumed) then before.reference else SpentBefore(f, v, txs[..i], slot)
  {
    hide ApplyTx, SpendsReference;
    assert txs[..i + 1][..i] == txs[..i];
  }

  lemma {:induction false} BlockStaysDuplicate(f: Filter, v: View, txs: seq<TxDiff>, slot: int, n: nat)
    requires n <= |txs| && ApplyTxs(f, v, txs[..n], slot).Duplicate?
    ensures ApplyTxs(f, v, txs, slot) == ApplyTxs(f, v, txs[..n], slot)
  {
    if n == |txs| {
      assert txs[..n] == txs;
    } else {
      assert txs[..|txs| - 1][..n] == txs[..n];
      BlockStaysDuplicate(f, v, txs[..|txs| - 1], slot, n);
    }
  }

  ghost predicate History(f: Filter, base: View, chain: seq<BlockDiff>, buffer: seq<BlockDiff>, reverse: seq<ReverseSnapshot>) {
    && |reverse| == |buffer| <= |chain|
    && buffer == chain[|chain| - |buffer|..]
    && forall i :: 0 <= i < |buffer| ==> Undoes(f, base, chain, |chain| - |buffer| + i, reverse[i])
  }

  /** `rec` leads from the view after block `n` back to the view before it. */
  ghost predicate Undoes(f: Filter, base: View, chain: seq<BlockDiff>, n: nat, rec: ReverseSnapshot)
    requires n < |chain|
  {
    UndoView(ReplayChain(f, base, chain[..n + 1]).view, rec) == ReplayChain(f, base, chain[..n]).view
  }

  lemma HistoryIsSuffix(f: Filter, base: View, chain: seq<BlockDiff>, buffer: seq<BlockDiff>, reverse: seq<ReverseSnapshot>)
    requires History(f, base, chain, buffer, reverse)
    ensures |buffer| <= |chain| && buffer == chain[|chain| - |buffer|..]
  {
  }

  lemma HistoryExtends(f: Filter, base: View, chain: seq<BlockDiff>, diff: BlockDiff,
                       buffer: seq<BlockDiff>, reverse: seq<ReverseSnapshot>, rec: ReverseSnapshot)
    requires History(f, base, chain, buffer, reverse)
    requires Undoes(f, base, chain + [diff], |chain|, rec)
    ensures History(f, base, chain + [diff], buffer + [diff], reverse + [rec])
  {
    hide UndoView, ReplayChain;
    var chain' := chain + [diff];
    forall i | 0 <= i < |reverse|
      ensures Undoes(f, base, chain', |chain| - |buffer| + i, reverse[i])
    {
      var n := |chain| - |buffer| + i;
      assert chain'[..n + 1] == chain[..n + 1] && chain'[..n] == chain[..n];
      assert Undoes(f, base, chain, n, reverse[i]);
    }
  }

  lemma HistoryForgets(f: Filter, base: View, chain: seq<BlockDiff>, buffer: seq<BlockDiff>, reverse: seq<ReverseSnapshot>)
    requires History(f, base, chain, buffer, reverse) && buffer != []
    ensures History(f, base, chain, buffer[1..], reverse[1..])
  {
    hide UndoView, ReplayChain;
    forall i | 0 <= i < |buffer| - 1
      ensures Undoes(f, base, chain, |chain| - (|buffer| - 1) + i, reverse[1..][i])
    {
      assert Undoes(f, base, chain, |chain| - |buffer| + (i + 1), reverse[i + 1]);
    }
  }

  lemma HistoryShrinks(f: Filter, base: View, chain: seq<BlockDiff>, buffer: seq<BlockDiff>, reverse: seq<ReverseSnapshot>)
    requires History(f, base, chain, buffer, reverse) && buffer != []
    ensures 0 < |buffer| == |reverse| <= |chain|
    ensures History(f, base, chain[..|chain| - 1], buffer[..|buffer| - 1], reverse[..|reverse| - 1])
    ensures ReplayChain(f, base, chain).Applied? ==> ReplayChain(f, base, chain[..|chain| - 1]).Applied?
    ensures UndoView(ReplayChain(f, base, chain).view, reverse[|reverse| - 1]) == ReplayChain(f, base, chain[..|chain| - 1]).view
  {
    hide *;
    LastUndo(f, base, chain, buffer, reverse);
    ShrunkHistory(f, base, chain, buffer, reverse);
  }

  lemma ShrunkHistory(f: Filter, base: View, chain: seq<BlockDiff>, buffer: seq<BlockDiff>, reverse: seq<ReverseSnapshot>)
    requires History(f, base, chain, buffer, reverse) && buffer != []
    ensures History(f, base, chain[..|chain| - 1], buffer[..|buffer| - 1], reverse[..|reverse| - 1])
  {
    hide Undoes;
    SuffixShrinks(chain, buffer);
    var chain', buffer', reverse' := chain[..|chain| - 1], buffer[..|buffer| - 1], reverse[..|reverse| - 1];
    forall i | 0 <= i < |buffer'| ensures Undoes(f, base, chain', |chain'| - |buffer'| + i, reverse'[i]) {
      UndoesInPrefix(f, base, chain, |chain| - |buffer| + i, reverse[i]);
    }
  }

  lemma SuffixShrinks<T>(s: seq<T>, suffix: seq<T>)
    requires 0 < |suffix| <= |s| && suffix == s[|s| - |suffix|..]
    ensures var s' := s[..|s| - 1]; suffix[..|suffix| - 1] == s'[|s'| - (|suffix| - 1)..]
  {
  }

  lemma UndoesInPrefix(f: Filter, base: View, chain: seq<BlockDiff>, n: nat, rec: ReverseSnapshot)
    requires n + 1 < |chain| && Undoes(f, base, chain, n, rec)
    ensures Undoes(f, base, chain[..|chain| - 1], n, rec)
  {
    hide UndoView, ReplayChain;
    var chain' := chain[..|chain| - 1];
    assert chain'[..n + 1] == chain[..n + 1] && chain'[..n] == chain[..n];
  }

  lemma LastUndo(f: Filter, base: View, chain: seq<BlockDiff>, buffer: seq<BlockDiff>, reverse: seq<ReverseSnapshot>)
    requires History(f, base, chain, buffer, reverse) && buffer != []
    ensures 0 < |buffer| == |reverse| <= |chain|
    ensures ReplayChain(f, base, chain).Applied? ==> ReplayChain(f, base, chain[..|chain| - 1]).Applied?
    ensures UndoView(ReplayChain(f, base, chain).view, reverse[|reverse| - 1]) == ReplayChain(f, base, chain[..|chain| - 1]).view
  {
    hide UndoView, ApplyBlock;
    assert chain[..|chain|] == chain;
    assert Undoes(f, base, chain, |chain| - |buffer| + (|buffer| - 1), reverse[|buffer| - 1]);
  }
}
