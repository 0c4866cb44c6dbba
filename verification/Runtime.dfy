/** The indexer's event loop and its two recoveries (backend/src/indexer/runtime.ts:219-575), and what they
    make of the state.

    The node and the priming callback are oracles: every question is numbered and may be answered in any
    way. `stop()` may be called while a read is pending or a recovery sleeps. */
module Runtime {
  import opened Options
  import opened Refs
  import opened IndexerTypes
  import opened Replay
  import opened IndexerState
  import opened Reorg
  import opened Ledger

  datatype Point = Origin | At(slot: int, id: string)

  datatype ChainSyncEvent =
    | RollForward(block: BlockDiff, nodeTip: Option<ChainTip>)
    | RollBackward(point: Point, nodeTip: Option<ChainTip>)

  datatype Fatal = DeepRollback | ReprimeExhausted | RolledPastTip | ReconnectExhausted

  datatype Source = Unknown | Primed | Replayed

  datatype Handled = Done | ApplyFailed | Deep

  /** The answers of the world. `reprime` is the callback's snapshot, `None` when it throws; `connect` is
      whether a fresh client found the asked point, `None` when connecting throws; `stopped` is whether
      `stop()` was called during a pending read or a sleep. */
  datatype World = World(
    reprime: nat -> Option<PrimeSnapshot>,
    connect: nat -> Option<bool>,
    stopped: nat -> bool)

  /** runtime.ts:570-574 fills the height from the node's tip. */
  function RuntimeTarget(pointSlot: int, pointHash: string, nodeTip: Option<ChainTip>): ChainTip {
    ChainTip(pointSlot, pointHash, if nodeTip.Some? then nodeTip.value.height else 0)
  }

  function PointOf(tip: ChainTip): Point { At(tip.slot, tip.blockHash) }

  /** With the node two blocks ahead of the rollback point, one orphaned block stays applied. */
  lemma RuntimeRollbackCanKeepOrphans(a: BlockDiff, b: BlockDiff, c: BlockDiff, nodeTip: ChainTip)
    requires a.blockHash != b.blockHash && b.blockHash != c.blockHash && c.blockHash != a.blockHash
    requires a.height < nodeTip.height
    ensures var target := RuntimeTarget(a.slot, a.blockHash, Some(nodeTip));
            !TooDeep([a, b, c], Some(TipOf(c)), target) && Kept([a, b, c], Some(TipOf(c)), target) == 2
  {
    var buffer, target := [a, b, c], RuntimeTarget(a.slot, a.blockHash, Some(nodeTip));
    assert !SamePoint(buffer[0], target) && !SamePoint(buffer[1], target) && !SamePoint(buffer[2], target);
    assert buffer[0].height < target.height;
  }

  /** A transaction with one mix box and inputs outside the pool. */
  lemma OneBoxTx(f: Filter, v: View, t: Tx, slot: int)
    requires |t.outputs| == 1 && IsMixBox(f, t.outputs[0])
    requires forall r :: r in LowerRefs(t.inputs) ==> r !in v.pool
    ensures var r, k := ApplyTx(f, v, TxToDiff(f, t), slot), UtxoRef(Lower(t.id), 0);
            if k in v.pool then r.Duplicate? && r.view.pool == v.pool
            else r.Applied? && r.view.pool.Keys == v.pool.Keys + {k}
  {
    var p, refs := ParseOutput(t.outputs[0], t.id, 0), LowerRefs(t.inputs);
    OneBoxDiff(f, t);
    var w, g := Consume(v, refs, slot), ChildGeneration(v.pool, refs);
    assert w.pool == v.pool;
    OneOutput(f, w, p, slot, g);
    assert ApplyTx(f, v, TxDiff(refs, [p]), slot) == Produce(f, w, p, slot, g);
    hide Consume, ProduceAll, LowerRefs, ApplyTx, TxToDiff, CarriesNft;
    if p.ref !in v.pool {
      AddingBox(f, w, p, slot, g);
    }
  }

  lemma AddingBox(f: Filter, v: View, p: ProducedUtxo, slot: int, g: nat)
    requires p.address == f.mixBoxAddress && p.ref !in v.pool && ParsePoolEntry(f, p, slot, g).Some?
    ensures var r := Produce(f, v, p, slot, g); r.Applied? && r.view.pool.Keys == v.pool.Keys + {p.ref}
  {
  }

  lemma OneOutput(f: Filter, v: View, p: ProducedUtxo, slot: int, g: nat)
    ensures ProduceAll(f, v, [p], slot, g) == Produce(f, v, p, slot, g)
  {
    assert [p][..0] == [];
    assert ProduceAll(f, v, [], slot, g) == Applied(v);
    hide Produce;
  }

  lemma OneBoxDiff(f: Filter, t: Tx)
    requires |t.outputs| == 1 && IsMixBox(f, t.outputs[0])
    ensures TxToDiff(f, t) == TxDiff(LowerRefs(t.inputs), [ParseOutput(t.outputs[0], t.id, 0)])
  {
    hide LowerRefs, CarriesNft;
    var p := ParseOutput(t.outputs[0], t.id, 0);
    assert t.outputs[..0] == [] && [] + [p] == [p];
    assert KeptOutputs(f, t.id, []) == [];
  }

  lemma OneBoxLedger(f: Filter, u: Utxos, t: Tx)
    requires |t.outputs| == 1 && t.inputs == [] && !CarriesNft(f, t.outputs[0].assets)
    requires UtxoRef(Lower(t.id), 0) !in u && forall k :: k in u ==> !CarriesNft(f, u[k].assets)
    ensures LedgerAccepts(f, u, t) && LedgerTx(u, t) == u[UtxoRef(Lower(t.id), 0) := t.outputs[0]]
  {
    assert t.outputs[..0] == [] && Spend(u, t) == u;
    assert OutputsOf(t.id, t.outputs) == map[UtxoRef(Lower(t.id), 0) := t.outputs[0]];
  }

  /** Both chains of OrphanMakesNextBlockThrow are chains of the ledger. */
  lemma ForkIsAccepted(f: Filter, s: Tx, t: Tx)
    requires |s.outputs| == |t.outputs| == 1 && Lower(s.id) != Lower(t.id) && s.inputs == t.inputs == []
    requires !CarriesNft(f, s.outputs[0].assets) && !CarriesNft(f, t.outputs[0].assets)
    ensures LedgerAcceptsChain(f, map[], [Block(1, "a", 1, []), Block(2, "b", 2, [t]), Block(3, "c", 3, [])])
    ensures LedgerAcceptsChain(f, map[], [Block(1, "a", 1, []), Block(2, "d", 2, [s, t])])
  {
    var a, b, c, d := Block(1, "a", 1, []), Block(2, "b", 2, [t]), Block(3, "c", 3, []), Block(2, "d", 2, [s, t]);
    assert LedgerChain(map[], [a, b, c][..1]) == map[] by {
      assert [a, b, c][..1] == [a] && [a][..0] == [];
    }
    assert LedgerChain(map[], [a, d][..1]) == map[] by {
      assert [a, d][..1] == [a] && [a][..0] == [];
    }
    OneBoxLedger(f, map[], t);
    OneBoxLedger(f, map[], s);
    OneBoxLedger(f, LedgerTx(map[], s), t);
    assert [s, t][..1] == [s] && [s][..0] == [] && [t][..0] == [];
    assert LedgerTxs(map[], [s]) == LedgerTx(map[], s);
    hide LedgerAccepts, LedgerTx, LedgerChain;
    assert LedgerAcceptsAll(f, map[], [t]);
    assert LedgerAcceptsAll(f, map[], [s, t]);
  }

  lemma OrphanView(f: Filter, t: Tx, v: View)
    requires |t.outputs| == 1 && IsMixBox(f, t.outputs[0]) && t.inputs == [] && v.pool == map[]
    ensures var r := ReplayChain(f, v, Diffs(f, [Block(1, "a", 1, []), Block(2, "b", 2, [t])]));
            r.Applied? && r.view.pool.Keys == {UtxoRef(Lower(t.id), 0)}
  {
    var a, b := Block(1, "a", 1, []), Block(2, "b", 2, [t]);
    var both := Diffs(f, [a, b]);
    assert both == [DiffOf(f, a), DiffOf(f, b)] && both[..1] == [DiffOf(f, a)] && [DiffOf(f, a)][..0] == [];
    OneBoxTx(f, v, t, 2);
    assert DiffOf(f, a).txs == [] && DiffOf(f, b).txs == [TxToDiff(f, t)] && [TxToDiff(f, t)][..0] == [];
    hide ApplyTx, TxToDiff;
    assert ApplyBlock(f, v, DiffOf(f, a)) == Applied(v) && ApplyTxs(f, v, [], 2) == Applied(v);
    assert ApplyBlock(f, v, DiffOf(f, b)) == ApplyTx(f, v, TxToDiff(f, t), 2);
    assert ReplayChain(f, v, [DiffOf(f, a)]) == Applied(v);
  }

  lemma BlockStopsAtOrphan(f: Filter, s: Tx, t: Tx, v: View)
    requires |s.outputs| == |t.outputs| == 1 && IsMixBox(f, s.outputs[0]) && IsMixBox(f, t.outputs[0])
    requires Lower(s.id) != Lower(t.id) && s.inputs == t.inputs == [] && v.pool.Keys == {UtxoRef(Lower(t.id), 0)}
    ensures var o := ApplyBlock(f, v, DiffOf(f, Block(2, "d", 2, [s, t])));
            o.Duplicate? && o.view.pool.Keys == v.pool.Keys + {UtxoRef(Lower(s.id), 0)}
  {
    var first, second := TxToDiff(f, s), TxToDiff(f, t);
    assert TxsToDiff(f, [s, t]) == [first, second] && [first, second][..1] == [first] && [first][..0] == [];
    OneBoxTx(f, v, s, 2);
    OneBoxTx(f, ApplyTx(f, v, first, 2).view, t, 2);
    hide ApplyTx;
    assert ApplyTxs(f, v, [first], 2) == ApplyTx(f, v, first, 2);
  }

  /** What the kept orphan leads to. The node is at `c` when it switches to a fork above `a` whose first
      block `d` holds the orphan's transaction `t` after a transaction `s`, each with one mix box. The fork
      is a chain the ledger accepts; the orphan `b` stays, so `d` throws at the box of `t`, is not recorded,
      and leaves the box of `s` behind. */
  lemma OrphanMakesNextBlockThrow(f: Filter, s: Tx, t: Tx, nodeTip: ChainTip)
    requires |s.outputs| == |t.outputs| == 1 && IsMixBox(f, s.outputs[0]) && IsMixBox(f, t.outputs[0])
    requires !CarriesNft(f, s.outputs[0].assets) && !CarriesNft(f, t.outputs[0].assets)
    requires Lower(s.id) != Lower(t.id) && s.inputs == t.inputs == [] && nodeTip.height > 1
    ensures var a, b, c, d := Block(1, "a", 1, []), Block(2, "b", 2, [t]), Block(3, "c", 3, []), Block(2, "d", 2, [s, t]);
            var empty, buffer := View(map[], map[], None, None), Diffs(f, [a, b, c]);
            var kept := Kept(buffer, Some(TipOf(buffer[2])), RuntimeTarget(1, "a", Some(nodeTip)));
            var v := ReplayChain(f, empty, buffer[..kept]).view;
            var o := ApplyBlock(f, v, DiffOf(f, d));
            && LedgerAcceptsChain(f, map[], [a, b, c]) && LedgerAcceptsChain(f, map[], [a, d])
            && kept == 2 && o.Duplicate?
            && UtxoRef(Lower(s.id), 0) !in v.pool && UtxoRef(Lower(s.id), 0) in o.view.pool
  {
    var a, b, c, d := Block(1, "a", 1, []), Block(2, "b", 2, [t]), Block(3, "c", 3, []), Block(2, "d", 2, [s, t]);
    var buffer := Diffs(f, [a, b, c]);
    ForkIsAccepted(f, s, t);
    assert "a"[0] != "b"[0] && "b"[0] != "c"[0] && "c"[0] != "a"[0];
    RuntimeRollbackCanKeepOrphans(buffer[0], buffer[1], buffer[2], nodeTip);
    assert buffer == [buffer[0], buffer[1], buffer[2]];
    var v := View(map[], map[], None, None);
    OrphanView(f, t, v);
    assert Diffs(f, [a, b]) == buffer[..2];
    BlockStopsAtOrphan(f, s, t, ReplayChain(f, v, buffer[..2]).view);
  }

  /** The undo record of the event's block, if any, will restore the reference. */
  predicate Remembers(f: Filter, v: View, e: ChainSyncEvent) {
    e.RollForward? ==> SpentBefore(f, v, e.block.txs, e.block.slot) == v.reference
  }

  /** The event's block, if any, applies to the view and has a full undo record. */
  predicate Exact(f: Filter, v: View, e: ChainSyncEvent) {
    Remembers(f, v, e) && (e.RollForward? ==> ApplyBlock(f, v, e.block).Applied?)
  }

  /** The event as Reorg has it; a rollback to the origin has no such form. */
  function EventOf(e: ChainSyncEvent): Event
    requires !ToOrigin(e)
  {
    match e
    case RollForward(block, _) => Forward(block)
    case RollBackward(At(slot, id), nodeTip) => Rollback(RuntimeTarget(slot, id, nodeTip))
  }

  predicate ToOrigin(e: ChainSyncEvent) { e.RollBackward? && e.point.Origin? }

  /** Nothing but blocks and rollbacks to points: no failed read, no rollback to the origin. */
  predicate Plain(inputs: seq<Option<ChainSyncEvent>>) {
    forall i :: 0 <= i < |inputs| ==> inputs[i].Some? && !ToOrigin(inputs[i].value)
  }

  function EventsOf(inputs: seq<Option<ChainSyncEvent>>): seq<Event>
    requires Plain(inputs)
  {
    seq(|inputs|, i requires 0 <= i < |inputs| => EventOf(inputs[i].value))
  }

  /** The state follows its chain, and the event is one of a faithful run. */
  ghost predicate Follows(s: IndexerState, e: Event)
    reads s
  {
    s.Valid() && s.AtTip() && UniqueHashes(s.chain) && GoodEvent(s.filter, s.base, s.chain, |s.buffer|, e)
  }

  /** The state has followed the event, from a chain with `depth` blocks in the buffer. */
  ghost predicate Followed(s: IndexerState, base: View, chain: seq<BlockDiff>, depth: nat, e: Event)
    reads s
  {
    && s.Valid() && s.AtTip() && UniqueHashes(s.chain) && s.base == base
    && s.chain == NextChain(chain, e) && |s.buffer| == NextDepth(chain, depth, e)
  }

  lemma FollowedHolds(s: IndexerState, base: View, chain: seq<BlockDiff>, depth: nat, e: Event)
    requires s.Valid() && s.AtTip() && UniqueHashes(s.chain) && s.base == base
    requires s.chain == NextChain(chain, e) && |s.buffer| == NextDepth(chain, depth, e)
    ensures Followed(s, base, chain, depth, e)
  {
  }

  /** What a forward block of a faithful run will do, read off before it is applied. */
  lemma ForwardPlan(s: IndexerState, b: BlockDiff)
    requires Follows(s, Forward(b))
    ensures NextChain(s.chain, Forward(b)) == s.chain + [b]
    ensures s.Valid() && s.Shape() && ApplyBlock(s.filter, s.CurrentView(), b).Applied?
    ensures SpentBefore(s.filter, s.CurrentView(), b.txs, b.slot) == s.referenceRef
    ensures UniqueHashes(s.chain + [b])
    ensures |Newest(s.buffer + [b], ROLLBACK_BUFFER_BLOCKS)| == NextDepth(s.chain, |s.buffer|, Forward(b))
  {
    StepApplies(s.filter, s.base, s.chain, b);
    SafeBlockRemembersReference(s.filter, s.CurrentView(), b.txs, b.slot);
    hide History, ApplyTxs, ReplayChain, SpentBefore, Keyed, SpendsNoOwnReference;
  }

  /** What a rollback of a faithful run will do, read off before it is applied. */
  lemma BackwardPlan(s: IndexerState, t: ChainTip)
    requires Follows(s, Rollback(t))
    ensures s.Valid() && !TooDeep(s.buffer, s.tip, t)
    ensures |s.chain| - |s.buffer| + Kept(s.buffer, s.tip, t) == NewestMatch(s.chain, t)
    ensures Kept(s.buffer, s.tip, t) == NextDepth(s.chain, |s.buffer|, Rollback(t))
    ensures var cut := s.chain[..NewestMatch(s.chain, t)];
            NextChain(s.chain, Rollback(t)) == cut && UniqueHashes(cut) && cut != [] && TipOf(cut[|cut| - 1]) == t
  {
    s.BufferIsSuffix();
    RollbackPlan(s, t);
    hide NewestMatch, SpendsNoOwnReference, ReplayChain, TooDeep, Kept, UniqueHashes, History;
  }

  function TargetOf(e: ChainSyncEvent): ChainTip
    requires e.RollBackward? && e.point.At?
  {
    RuntimeTarget(e.point.slot, e.point.id, e.nodeTip)
  }

  /** The event asks for more than the buffer can undo. */
  predicate IsDeep(buffer: seq<BlockDiff>, tip: Option<ChainTip>, e: ChainSyncEvent) {
    e.RollBackward? && if e.point.Origin? then buffer != [] || tip.Some? else TooDeep(buffer, tip, TargetOf(e))
  }

  lemma ExactMeans(f: Filter, v: View, e: ChainSyncEvent)
    requires Exact(f, v, e)
    ensures Remembers(f, v, e) && (e.RollForward? ==> ApplyBlock(f, v, e.block).Applied?)
  {
  }

  /** The events are a faithful run that ends with `final`. */
  ghost predicate Leads(f: Filter, base: View, chain: seq<BlockDiff>, depth: int, events: seq<Event>, final: seq<BlockDiff>) {
    depth >= 0 && Faithful(f, base, chain, depth, events) && Survivors(chain, events) == final
  }

  lemma OneEventOn(f: Filter, base: View, chain: seq<BlockDiff>, depth: int, events: seq<Event>, final: seq<BlockDiff>)
    requires events != [] && Leads(f, base, chain, depth, events, final)
    ensures GoodEvent(f, base, chain, depth, events[0])
    ensures Leads(f, base, NextChain(chain, events[0]), NextDepth(chain, depth, events[0]), events[1..], final)
  {
    hide SpendsNoOwnReference, ReplayChain, NewestMatch;
  }

  lemma PlainAt(inputs: seq<Option<ChainSyncEvent>>, i: nat)
    requires Plain(inputs) && i < |inputs|
    ensures inputs[i].Some? && !ToOrigin(inputs[i].value)
  {
  }

  /** What re-priming may have done: nothing, or a snapshot the callback answered took the state's place. */
  ghost predicate Recovers(f: Filter, world: World, m: Moment, m': Moment) {
    m' == m || exists t :: world.reprime(t).Some? && m' == PrimedMoment(f, world.reprime(t).value)
  }

  /** What an event within the buffer's reach does; a deep one changes nothing yet. */
  ghost predicate Handles(f: Filter, m: Moment, e: ChainSyncEvent, m': Moment)
    requires |m.buffer| == |m.reverse|
  {
    match e
    case RollForward(b, _) => Advances(f, m, b, m')
    case RollBackward(_, _) => m' == if ToOrigin(e) || IsDeep(m.buffer, m.tip, e) then m else RolledBack(m, TargetOf(e))
  }

  /** What one turn of the loop does to everything the indexer holds. */
  ghost predicate Moves(f: Filter, world: World, m: Moment, input: Option<ChainSyncEvent>, m': Moment) {
    && |m.buffer| == |m.reverse|
    && if input.None? || IsDeep(m.buffer, m.tip, input.value) then Recovers(f, world, m, m')
       else Handles(f, m, input.value, m')
  }

  /** The view is a plain replay of the chain from the base. */
  ghost predicate IsReplay(f: Filter, m: Moment) { ReplayChain(f, m.base, m.chain) == Applied(m.view) }

  /** Every block among the first `n` inputs applied to the view it met and has a full undo record. */
  ghost predicate ExactUpTo(f: Filter, moments: seq<Moment>, inputs: seq<Option<ChainSyncEvent>>, n: nat)
    requires n <= |inputs| && n <= |moments|
  {
    forall i :: 0 <= i < n && inputs[i].Some? ==> Exact(f, moments[i].view, inputs[i].value)
  }

  /** The moments of a run: each turn leads from one to the next. */
  ghost predicate RunOf(f: Filter, world: World, moments: seq<Moment>, inputs: seq<Option<ChainSyncEvent>>, n: nat)
    requires n <= |inputs|
  {
    |moments| == n + 1 && forall j :: 0 <= j < n ==> Moves(f, world, moments[j], inputs[j], moments[j + 1])
  }

  /** Up to the first inexact block every moment is a replay. */
  ghost predicate ReplayedThroughout(f: Filter, moments: seq<Moment>, inputs: seq<Option<ChainSyncEvent>>, n: nat)
    requires n <= |inputs| && |moments| == n + 1
  {
    forall j :: 0 <= j <= n && ExactUpTo(f, moments, inputs, j) ==> IsReplay(f, moments[j])
  }

  lemma OneMoreMove(f: Filter, world: World, moments: seq<Moment>, inputs: seq<Option<ChainSyncEvent>>, n: nat, m: Moment)
    requires n < |inputs| && RunOf(f, world, moments, inputs, n) && Moves(f, world, moments[n], inputs[n], m)
    ensures RunOf(f, world, moments + [m], inputs, n + 1)
  {
    hide Moves;
  }

  lemma ExactInPrefix(f: Filter, moments: seq<Moment>, inputs: seq<Option<ChainSyncEvent>>, n: nat, m: Moment)
    requires n <= |inputs| && n <= |moments|
    ensures ExactUpTo(f, moments + [m], inputs, n) == ExactUpTo(f, moments, inputs, n)
  {
    hide Exact;
  }

  lemma OneMoreExact(f: Filter, moments: seq<Moment>, inputs: seq<Option<ChainSyncEvent>>, n: nat, m: Moment)
    requires n < |inputs| && |moments| == n + 1
    ensures ExactUpTo(f, moments + [m], inputs, n + 1) <==>
            ExactUpTo(f, moments, inputs, n) && (inputs[n].Some? ==> Exact(f, moments[n].view, inputs[n].value))
  {
    hide Exact;
    var more := moments + [m];
    assert forall i :: 0 <= i <= n ==> more[i] == moments[i];
  }

  lemma OneMoreReplayed(f: Filter, moments: seq<Moment>, inputs: seq<Option<ChainSyncEvent>>, n: nat, m: Moment)
    requires n < |inputs| && |moments| == n + 1 && ReplayedThroughout(f, moments, inputs, n)
    requires ExactUpTo(f, moments + [m], inputs, n + 1) ==> IsReplay(f, m)
    ensures ReplayedThroughout(f, moments + [m], inputs, n + 1)
  {
    hide ExactUpTo, IsReplay;
    var more := moments + [m];
    forall j | 0 <= j <= n + 1 && ExactUpTo(f, more, inputs, j) ensures IsReplay(f, more[j]) {
      if j <= n {
        ExactInPrefix(f, moments, inputs, j, m);
      }
    }
  }

  lemma FirstMoment(f: Filter, world: World, m: Moment, inputs: seq<Option<ChainSyncEvent>>)
    ensures RunOf(f, world, [m], inputs, 0) && ExactUpTo(f, [m], inputs, 0)
    ensures IsReplay(f, m) ==> ReplayedThroughout(f, [m], inputs, 0)
  {
  }

  lemma RecoversTwice(f: Filter, world: World, m: Moment, m1: Moment, m2: Moment)
    requires Recovers(f, world, m, m1) && Recovers(f, world, m1, m2)
    ensures Recovers(f, world, m, m2)
  {
  }

  lemma RecoversNot(f: Filter, world: World, m: Moment)
    ensures Recovers(f, world, m, m)
  {
  }

  lemma AdvancesHolds(f: Filter, m: Moment, b: BlockDiff, m': Moment, ok: bool)
    requires ApplyBlock(f, m.view, b) == if ok then Applied(m'.view) else Duplicate(m'.view)
    requires m'.base == m.base && (!ok ==> m' == m.(view := m'.view))
    requires ok ==>
               && m'.tip == Some(TipOf(b)) && m'.chain == m.chain + [b]
               && m'.buffer == Newest(m.buffer + [b], ROLLBACK_BUFFER_BLOCKS)
               && m'.reverse != [] && m'.reverse == Newest(m.reverse + [m'.reverse[|m'.reverse| - 1]], ROLLBACK_BUFFER_BLOCKS)
               && UndoView(m'.view, m'.reverse[|m'.reverse| - 1]) == m.view.(reference := SpentBefore(f, m.view, b.txs, b.slot))
    ensures Advances(f, m, b, m')
  {
  }

  lemma ValidIsReplayed(s: IndexerState)
    requires s.Valid()
    ensures IsReplay(s.filter, s.Now())
  {
  }

  lemma NowParts(s: IndexerState)
    ensures s.Now() == Moment(s.CurrentView(), s.tip, s.buffer, s.reverse, s.base, s.chain)
    ensures s.Shape() ==> |s.buffer| == |s.reverse|
  {
  }

  class Runtime {
    const state: IndexerState
    const world: World
    const canReprime: bool
    const maxReprimeAttempts: nat
    const maxReconnectAttempts: nat
    const startPoints: seq<Point>
    var chainTip: Option<ChainTip>
    var running: bool
    var stopped: bool
    var fatal: Option<Fatal>
    /** Where the live client resumed; `None` when there is no client. */
    var client: Option<seq<Point>>
    var source: Source
    var reprimeCount: nat
    var clock: nat

    /** The loop runs exactly while there is no fatal error and nobody asked it to stop, and then has a client. */
    ghost predicate Sound()
      reads this, state
    {
      state.Shape() && (running <==> fatal == None && !stopped) && (running ==> client.Some?)
    }

    constructor (state: IndexerState, world: World, canReprime: bool, maxReprimeAttempts: nat, maxReconnectAttempts: nat,
                 startPoints: seq<Point>, found: bool)
      requires state.Shape()
      ensures Sound() && running && this.state == state && this.world == world && this.canReprime == canReprime
      ensures client == Some(if found then startPoints else [Origin]) && reprimeCount == 0
    {
      this.state, this.world, this.canReprime := state, world, canReprime;
      this.maxReprimeAttempts, this.maxReconnectAttempts, this.startPoints := maxReprimeAttempts, maxReconnectAttempts, startPoints;
      chainTip, running, stopped, fatal := None, true, false, None;
      client, source, reprimeCount, clock := Some(if found then startPoints else [Origin]), Replayed, 0, 0;
    }

    /** applyEvent (runtime.ts:547-575): what each event does to the node tip and to the state. */
    method ApplyEvent(e: ChainSyncEvent) returns (h: Handled)
      requires state.Shape()
      modifies this`chainTip, state
      ensures state.Shape()
      ensures chainTip == if e.nodeTip.Some? then e.nodeTip else old(chainTip)
      ensures h == Deep ==> e.RollBackward? && state.Now() == old(state.Now())
      ensures e.RollBackward? && e.point.Origin? ==>
                h == if old(state.buffer) == [] && old(state.tip) == None then Done else Deep
      ensures e.RollBackward? && e.point.At? ==>
                var target := RuntimeTarget(e.point.slot, e.point.id, e.nodeTip);
                && h == (if TooDeep(old(state.buffer), old(state.tip), target) then Deep else Done)
                && (h == Done ==> state.buffer == old(state.buffer)[..Kept(old(state.buffer), old(state.tip), target)])
      ensures e.RollForward? ==>
                ApplyBlock(state.filter, old(state.CurrentView()), e.block) ==
                if h == Done then Applied(state.CurrentView()) else Duplicate(state.CurrentView())
      ensures |old(state.buffer)| == |old(state.reverse)| && Handles(state.filter, old(state.Now()), e, state.Now())
      ensures old(state.Valid()) && h != ApplyFailed && Remembers(state.filter, old(state.CurrentView()), e) ==> state.Valid()
      ensures !ToOrigin(e) && old(Follows(state, EventOf(e))) ==>
                h == Done && Followed(state, old(state.base), old(state.chain), |old(state.buffer)|, EventOf(e))
    {
      if e.nodeTip.Some? {
        chainTip := e.nodeTip;
      }
      NowParts(state);
      ghost var before := state.Now();
      hide Follows, Followed, ApplyBlock, SpentBefore, TooDeep, Kept, Advances, RolledBack, IndexerState.Valid, IndexerState.Shape,
           IndexerState.Now, IndexerState.AtTip;
      match e
      case RollForward(block, _) =>
        var ok := Advance(block);
        h := if ok then Done else ApplyFailed;
      case RollBackward(point, nodeTip) =>
        if point.Origin? {
          return if state.buffer == [] && state.tip == None then Done else Deep;
        }
        var deep := GoBack(RuntimeTarget(point.slot, point.id, nodeTip));
        h := if deep then Deep else Done;
    }

    /** applyEvent's forward half. */
    method Advance(block: BlockDiff) returns (ok: bool)
      requires state.Shape()
      modifies state
      ensures state.Shape()
      ensures ApplyBlock(state.filter, old(state.CurrentView()), block) ==
              if ok then Applied(state.CurrentView()) else Duplicate(state.CurrentView())
      ensures Advances(state.filter, old(state.Now()), block, state.Now())
      ensures old(state.Valid()) && ok && SpentBefore(state.filter, old(state.CurrentView()), block.txs, block.slot) == old(state.referenceRef)
              ==> state.Valid()
      ensures old(Follows(state, Forward(block))) ==>
                ok && Followed(state, old(state.base), old(state.chain), |old(state.buffer)|, Forward(block))
    {
      ghost var good := Follows(state, Forward(block));
      if good {
        ForwardPlan(state, block);
      }
      ghost var base, chain, depth := state.base, state.chain, |state.buffer|;
      ghost var before := state.Now();
      hide *;
      NowParts(state);
      ok := state.ApplyForward(block);
      NowParts(state);
      AdvancesHolds(state.filter, before, block, state.Now(), ok);
      if good {
        FollowedHolds(state, base, chain, depth, Forward(block));
      }
    }

    /** applyEvent's backward half. */
    method GoBack(target: ChainTip) returns (deep: bool)
      requires state.Shape()
      modifies state
      ensures state.Shape()
      ensures deep == TooDeep(old(state.buffer), old(state.tip), target)
      ensures |old(state.buffer)| == |old(state.reverse)|
      ensures state.Now() == if deep then old(state.Now()) else RolledBack(old(state.Now()), target)
      ensures deep ==> state.CurrentView() == old(state.CurrentView()) && state.buffer == old(state.buffer)
      ensures !deep ==> state.buffer == old(state.buffer)[..Kept(old(state.buffer), old(state.tip), target)]
      ensures old(state.Valid()) ==> state.Valid()
      ensures old(Follows(state, Rollback(target))) ==>
                !deep && Followed(state, old(state.base), old(state.chain), |old(state.buffer)|, Rollback(target))
    {
      ghost var good := Follows(state, Rollback(target));
      if good {
        BackwardPlan(state, target);
      }
      ghost var base, chain, depth := state.base, state.chain, |state.buffer|;
      hide *;
      NowParts(state);
      deep := state.ApplyRollback(target);
      NowParts(state);
      if good {
        assert state.chain == chain[..NewestMatch(chain, target)];
        RolledBackTo(state, target);
        FollowedHolds(state, base, chain, depth, Rollback(target));
      }
    }

    /** One attempt to re-prime: a snapshot, then a client at its tip (runtime.ts:336-377). */
    method Reprime() returns (resumed: bool)
      requires state.Shape()
      modifies this`client, this`source, this`reprimeCount, this`clock, state
      ensures state.Shape() && chainTip == old(chainTip)
      ensures resumed <==> world.reprime(old(clock)).Some? && world.connect(old(clock)) == Some(true)
      ensures reprimeCount == old(reprimeCount) + if world.reprime(old(clock)).Some? then 1 else 0
      ensures state.Now() == if world.reprime(old(clock)).None? then old(state.Now())
                             else PrimedMoment(state.filter, world.reprime(old(clock)).value)
      ensures Recovers(state.filter, world, old(state.Now()), state.Now())
      ensures resumed ==> state.Valid() && state.AtTip() && state.chain == [] && state.buffer == [] && source == Primed
      ensures resumed ==> state.tip.Some? && client == Some([PointOf(state.tip.value)])
      ensures old(state.Valid()) ==> state.Valid()
    {
      var snapshot, found := world.reprime(clock), world.connect(clock);
      clock := clock + 1;
      if snapshot.None? {
        return false;
      }
      state.PrimeFrom(snapshot.value);
      source, reprimeCount, client := Primed, reprimeCount + 1, None;
      if found != Some(true) {
        return false;
      }
      client := Some([PointOf(snapshot.value.tip)]);
      resumed := true;
    }

    /** A pending read or a sleep between attempts, in which `stop()` may be called. */
    method Await()
      requires running && !stopped
      modifies this`running, this`stopped, this`clock
      ensures running <==> !stopped
    {
      if world.stopped(clock) {
        running, stopped := false, true;
      }
      clock := clock + 1;
    }

    /** tryReprime (runtime.ts:319-396). When it answers true the state is a snapshot and the client resumes
        at its tip; otherwise the loop halts, with a reason unless it was stopped. */
    method TryReprime() returns (ok: bool)
      requires state.Shape() && running && fatal == None && !stopped
      modifies this, state
      ensures state.Shape() && chainTip == old(chainTip)
      ensures ok ==> running && fatal == None && !stopped
      ensures ok ==> state.Valid() && state.AtTip() && state.chain == [] && state.buffer == [] && source == Primed
      ensures ok ==> state.tip.Some? && client == Some([PointOf(state.tip.value)])
      ensures !ok ==> !running && (stopped <==> fatal == None)
      ensures !ok && fatal.Some? ==> fatal == Some(if canReprime then ReprimeExhausted else DeepRollback)
      ensures reprimeCount <= old(reprimeCount) + maxReprimeAttempts
      ensures Recovers(state.filter, world, old(state.Now()), state.Now()) && (!canReprime ==> state.Now() == old(state.Now()))
      ensures old(state.Valid()) ==> state.Valid()
    {
      ghost var before := state.Now();
      RecoversNot(state.filter, world, before);
      hide *;
      if !canReprime {
        fatal, running := Some(DeepRollback), false;
        return false;
      }
      var attempt := 0;
      while running && attempt < maxReprimeAttempts
        invariant attempt <= maxReprimeAttempts && reprimeCount <= old(reprimeCount) + attempt
        invariant state.Shape() && chainTip == old(chainTip) && fatal == None && (running <==> !stopped)
        invariant old(state.Valid()) ==> state.Valid()
        invariant Recovers(state.filter, world, old(state.Now()), state.Now())
        decreases maxReprimeAttempts - attempt
      {
        attempt := attempt + 1;
        ghost var here := state.Now();
        var resumed := Reprime();
        RecoversTwice(state.filter, world, before, here, state.Now());
        if resumed {
          return true;
        }
        if attempt >= maxReprimeAttempts {
          break;
        }
        Await();
      }
      if !running {
        return false;
      }
      fatal, running := Some(ReprimeExhausted), false;
      return false;
    }

    /** resumePoints (runtime.ts:530-536). */
    function ResumePoints(): seq<Point>
      reads state, this
    {
      if state.tip.Some? then [PointOf(state.tip.value)] else startPoints
    }

    /** tryReconnect (runtime.ts:411-516). When it answers true the client resumes at the tip the state has
        (which a re-prime on the way may have moved), or from a start point when the state has none. */
    method TryReconnect() returns (ok: bool)
      requires state.Shape() && running && fatal == None && !stopped
      modifies this, state
      ensures state.Shape() && chainTip == old(chainTip)
      ensures ok ==> running && fatal == None && !stopped
      ensures ok && state.tip.Some? ==> client == Some([PointOf(state.tip.value)])
      ensures ok && state.tip.None? ==> client == Some(startPoints) || client == Some([Origin])
      ensures !ok ==> !running && (stopped <==> fatal == None)
      ensures fatal == Some(RolledPastTip) ==> !canReprime && state.tip.Some?
      ensures fatal != Some(DeepRollback)
      ensures Recovers(state.filter, world, old(state.Now()), state.Now()) && (!canReprime ==> state.Now() == old(state.Now()))
      ensures old(state.Valid()) ==> state.Valid()
    {
      RecoversNot(state.filter, world, state.Now());
      NowParts(state);
      hide *;
      var attempts := 0;
      while running
        invariant state.Shape() && chainTip == old(chainTip) && fatal == None && (running <==> !stopped)
        invariant state.Now() == old(state.Now()) && state.tip == old(state.tip)
        invariant old(state.Valid()) ==> state.Valid()
        invariant attempts == 0 || attempts < maxReconnectAttempts
        decreases maxReconnectAttempts - attempts
      {
        attempts := attempts + 1;
        client := None;
        var found := world.connect(clock);
        clock := clock + 1;
        if found.Some? {
          if !found.value && state.tip.Some? {
            if canReprime {
              ok := TryReprime();
              return;
            }
            fatal, running := Some(RolledPastTip), false;
            return false;
          }
          client := Some(if found.value then ResumePoints() else [Origin]);
          return true;
        }
        if attempts >= maxReconnectAttempts {
          break;
        }
        Await();
      }
      if !running {
        return false;
      }
      fatal, running := Some(ReconnectExhausted), false;
      return false;
    }

    /** One turn of loop (runtime.ts:270-308): `None` is a read that failed, as every read does after
        `stop()`. A rollback deeper than the buffer ends in a re-primed state or halts the loop; a block that fails to apply is skipped. */
    method Turn(input: Option<ChainSyncEvent>)
      requires Sound() && running
      modifies this, state
      ensures Sound()
      ensures chainTip == if input.Some? && input.value.nodeTip.Some? then input.value.nodeTip else old(chainTip)
      ensures old(state.Valid()) && (input.Some? ==> Exact(state.filter, old(state.CurrentView()), input.value)) ==> state.Valid()
      ensures Moves(state.filter, world, old(state.Now()), input, state.Now())
      ensures input.Some? && !IsDeep(old(state.buffer), old(state.tip), input.value) ==> running && client == old(client)
      ensures input.Some? && IsDeep(old(state.buffer), old(state.tip), input.value) && running ==>
                state.chain == [] && state.buffer == [] && state.tip.Some? && client == Some([PointOf(state.tip.value)])
      ensures input.Some? && !ToOrigin(input.value) && old(Follows(state, EventOf(input.value))) ==>
                running && Followed(state, old(state.base), old(state.chain), |old(state.buffer)|, EventOf(input.value))
      ensures fatal == Some(DeepRollback) ==> !canReprime && state.Now() == old(state.Now())
    {
      NowParts(state);
      hide Recovers, Handles, Advances, RolledBack, IndexerState.Now, Follows, Followed, ApplyBlock, Exact, Remembers, TooDeep, Kept, IndexerState.Valid, IndexerState.Shape, IndexerState.AtTip;
      if input.None? {
        RecoversNot(state.filter, world, state.Now());
        Await();
        if !running {
          return;
        }
        var recovered := TryReconnect();
        return;
      }
      if Exact(state.filter, state.CurrentView(), input.value) {
        ExactMeans(state.filter, state.CurrentView(), input.value);
      }
      var h := ApplyEvent(input.value);
      if h == Deep {
        if canReprime {
          var recovered := TryReprime();
        } else {
          RecoversNot(state.filter, world, state.Now());
          fatal, running := Some(DeepRollback), false;
        }
      }
    }

    /** loop (runtime.ts:269-309), over everything the node sends. `moments` is what the indexer holds before
        the first turn and after each. As long as every block that arrives applies and has a full undo record,
        every moment is a plain replay of its surviving chain, through any reconnects, re-primes and
        rollbacks, deep or not. On a faithful run the loop never halts or re-primes, and ends with the chain
        that Reorg.Follow ends with. */
    method Loop(inputs: seq<Option<ChainSyncEvent>>) returns (ghost moments: seq<Moment>, handled: nat)
      requires Sound() && running
      modifies this, state
      ensures Sound() && handled <= |inputs| && (running ==> handled == |inputs|)
      ensures RunOf(state.filter, world, moments, inputs, handled)
      ensures moments[0] == old(state.Now()) && moments[handled] == state.Now()
      ensures old(state.Valid()) ==> ReplayedThroughout(state.filter, moments, inputs, handled)
      ensures old(state.Valid()) && ExactUpTo(state.filter, moments, inputs, handled) ==> state.Valid()
      ensures old(state.Valid() && state.AtTip() && UniqueHashes(state.chain)) && Plain(inputs) &&
              Faithful(state.filter, old(state.base), old(state.chain), |old(state.buffer)|, EventsOf(inputs)) ==>
                && running && state.Valid() && state.AtTip() && state.base == old(state.base)
                && state.chain == Survivors(old(state.chain), EventsOf(inputs))
    {
      ghost var wasValid := state.Valid();
      ghost var good := wasValid && state.AtTip() && UniqueHashes(state.chain) && Plain(inputs) &&
                        Faithful(state.filter, state.base, state.chain, |state.buffer|, EventsOf(inputs));
      ghost var base, final := state.base, if Plain(inputs) then Survivors(state.chain, EventsOf(inputs)) else [];
      if good {
        OnTrackStarts(inputs);
      }
      ghost var start := state.Now();
      handled := 0;
      moments := [start];
      if wasValid {
        ValidIsReplayed(state);
      }
      FirstMoment(state.filter, world, start, inputs);
      hide *;
      RecordStarts(inputs);
      while running && handled < |inputs|
        invariant Sound() && handled <= |inputs| && |moments| == handled + 1
        invariant Recorded(start, moments, inputs, handled)
        invariant wasValid ==> StillReplayed(moments, inputs, handled)
        invariant good ==> running && OnTrack(base, inputs, handled, final)
      {
        RunTurn(inputs, handled, start, moments, wasValid, good, base, final);
        moments := moments + [state.Now()];
        handled := handled + 1;
      }
      RecordMeans(start, moments, inputs, handled, wasValid);
      if good {
        OnTrackEnds(base, inputs, final);
      }
    }

    /** One turn, with what is kept about all of them. */
    method RunTurn(inputs: seq<Option<ChainSyncEvent>>, handled: nat, ghost start: Moment, ghost moments: seq<Moment>,
                   ghost wasValid: bool, ghost good: bool, ghost base: View, ghost final: seq<BlockDiff>)
      requires Sound() && running && handled < |inputs| && |moments| == handled + 1 && (good ==> Plain(inputs))
      requires Recorded(start, moments, inputs, handled)
      requires wasValid ==> StillReplayed(moments, inputs, handled)
      requires good ==> OnTrack(base, inputs, handled, final)
      modifies this, state
      ensures Sound()
      ensures Recorded(start, moments + [state.Now()], inputs, handled + 1)
      ensures wasValid ==> StillReplayed(moments + [state.Now()], inputs, handled + 1)
      ensures good ==> running && OnTrack(base, inputs, handled + 1, final)
    {
      hide *;
      RecordMeans(start, moments, inputs, handled, wasValid);
      NowParts(state);
      if good {
        NextOnTrack(base, inputs, handled, final);
        PlainAt(inputs, handled);
      }
      ghost var chain, depth := state.chain, |state.buffer|;
      Turn(inputs[handled]);
      RecordGrows(start, moments, inputs, handled);
      OneMoreExact(state.filter, moments, inputs, handled, state.Now());
      if wasValid {
        ReplayGrows(moments, inputs, handled);
      }
      if good {
        StillOnTrack(base, chain, depth, inputs, handled + 1, final);
      }
    }

    /** What is kept of a run: its moments so far, the last of them now. */
    ghost predicate Recorded(start: Moment, moments: seq<Moment>, inputs: seq<Option<ChainSyncEvent>>, handled: nat)
      reads this, state
    {
      && handled <= |inputs| && RunOf(state.filter, world, moments, inputs, handled)
      && moments[0] == start && moments[handled] == state.Now()
    }

    ghost predicate StillReplayed(moments: seq<Moment>, inputs: seq<Option<ChainSyncEvent>>, handled: nat)
      reads this, state
    {
      && handled <= |inputs| && |moments| == handled + 1 && ReplayedThroughout(state.filter, moments, inputs, handled)
      && (ExactUpTo(state.filter, moments, inputs, handled) ==> state.Valid())
    }

    lemma RecordStarts(inputs: seq<Option<ChainSyncEvent>>)
      requires RunOf(state.filter, world, [state.Now()], inputs, 0)
      ensures Recorded(state.Now(), [state.Now()], inputs, 0)
      ensures ReplayedThroughout(state.filter, [state.Now()], inputs, 0) && state.Valid() ==> StillReplayed([state.Now()], inputs, 0)
    {
    }

    lemma RecordMeans(start: Moment, moments: seq<Moment>, inputs: seq<Option<ChainSyncEvent>>, handled: nat, wasValid: bool)
      requires Recorded(start, moments, inputs, handled) && |moments| == handled + 1
      requires wasValid ==> StillReplayed(moments, inputs, handled)
      ensures handled <= |inputs| && RunOf(state.filter, world, moments, inputs, handled)
      ensures moments[0] == start && moments[handled] == state.Now()
      ensures wasValid ==> ReplayedThroughout(state.filter, moments, inputs, handled)
      ensures wasValid && ExactUpTo(state.filter, moments, inputs, handled) ==> state.Valid()
    {
    }

    lemma RecordGrows(start: Moment, moments: seq<Moment>, inputs: seq<Option<ChainSyncEvent>>, handled: nat)
      requires handled < |inputs| && |moments| == handled + 1 && RunOf(state.filter, world, moments, inputs, handled)
      requires moments[0] == start && Moves(state.filter, world, moments[handled], inputs[handled], state.Now())
      ensures Recorded(start, moments + [state.Now()], inputs, handled + 1)
    {
      OneMoreMove(state.filter, world, moments, inputs, handled, state.Now());
      hide RunOf, Moves;
    }

    lemma ReplayGrows(moments: seq<Moment>, inputs: seq<Option<ChainSyncEvent>>, handled: nat)
      requires handled < |inputs| && |moments| == handled + 1 && ReplayedThroughout(state.filter, moments, inputs, handled)
      requires ExactUpTo(state.filter, moments + [state.Now()], inputs, handled + 1) ==> state.Valid()
      ensures StillReplayed(moments + [state.Now()], inputs, handled + 1)
    {
      if state.Valid() {
        ValidIsReplayed(state);
      }
      hide IndexerState.Valid, ExactUpTo, IsReplay;
      OneMoreReplayed(state.filter, moments, inputs, handled, state.Now());
    }

    /** Half-way through a faithful run that is to end with `final`. */
    ghost predicate OnTrack(base: View, inputs: seq<Option<ChainSyncEvent>>, handled: nat, final: seq<BlockDiff>)
      requires Plain(inputs) && handled <= |inputs|
      reads this, state
    {
      && state.Valid() && state.AtTip() && UniqueHashes(state.chain) && state.base == base
      && Leads(state.filter, base, state.chain, |state.buffer|, EventsOf(inputs)[handled..], final)
    }

    lemma NextOnTrack(base: View, inputs: seq<Option<ChainSyncEvent>>, handled: nat, final: seq<BlockDiff>)
      requires Plain(inputs) && handled < |inputs| && OnTrack(base, inputs, handled, final)
      ensures var e := EventOf(inputs[handled].value);
              && Follows(state, e) && state.base == base
              && Leads(state.filter, base, NextChain(state.chain, e), NextDepth(state.chain, |state.buffer|, e),
                       EventsOf(inputs)[handled + 1..], final)
    {
      hide GoodEvent, NextChain, NextDepth, UniqueHashes, IndexerState.Valid, IndexerState.AtTip, Leads;
      OneEventOn(state.filter, base, state.chain, |state.buffer|, EventsOf(inputs)[handled..], final);
      assert EventsOf(inputs)[handled..][1..] == EventsOf(inputs)[handled + 1..];
    }

    lemma StillOnTrack(base: View, chain: seq<BlockDiff>, depth: nat, inputs: seq<Option<ChainSyncEvent>>, handled: nat, final: seq<BlockDiff>)
      requires Plain(inputs) && 0 < handled <= |inputs| && Followed(state, base, chain, depth, EventOf(inputs[handled - 1].value))
      requires var e := EventOf(inputs[handled - 1].value);
               Leads(state.filter, base, NextChain(chain, e), NextDepth(chain, depth, e), EventsOf(inputs)[handled..], final)
      ensures OnTrack(base, inputs, handled, final)
    {
      hide NextChain, NextDepth, UniqueHashes, IndexerState.Valid, IndexerState.AtTip, Leads;
    }

    lemma OnTrackStarts(inputs: seq<Option<ChainSyncEvent>>)
      requires state.Valid() && state.AtTip() && UniqueHashes(state.chain) && Plain(inputs)
      requires Faithful(state.filter, state.base, state.chain, |state.buffer|, EventsOf(inputs))
      ensures OnTrack(state.base, inputs, 0, Survivors(state.chain, EventsOf(inputs)))
    {
      hide UniqueHashes, IndexerState.Valid, IndexerState.AtTip, Faithful, Survivors;
      assert EventsOf(inputs)[0..] == EventsOf(inputs);
    }

    lemma OnTrackEnds(base: View, inputs: seq<Option<ChainSyncEvent>>, final: seq<BlockDiff>)
      requires Plain(inputs) && OnTrack(base, inputs, |inputs|, final)
      ensures state.Valid() && state.AtTip() && state.base == base && state.chain == final
    {
      hide UniqueHashes, IndexerState.Valid, IndexerState.AtTip, Faithful;
      assert EventsOf(inputs)[|inputs|..] == [];
    }
  }
}
