/** Building a fan-out plan unsigned, with the wallet threaded through its builds
    (offchain/src/strategy/orchestrator.ts:682-776, 921-933). */
module Batch {
  import opened Options
  import opened Permutations
  import opened Fanout
  import opened FanoutTree
  import opened Orchestrator
  import opened Wallet
  import Refs

  datatype UnsignedSlot = UnsignedSlot(slotId: SlotId, wave: nat, result: MixResult)

  datatype BuildFailure = BuildFailure(slotId: SlotId, wave: nat, dropped: seq<SlotId>)

  datatype UnsignedBatch = UnsignedBatch(slots: seq<UnsignedSlot>, failed: seq<BuildFailure>)

  datatype BatchError = NoBatchSigning | Rejected | WrongCount

  function SlotIds(slots: seq<UnsignedSlot>): (r: seq<SlotId>)
    ensures |r| == |slots|
  {
    seq(|slots|, i requires 0 <= i < |slots| => slots[i].slotId)
  }

  function AllDropped(failed: seq<BuildFailure>): seq<SlotId> {
    if failed == [] then [] else AllDropped(failed[..|failed| - 1]) + failed[|failed| - 1].dropped
  }

  /** What the builder leaves: every slot of the plan built, or in exactly one cascade. */
  ghost predicate GoodBatch(waves: Waves, batch: UnsignedBatch)
    requires Tree(waves)
  {
    && Distinct(SlotIds(batch.slots) + AllDropped(batch.failed))
    && (forall x :: x in SlotIds(batch.slots) + AllDropped(batch.failed) <==> InPlan(waves, x))
    && (forall i :: 0 <= i < |batch.slots| ==> batch.slots[i].wave == batch.slots[i].slotId.wave)
    && (forall i :: 0 <= i < |batch.failed| ==>
          batch.failed[i].wave == batch.failed[i].slotId.wave && Cascade(waves, batch.failed[i].slotId, batch.failed[i].dropped))
  }

  // ---- building ----

  function SlotsIn(events: seq<Event>): seq<UnsignedSlot> {
    if events == [] then []
    else
      var last := events[|events| - 1];
      SlotsIn(events[..|events| - 1]) + if last.SlotSubmitted? then [UnsignedSlot(last.slot, last.slot.wave, last.result)] else []
  }

  function FailuresIn(events: seq<Event>): seq<BuildFailure> {
    if events == [] then []
    else
      var last := events[|events| - 1];
      FailuresIn(events[..|events| - 1]) + if last.SlotFailed? then [BuildFailure(last.slot, last.slot.wave, last.dropped)] else []
  }

  lemma {:induction false} SlotsInIds(events: seq<Event>)
    ensures SlotIds(SlotsIn(events)) == SubmittedIn(events)
    ensures forall i :: 0 <= i < |SlotsIn(events)| ==> SlotsIn(events)[i].wave == SlotsIn(events)[i].slotId.wave
  {
    if events != [] {
      SlotsInIds(events[..|events| - 1]);
    }
  }

  lemma {:induction false} FailuresInDropped(waves: Waves, events: seq<Event>)
    requires Tree(waves)
    requires forall i :: 0 <= i < |events| && events[i].SlotFailed? ==> Cascade(waves, events[i].slot, events[i].dropped)
    ensures AllDropped(FailuresIn(events)) == DroppedIn(events)
    ensures forall i :: 0 <= i < |FailuresIn(events)| ==>
              var f := FailuresIn(events)[i]; f.wave == f.slotId.wave && Cascade(waves, f.slotId, f.dropped)
  {
    if events != [] {
      var front, last := events[..|events| - 1], events[|events| - 1];
      hide Tree, Cascade;
      FailuresInDropped(waves, front);
      if last.SlotFailed? {
        var f := BuildFailure(last.slot, last.slot.wave, last.dropped);
        assert (FailuresIn(front) + [f])[..|FailuresIn(front)|] == FailuresIn(front);
      } else {
        assert FailuresIn(front) + [] == FailuresIn(front);
        assert DroppedIn(front) + [] == DroppedIn(front);
      }
    }
  }

  // ---- the wallet behind the builder ----

  /** The wallet of a wallet-funded batch; in shard mode there is none. */
  datatype WalletStart = WalletStart(initial: seq<WalletUtxo>, changeAddress: string)

  /** The builder proper: told of the earlier calls, what the slot asks for, the override (when one is
      passed) and the change in flight, it answers or fails. */
  type WalletBuilder = (seq<Call>, BuildArgs, Option<seq<WalletUtxo>>, map<Refs.UtxoRef, WalletUtxo>) -> Option<MixResult>

  /** The transactions of the builds that answered, as the library parses them. */
  function TxsOf(results: seq<(SlotId, MixResult)>, parse: string -> Wallet.Tx): (txs: seq<Wallet.Tx>)
    ensures |txs| == |results|
  {
    seq(|results|, i requires 0 <= i < |results| => parse(results[i].1.unsignedTx))
  }

  /** buildOnlyMix (orchestrator.ts:707-747) as a function of the calls so far: its two variables hold
      what Wallet.WalletChain keeps. */
  function BuildOnlyMix(wallet: Option<WalletStart>, parse: string -> Wallet.Tx, underlying: WalletBuilder): Builder {
    (calls: seq<Call>, args: BuildArgs) =>
      if wallet.None? then underlying(calls, args, None, map[])
      else
        var txs := TxsOf(ResultsOf(calls), parse);
        underlying(calls, args, PassedOverride(RollingAfter(wallet.value.initial, wallet.value.changeAddress, txs)),
                   InFlightAfter(wallet.value.changeAddress, txs))
  }

  /** The builder spends wallet UTxOs, initial or change of an earlier build, only from an override. */
  ghost predicate Respectful(w: WalletStart, parse: string -> Wallet.Tx, underlying: WalletBuilder) {
    forall calls, args, override, inFlight, r ::
      var answer := underlying(calls, args, override, inFlight);
      answer.Some? && r in Consumed(parse(answer.value.unsignedTx)) &&
      r in Keys(w.initial) + AllChange(w.changeAddress, TxsOf(ResultsOf(calls), parse)) ==>
        override.Some? && r in Keys(override.value)
  }

  lemma {:induction false} CallOfResult(calls: seq<Call>, i: nat) returns (c: nat)
    requires i < |ResultsOf(calls)|
    ensures c < |calls| && calls[c].result == Some(ResultsOf(calls)[i].1) && ResultsOf(calls[..c]) == ResultsOf(calls)[..i]
  {
    var last := |calls| - 1;
    var front := ResultsOf(calls[..last]);
    if i == |front| {
      c := last;
      assert ResultsOf(calls)[..i] == front;
    } else {
      c := CallOfResult(calls[..last], i);
      assert calls[..last][..c] == calls[..c];
      assert ResultsOf(calls)[..i] == front[..i];
    }
  }

  /** In a batch plan built by a respectful builder every transaction spends wallet UTxOs only from the
      override its build was passed. */
  lemma PlanSpendsFromOverride(box: Box, waves: Waves, w: WalletStart, parse: string -> Wallet.Tx, underlying: WalletBuilder, calls: seq<Call>)
    requires Respectful(w, parse, underlying)
    requires forall c :: 0 <= c < |calls| ==> GoodCall(box, waves, BuildOnlyMix(Some(w), parse, underlying), calls, c)
    ensures SpendsFromOverride(w.initial, w.changeAddress, TxsOf(ResultsOf(calls), parse))
  {
    var txs := TxsOf(ResultsOf(calls), parse);
    forall i, r | 0 <= i < |txs| && r in Consumed(txs[i]) && r in Keys(w.initial) + AllChange(w.changeAddress, txs[..i])
      ensures PassedOverride(RollingAfter(w.initial, w.changeAddress, txs[..i])).Some? &&
              r in Keys(RollingAfter(w.initial, w.changeAddress, txs[..i]))
    {
      var c := CallOfResult(calls, i);
      assert calls[c].result == BuildOnlyMix(Some(w), parse, underlying)(calls[..c], calls[c].args) by {
        assert GoodCall(box, waves, BuildOnlyMix(Some(w), parse, underlying), calls, c);
      }
      hide *;
      PrefixTxs(calls, c, i, parse);
      CallSpends(w, parse, underlying, calls[..c], calls[c].args, r);
      OverrideKeys(RollingAfter(w.initial, w.changeAddress, txs[..i]));
    }
    hide *;
    SpendsFrom(w, txs);
  }

  lemma SpendsFrom(w: WalletStart, txs: seq<Wallet.Tx>)
    requires forall i, r :: 0 <= i < |txs| && r in Consumed(txs[i]) && r in Keys(w.initial) + AllChange(w.changeAddress, txs[..i]) ==>
               PassedOverride(RollingAfter(w.initial, w.changeAddress, txs[..i])).Some? &&
               r in Keys(RollingAfter(w.initial, w.changeAddress, txs[..i]))
    ensures SpendsFromOverride(w.initial, w.changeAddress, txs)
  {
    hide RollingAfter, Keys, AllChange, Consumed, PassedOverride;
  }

  lemma OverrideKeys(rolling: seq<WalletUtxo>)
    ensures PassedOverride(rolling).Some? ==> PassedOverride(rolling).value == rolling
  {
  }

  lemma PrefixTxs(calls: seq<Call>, c: nat, i: nat, parse: string -> Wallet.Tx)
    requires c < |calls| && i < |ResultsOf(calls)|
    requires calls[c].result == Some(ResultsOf(calls)[i].1) && ResultsOf(calls[..c]) == ResultsOf(calls)[..i]
    ensures TxsOf(ResultsOf(calls), parse)[..i] == TxsOf(ResultsOf(calls[..c]), parse)
    ensures TxsOf(ResultsOf(calls), parse)[i] == parse(calls[c].result.value.unsignedTx)
  {
    hide ResultsOf;
  }

  /** One build: a wallet UTxO it spends comes from the override it was passed. */
  lemma CallSpends(w: WalletStart, parse: string -> Wallet.Tx, underlying: WalletBuilder, before: seq<Call>, args: BuildArgs, r: Refs.UtxoRef)
    requires Respectful(w, parse, underlying)
    requires var answer := BuildOnlyMix(Some(w), parse, underlying)(before, args);
             answer.Some? && r in Consumed(parse(answer.value.unsignedTx))
    requires r in Keys(w.initial) + AllChange(w.changeAddress, TxsOf(ResultsOf(before), parse))
    ensures var override := PassedOverride(RollingAfter(w.initial, w.changeAddress, TxsOf(ResultsOf(before), parse)));
            override.Some? && r in Keys(override.value)
  {
    hide RollingAfter, InFlightAfter, Keys, AllChange, Consumed, ResultsOf, TxsOf, PassedOverride;
    var txs := TxsOf(ResultsOf(before), parse);
    assert BuildOnlyMix(Some(w), parse, underlying)(before, args) ==
           underlying(before, args, PassedOverride(RollingAfter(w.initial, w.changeAddress, txs)), InFlightAfter(w.changeAddress, txs));
  }

  /** planFanoutTxs (orchestrator.ts:682-776): submitFanout's loop with the wallet-chaining builder, its
      events collected. Every slot is built or in one cascade; the built transactions stand in call order,
      each built with the override and the in-flight change its predecessors leave; and when the builder
      is respectful and transaction ids are new, no wallet UTxO is an input of two of them. */
  method PlanFanoutTxs(plan: Plan, box: Box, wallet: Option<WalletStart>, parse: string -> Wallet.Tx, underlying: WalletBuilder,
                       excludeShards: seq<Refs.UtxoRef>, shardExtras: seq<Utxo>, chainFrom: seq<Utxo>)
    returns (batch: UnsignedBatch, calls: seq<Call>)
    requires Tree(plan.waves)
    ensures GoodBatch(plan.waves, batch)
    ensures forall c :: 0 <= c < |calls| ==> GoodCall(box, plan.waves, BuildOnlyMix(wallet, parse, underlying), calls, c)
    ensures |batch.slots| == |ResultsOf(calls)|
    ensures forall i :: 0 <= i < |batch.slots| ==> (batch.slots[i].slotId, batch.slots[i].result) == ResultsOf(calls)[i]
    ensures wallet.Some? && Respectful(wallet.value, parse, underlying) && NewIds(wallet.value.initial, BatchTxs(batch, parse)) ==>
              SpentOnce(wallet.value, BatchTxs(batch, parse))
  {
    hide *;
    var build := BuildOnlyMix(wallet, parse, underlying);
    var events, made := SubmitFanout(plan, box, build, excludeShards, shardExtras, chainFrom);
    calls := made;
    batch := Collect(events);
    BatchIsGood(plan.waves, events, batch);
    BuiltInOrder(events);
    BatchTxsAre(batch, calls, parse);
    if wallet.Some? && Respectful(wallet.value, parse, underlying) && NewIds(wallet.value.initial, BatchTxs(batch, parse)) {
      PlanSpendsFromOverride(box, plan.waves, wallet.value, parse, underlying, calls);
      SpentOnceFrom(wallet.value, BatchTxs(batch, parse));
    }
  }

  lemma BatchIsGood(waves: Waves, events: seq<Event>, batch: UnsignedBatch)
    requires Tree(waves) && Distinct(Accounted(events)) && forall x :: x in Accounted(events) <==> InPlan(waves, x)
    requires forall i :: 0 <= i < |events| && events[i].SlotFailed? ==> Cascade(waves, events[i].slot, events[i].dropped)
    requires batch == UnsignedBatch(SlotsIn(events), FailuresIn(events))
    ensures GoodBatch(waves, batch)
  {
    hide Tree, Cascade, InPlan, Distinct, SlotsIn, FailuresIn, AllDropped, SlotIds;
    SlotsInIds(events);
    FailuresInDropped(waves, events);
  }

  /** The transactions of a batch, in order. */
  function BatchTxs(batch: UnsignedBatch, parse: string -> Wallet.Tx): seq<Wallet.Tx> {
    seq(|batch.slots|, i requires 0 <= i < |batch.slots| => parse(batch.slots[i].result.unsignedTx))
  }

  /** No wallet UTxO, initial or change, is an input of two transactions. */
  ghost predicate SpentOnce(w: WalletStart, txs: seq<Wallet.Tx>) {
    forall i, j, r :: 0 <= i < j < |txs| && r in Keys(w.initial) + AllChange(w.changeAddress, txs) ==>
      !(r in Consumed(txs[i]) && r in Consumed(txs[j]))
  }

  lemma SpentOnceFrom(w: WalletStart, txs: seq<Wallet.Tx>)
    requires NewIds(w.initial, txs) && SpendsFromOverride(w.initial, w.changeAddress, txs)
    ensures SpentOnce(w, txs)
  {
    forall i, j, r | 0 <= i < j < |txs| && r in Keys(w.initial) + AllChange(w.changeAddress, txs)
      ensures !(r in Consumed(txs[i]) && r in Consumed(txs[j]))
    {
      WalletSpentOnce(w.initial, w.changeAddress, txs, i, j, r);
    }
  }

  lemma {:induction false} BuiltInOrder(events: seq<Event>)
    ensures |SlotsIn(events)| == |ResultsIn(events)|
    ensures forall i :: 0 <= i < |SlotsIn(events)| ==> (SlotsIn(events)[i].slotId, SlotsIn(events)[i].result) == ResultsIn(events)[i]
  {
    if events != [] {
      BuiltInOrder(events[..|events| - 1]);
    }
  }

  lemma BatchTxsAre(batch: UnsignedBatch, calls: seq<Call>, parse: string -> Wallet.Tx)
    requires |batch.slots| == |ResultsOf(calls)|
    requires forall i :: 0 <= i < |batch.slots| ==> (batch.slots[i].slotId, batch.slots[i].result) == ResultsOf(calls)[i]
    ensures BatchTxs(batch, parse) == TxsOf(ResultsOf(calls), parse)
  {
    hide ResultsOf;
    forall i | 0 <= i < |batch.slots| ensures batch.slots[i].result == ResultsOf(calls)[i].1 {
      assert (batch.slots[i].slotId, batch.slots[i].result) == ResultsOf(calls)[i];
    }
  }

  method Collect(events: seq<Event>) returns (batch: UnsignedBatch)
    ensures batch == UnsignedBatch(SlotsIn(events), FailuresIn(events))
  {
    var slots: seq<UnsignedSlot>, failed: seq<BuildFailure> := [], [];
    for i := 0 to |events|
      invariant slots == SlotsIn(events[..i]) && failed == FailuresIn(events[..i])
    {
      assert events[..i + 1][..i] == events[..i];
      if events[i].SlotSubmitted? {
        slots := slots + [UnsignedSlot(events[i].slot, events[i].slot.wave, events[i].result)];
      } else if events[i].SlotFailed? {
        failed := failed + [BuildFailure(events[i].slot, events[i].slot.wave, events[i].dropped)];
      }
    }
    assert events[..|events|] == events;
    batch := UnsignedBatch(slots, failed);
  }

  // ---- grouping by wave ----

  function InWave<T>(xs: seq<T>, waveOf: T -> nat, k: nat): seq<T> {
    if xs == [] then []
    else
      var last := xs[|xs| - 1];
      InWave(xs[..|xs| - 1], waveOf, k) + if waveOf(last) == k then [last] else []
  }

  function Group<T>(byWave: map<nat, seq<T>>, k: nat): seq<T> { if k in byWave then byWave[k] else [] }

  /** The last wave that has any item, -1 when there is none. */
  function LastWave<T>(xs: seq<T>, waveOf: T -> nat): (w: int)
    ensures w >= -1 && forall i :: 0 <= i < |xs| ==> waveOf(xs[i]) <= w
  {
    if xs == [] then -1
    else
      var before, w := LastWave(xs[..|xs| - 1], waveOf), waveOf(xs[|xs| - 1]);
      if w > before then w else before
  }

  /** The items by wave, and the last wave that has any (orchestrator.ts:921-933). */
  method GroupByWave<T>(xs: seq<T>, waveOf: T -> nat) returns (byWave: map<nat, seq<T>>, maxWave: int)
    ensures forall k: nat :: Group(byWave, k) == InWave(xs, waveOf, k)
    ensures maxWave == LastWave(xs, waveOf)
  {
    hide InWave, LastWave;
    byWave, maxWave := map[], -1;
    NothingGrouped(xs, waveOf);
    for j := 0 to |xs|
      invariant Grouped(byWave, xs[..j], waveOf) && maxWave == LastWave(xs[..j], waveOf)
    {
      OneMoreGrouped(byWave, xs, j, waveOf);
      var w := waveOf(xs[j]);
      byWave := byWave[w := Group(byWave, w) + [xs[j]]];
      if w > maxWave {
        maxWave := w;
      }
    }
    assert xs[..|xs|] == xs;
  }

  ghost predicate Grouped<T>(byWave: map<nat, seq<T>>, xs: seq<T>, waveOf: T -> nat) {
    forall k: nat :: Group(byWave, k) == InWave(xs, waveOf, k)
  }

  lemma NothingGrouped<T>(xs: seq<T>, waveOf: T -> nat)
    ensures Grouped(map[], xs[..0], waveOf) && LastWave(xs[..0], waveOf) == -1
  {
  }

  lemma OneMoreGrouped<T>(byWave: map<nat, seq<T>>, xs: seq<T>, j: nat, waveOf: T -> nat)
    requires j < |xs| && Grouped(byWave, xs[..j], waveOf)
    ensures var w := waveOf(xs[j]);
            && Grouped(byWave[w := Group(byWave, w) + [xs[j]]], xs[..j + 1], waveOf)
            && LastWave(xs[..j + 1], waveOf) == if w > LastWave(xs[..j], waveOf) then w else LastWave(xs[..j], waveOf)
  {
    assert xs[..j + 1][..j] == xs[..j];
    var next := byWave[waveOf(xs[j]) := Group(byWave, waveOf(xs[j])) + [xs[j]]];
    forall k: nat ensures Group(next, k) == InWave(xs[..j + 1], waveOf, k) {
      assert Group(byWave, k) == InWave(xs[..j], waveOf, k);
      assert InWave(xs[..j], waveOf, k) + [] == InWave(xs[..j], waveOf, k);
    }
  }

  function FailureWave(f: BuildFailure): nat { f.wave }

  function SlotWave(s: UnsignedSlot): nat { s.wave }

  lemma {:induction false} InWaveAre(slots: seq<UnsignedSlot>, k: nat)
    requires Distinct(SlotIds(slots)) && forall i :: 0 <= i < |slots| ==> slots[i].wave == slots[i].slotId.wave
    ensures var these := InWave(slots, SlotWave, k);
            && Distinct(SlotIds(these))
            && (forall s :: s in these <==> s in slots && s.slotId.wave == k)
  {
    if slots != [] {
      var n := |slots| - 1;
      var front, last := slots[..n], slots[n];
      assert SlotIds(front) == SlotIds(slots)[..n] && SlotIds(slots)[n] == last.slotId;
      InWaveAre(front, k);
      var these := InWave(front, SlotWave, k);
      assert slots == front + [last];
      if last.wave == k {
        forall i | 0 <= i < |these| ensures these[i].slotId != last.slotId {
          assert these[i] in front;
          var j :| 0 <= j < n && front[j] == these[i];
          assert SlotIds(slots)[j] == these[i].slotId;
        }
        DistinctCons(last.slotId, SlotIds(these));
        assert SlotIds(these + [last]) == SlotIds(these) + [last.slotId];
      } else {
        assert these + [] == these;
      }
    }
  }

  lemma DistinctFront<T>(xs: seq<T>, ys: seq<T>)
    requires Distinct(xs + ys)
    ensures Distinct(xs)
  {
    forall i, j | 0 <= i < j < |xs| ensures xs[i] != xs[j] {
      assert (xs + ys)[i] == xs[i] && (xs + ys)[j] == xs[j];
    }
  }
}
