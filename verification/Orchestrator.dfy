/** Running a fan-out plan wave by wave (offchain/src/strategy/orchestrator.ts:233-538).

    The transaction builder is a parameter: it may answer or fail in any pattern, may depend on every
    earlier call, and may return any outputs. */
module Orchestrator {
  import opened Options
  import opened Permutations
  import opened Refs
  import opened Fanout
  import opened FanoutTree

  datatype Utxo = Utxo(ref: UtxoRef, address: string, lovelace: int, assets: map<string, int>, datum: Option<string>)

  /** `utxo` is the output a parent made; a pool entry's own UTxO is handed on as it came. */
  datatype MixInput = MixInput(ref: UtxoRef, a: string, b: string, utxo: Option<Utxo>)

  datatype MixOutput = MixOutput(a: string, b: string, datum: string)

  datatype ShardSpent = ShardSpent(ref: UtxoRef, lovelace: int)

  datatype ShardMade = ShardMade(address: string, lovelace: int, datum: Option<string>)

  /** `shard` is the fee shard spent, in shard mode, and `postShard` the one made in its place. */
  datatype MixResult = MixResult(txId: string, unsignedTx: string, signedTx: string, n: nat, outputs: seq<MixOutput>, boxAddress: string,
                                 shard: Option<ShardSpent>, postShard: Option<ShardMade>,
                                 actualFee: Option<int>, plannedFee: Option<int>)

  datatype BuildArgs = BuildArgs(inputs: seq<MixInput>, exclude: set<UtxoRef>, extras: seq<Utxo>, chainFrom: seq<Utxo>)

  /** What a box of the pool holds, and its script address. */
  datatype Box = Box(lovelace: int, assets: map<string, int>, address: string)

  /** One call of the builder, and its answer (`None`: it threw). */
  datatype Call = Call(slot: SlotId, args: BuildArgs, result: Option<MixResult>)

  type Builder = (seq<Call>, BuildArgs) -> Option<MixResult>

  datatype Event =
    | WaveStarted(wave: nat, slotCount: nat)
    | SlotSubmitted(slot: SlotId, result: MixResult)
    | SlotFailed(slot: SlotId, dropped: seq<SlotId>)
    | WaveCompleted(wave: nat, submitted: seq<SlotId>, failed: seq<SlotId>)
    | PlanCompleted(submittedSlots: nat, failedSlots: nat)

  // ---- what the events say ----

  function SubmittedIn(events: seq<Event>): seq<SlotId> {
    if events == [] then []
    else
      var last := events[|events| - 1];
      SubmittedIn(events[..|events| - 1]) + if last.SlotSubmitted? then [last.slot] else []
  }

  function FailedIn(events: seq<Event>): seq<SlotId> {
    if events == [] then []
    else
      var last := events[|events| - 1];
      FailedIn(events[..|events| - 1]) + if last.SlotFailed? then [last.slot] else []
  }

  /** The cascades of all failures, one after the other. */
  function DroppedIn(events: seq<Event>): seq<SlotId> {
    if events == [] then []
    else
      var last := events[|events| - 1];
      DroppedIn(events[..|events| - 1]) + if last.SlotFailed? then last.dropped else []
  }

  lemma OneMore(events: seq<Event>, e: Event)
    ensures SubmittedIn(events + [e]) == SubmittedIn(events) + if e.SlotSubmitted? then [e.slot] else []
    ensures FailedIn(events + [e]) == FailedIn(events) + if e.SlotFailed? then [e.slot] else []
    ensures DroppedIn(events + [e]) == DroppedIn(events) + if e.SlotFailed? then e.dropped else []
  {
    assert (events + [e])[..|events|] == events;
  }

  lemma NothingMore(events: seq<Event>, e: Event)
    requires !e.SlotSubmitted? && !e.SlotFailed?
    ensures SubmittedIn(events + [e]) == SubmittedIn(events) && FailedIn(events + [e]) == FailedIn(events)
    ensures DroppedIn(events + [e]) == DroppedIn(events)
  {
    OneMore(events, e);
    assert SubmittedIn(events) + [] == SubmittedIn(events);
    assert FailedIn(events) + [] == FailedIn(events);
    assert DroppedIn(events) + [] == DroppedIn(events);
  }

  /** The builds among the events, with their results. */
  function ResultsIn(events: seq<Event>): seq<(SlotId, MixResult)> {
    if events == [] then []
    else
      var last := events[|events| - 1];
      ResultsIn(events[..|events| - 1]) + if last.SlotSubmitted? then [(last.slot, last.result)] else []
  }

  /** The calls that answered, with their results. */
  function ResultsOf(calls: seq<Call>): seq<(SlotId, MixResult)> {
    if calls == [] then []
    else
      var last := calls[|calls| - 1];
      ResultsOf(calls[..|calls| - 1]) + if last.result.Some? then [(last.slot, last.result.value)] else []
  }

  lemma OneMoreResult(events: seq<Event>, e: Event)
    ensures ResultsIn(events + [e]) == if e.SlotSubmitted? then ResultsIn(events) + [(e.slot, e.result)] else ResultsIn(events)
  {
    assert (events + [e])[..|events|] == events;
    assert ResultsIn(events) + [] == ResultsIn(events);
  }

  lemma OneMoreCall(calls: seq<Call>, c: Call)
    ensures ResultsOf(calls + [c]) == if c.result.Some? then ResultsOf(calls) + [(c.slot, c.result.value)] else ResultsOf(calls)
  {
    assert (calls + [c])[..|calls|] == calls;
    assert ResultsOf(calls) + [] == ResultsOf(calls);
  }

  /** An event joins the part of the stream that began at `mark`. */
  lemma OneMoreInWave(events: seq<Event>, mark: nat, e: Event)
    requires mark <= |events|
    ensures var was, now := events[mark..], (events + [e])[mark..];
            && SubmittedIn(now) == (if e.SlotSubmitted? then SubmittedIn(was) + [e.slot] else SubmittedIn(was))
            && FailedIn(now) == (if e.SlotFailed? then FailedIn(was) + [e.slot] else FailedIn(was))
  {
    var was := events[mark..];
    OneMore(was, e);
    assert (events + [e])[mark..] == was + [e];
    assert SubmittedIn(was) + [] == SubmittedIn(was) && FailedIn(was) + [] == FailedIn(was);
  }

  /** The stream of one wave: where it started, and a report of what was submitted and what failed in it. */
  ghost predicate WaveReported(part: seq<Event>, k: nat, slotCount: nat) {
    && |part| >= 2 && part[0] == WaveStarted(k, slotCount)
    && part[|part| - 1] == WaveCompleted(k, SubmittedIn(part), FailedIn(part))
  }

  /** The stream is one reported wave after the other, with these slot counts. */
  ghost predicate Streamed(events: seq<Event>, counts: seq<nat>)
    decreases |counts|
  {
    if counts == [] then events == []
    else
      var k := |counts| - 1;
      exists mark :: 0 <= mark <= |events| && Streamed(events[..mark], counts[..k]) && WaveReported(events[mark..], k, counts[k])
  }

  lemma NothingStreamed()
    ensures Streamed([], [])
  {
  }

  lemma StreamGrows(before: seq<Event>, events: seq<Event>, counts: seq<nat>, n: nat)
    requires Streamed(before, counts) && before <= events && WaveReported(events[|before|..], |counts|, n)
    ensures Streamed(events, counts + [n])
  {
    hide WaveReported;
    assert events[..|before|] == before && (counts + [n])[..|counts|] == counts;
  }

  lemma WaveBegins(events: seq<Event>, mark: nat)
    requires mark + 1 == |events| && !events[mark].SlotSubmitted? && !events[mark].SlotFailed?
    ensures SubmittedIn(events[mark..]) == [] && FailedIn(events[mark..]) == []
  {
    assert events[mark..] == [] + [events[mark]];
    NothingMore([], events[mark]);
  }

  // ---- a slot's inputs ----

  /** materialiseOneInput (orchestrator.ts:498-538); `None` for the two errors it throws. */
  function MaterialiseOne(box: Box, input: Input, results: map<SlotId, MixResult>): Option<MixInput> {
    match input
    case Root(e) => Some(MixInput(e.ref, e.a, e.b, None))
    case Pool(e) => Some(MixInput(e.ref, e.a, e.b, None))
    case Parent(p, pos) =>
      if p !in results || pos >= |results[p].outputs| then None else Some(MadeInput(box, results[p], pos))
  }

  /** The output at `pos` of a build, as later builds are told of it. */
  function MadeOutput(box: Box, r: MixResult, pos: nat): Utxo
    requires pos < |r.outputs|
  {
    Utxo(UtxoRef(Lower(r.txId), pos), r.boxAddress, box.lovelace, box.assets, Some(r.outputs[pos].datum))
  }

  /** The same output as an input of a child; the plan's address falls back to the pool's. */
  function MadeInput(box: Box, r: MixResult, pos: nat): MixInput
    requires pos < |r.outputs|
  {
    var made := MadeOutput(box, r, pos);
    var address := if r.boxAddress == "" then box.address else r.boxAddress;
    MixInput(made.ref, r.outputs[pos].a, r.outputs[pos].b, Some(made.(address := address)))
  }

  /** The fee shard a build leaves, worth what it spent less the fee (orchestrator.ts:420-443). */
  function PostShard(r: MixResult): Utxo
    requires r.shard.Some? && r.postShard.Some?
  {
    var fee := if r.actualFee.Some? then r.actualFee.value
               else if r.plannedFee.Some? then r.plannedFee.value else r.postShard.value.lovelace;
    Utxo(UtxoRef(Lower(r.txId), r.n), r.postShard.value.address, r.shard.value.lovelace - fee, map[], r.postShard.value.datum)
  }

  /** materialiseSlotInputs (orchestrator.ts:494-496). */
  function Materialise(box: Box, inputs: seq<Input>, results: map<SlotId, MixResult>): (r: Option<seq<MixInput>>)
    ensures r.Some? <==> forall i :: 0 <= i < |inputs| ==> MaterialiseOne(box, inputs[i], results).Some?
    ensures r.Some? ==> |r.value| == |inputs| && forall i :: 0 <= i < |inputs| ==> Some(r.value[i]) == MaterialiseOne(box, inputs[i], results)
  {
    if inputs == [] then Some([])
    else
      var front := Materialise(box, inputs[..|inputs| - 1], results);
      var last := MaterialiseOne(box, inputs[|inputs| - 1], results);
      if front.None? || last.None? then None else Some(front.value + [last.value])
  }

  function MadeOutputs(box: Box, r: MixResult): (us: seq<Utxo>)
    ensures |us| == |r.outputs|
  {
    seq(|r.outputs|, i requires 0 <= i < |r.outputs| => MadeOutput(box, r, i))
  }

  // ---- what holds before slot s of wave k ----

  predicate Before(x: SlotId, k: nat, s: nat) { x.wave < k || (x.wave == k && x.slot < s) }

  /** Every slot met so far is submitted or dropped, never both; a submitted slot's parent was
      submitted; dropping a slot drops everything below it, and nothing else. */
  ghost predicate Settled(waves: Waves, k: nat, s: nat, subs: set<SlotId>, dropped: set<SlotId>)
    requires Tree(waves)
  {
    && (forall x :: x in subs ==> InPlan(waves, x) && Before(x, k, s) && x !in dropped && (x.wave > 0 ==> ParentOf(waves, x) in subs))
    && (forall x :: x in dropped ==> InPlan(waves, x) && (Before(x, k, s) || (x.wave > 0 && ParentOf(waves, x) in dropped)))
    && (forall x :: InPlan(waves, x) && Before(x, k, s) ==> x in subs || x in dropped)
    && (forall x, p :: p in dropped && ChildOf(waves, x, p) ==> x in dropped)
  }

  lemma {:induction false} CascadeIsNew(waves: Waves, k: nat, s: nat, subs: set<SlotId>, dropped: set<SlotId>, x: SlotId)
    requires Tree(waves) && Settled(waves, k, s, subs, dropped)
    requires InPlan(waves, SlotId(k, s)) && SlotId(k, s) !in dropped
    requires InPlan(waves, x) && Descends(waves, x, SlotId(k, s))
    ensures x !in dropped && x !in subs
    decreases x.wave
  {
    DescendsIsLower(waves, x, SlotId(k, s));
    if x != SlotId(k, s) {
      CascadeIsNew(waves, k, s, subs, dropped, ParentOf(waves, x));
    }
  }

  function Elements(xs: seq<SlotId>): set<SlotId> { set x | x in xs }

  lemma FailSettles(waves: Waves, k: nat, s: nat, subs: set<SlotId>, dropped: set<SlotId>, cascade: seq<SlotId>)
    requires Tree(waves) && Settled(waves, k, s, subs, dropped)
    requires InPlan(waves, SlotId(k, s)) && SlotId(k, s) !in dropped
    requires Cascade(waves, SlotId(k, s), cascade)
    ensures Settled(waves, k, s + 1, subs, dropped + Elements(cascade))
    ensures forall x :: x in cascade ==> x !in dropped && x !in subs
  {
    var cur := SlotId(k, s);
    forall x | x in cascade ensures x !in dropped && x !in subs {
      CascadeIsNew(waves, k, s, subs, dropped, x);
    }
    var more := dropped + Elements(cascade);
    forall x | x in more
      ensures InPlan(waves, x) && (Before(x, k, s + 1) || (x.wave > 0 && ParentOf(waves, x) in more))
    {
      if x in cascade && x != cur {
        assert Below(waves, ParentOf(waves, x), cur);
      }
    }
    forall x, p | p in more && ChildOf(waves, x, p) ensures x in more {
      if p !in dropped {
        assert Below(waves, p, cur);
        assert Below(waves, x, cur);
      }
    }
    SlotIsNext(k, s);
  }

  lemma SlotIsNext(k: nat, s: nat)
    ensures forall x :: Before(x, k, s + 1) <==> Before(x, k, s) || x == SlotId(k, s)
  {
  }

  lemma BuildSettles(waves: Waves, k: nat, s: nat, subs: set<SlotId>, dropped: set<SlotId>)
    requires Tree(waves) && Settled(waves, k, s, subs, dropped)
    requires InPlan(waves, SlotId(k, s)) && SlotId(k, s) !in dropped
    ensures k > 0 ==> ParentOf(waves, SlotId(k, s)) in subs
    ensures Settled(waves, k, s + 1, subs + {SlotId(k, s)}, dropped)
  {
    var cur := SlotId(k, s);
    if k > 0 {
      assert ChildOf(waves, cur, ParentOf(waves, cur));
    }
    SlotIsNext(k, s);
    hide Tree, ChildOf;
  }

  lemma SkipSettles(waves: Waves, k: nat, s: nat, subs: set<SlotId>, dropped: set<SlotId>)
    requires Tree(waves) && Settled(waves, k, s, subs, dropped)
    requires SlotId(k, s) in dropped
    ensures Settled(waves, k, s + 1, subs, dropped)
  {
    SlotIsNext(k, s);
  }

  lemma WaveSettles(waves: Waves, k: nat, subs: set<SlotId>, dropped: set<SlotId>)
    requires Tree(waves) && k < |waves| && Settled(waves, k, |waves[k]|, subs, dropped)
    ensures Settled(waves, k + 1, 0, subs, dropped)
  {
    forall x | InPlan(waves, x) ensures Before(x, k, |waves[k]|) <==> Before(x, k + 1, 0) {
    }
  }

  /** The books: the events name every submitted slot once and every dropped slot once, and the two
      counters count them. */
  ghost predicate Booked(waves: Waves, events: seq<Event>, subs: set<SlotId>, dropped: set<SlotId>, submittedCount: nat, failedCount: nat)
    requires Tree(waves)
  {
    && Distinct(SubmittedIn(events)) && Elements(SubmittedIn(events)) == subs && submittedCount == |SubmittedIn(events)|
    && Distinct(DroppedIn(events)) && Elements(DroppedIn(events)) == dropped && failedCount == |DroppedIn(events)|
    && (forall i :: 0 <= i < |events| && events[i].SlotFailed? ==> Cascade(waves, events[i].slot, events[i].dropped))
  }

  lemma FailBooks(waves: Waves, events: seq<Event>, subs: set<SlotId>, dropped: set<SlotId>, sc: nat, fc: nat, x: SlotId, cascade: seq<SlotId>)
    requires Tree(waves) && Booked(waves, events, subs, dropped, sc, fc) && Cascade(waves, x, cascade)
    requires forall y :: y in cascade ==> y !in dropped
    ensures Booked(waves, events + [SlotFailed(x, cascade)], subs, dropped + Elements(cascade), sc, fc + |cascade|)
  {
    OneMore(events, SlotFailed(x, cascade));
    forall y | y in cascade ensures y !in DroppedIn(events) {
      assert y in DroppedIn(events) ==> y in Elements(DroppedIn(events));
    }
    DistinctAppend(DroppedIn(events), cascade);
    hide Cascade, SubmittedIn, DroppedIn, Distinct;
    assert SubmittedIn(events) + [] == SubmittedIn(events);
  }

  lemma BuildBooks(waves: Waves, events: seq<Event>, subs: set<SlotId>, dropped: set<SlotId>, sc: nat, fc: nat, x: SlotId, r: MixResult)
    requires Tree(waves) && Booked(waves, events, subs, dropped, sc, fc) && x !in subs
    ensures Booked(waves, events + [SlotSubmitted(x, r)], subs + {x}, dropped, sc + 1, fc)
  {
    OneMore(events, SlotSubmitted(x, r));
    assert x in SubmittedIn(events) ==> x in Elements(SubmittedIn(events));
    DistinctCons(x, SubmittedIn(events));
    hide Cascade, SubmittedIn, DroppedIn, Distinct;
    assert DroppedIn(events) + [] == DroppedIn(events);
  }

  lemma NoteBooks(waves: Waves, events: seq<Event>, subs: set<SlotId>, dropped: set<SlotId>, sc: nat, fc: nat, e: Event)
    requires Tree(waves) && Booked(waves, events, subs, dropped, sc, fc) && !e.SlotSubmitted? && !e.SlotFailed?
    ensures Booked(waves, events + [e], subs, dropped, sc, fc)
  {
    NothingMore(events, e);
    hide Cascade, SubmittedIn, DroppedIn, Distinct;
  }

  // ---- the calls of the builder ----

  /** Call c gave this input what the plan says: a pool box as it is, a parent's output by the
      parent's own transaction id and position, the parent having been built by an earlier call. */
  ghost predicate InputGiven(box: Box, calls: seq<Call>, c: nat, input: Input, given: MixInput, chainFrom: seq<Utxo>)
    requires c <= |calls|
  {
    match input
    case Root(e) => given == MixInput(e.ref, e.a, e.b, None)
    case Pool(e) => given == MixInput(e.ref, e.a, e.b, None)
    case Parent(p, pos) =>
      exists d :: 0 <= d < c && calls[d].slot == p && calls[d].result.Some? && pos < |calls[d].result.value.outputs| &&
                  given == MadeInput(box, calls[d].result.value, pos) && MadeOutput(box, calls[d].result.value, pos) in chainFrom
  }

  ghost predicate GoodCall(box: Box, waves: Waves, build: Builder, calls: seq<Call>, c: nat)
    requires c < |calls|
  {
    var call := calls[c];
    && InPlan(waves, call.slot)
    && call.result == build(calls[..c], call.args)
    && |call.args.inputs| == |SlotOf(waves, call.slot).inputs|
    && (forall i :: 0 <= i < |call.args.inputs| ==>
          InputGiven(box, calls, c, SlotOf(waves, call.slot).inputs[i], call.args.inputs[i], call.args.chainFrom))
    && (forall d :: 0 <= d < c && calls[d].result.Some? && calls[d].result.value.shard.Some? ==>
          && LowerRef(calls[d].result.value.shard.value.ref) in call.args.exclude
          && (calls[d].result.value.postShard.Some? ==>
                PostShard(calls[d].result.value) in call.args.extras && PostShard(calls[d].result.value) in call.args.chainFrom))
  }

  /** A build's fee shard is excluded from now on, and the one it made is on offer. */
  predicate Kept(r: MixResult, shardRefs: set<UtxoRef>, extras: seq<Utxo>)
    requires r.shard.Some?
  {
    LowerRef(r.shard.value.ref) in shardRefs && (r.postShard.Some? ==> PostShard(r) in extras)
  }

  /** Every call was good, no slot was tried twice, and the results kept are those of the calls. */
  ghost predicate Logged(box: Box, waves: Waves, build: Builder, calls: seq<Call>, submitted: map<SlotId, MixResult>,
                         parentOutputs: map<SlotId, seq<Utxo>>, shardRefs: set<UtxoRef>, extras: seq<Utxo>)
  {
    && (forall c :: 0 <= c < |calls| ==> GoodCall(box, waves, build, calls, c))
    && (forall c, d :: 0 <= c < d < |calls| ==> calls[c].slot != calls[d].slot)
    && (forall c :: 0 <= c < |calls| && calls[c].result.Some? ==>
          calls[c].slot in submitted && submitted[calls[c].slot] == calls[c].result.value &&
          (calls[c].result.value.shard.Some? ==> Kept(calls[c].result.value, shardRefs, extras)))
    && (forall x :: x in submitted ==>
          x in parentOutputs && parentOutputs[x] == MadeOutputs(box, submitted[x]) &&
          exists c :: 0 <= c < |calls| && calls[c].slot == x && calls[c].result == Some(submitted[x]))
  }

  /** Every call so far was for a slot now settled, or for `x`. */
  ghost predicate TriedBut(calls: seq<Call>, subs: set<SlotId>, dropped: set<SlotId>, x: SlotId) {
    forall c :: 0 <= c < |calls| ==> calls[c].slot in subs || calls[c].slot in dropped || calls[c].slot == x
  }

  ghost predicate Tried(calls: seq<Call>, subs: set<SlotId>, dropped: set<SlotId>) {
    forall c :: 0 <= c < |calls| ==> calls[c].slot in subs || calls[c].slot in dropped
  }

  lemma GoodCallKept(box: Box, waves: Waves, build: Builder, calls: seq<Call>, call: Call, c: nat)
    requires c < |calls| && GoodCall(box, waves, build, calls, c)
    ensures GoodCall(box, waves, build, calls + [call], c)
  {
    var more := calls + [call];
    assert more[..c] == calls[..c];
    forall i | 0 <= i < |calls[c].args.inputs|
      ensures InputGiven(box, more, c, SlotOf(waves, calls[c].slot).inputs[i], calls[c].args.inputs[i], calls[c].args.chainFrom)
    {
      assert InputGiven(box, calls, c, SlotOf(waves, calls[c].slot).inputs[i], calls[c].args.inputs[i], calls[c].args.chainFrom);
      assert forall d :: 0 <= d < c ==> more[d] == calls[d];
    }
  }

  /** An input materialised from the results kept is the one the log asks for. */
  lemma GivenFromLog(box: Box, waves: Waves, build: Builder, calls: seq<Call>, submitted: map<SlotId, MixResult>,
                     parentOutputs: map<SlotId, seq<Utxo>>, shardRefs: set<UtxoRef>, extras: seq<Utxo>, input: Input,
                     chainFrom: seq<Utxo>)
    requires Logged(box, waves, build, calls, submitted, parentOutputs, shardRefs, extras)
    requires MaterialiseOne(box, input, submitted).Some?
    requires input.Parent? ==> forall r :: r in OutputsOf(parentOutputs, input.parent) ==> r in chainFrom
    ensures InputGiven(box, calls, |calls|, input, MaterialiseOne(box, input, submitted).value, chainFrom)
  {
    hide GoodCall, MadeOutput, Kept;
    if input.Parent? {
      var r := submitted[input.parent];
      assert MadeOutputs(box, r)[input.position] == MadeOutput(box, r, input.position);
      var c :| 0 <= c < |calls| && calls[c].slot == input.parent && calls[c].result == Some(r);
    }
  }

  /** The first input that is a parent's output (orchestrator.ts:325). */
  function FirstParent(inputs: seq<Input>): Option<SlotId> {
    if inputs == [] then None
    else if inputs[0].Parent? then Some(inputs[0].parent)
    else FirstParent(inputs[1..])
  }

  function OutputsOf(parentOutputs: map<SlotId, seq<Utxo>>, p: SlotId): seq<Utxo> {
    if p in parentOutputs then parentOutputs[p] else []
  }

  function ParentChain(inputs: seq<Input>, parentOutputs: map<SlotId, seq<Utxo>>): seq<Utxo> {
    var p := FirstParent(inputs);
    if p.Some? then OutputsOf(parentOutputs, p.value) else []
  }

  /** What the slot's build is called with (orchestrator.ts:309-358). */
  function ArgsFor(slot: Slot, inputs: seq<MixInput>, shardRefs: set<UtxoRef>, extras: seq<Utxo>, external: seq<Utxo>,
                   parentOutputs: map<SlotId, seq<Utxo>>): BuildArgs {
    BuildArgs(inputs, shardRefs, extras, external + ParentChain(slot.inputs, parentOutputs) + extras)
  }

  lemma NewCallIsGood(box: Box, waves: Waves, build: Builder, calls: seq<Call>, submitted: map<SlotId, MixResult>,
                      parentOutputs: map<SlotId, seq<Utxo>>, shardRefs: set<UtxoRef>, extras: seq<Utxo>, x: SlotId,
                      inputs: seq<MixInput>, args: BuildArgs)
    requires Tree(waves) && InPlan(waves, x)
    requires Logged(box, waves, build, calls, submitted, parentOutputs, shardRefs, extras)
    requires Materialise(box, SlotOf(waves, x).inputs, submitted) == Some(inputs)
    requires args.inputs == inputs && args.exclude == shardRefs && args.extras == extras
    requires forall u :: u in extras ==> u in args.chainFrom
    requires forall r :: r in ParentChain(SlotOf(waves, x).inputs, parentOutputs) ==> r in args.chainFrom
    ensures GoodCall(box, waves, build, calls + [Call(x, args, build(calls, args))], |calls|)
  {
    hide MadeOutputs, LowerRef;
    var slot := SlotOf(waves, x);
    var call := Call(x, args, build(calls, args));
    var more := calls + [call];
    assert more[..|calls|] == calls;
    assert Rooted(waves, x);
    ParentIsFirst(waves, x);
    hide Tree, Rooted, FirstParent;
    assert forall d :: 0 <= d < |calls| ==> more[d] == calls[d];
    forall i | 0 <= i < |inputs| ensures InputGiven(box, more, |calls|, slot.inputs[i], inputs[i], args.chainFrom) {
      hide Logged, Materialise, GoodCall, MaterialiseOne;
      GivenFromLog(box, waves, build, calls, submitted, parentOutputs, shardRefs, extras, slot.inputs[i], args.chainFrom);
      GivenKept(box, calls, call, slot.inputs[i], inputs[i], args.chainFrom);
    }
    hide InputGiven, Materialise;
  }

  lemma ParentIsFirst(waves: Waves, x: SlotId)
    requires Tree(waves) && InPlan(waves, x)
    ensures var inputs := SlotOf(waves, x).inputs;
            forall i :: 0 <= i < |inputs| && inputs[i].Parent? ==> FirstParent(inputs) == Some(inputs[i].parent)
  {
    assert Rooted(waves, x);
  }

  lemma GivenKept(box: Box, calls: seq<Call>, call: Call, input: Input, given: MixInput, chainFrom: seq<Utxo>)
    requires InputGiven(box, calls, |calls|, input, given, chainFrom)
    ensures InputGiven(box, calls + [call], |calls|, input, given, chainFrom)
  {
    assert forall d :: 0 <= d < |calls| ==> (calls + [call])[d] == calls[d];
  }

  /** A failed build leaves the results as they were. */
  lemma FailLogs(box: Box, waves: Waves, build: Builder, calls: seq<Call>, submitted: map<SlotId, MixResult>,
                 parentOutputs: map<SlotId, seq<Utxo>>, shardRefs: set<UtxoRef>, extras: seq<Utxo>, call: Call)
    requires Logged(box, waves, build, calls, submitted, parentOutputs, shardRefs, extras) && call.result.None?
    requires GoodCall(box, waves, build, calls + [call], |calls|)
    requires forall c :: 0 <= c < |calls| ==> calls[c].slot != call.slot
    ensures Logged(box, waves, build, calls + [call], submitted, parentOutputs, shardRefs, extras)
  {
    var more := calls + [call];
    forall c | 0 <= c < |more| ensures GoodCall(box, waves, build, more, c) {
      if c < |calls| {
        GoodCallKept(box, waves, build, calls, call, c);
      }
    }
    hide GoodCall, MadeOutputs;
    KeptResults(calls, call, submitted);
  }

  lemma KeptResults(calls: seq<Call>, call: Call, submitted: map<SlotId, MixResult>)
    requires forall x :: x in submitted ==> exists c :: 0 <= c < |calls| && calls[c].slot == x && calls[c].result == Some(submitted[x])
    ensures forall x :: x in submitted ==>
              exists c :: 0 <= c < |calls + [call]| && (calls + [call])[c].slot == x && (calls + [call])[c].result == Some(submitted[x])
  {
    var more := calls + [call];
    forall x | x in submitted ensures exists c :: 0 <= c < |more| && more[c].slot == x && more[c].result == Some(submitted[x]) {
      var c :| 0 <= c < |calls| && calls[c].slot == x && calls[c].result == Some(submitted[x]);
      assert more[c] == calls[c];
    }
  }

  lemma BuildLogs(box: Box, waves: Waves, build: Builder, calls: seq<Call>, submitted: map<SlotId, MixResult>,
                  parentOutputs: map<SlotId, seq<Utxo>>, shardRefs: set<UtxoRef>, extras: seq<Utxo>,
                  call: Call, r: MixResult, shardRefs': set<UtxoRef>, extras': seq<Utxo>)
    requires Logged(box, waves, build, calls, submitted, parentOutputs, shardRefs, extras) && call.result == Some(r)
    requires GoodCall(box, waves, build, calls + [call], |calls|)
    requires forall c :: 0 <= c < |calls| ==> calls[c].slot != call.slot
    requires call.slot !in submitted
    requires shardRefs' == shardRefs + if r.shard.Some? then {LowerRef(r.shard.value.ref)} else {}
    requires extras' == extras + if r.shard.Some? && r.postShard.Some? then [PostShard(r)] else []
    ensures Logged(box, waves, build, calls + [call], submitted[call.slot := r], parentOutputs[call.slot := MadeOutputs(box, r)],
                   shardRefs', extras')
  {
    var more := calls + [call];
    forall c | 0 <= c < |more| ensures GoodCall(box, waves, build, more, c) {
      if c < |calls| {
        GoodCallKept(box, waves, build, calls, call, c);
      }
    }
    hide GoodCall, MadeOutputs, LowerRef, PostShard;
    KeptResults(calls, call, submitted);
    assert more[|calls|] == call;
  }

  // ---- the run ----

  class FanoutRun {
    const box: Box
    const external: seq<Utxo>
    var submitted: map<SlotId, MixResult>
    var dropped: set<SlotId>
    var shardRefs: set<UtxoRef>
    var extras: seq<Utxo>
    var parentOutputs: map<SlotId, seq<Utxo>>
    var submittedCount: nat
    var failedCount: nat
    var submittedThisWave: seq<SlotId>
    var failedThisWave: seq<SlotId>
    var events: seq<Event>
    var calls: seq<Call>

    /** The state before slot s of wave k. */
    ghost predicate At(waves: Waves, build: Builder, k: nat, s: nat)
      requires Tree(waves)
      reads this
    {
      && Settled(waves, k, s, submitted.Keys, dropped)
      && Booked(waves, events, submitted.Keys, dropped, submittedCount, failedCount)
      && Logged(box, waves, build, calls, submitted, parentOutputs, shardRefs, extras)
      && Tried(calls, submitted.Keys, dropped)
      && ResultsIn(events) == ResultsOf(calls)
    }

    /** What the two lists of the wave that began at `mark` have seen. */
    ghost predicate InStep(mark: nat)
      reads `events, `submittedThisWave, `failedThisWave
    {
      mark <= |events| && submittedThisWave == SubmittedIn(events[mark..]) && failedThisWave == FailedIn(events[mark..])
    }

    constructor (box: Box, excludeShards: seq<UtxoRef>, shardExtras: seq<Utxo>, chainFrom: seq<Utxo>, ghost waves: Waves, ghost build: Builder)
      requires Tree(waves)
      ensures At(waves, build, 0, 0) && events == [] && calls == [] && this.box == box
      ensures shardRefs == LowerRefs(excludeShards) && extras == shardExtras && external == chainFrom
    {
      this.box := box;
      submitted, dropped, parentOutputs := map[], {}, map[];
      shardRefs, extras, external := LowerRefs(excludeShards), shardExtras, chainFrom;
      submittedCount, failedCount, submittedThisWave, failedThisWave := 0, 0, [], [];
      events, calls := [], [];
    }

    /** A slot fails, and everything below it is dropped (orchestrator.ts:292-307, 374-391). */
    method Fail(waves: Waves, ghost build: Builder, k: nat, s: nat, ghost mark: nat) returns (cascade: seq<SlotId>)
      requires Tree(waves) && InPlan(waves, SlotId(k, s)) && SlotId(k, s) !in dropped && InStep(mark)
      requires Settled(waves, k, s, submitted.Keys, dropped)
      requires Booked(waves, events, submitted.Keys, dropped, submittedCount, failedCount)
      requires Logged(box, waves, build, calls, submitted, parentOutputs, shardRefs, extras)
      requires TriedBut(calls, submitted.Keys, dropped, SlotId(k, s)) && ResultsIn(events) == ResultsOf(calls)
      modifies `dropped, `failedCount, `failedThisWave, `events
      ensures At(waves, build, k, s + 1) && InStep(mark)
      ensures Cascade(waves, SlotId(k, s), cascade) && events == old(events) + [SlotFailed(SlotId(k, s), cascade)]
    {
      hide Settled, Booked, Logged, Tried, TriedBut, Cascade, Tree, Elements, InPlan;
      var x := SlotId(k, s);
      cascade := Descendants(waves, x);
      FailStep(waves, k, s, submitted.Keys, dropped, submittedCount, failedCount, events, calls, cascade);
      OneMoreInWave(events, mark, SlotFailed(x, cascade));
      OneMoreResult(events, SlotFailed(x, cascade));
      dropped := dropped + Elements(cascade);
      failedCount := failedCount + |cascade|;
      failedThisWave := failedThisWave + [x];
      events := events + [SlotFailed(x, cascade)];
    }

    /** One slot of a wave (orchestrator.ts:276-453). */
    method RunSlot(waves: Waves, build: Builder, k: nat, s: nat, ghost mark: nat)
      requires Tree(waves) && InPlan(waves, SlotId(k, s)) && At(waves, build, k, s) && InStep(mark)
      modifies this
      ensures At(waves, build, k, s + 1) && InStep(mark)
      ensures |events| <= |old(events)| + 1 && old(events) <= events
      ensures forall i :: |old(events)| <= i < |events| ==> events[i].SlotSubmitted? || events[i].SlotFailed?
    {
      hide Settled, Booked, Logged, Cascade, ResultsIn, ResultsOf, InStep;
      var slot := SlotOf(waves, SlotId(k, s));
      assert Rooted(waves, SlotId(k, s));
      var x := slot.id;
      hide Tree, Rooted;
      if x in dropped {
        SkipSettles(waves, k, s, submitted.Keys, dropped);
        return;
      }
      assert TriedBut(calls, submitted.Keys, dropped, x);
      var inputs := Materialise(box, slot.inputs, submitted);
      if inputs.None? {
        var _ := Fail(waves, build, k, s, mark);
        return;
      }
      var args := ArgsFor(slot, inputs.value, shardRefs, extras, external, parentOutputs);
      var result := build(calls, args);
      NewSlot(waves, k, s, calls, submitted.Keys, dropped);
      NewCallIsGood(box, waves, build, calls, submitted, parentOutputs, shardRefs, extras, x, inputs.value, args);
      var call := Call(x, args, result);
      if result.None? {
        FailLogs(box, waves, build, calls, submitted, parentOutputs, shardRefs, extras, call);
        OneMoreCall(calls, call);
        calls := calls + [call];
        var _ := Fail(waves, build, k, s, mark);
        return;
      }
      Record(waves, build, k, s, call, mark);
    }

    /** The book-keeping after a build that answered (orchestrator.ts:393-452). */
    method Record(waves: Waves, ghost build: Builder, k: nat, s: nat, call: Call, ghost mark: nat)
      requires Tree(waves) && InPlan(waves, SlotId(k, s)) && At(waves, build, k, s) && InStep(mark)
      requires call.slot == SlotId(k, s) && call.result.Some?
      requires call.slot !in dropped && call.slot !in submitted && forall c :: 0 <= c < |calls| ==> calls[c].slot != call.slot
      requires GoodCall(box, waves, build, calls + [call], |calls|)
      modifies this
      ensures At(waves, build, k, s + 1) && InStep(mark)
      ensures events == old(events) + [SlotSubmitted(call.slot, call.result.value)]
    {
      hide *;
      AtFacts(waves, build, k, s);
      StepBack(mark);
      var x, r := call.slot, call.result.value;
      var shardRefs' := shardRefs + if r.shard.Some? then {LowerRef(r.shard.value.ref)} else {};
      var extras' := extras + if r.shard.Some? && r.postShard.Some? then [PostShard(r)] else [];
      RecordStep(box, waves, build, k, s, calls, submitted, dropped, events, submittedCount, failedCount, parentOutputs, shardRefs,
                 extras, call, shardRefs', extras');
      OneMoreInWave(events, mark, SlotSubmitted(x, r));
      calls := calls + [call];
      submitted := submitted[x := r];
      submittedCount := submittedCount + 1;
      submittedThisWave := submittedThisWave + [x];
      shardRefs, extras := shardRefs', extras';
      parentOutputs := parentOutputs[x := MadeOutputs(box, r)];
      events := events + [SlotSubmitted(x, r)];
      AtHolds(waves, build, k, s + 1);
      StepHolds(mark);
    }

    lemma AtFacts(waves: Waves, build: Builder, k: nat, s: nat)
      requires Tree(waves) && At(waves, build, k, s)
      ensures Settled(waves, k, s, submitted.Keys, dropped)
      ensures Booked(waves, events, submitted.Keys, dropped, submittedCount, failedCount)
      ensures Logged(box, waves, build, calls, submitted, parentOutputs, shardRefs, extras)
      ensures Tried(calls, submitted.Keys, dropped) && ResultsIn(events) == ResultsOf(calls)
    {
    }

    lemma AtHolds(waves: Waves, build: Builder, k: nat, s: nat)
      requires Tree(waves) && Settled(waves, k, s, submitted.Keys, dropped)
      requires Booked(waves, events, submitted.Keys, dropped, submittedCount, failedCount)
      requires Logged(box, waves, build, calls, submitted, parentOutputs, shardRefs, extras)
      requires Tried(calls, submitted.Keys, dropped) && ResultsIn(events) == ResultsOf(calls)
      ensures At(waves, build, k, s)
    {
    }

    lemma StepBack(mark: nat)
      requires InStep(mark)
      ensures mark <= |events| && submittedThisWave == SubmittedIn(events[mark..]) && failedThisWave == FailedIn(events[mark..])
    {
    }

    lemma StepHolds(mark: nat)
      requires mark <= |events| && submittedThisWave == SubmittedIn(events[mark..]) && failedThisWave == FailedIn(events[mark..])
      ensures InStep(mark)
    {
    }

    /** One wave (orchestrator.ts:269-461): its report, kept in two lists on the way, names what was
        submitted and what failed in it, in order. */
    method RunWave(waves: Waves, build: Builder, k: nat)
      requires Tree(waves) && k < |waves| && At(waves, build, k, 0)
      modifies this
      ensures At(waves, build, k + 1, 0)
      ensures old(events) <= events
      ensures WaveReported(events[|old(events)|..], k, |waves[k]|)
    {
      hide Settled, Booked, Logged, Tried, Tree, SubmittedIn, FailedIn, ResultsIn, ResultsOf;
      ghost var mark, start := |events|, WaveStarted(k, |waves[k]|);
      NoteBooks(waves, events, submitted.Keys, dropped, submittedCount, failedCount, start);
      OneMoreResult(events, start);
      ghost var before := events + [start];
      events := events + [WaveStarted(k, |waves[k]|)];
      submittedThisWave, failedThisWave := [], [];
      WaveBegins(events, mark);
      for s := 0 to |waves[k]|
        invariant At(waves, build, k, s) && InStep(mark)
        invariant before <= events
      {
        RunSlot(waves, build, k, s, mark);
      }
      WaveSettles(waves, k, submitted.Keys, dropped);
      var report := WaveCompleted(k, submittedThisWave, failedThisWave);
      NoteBooks(waves, events, submitted.Keys, dropped, submittedCount, failedCount, report);
      OneMoreResult(events, report);
      OneMoreInWave(events, mark, report);
      events := events + [report];
      assert events[mark..][0] == before[mark];
    }
  }

  lemma RecordStep(box: Box, waves: Waves, build: Builder, k: nat, s: nat, calls: seq<Call>, submitted: map<SlotId, MixResult>,
                   dropped: set<SlotId>, events: seq<Event>, sc: nat, fc: nat, parentOutputs: map<SlotId, seq<Utxo>>,
                   shardRefs: set<UtxoRef>, extras: seq<Utxo>, call: Call, shardRefs': set<UtxoRef>, extras': seq<Utxo>)
    requires Tree(waves) && InPlan(waves, SlotId(k, s)) && call.slot == SlotId(k, s) && call.result.Some?
    requires Settled(waves, k, s, submitted.Keys, dropped) && Booked(waves, events, submitted.Keys, dropped, sc, fc)
    requires Logged(box, waves, build, calls, submitted, parentOutputs, shardRefs, extras)
    requires Tried(calls, submitted.Keys, dropped) && ResultsIn(events) == ResultsOf(calls)
    requires call.slot !in dropped && call.slot !in submitted && forall c :: 0 <= c < |calls| ==> calls[c].slot != call.slot
    requires GoodCall(box, waves, build, calls + [call], |calls|)
    requires var r := call.result.value;
             && shardRefs' == shardRefs + (if r.shard.Some? then {LowerRef(r.shard.value.ref)} else {})
             && extras' == extras + if r.shard.Some? && r.postShard.Some? then [PostShard(r)] else []
    ensures var x, r := call.slot, call.result.value;
            && Settled(waves, k, s + 1, submitted[x := r].Keys, dropped)
            && Booked(waves, events + [SlotSubmitted(x, r)], submitted[x := r].Keys, dropped, sc + 1, fc)
            && Logged(box, waves, build, calls + [call], submitted[x := r], parentOutputs[x := MadeOutputs(box, r)], shardRefs', extras')
            && Tried(calls + [call], submitted[x := r].Keys, dropped)
            && ResultsIn(events + [SlotSubmitted(x, r)]) == ResultsOf(calls + [call])
  {
    hide *;
    var x, r := call.slot, call.result.value;
    assert submitted[x := r].Keys == submitted.Keys + {x};
    BuildSettles(waves, k, s, submitted.Keys, dropped);
    BuildBooks(waves, events, submitted.Keys, dropped, sc, fc, x, r);
    BuildLogs(box, waves, build, calls, submitted, parentOutputs, shardRefs, extras, call, r, shardRefs', extras');
    TriedOneMore(calls, submitted.Keys, dropped, call);
    OneMoreResult(events, SlotSubmitted(x, r));
    OneMoreCall(calls, call);
  }

  lemma TriedOneMore(calls: seq<Call>, subs: set<SlotId>, dropped: set<SlotId>, call: Call)
    requires Tried(calls, subs, dropped)
    ensures Tried(calls + [call], subs + {call.slot}, dropped)
  {
  }

  lemma TriedAfterFail(calls: seq<Call>, subs: set<SlotId>, dropped: set<SlotId>, x: SlotId, cascade: seq<SlotId>)
    requires TriedBut(calls, subs, dropped, x) && x in Elements(cascade)
    ensures Tried(calls, subs, dropped + Elements(cascade))
  {
  }

  lemma FailStep(waves: Waves, k: nat, s: nat, subs: set<SlotId>, dropped: set<SlotId>, sc: nat, fc: nat,
                 events: seq<Event>, calls: seq<Call>, cascade: seq<SlotId>)
    requires Tree(waves) && InPlan(waves, SlotId(k, s)) && SlotId(k, s) !in dropped
    requires Settled(waves, k, s, subs, dropped) && Booked(waves, events, subs, dropped, sc, fc)
    requires TriedBut(calls, subs, dropped, SlotId(k, s))
    requires Cascade(waves, SlotId(k, s), cascade)
    ensures Settled(waves, k, s + 1, subs, dropped + Elements(cascade))
    ensures Booked(waves, events + [SlotFailed(SlotId(k, s), cascade)], subs, dropped + Elements(cascade), sc, fc + |cascade|)
    ensures Tried(calls, subs, dropped + Elements(cascade))
  {
    assert cascade[0] in Elements(cascade);
    hide *;
    FailSettles(waves, k, s, subs, dropped, cascade);
    FailBooks(waves, events, subs, dropped, sc, fc, SlotId(k, s), cascade);
    TriedAfterFail(calls, subs, dropped, SlotId(k, s), cascade);
  }

  lemma NewSlot(waves: Waves, k: nat, s: nat, calls: seq<Call>, subs: set<SlotId>, dropped: set<SlotId>)
    requires Tree(waves) && Settled(waves, k, s, subs, dropped) && Tried(calls, subs, dropped)
    requires SlotId(k, s) !in dropped
    ensures SlotId(k, s) !in subs && forall c :: 0 <= c < |calls| ==> calls[c].slot != SlotId(k, s)
  {
  }

  // ---- what a whole run promises ----

  function WaveIds(k: nat, count: nat): seq<SlotId> {
    seq(count, s requires 0 <= s < count => SlotId(k, s))
  }

  /** All slots of the plan, in order. */
  function AllIds(waves: Waves): (r: seq<SlotId>)
    ensures |r| == SlotTotal(waves)
  {
    if waves == [] then [] else AllIds(waves[..|waves| - 1]) + WaveIds(|waves| - 1, |waves[|waves| - 1]|)
  }

  lemma {:induction false} AllIdsAre(waves: Waves)
    ensures Distinct(AllIds(waves)) && forall x :: x in AllIds(waves) <==> InPlan(waves, x)
  {
    if waves != [] {
      var k := |waves| - 1;
      var front, ids := waves[..k], WaveIds(k, |waves[k]|);
      AllIdsAre(front);
      forall x ensures x in ids <==> x.wave == k && x.slot < |waves[k]| {
        if x.wave == k && x.slot < |waves[k]| {
          assert ids[x.slot] == x;
        }
      }
      DistinctAppend(AllIds(front), ids);
    }
  }

  lemma {:induction false} SetOfSeq(xs: seq<SlotId>)
    ensures |Elements(xs)| <= |xs|
  {
    if xs != [] {
      SetOfSeq(xs[..|xs| - 1]);
      assert xs == xs[..|xs| - 1] + [xs[|xs| - 1]];
      assert Elements(xs) == Elements(xs[..|xs| - 1]) + {xs[|xs| - 1]};
    }
  }

  lemma SameLength(xs: seq<SlotId>, ys: seq<SlotId>)
    requires Distinct(xs) && Distinct(ys) && forall x :: x in xs <==> x in ys
    ensures |xs| == |ys|
  {
    DistinctFits(xs, Elements(ys));
    DistinctFits(ys, Elements(xs));
    SetOfSeq(xs);
    SetOfSeq(ys);
  }

  /** The slots accounted for: each submitted one, and each failure's cascade. */
  function Accounted(events: seq<Event>): seq<SlotId> { SubmittedIn(events) + DroppedIn(events) }

  lemma SettledCovers(waves: Waves, subs: set<SlotId>, dropped: set<SlotId>)
    requires Tree(waves) && Settled(waves, |waves|, 0, subs, dropped)
    ensures subs !! dropped && forall x :: x in subs || x in dropped <==> InPlan(waves, x)
  {
    hide Tree, ChildOf;
  }

  lemma AllAccounted(waves: Waves, events: seq<Event>, subs: set<SlotId>, dropped: set<SlotId>, sc: nat, fc: nat)
    requires Tree(waves) && Settled(waves, |waves|, 0, subs, dropped) && Booked(waves, events, subs, dropped, sc, fc)
    ensures Distinct(Accounted(events)) && forall x :: x in Accounted(events) <==> InPlan(waves, x)
    ensures sc + fc == SlotTotal(waves)
  {
    var xs, ys := SubmittedIn(events), DroppedIn(events);
    SettledCovers(waves, subs, dropped);
    AllIdsAre(waves);
    hide Settled, Distinct, SubmittedIn, DroppedIn, Tree, Cascade, InPlan, AllIds;
    Members(xs);
    Members(ys);
    hide Booked, Elements;
    DistinctAppend(xs, ys);
    SameLength(Accounted(events), AllIds(waves));
  }

  lemma Members(xs: seq<SlotId>)
    ensures forall x :: x in xs <==> x in Elements(xs)
  {
  }

  function SlotCounts(waves: Waves): seq<nat> { seq(|waves|, k requires 0 <= k < |waves| => |waves[k]|) }

  /** submitFanout (orchestrator.ts:233-468), under any pattern of failures: the submitted slots and
      the failures' cascades list every slot of the plan exactly once, the closing counts add up to
      all slots, every build was given its parent's outputs by the parent's transaction id, and every wave
      is reported. */
  method SubmitFanout(plan: Plan, box: Box, build: Builder, excludeShards: seq<UtxoRef>, shardExtras: seq<Utxo>, chainFrom: seq<Utxo>)
    returns (events: seq<Event>, calls: seq<Call>)
    requires Tree(plan.waves)
    ensures Distinct(Accounted(events)) && forall x :: x in Accounted(events) <==> InPlan(plan.waves, x)
    ensures events != [] && events[|events| - 1] == PlanCompleted(|SubmittedIn(events)|, |DroppedIn(events)|)
    ensures |SubmittedIn(events)| + |DroppedIn(events)| == SlotTotal(plan.waves)
    ensures forall i :: 0 <= i < |events| && events[i].SlotFailed? ==> Cascade(plan.waves, events[i].slot, events[i].dropped)
    ensures forall c :: 0 <= c < |calls| ==> GoodCall(box, plan.waves, build, calls, c)
    ensures forall c, d :: 0 <= c < d < |calls| ==> calls[c].slot != calls[d].slot
    ensures forall x :: x in SubmittedIn(events) <==> exists c :: 0 <= c < |calls| && calls[c].slot == x && calls[c].result.Some?
    ensures forall x :: x in SubmittedIn(events) && x.wave > 0 ==> ParentOf(plan.waves, x) in SubmittedIn(events)
    ensures ResultsIn(events) == ResultsOf(calls)
    ensures Streamed(events[..|events| - 1], SlotCounts(plan.waves))
  {
    hide *;
    NothingStreamed();
    AllCounts(plan.waves);
    var run := new FanoutRun(box, excludeShards, shardExtras, chainFrom, plan.waves, build);
    for k := 0 to |plan.waves|
      invariant run.At(plan.waves, build, k, 0) && run.box == box
      invariant Streamed(run.events, SlotCounts(plan.waves)[..k])
    {
      ghost var before := run.events;
      run.RunWave(plan.waves, build, k);
      CountsMore(plan.waves, k);
      StreamGrows(before, run.events, SlotCounts(plan.waves)[..k], |plan.waves[k]|);
    }
    run.AtFacts(plan.waves, build, |plan.waves|, 0);
    AllAccounted(plan.waves, run.events, run.submitted.Keys, run.dropped, run.submittedCount, run.failedCount);
    RunPromises(box, plan.waves, build, run.events, run.calls, run.submitted, run.dropped, run.submittedCount, run.failedCount,
                run.parentOutputs, run.shardRefs, run.extras);
    var done := PlanCompleted(run.submittedCount, run.failedCount);
    events := run.events + [done];
    calls := run.calls;
    DoneIsLast(plan.waves, run.events, done);
  }

  lemma CountsMore(waves: Waves, k: nat)
    requires k < |waves|
    ensures |SlotCounts(waves)| == |waves| && SlotCounts(waves)[..k + 1] == SlotCounts(waves)[..k] + [|waves[k]|]
  {
  }

  lemma AllCounts(waves: Waves)
    ensures |SlotCounts(waves)| == |waves| && SlotCounts(waves)[..0] == [] && SlotCounts(waves)[..|waves|] == SlotCounts(waves)
  {
  }

  /** The closing event adds nothing to what the stream says. */
  lemma DoneIsLast(waves: Waves, events: seq<Event>, done: Event)
    requires Tree(waves) && done.PlanCompleted?
    ensures var all := events + [done];
            && Accounted(all) == Accounted(events) && SubmittedIn(all) == SubmittedIn(events) && DroppedIn(all) == DroppedIn(events)
            && ResultsIn(all) == ResultsIn(events) && all[..|all| - 1] == events && all[|all| - 1] == done
            && forall i :: 0 <= i < |all| && all[i].SlotFailed? ==> i < |events| && all[i] == events[i]
  {
    NothingMore(events, done);
    OneMoreResult(events, done);
    hide SubmittedIn, DroppedIn, ResultsIn;
  }

  lemma RunPromises(box: Box, waves: Waves, build: Builder, events: seq<Event>, calls: seq<Call>, submitted: map<SlotId, MixResult>,
                    dropped: set<SlotId>, sc: nat, fc: nat, parentOutputs: map<SlotId, seq<Utxo>>, shardRefs: set<UtxoRef>, extras: seq<Utxo>)
    requires Tree(waves) && Settled(waves, |waves|, 0, submitted.Keys, dropped)
    requires Booked(waves, events, submitted.Keys, dropped, sc, fc)
    requires Logged(box, waves, build, calls, submitted, parentOutputs, shardRefs, extras)
    ensures sc == |SubmittedIn(events)| && fc == |DroppedIn(events)|
    ensures forall i :: 0 <= i < |events| && events[i].SlotFailed? ==> Cascade(waves, events[i].slot, events[i].dropped)
    ensures forall c :: 0 <= c < |calls| ==> GoodCall(box, waves, build, calls, c)
    ensures forall c, d :: 0 <= c < d < |calls| ==> calls[c].slot != calls[d].slot
    ensures forall x :: x in SubmittedIn(events) <==> exists c :: 0 <= c < |calls| && calls[c].slot == x && calls[c].result.Some?
    ensures forall x :: x in SubmittedIn(events) && x.wave > 0 ==> ParentOf(waves, x) in SubmittedIn(events)
  {
    hide GoodCall, Tree, Cascade, Distinct, MadeOutputs;
    forall x ensures x in SubmittedIn(events) <==> x in submitted {
      assert x in SubmittedIn(events) <==> x in Elements(SubmittedIn(events));
    }
  }

  /** When the builder never picks an excluded fee shard, no two of its calls spend the same one. */
  lemma ShardsSpentOnce(box: Box, waves: Waves, build: Builder, calls: seq<Call>, c: nat, d: nat)
    requires c < d < |calls| && GoodCall(box, waves, build, calls, d)
    requires calls[c].result.Some? && calls[c].result.value.shard.Some?
    requires calls[d].result.Some? && calls[d].result.value.shard.Some?
    requires forall before, args :: build(before, args).Some? && build(before, args).value.shard.Some? ==>
               LowerRef(build(before, args).value.shard.value.ref) !in args.exclude
    ensures LowerRef(calls[c].result.value.shard.value.ref) != LowerRef(calls[d].result.value.shard.value.ref)
  {
    hide InputGiven, LowerRef;
    assert build(calls[..d], calls[d].args) == calls[d].result;
  }
}
