/** Signing a built batch at once and submitting it (offchain/src/strategy/orchestrator.ts:908-1045). */
module Submission {
  import opened Options
  import opened Permutations
  import opened Fanout
  import opened FanoutTree
  import opened Orchestrator
  import opened Batch
  import Refs
  import Select

  // ---- which submissions a run makes ----

  /** One submission, and the transaction id it returned (`None`: it threw). */
  datatype Attempt = Attempt(slot: UnsignedSlot, tx: string, answer: Option<string>)

  function Accepted(attempts: seq<Attempt>): seq<SlotId> {
    if attempts == [] then []
    else
      var last := attempts[|attempts| - 1];
      Accepted(attempts[..|attempts| - 1]) + if last.answer.Some? then [last.slot.slotId] else []
  }

  function Refused(attempts: seq<Attempt>): seq<SlotId> {
    if attempts == [] then []
    else
      var last := attempts[|attempts| - 1];
      Refused(attempts[..|attempts| - 1]) + if last.answer.None? then [last.slot.slotId] else []
  }

  /** What an accepted submission is reported as: the built result with the signature that was sent, under
      the id that came back. */
  function Reported(a: Attempt): MixResult
    requires a.answer.Some?
  {
    a.slot.result.(txId := a.answer.value, signedTx := a.tx)
  }

  function AcceptedResults(attempts: seq<Attempt>): seq<(SlotId, MixResult)> {
    if attempts == [] then []
    else
      var last := attempts[|attempts| - 1];
      AcceptedResults(attempts[..|attempts| - 1]) +
      if last.answer.Some? then [(last.slot.slotId, Reported(last))] else []
  }

  lemma OneAttempt(attempts: seq<Attempt>, a: Attempt)
    ensures Accepted(attempts + [a]) == if a.answer.Some? then Accepted(attempts) + [a.slot.slotId] else Accepted(attempts)
    ensures Refused(attempts + [a]) == if a.answer.None? then Refused(attempts) + [a.slot.slotId] else Refused(attempts)
    ensures AcceptedResults(attempts + [a]) ==
            if a.answer.Some? then AcceptedResults(attempts) + [(a.slot.slotId, Reported(a))]
            else AcceptedResults(attempts)
  {
    assert (attempts + [a])[..|attempts|] == attempts;
    assert Accepted(attempts) + [] == Accepted(attempts) && Refused(attempts) + [] == Refused(attempts);
    assert AcceptedResults(attempts) + [] == AcceptedResults(attempts);
  }

  /** Below a refused slot: its parent's outputs never land. */
  ghost predicate LostTo(waves: Waves, refused: seq<SlotId>, x: SlotId)
    requires Tree(waves)
  {
    exists f :: f in refused && Below(waves, x, f)
  }

  function IndexOf(slots: seq<UnsignedSlot>, s: UnsignedSlot): (i: nat)
    requires s in slots
    ensures i < |slots| && slots[i] == s && s !in slots[..i]
  {
    if slots[0] == s then 0 else 1 + IndexOf(slots[1..], s)
  }

  /** The submissions a run makes for the slots in `order`: none for a slot the builder dropped or a
      refusal above it has dropped, one for every other, of the signature at the slot's place. */
  ghost function AttemptsFor(waves: Waves, batch: UnsignedBatch, signed: seq<string>, submit: (nat, string) -> Option<string>,
                             order: seq<UnsignedSlot>): seq<Attempt>
    requires Tree(waves) && |signed| == |batch.slots| && forall s :: s in order ==> s in batch.slots
  {
    if order == [] then []
    else
      var s := order[|order| - 1];
      var before := AttemptsFor(waves, batch, signed, submit, order[..|order| - 1]);
      if s.slotId in AllDropped(batch.failed) || LostTo(waves, Refused(before), s.slotId) then before
      else
        var tx := signed[IndexOf(batch.slots, s)];
        before + [Attempt(s, tx, submit(|before|, tx))]
  }

  /** The built slots of the first `n` waves, wave by wave. */
  function InOrder(slots: seq<UnsignedSlot>, n: nat): seq<UnsignedSlot> {
    if n == 0 then [] else InOrder(slots, n - 1) + InWave(slots, SlotWave, n - 1)
  }

  /** Slots of the batch, each once, earlier waves first. */
  ghost predicate Lined(batch: UnsignedBatch, order: seq<UnsignedSlot>) {
    && Distinct(SlotIds(order))
    && (forall s :: s in order ==> s in batch.slots)
    && (forall i, j :: 0 <= i < j < |order| ==> order[i].slotId.wave <= order[j].slotId.wave)
  }

  lemma PrefixIsLined(batch: UnsignedBatch, order: seq<UnsignedSlot>, n: nat)
    requires Lined(batch, order) && n <= |order|
    ensures Lined(batch, order[..n])
  {
    assert SlotIds(order[..n]) == SlotIds(order)[..n];
  }

  /** The first `n` waves hold exactly the built slots of those waves, in line. */
  lemma {:induction false} InOrderLined(waves: Waves, batch: UnsignedBatch, n: nat)
    requires Tree(waves) && GoodBatch(waves, batch)
    ensures Lined(batch, InOrder(batch.slots, n))
    ensures forall s :: s in InOrder(batch.slots, n) <==> s in batch.slots && s.slotId.wave < n
  {
    hide *;
    if n == 0 {
      NothingInOrder(batch);
    } else {
      var front, these := InOrder(batch.slots, n - 1), InWave(batch.slots, SlotWave, n - 1);
      InOrderLined(waves, batch, n - 1);
      WaveLined(waves, batch, n - 1);
      LineUp(batch, front, these, n - 1);
      InOrderNext(batch.slots, n - 1);
      assert forall s :: s in front + these <==> s in front || s in these;
    }
  }

  lemma NothingInOrder(batch: UnsignedBatch)
    ensures InOrder(batch.slots, 0) == [] && Lined(batch, [])
  {
  }

  lemma WaveLined(waves: Waves, batch: UnsignedBatch, k: nat)
    requires Tree(waves) && GoodBatch(waves, batch)
    ensures var these := InWave(batch.slots, SlotWave, k);
            Distinct(SlotIds(these)) && forall s :: s in these <==> s in batch.slots && s.slotId.wave == k
  {
    hide Tree;
    DistinctFront(SlotIds(batch.slots), AllDropped(batch.failed));
    InWaveAre(batch.slots, k);
  }

  lemma InOrderNext(slots: seq<UnsignedSlot>, n: nat)
    ensures InOrder(slots, n + 1) == InOrder(slots, n) + InWave(slots, SlotWave, n)
  {
  }

  lemma LineUp(batch: UnsignedBatch, front: seq<UnsignedSlot>, these: seq<UnsignedSlot>, n: nat)
    requires Lined(batch, front) && forall s :: s in front ==> s.slotId.wave < n
    requires Distinct(SlotIds(these)) && forall s :: s in these ==> s in batch.slots && s.slotId.wave == n
    ensures Lined(batch, front + these)
  {
    var all := front + these;
    forall i, j | 0 <= i < j < |all| ensures SlotIds(all)[i] != SlotIds(all)[j] && all[i].slotId.wave <= all[j].slotId.wave {
      if j < |front| {
        assert SlotIds(front)[i] != SlotIds(front)[j];
      } else if i >= |front| {
        assert SlotIds(these)[i - |front|] != SlotIds(these)[j - |front|];
        assert all[i] in these && all[j] in these;
      } else {
        assert all[i] in front && all[j] in these;
      }
    }
  }

  lemma {:induction false} InOrderStops(slots: seq<UnsignedSlot>, m: nat, n: nat)
    requires m <= n && forall i :: 0 <= i < |slots| ==> slots[i].wave < m
    ensures InOrder(slots, n) == InOrder(slots, m)
  {
    if m < n {
      InOrderStops(slots, m, n - 1);
      NoneInWave(slots, n - 1);
    }
  }

  lemma {:induction false} NoneInWave(slots: seq<UnsignedSlot>, k: nat)
    requires forall i :: 0 <= i < |slots| ==> slots[i].wave != k
    ensures InWave(slots, SlotWave, k) == []
  {
    if slots != [] {
      NoneInWave(slots[..|slots| - 1], k);
    }
  }

  /** Every submission of a run, wave by wave. */
  ghost function Sends(waves: Waves, batch: UnsignedBatch, signed: seq<string>, submit: (nat, string) -> Option<string>): seq<Attempt>
    requires Tree(waves) && GoodBatch(waves, batch) && |signed| == |batch.slots|
  {
    InOrderLined(waves, batch, |waves|);
    AttemptsFor(waves, batch, signed, submit, InOrder(batch.slots, |waves|))
  }

  // ---- what they leave ----

  lemma {:induction false} OneChain(waves: Waves, x: SlotId, f: SlotId, g: SlotId)
    requires Tree(waves) && InPlan(waves, x) && Descends(waves, x, f) && Descends(waves, x, g)
    ensures Below(waves, f, g) || Below(waves, g, f)
    decreases x.wave
  {
    if x != f && x != g {
      OneChain(waves, ParentOf(waves, x), f, g);
    }
  }

  lemma {:induction false} BelowBelow(waves: Waves, x: SlotId, y: SlotId, z: SlotId)
    requires Tree(waves) && InPlan(waves, x) && Descends(waves, x, y) && Below(waves, y, z)
    ensures Below(waves, x, z)
    decreases x.wave
  {
    if x != y {
      BelowBelow(waves, ParentOf(waves, x), y, z);
    }
  }

  lemma {:induction false} DroppedBelow(waves: Waves, failed: seq<BuildFailure>, x: SlotId)
    requires Tree(waves) && forall i :: 0 <= i < |failed| ==> Cascade(waves, failed[i].slotId, failed[i].dropped)
    ensures x in AllDropped(failed) <==> exists i :: 0 <= i < |failed| && Below(waves, x, failed[i].slotId)
  {
    if failed != [] {
      DroppedBelow(waves, failed[..|failed| - 1], x);
      assert forall i :: 0 <= i < |failed| - 1 ==> failed[..|failed| - 1][i] == failed[i];
    }
  }

  lemma NotDropped(batch: UnsignedBatch, f: SlotId)
    requires Distinct(SlotIds(batch.slots) + AllDropped(batch.failed)) && f in SlotIds(batch.slots)
    ensures f !in AllDropped(batch.failed)
  {
    var xs, ys := SlotIds(batch.slots), AllDropped(batch.failed);
    var i :| 0 <= i < |xs| && xs[i] == f;
    forall j | 0 <= j < |ys| ensures ys[j] != f {
      assert (xs + ys)[i] == f && (xs + ys)[|xs| + j] == ys[j];
    }
  }

  /** Which slots of the plan the refusals drop. */
  ghost function Lost(waves: Waves, refused: seq<SlotId>): set<SlotId>
    requires Tree(waves)
  {
    set x | x in AllIds(waves) && LostTo(waves, refused, x)
  }

  /** Half-way through: what was submitted is in line, accepted slots are each reported once and not
      lost, and every slot met is accepted or lost. */
  ghost predicate Sending(waves: Waves, order: seq<UnsignedSlot>, attempts: seq<Attempt>)
    requires Tree(waves)
  {
    && (forall x :: x in Accepted(attempts) || x in Refused(attempts) ==> x in SlotIds(order))
    && Distinct(Accepted(attempts))
    && (forall x :: x in Accepted(attempts) ==> !LostTo(waves, Refused(attempts), x))
    && (forall x :: x in SlotIds(order) ==> x in Accepted(attempts) || LostTo(waves, Refused(attempts), x))
  }

  lemma {:induction false} RunIsSending(waves: Waves, batch: UnsignedBatch, signed: seq<string>, submit: (nat, string) -> Option<string>,
                                        order: seq<UnsignedSlot>)
    requires Tree(waves) && GoodBatch(waves, batch) && |signed| == |batch.slots| && Lined(batch, order)
    ensures forall s :: s in order ==> s in batch.slots
    ensures Sending(waves, order, AttemptsFor(waves, batch, signed, submit, order))
  {
    LinedInBatch(batch, order);
    hide *;
    if order == [] {
      NothingSent(waves, batch, signed, submit);
    } else {
      var n := |order| - 1;
      var front, s := order[..n], order[n];
      assert order == front + [s];
      PrefixIsLined(batch, order, n);
      InLine(batch, front, s);
      RunIsSending(waves, batch, signed, submit, front);
      BuiltIsNotDropped(batch, s, waves);
      NextSend(waves, batch, signed, submit, front, s);
      var before := AttemptsFor(waves, batch, signed, submit, front);
      if LostTo(waves, Refused(before), s.slotId) {
        SkippedSlot(waves, front, before, s);
      } else {
        var tx := signed[IndexOf(batch.slots, s)];
        SentSlot(waves, batch, front, before, Attempt(s, tx, submit(|before|, tx)));
      }
    }
  }

  lemma LinedInBatch(batch: UnsignedBatch, order: seq<UnsignedSlot>)
    requires Lined(batch, order)
    ensures forall s :: s in order ==> s in batch.slots
  {
  }

  lemma NothingSent(waves: Waves, batch: UnsignedBatch, signed: seq<string>, submit: (nat, string) -> Option<string>)
    requires Tree(waves) && |signed| == |batch.slots|
    ensures Sending(waves, [], AttemptsFor(waves, batch, signed, submit, []))
  {
    hide Tree;
  }

  lemma BuiltIsNotDropped(batch: UnsignedBatch, s: UnsignedSlot, waves: Waves)
    requires Tree(waves) && GoodBatch(waves, batch) && s in batch.slots
    ensures s.slotId in SlotIds(batch.slots) && s.slotId !in AllDropped(batch.failed) && InPlan(waves, s.slotId)
  {
    var i :| 0 <= i < |batch.slots| && batch.slots[i] == s;
    assert SlotIds(batch.slots)[i] == s.slotId;
    NotDropped(batch, s.slotId);
    assert s.slotId in SlotIds(batch.slots) + AllDropped(batch.failed);
  }

  lemma IdsAppend(order: seq<UnsignedSlot>, s: UnsignedSlot)
    ensures SlotIds(order + [s]) == SlotIds(order) + [s.slotId]
  {
  }

  lemma SkippedSlot(waves: Waves, order: seq<UnsignedSlot>, attempts: seq<Attempt>, s: UnsignedSlot)
    requires Tree(waves) && Sending(waves, order, attempts) && LostTo(waves, Refused(attempts), s.slotId)
    ensures Sending(waves, order + [s], attempts)
  {
    hide LostTo, Tree, Accepted, Refused, Distinct;
    IdsAppend(order, s);
  }

  /** A refusal among the slots met drops nothing accepted before it: what lies below it comes later. */
  lemma LaterIsNotAbove(waves: Waves, batch: UnsignedBatch, order: seq<UnsignedSlot>, s: UnsignedSlot, x: SlotId)
    requires Tree(waves) && Lined(batch, order + [s]) && x in SlotIds(order)
    ensures x != s.slotId && x.wave <= s.slotId.wave && !Below(waves, x, s.slotId)
  {
    var i :| 0 <= i < |order| && SlotIds(order)[i] == x;
    var all := order + [s];
    assert all[i].slotId == x && all[|order|] == s;
    assert SlotIds(all)[i] != SlotIds(all)[|order|];
    if Below(waves, x, s.slotId) {
      DescendsIsLower(waves, x, s.slotId);
    }
  }

  lemma SentSlot(waves: Waves, batch: UnsignedBatch, order: seq<UnsignedSlot>, attempts: seq<Attempt>, a: Attempt)
    requires Tree(waves) && Sending(waves, order, attempts) && Lined(batch, order + [a.slot])
    requires !LostTo(waves, Refused(attempts), a.slot.slotId)
    ensures Sending(waves, order + [a.slot], attempts + [a])
  {
    hide *;
    forall y | y in SlotIds(order) ensures y != a.slot.slotId && !Below(waves, y, a.slot.slotId) {
      LaterIsNotAbove(waves, batch, order, a.slot, y);
    }
    OneAttempt(attempts, a);
    IdsAppend(order, a.slot);
    if a.answer.None? {
      RefusedSlot(waves, order, attempts, a);
    } else {
      AcceptedSlot(waves, order, attempts, a);
    }
  }

  lemma AcceptedSlot(waves: Waves, order: seq<UnsignedSlot>, attempts: seq<Attempt>, a: Attempt)
    requires Tree(waves) && Sending(waves, order, attempts) && a.slot.slotId !in SlotIds(order)
    requires SlotIds(order + [a.slot]) == SlotIds(order) + [a.slot.slotId]
    requires Refused(attempts + [a]) == Refused(attempts) && Accepted(attempts + [a]) == Accepted(attempts) + [a.slot.slotId]
    requires !LostTo(waves, Refused(attempts), a.slot.slotId)
    ensures Sending(waves, order + [a.slot], attempts + [a])
  {
    DistinctCons(a.slot.slotId, Accepted(attempts));
    hide Tree, LostTo, Accepted, Refused, Distinct, SlotIds;
  }

  lemma RefusedSlot(waves: Waves, order: seq<UnsignedSlot>, attempts: seq<Attempt>, a: Attempt)
    requires Tree(waves) && Sending(waves, order, attempts)
    requires forall y :: y in SlotIds(order) ==> !Below(waves, y, a.slot.slotId)
    requires SlotIds(order + [a.slot]) == SlotIds(order) + [a.slot.slotId]
    requires Refused(attempts + [a]) == Refused(attempts) + [a.slot.slotId] && Accepted(attempts + [a]) == Accepted(attempts)
    ensures Sending(waves, order + [a.slot], attempts + [a])
  {
    var x := a.slot.slotId;
    forall y ensures LostTo(waves, Refused(attempts) + [x], y) <==> LostTo(waves, Refused(attempts), y) || Below(waves, y, x) {
      LostToOneMore(waves, Refused(attempts), x, y);
    }
    BelowItself(waves, x);
    hide Tree, LostTo, Below, Accepted, Refused, Distinct, SlotIds;
  }

  lemma BelowItself(waves: Waves, x: SlotId)
    requires Tree(waves)
    ensures Below(waves, x, x)
  {
  }

  lemma LostToOneMore(waves: Waves, refused: seq<SlotId>, f: SlotId, y: SlotId)
    requires Tree(waves)
    ensures LostTo(waves, refused + [f], y) <==> LostTo(waves, refused, y) || Below(waves, y, f)
  {
    hide Tree, Below;
    if g :| g in refused && Below(waves, y, g) {
      assert g in refused + [f];
    }
    assert f in refused + [f];
  }

  /** What lies below a slot that is not lost is not lost either, when only slots met before were refused. */
  lemma RefusalIsNew(waves: Waves, batch: UnsignedBatch, order: seq<UnsignedSlot>, s: UnsignedSlot, refused: seq<SlotId>, y: SlotId)
    requires Tree(waves) && Lined(batch, order + [s]) && forall f :: f in refused ==> f in SlotIds(order)
    requires InPlan(waves, s.slotId) && !LostTo(waves, refused, s.slotId) && Below(waves, y, s.slotId)
    ensures !LostTo(waves, refused, y)
  {
    if f :| f in refused && Below(waves, y, f) {
      LaterIsNotAbove(waves, batch, order, s, f);
      if y != f {
        OneChain(waves, y, f, s.slotId);
      }
    }
  }

  /** Accepted or dropped: one of the two, for every slot of the plan. */
  ghost predicate Outcome(waves: Waves, batch: UnsignedBatch, attempts: seq<Attempt>)
    requires Tree(waves)
  {
    && Distinct(Accepted(attempts))
    && (forall x :: x in Accepted(attempts) ==> x !in AllDropped(batch.failed) && !LostTo(waves, Refused(attempts), x))
    && (forall x :: InPlan(waves, x) <==> x in Accepted(attempts) || x in AllDropped(batch.failed) || LostTo(waves, Refused(attempts), x))
    && (forall x :: x in Refused(attempts) ==> x in SlotIds(batch.slots))
  }

  /** Under every pattern of answers each slot of the plan is accepted or dropped, never both. */
  lemma EveryRunSettles(waves: Waves, batch: UnsignedBatch, signed: seq<string>, submit: (nat, string) -> Option<string>)
    requires Tree(waves) && GoodBatch(waves, batch) && |signed| == |batch.slots|
    ensures Outcome(waves, batch, Sends(waves, batch, signed, submit))
  {
    hide *;
    var order := InOrder(batch.slots, |waves|);
    InOrderLined(waves, batch, |waves|);
    RunIsSending(waves, batch, signed, submit, order);
    SendsAre(waves, batch, signed, submit);
    AllInOrder(waves, batch, order);
    SettlesFrom(waves, batch, order, Sends(waves, batch, signed, submit));
  }

  lemma SendsAre(waves: Waves, batch: UnsignedBatch, signed: seq<string>, submit: (nat, string) -> Option<string>)
    requires Tree(waves) && GoodBatch(waves, batch) && |signed| == |batch.slots|
    ensures Lined(batch, InOrder(batch.slots, |waves|))
    ensures Sends(waves, batch, signed, submit) == AttemptsFor(waves, batch, signed, submit, InOrder(batch.slots, |waves|))
  {
    InOrderLined(waves, batch, |waves|);
    hide AttemptsFor, InOrder;
  }

  lemma SettlesFrom(waves: Waves, batch: UnsignedBatch, order: seq<UnsignedSlot>, attempts: seq<Attempt>)
    requires Tree(waves) && GoodBatch(waves, batch) && Sending(waves, order, attempts)
    requires forall x :: x in SlotIds(order) <==> x in SlotIds(batch.slots)
    requires forall x :: x in SlotIds(batch.slots) ==> x !in AllDropped(batch.failed) && InPlan(waves, x)
    ensures Outcome(waves, batch, attempts)
  {
    hide SlotIds, AllDropped, Accepted, Refused, LostTo, Tree, InPlan, Distinct, Cascade;
    LostIsInPlan(waves, Refused(attempts));
    forall x ensures InPlan(waves, x) <==> x in SlotIds(batch.slots) || x in AllDropped(batch.failed) {
      assert InPlan(waves, x) <==> x in SlotIds(batch.slots) + AllDropped(batch.failed);
    }
  }

  lemma AllInOrder(waves: Waves, batch: UnsignedBatch, order: seq<UnsignedSlot>)
    requires Tree(waves) && GoodBatch(waves, batch)
    requires forall s :: s in order <==> s in batch.slots && s.slotId.wave < |waves|
    ensures forall x :: x in SlotIds(order) <==> x in SlotIds(batch.slots)
    ensures forall x :: x in SlotIds(batch.slots) ==> x !in AllDropped(batch.failed) && InPlan(waves, x)
  {
    forall s | s in batch.slots ensures s in order && s.slotId !in AllDropped(batch.failed) && InPlan(waves, s.slotId) {
      BuiltIsNotDropped(batch, s, waves);
    }
    hide Tree, GoodBatch, InPlan, AllDropped;
    SameIds(order, batch.slots);
    forall x | x in SlotIds(batch.slots) ensures x !in AllDropped(batch.failed) && InPlan(waves, x) {
      var i :| 0 <= i < |batch.slots| && SlotIds(batch.slots)[i] == x;
      assert batch.slots[i] in batch.slots;
    }
  }

  lemma SameIds(xs: seq<UnsignedSlot>, ys: seq<UnsignedSlot>)
    requires forall s :: s in xs <==> s in ys
    ensures forall x :: x in SlotIds(xs) <==> x in SlotIds(ys)
  {
    IdsWithin(xs, ys);
    IdsWithin(ys, xs);
  }

  lemma IdsWithin(xs: seq<UnsignedSlot>, ys: seq<UnsignedSlot>)
    requires forall s :: s in xs ==> s in ys
    ensures forall x :: x in SlotIds(xs) ==> x in SlotIds(ys)
  {
    forall x | x in SlotIds(xs) ensures x in SlotIds(ys) {
      var i :| 0 <= i < |xs| && SlotIds(xs)[i] == x;
      assert xs[i] in ys;
      var j :| 0 <= j < |ys| && ys[j] == xs[i];
      assert SlotIds(ys)[j] == x;
    }
  }

  lemma LostIsInPlan(waves: Waves, refused: seq<SlotId>)
    requires Tree(waves) && forall f :: f in refused ==> InPlan(waves, f)
    ensures forall x :: LostTo(waves, refused, x) ==> InPlan(waves, x)
  {
  }

  // ---- the books of a submission run ----

  /** `lost` lists what the refusals drop. */
  ghost predicate LostBelow(waves: Waves, lost: seq<SlotId>, refused: seq<SlotId>)
    requires Tree(waves)
  {
    forall x :: x in lost <==> LostTo(waves, refused, x)
  }

  /** The events report the accepted slots in order and hold every cascade, replayed ones included; the
      counters are those of the code. */
  ghost predicate Tallied(waves: Waves, failed: seq<BuildFailure>, replayed: multiset<SlotId>, events: seq<Event>,
                          attempts: seq<Attempt>, lost: seq<SlotId>, submittedCount: nat, failedCount: nat)
    requires Tree(waves)
  {
    && ResultsIn(events) == AcceptedResults(attempts) && submittedCount == |Accepted(attempts)|
    && Distinct(lost) && failedCount == |AllDropped(failed)| + |lost|
    && LostBelow(waves, lost, Refused(attempts))
    && multiset(DroppedIn(events)) == replayed + multiset(lost)
  }

  lemma TallyRefused(waves: Waves, failed: seq<BuildFailure>, replayed: multiset<SlotId>, events: seq<Event>,
                     attempts: seq<Attempt>, lost: seq<SlotId>, sc: nat, fc: nat, a: Attempt, cascade: seq<SlotId>)
    requires Tree(waves) && Tallied(waves, failed, replayed, events, attempts, lost, sc, fc)
    requires a.answer.None? && Cascade(waves, a.slot.slotId, cascade) && forall x :: x in cascade ==> x !in lost
    ensures Tallied(waves, failed, replayed, events + [SlotFailed(a.slot.slotId, cascade)], attempts + [a], lost + cascade,
                    sc, fc + |cascade|)
  {
    hide Tree, ResultsIn, AcceptedResults, Accepted, Refused, DroppedIn, AllDropped, Below, LostTo, SubmittedIn, FailedIn;
    var x := a.slot.slotId;
    OneMore(events, SlotFailed(x, cascade));
    OneMoreResult(events, SlotFailed(x, cascade));
    OneAttempt(attempts, a);
    DistinctAppend(lost, cascade);
    hide Distinct;
    forall y ensures y in lost + cascade <==> LostTo(waves, Refused(attempts) + [x], y) {
      LostToOneMore(waves, Refused(attempts), x, y);
    }
  }

  lemma TallyAccepted(waves: Waves, failed: seq<BuildFailure>, replayed: multiset<SlotId>, events: seq<Event>,
                      attempts: seq<Attempt>, lost: seq<SlotId>, sc: nat, fc: nat, a: Attempt)
    requires Tree(waves) && Tallied(waves, failed, replayed, events, attempts, lost, sc, fc)
    requires a.answer.Some?
    ensures Tallied(waves, failed, replayed, events + [SlotSubmitted(a.slot.slotId, Reported(a))],
                    attempts + [a], lost, sc + 1, fc)
  {
    hide Tree, ResultsIn, AcceptedResults, Accepted, Refused, DroppedIn, AllDropped, LostBelow, Distinct, SubmittedIn, FailedIn;
    var e := SlotSubmitted(a.slot.slotId, Reported(a));
    OneMore(events, e);
    OneMoreResult(events, e);
    OneAttempt(attempts, a);
    assert DroppedIn(events) + [] == DroppedIn(events);
  }

  lemma TallyReplay(waves: Waves, failed: seq<BuildFailure>, replayed: multiset<SlotId>, events: seq<Event>,
                    attempts: seq<Attempt>, lost: seq<SlotId>, sc: nat, fc: nat, f: BuildFailure)
    requires Tree(waves) && Tallied(waves, failed, replayed, events, attempts, lost, sc, fc)
    ensures Tallied(waves, failed, replayed + multiset(f.dropped), events + [SlotFailed(f.slotId, f.dropped)], attempts, lost, sc, fc)
  {
    hide Tree, ResultsIn, AcceptedResults, Accepted, Refused, DroppedIn, AllDropped, LostBelow, Distinct, SubmittedIn, FailedIn;
    OneMore(events, SlotFailed(f.slotId, f.dropped));
    OneMoreResult(events, SlotFailed(f.slotId, f.dropped));
  }

  lemma TallyNote(waves: Waves, failed: seq<BuildFailure>, replayed: multiset<SlotId>, events: seq<Event>,
                  attempts: seq<Attempt>, lost: seq<SlotId>, sc: nat, fc: nat, e: Event)
    requires Tree(waves) && Tallied(waves, failed, replayed, events, attempts, lost, sc, fc)
    requires !e.SlotSubmitted? && !e.SlotFailed?
    ensures Tallied(waves, failed, replayed, events + [e], attempts, lost, sc, fc)
  {
    hide Tree, ResultsIn, AcceptedResults, Accepted, Refused, DroppedIn, AllDropped, LostBelow, Distinct, SubmittedIn, FailedIn;
    NothingMore(events, e);
    OneMoreResult(events, e);
  }

  /** The build failures of the waves before k. */
  function UpTo(failed: seq<BuildFailure>, k: nat): seq<BuildFailure> {
    if failed == [] then []
    else
      var last := failed[|failed| - 1];
      UpTo(failed[..|failed| - 1], k) + if last.wave < k then [last] else []
  }

  lemma DroppedLast(front: seq<BuildFailure>, f: BuildFailure)
    ensures AllDropped(front + [f]) == AllDropped(front) + f.dropped
  {
    assert (front + [f])[..|front|] == front;
  }

  function AddIf(front: seq<BuildFailure>, f: BuildFailure, b: bool): seq<BuildFailure> {
    front + if b then [f] else []
  }

  lemma AddedIf(front: seq<BuildFailure>, f: BuildFailure, b: bool)
    ensures multiset(AllDropped(AddIf(front, f, b))) ==
            multiset(AllDropped(front)) + if b then multiset(f.dropped) else multiset{}
  {
    DroppedLast(front, f);
    assert front + [] == front;
  }

  lemma {:induction false} UpToNext(failed: seq<BuildFailure>, k: nat)
    ensures multiset(AllDropped(UpTo(failed, k + 1))) ==
            multiset(AllDropped(UpTo(failed, k))) + multiset(AllDropped(InWave(failed, FailureWave, k)))
  {
    if failed != [] {
      var front, last := failed[..|failed| - 1], failed[|failed| - 1];
      var a, b, c := UpTo(front, k + 1), UpTo(front, k), InWave(front, FailureWave, k);
      UpToNext(front, k);
      assert UpTo(failed, k + 1) == AddIf(a, last, last.wave < k + 1);
      assert UpTo(failed, k) == AddIf(b, last, last.wave < k);
      assert InWave(failed, FailureWave, k) == AddIf(c, last, last.wave == k);
      hide UpTo, InWave;
      AddedIf(a, last, last.wave < k + 1);
      AddedIf(b, last, last.wave < k);
      AddedIf(c, last, last.wave == k);
    }
  }

  lemma {:induction false} UpToAll(failed: seq<BuildFailure>, k: nat)
    requires forall i :: 0 <= i < |failed| ==> failed[i].wave < k
    ensures UpTo(failed, k) == failed
  {
    if failed != [] {
      UpToAll(failed[..|failed| - 1], k);
      assert failed == failed[..|failed| - 1] + [failed[|failed| - 1]];
    }
  }

  lemma NothingDroppedYet()
    ensures AllDropped([]) == []
  {
  }

  lemma DroppedStep(failed: seq<BuildFailure>, i: nat)
    requires i < |failed|
    ensures multiset(AllDropped(failed[..i + 1])) == multiset(AllDropped(failed[..i])) + multiset(failed[i].dropped)
  {
    DroppedLast(failed[..i], failed[i]);
    assert failed[..i + 1] == failed[..i] + [failed[i]];
  }

  lemma {:induction false} UpToNone(failed: seq<BuildFailure>)
    ensures UpTo(failed, 0) == []
  {
    if failed != [] {
      UpToNone(failed[..|failed| - 1]);
    }
  }

  // ---- the run ----

  method PositionOf(slots: seq<UnsignedSlot>, slot: UnsignedSlot) returns (idx: nat)
    requires slot in slots
    ensures idx == IndexOf(slots, slot)
  {
    idx := 0;
    assert slots[..|slots|] == slots;
    while slots[idx] != slot
      invariant idx < |slots| && slot !in slots[..idx]
      decreases |slots| - idx
    {
      assert slots[..idx + 1] == slots[..idx] + [slots[idx]];
      idx := idx + 1;
    }
  }

  class BatchRun {
    const batch: UnsignedBatch
    const signed: seq<string>
    var dropped: set<SlotId>
    var submittedCount: nat
    var failedCount: nat
    var submittedThisWave: seq<SlotId>
    var failedThisWave: seq<SlotId>
    var events: seq<Event>
    var attempts: seq<Attempt>
    ghost var met: seq<UnsignedSlot>
    ghost var lost: seq<SlotId>
    ghost var replayed: multiset<SlotId>

    /** The state once the slots in `met` had their turn. */
    ghost predicate At(waves: Waves, submit: (nat, string) -> Option<string>)
      requires Tree(waves)
      reads this
    {
      && |signed| == |batch.slots| && Lined(batch, met)
      && attempts == AttemptsFor(waves, batch, signed, submit, met)
      && dropped == Elements(AllDropped(batch.failed)) + Elements(lost)
      && Tallied(waves, batch.failed, replayed, events, attempts, lost, submittedCount, failedCount)
    }

    /** What the two lists of the wave that began at `mark` have seen. */
    ghost predicate InStep(mark: nat)
      reads `events, `submittedThisWave, `failedThisWave
    {
      mark <= |events| && submittedThisWave == SubmittedIn(events[mark..]) && failedThisWave == FailedIn(events[mark..])
    }

    constructor (batch: UnsignedBatch, signed: seq<string>, ghost waves: Waves, ghost submit: (nat, string) -> Option<string>)
      requires Tree(waves) && GoodBatch(waves, batch) && |signed| == |batch.slots|
      ensures At(waves, submit) && this.batch == batch && this.signed == signed
      ensures met == [] && replayed == multiset{} && events == [] && attempts == []
    {
      this.batch, this.signed := batch, signed;
      dropped := Elements(AllDropped(batch.failed));
      submittedCount, failedCount, submittedThisWave, failedThisWave := 0, |AllDropped(batch.failed)|, [], [];
      events, attempts := [], [];
      met, lost, replayed := [], [], multiset{};
      new;
      assert Elements([]) == {};
      hide GoodBatch, Tree, Below, InPlan, Elements;
    }

    /** The planner's failures of one wave, first (orchestrator.ts:969-978). */
    method Replay(waves: Waves, ghost submit: (nat, string) -> Option<string>, waveFailed: seq<BuildFailure>, ghost mark: nat)
      requires Tree(waves) && At(waves, submit) && InStep(mark)
      modifies `events, `failedThisWave, `replayed
      ensures At(waves, submit) && InStep(mark) && replayed == old(replayed) + multiset(AllDropped(waveFailed))
      ensures old(events) <= events
    {
      hide *;
      assert waveFailed[..0] == [];
      NothingDroppedYet();
      for i := 0 to |waveFailed|
        invariant At(waves, submit) && InStep(mark) && replayed == old(replayed) + multiset(AllDropped(waveFailed[..i]))
        invariant old(events) <= events
      {
        DroppedStep(waveFailed, i);
        ReplayOne(waves, submit, waveFailed[i], mark);
      }
      assert waveFailed[..|waveFailed|] == waveFailed;
    }

    method ReplayOne(waves: Waves, ghost submit: (nat, string) -> Option<string>, f: BuildFailure, ghost mark: nat)
      requires Tree(waves) && At(waves, submit) && InStep(mark)
      modifies `events, `failedThisWave, `replayed
      ensures At(waves, submit) && InStep(mark) && replayed == old(replayed) + multiset(f.dropped)
      ensures events == old(events) + [SlotFailed(f.slotId, f.dropped)]
    {
      hide *;
      AtFacts(waves, submit);
      StepBack(mark);
      TallyReplay(waves, batch.failed, replayed, events, attempts, lost, submittedCount, failedCount, f);
      OneMoreInWave(events, mark, SlotFailed(f.slotId, f.dropped));
      failedThisWave := failedThisWave + [f.slotId];
      events := events + [SlotFailed(f.slotId, f.dropped)];
      replayed := replayed + multiset(f.dropped);
      AtHolds(waves, submit);
      StepHolds(mark);
    }

    /** One slot's submission (orchestrator.ts:980-1030). */
    method SendSlot(waves: Waves, submit: (nat, string) -> Option<string>, slot: UnsignedSlot, ghost mark: nat)
      requires Tree(waves) && GoodBatch(waves, batch) && At(waves, submit) && InStep(mark)
      requires Lined(batch, met + [slot])
      modifies this
      ensures At(waves, submit) && InStep(mark) && met == old(met) + [slot] && replayed == old(replayed)
      ensures old(events) <= events
    {
      hide *;
      AtFacts(waves, submit);
      InLine(batch, met, slot);
      BuiltIsNotDropped(batch, slot, waves);
      var x := slot.slotId;
      NextSend(waves, batch, signed, submit, met, slot);
      DroppedMeans(waves, batch, attempts, dropped, lost, x);
      if x in dropped {
        Skip(waves, submit, slot, mark);
        return;
      }
      var idx := PositionOf(batch.slots, slot);
      var a := Attempt(slot, signed[idx], submit(|attempts|, signed[idx]));
      if a.answer.None? {
        Refuse(waves, submit, a, mark);
      } else {
        Accept(waves, submit, a, mark);
      }
    }

    ghost method Skip(waves: Waves, submit: (nat, string) -> Option<string>, slot: UnsignedSlot, mark: nat)
      requires Tree(waves) && At(waves, submit) && InStep(mark)
      requires Lined(batch, met + [slot]) && |signed| == |batch.slots| && forall s :: s in met + [slot] ==> s in batch.slots
      requires AttemptsFor(waves, batch, signed, submit, met + [slot]) == attempts
      modifies `met
      ensures At(waves, submit) && InStep(mark) && met == old(met) + [slot]
    {
      hide *;
      AtFacts(waves, submit);
      StepBack(mark);
      met := met + [slot];
      AtHolds(waves, submit);
      StepHolds(mark);
    }

    /** A refused submission, with everything below it (orchestrator.ts:995-1013). */
    method Refuse(waves: Waves, ghost submit: (nat, string) -> Option<string>, a: Attempt, ghost mark: nat)
      requires Tree(waves) && GoodBatch(waves, batch) && At(waves, submit) && InStep(mark) && a.answer.None?
      requires Lined(batch, met + [a.slot]) && |signed| == |batch.slots| && forall s :: s in met + [a.slot] ==> s in batch.slots
      requires AttemptsFor(waves, batch, signed, submit, met + [a.slot]) == attempts + [a]
      requires InPlan(waves, a.slot.slotId) && !LostTo(waves, Refused(attempts), a.slot.slotId)
      modifies this
      ensures At(waves, submit) && InStep(mark) && met == old(met) + [a.slot] && replayed == old(replayed)
      ensures old(events) <= events
    {
      hide *;
      AtFacts(waves, submit);
      StepBack(mark);
      var x := a.slot.slotId;
      var cascade := Descendants(waves, x);
      CascadeNotLost(waves, batch, signed, submit, met, a.slot, attempts, lost, cascade);
      TallyRefused(waves, batch.failed, replayed, events, attempts, lost, submittedCount, failedCount, a, cascade);
      OneMoreInWave(events, mark, SlotFailed(x, cascade));
      MoreLost(lost, cascade);
      dropped := dropped + Elements(cascade);
      failedCount := failedCount + |cascade|;
      failedThisWave := failedThisWave + [x];
      events := events + [SlotFailed(x, cascade)];
      lost := lost + cascade;
      attempts := attempts + [a];
      met := met + [a.slot];
      AtHolds(waves, submit);
      StepHolds(mark);
    }

    /** An accepted submission (orchestrator.ts:1015-1029). */
    method Accept(waves: Waves, ghost submit: (nat, string) -> Option<string>, a: Attempt, ghost mark: nat)
      requires Tree(waves) && At(waves, submit) && InStep(mark) && a.answer.Some?
      requires Lined(batch, met + [a.slot]) && |signed| == |batch.slots| && forall s :: s in met + [a.slot] ==> s in batch.slots
      requires AttemptsFor(waves, batch, signed, submit, met + [a.slot]) == attempts + [a]
      modifies this
      ensures At(waves, submit) && InStep(mark) && met == old(met) + [a.slot] && replayed == old(replayed)
      ensures old(events) <= events
    {
      hide *;
      AtFacts(waves, submit);
      StepBack(mark);
      var x, r := a.slot.slotId, Reported(a);
      TallyAccepted(waves, batch.failed, replayed, events, attempts, lost, submittedCount, failedCount, a);
      OneMoreInWave(events, mark, SlotSubmitted(x, r));
      submittedCount := submittedCount + 1;
      submittedThisWave := submittedThisWave + [x];
      events := events + [SlotSubmitted(x, r)];
      attempts := attempts + [a];
      met := met + [a.slot];
      AtHolds(waves, submit);
      StepHolds(mark);
    }

    lemma AtFacts(waves: Waves, submit: (nat, string) -> Option<string>)
      requires Tree(waves) && At(waves, submit)
      ensures |signed| == |batch.slots| && Lined(batch, met) && forall s :: s in met ==> s in batch.slots
      ensures attempts == AttemptsFor(waves, batch, signed, submit, met)
      ensures dropped == Elements(AllDropped(batch.failed)) + Elements(lost)
      ensures Tallied(waves, batch.failed, replayed, events, attempts, lost, submittedCount, failedCount)
      ensures LostBelow(waves, lost, Refused(attempts))
    {
    }

    lemma AtHolds(waves: Waves, submit: (nat, string) -> Option<string>)
      requires Tree(waves) && |signed| == |batch.slots| && Lined(batch, met) && forall s :: s in met ==> s in batch.slots
      requires attempts == AttemptsFor(waves, batch, signed, submit, met)
      requires dropped == Elements(AllDropped(batch.failed)) + Elements(lost)
      requires Tallied(waves, batch.failed, replayed, events, attempts, lost, submittedCount, failedCount)
      ensures At(waves, submit)
    {
    }

    lemma StepBack(mark: nat)
      requires InStep(mark)
      ensures mark <= |events| && submittedThisWave == SubmittedIn(events[mark..]) && failedThisWave == FailedIn(events[mark..])
    {
    }

    lemma StepHolds(mark: nat)
      requires mark <= |events| && submittedThisWave == SubmittedIn(events[mark..]) && failedThisWave == FailedIn(events[mark..])
      ensures InStep(mark)
    {
    }

    /** The wave's slots in order. */
    method SendSlots(waves: Waves, submit: (nat, string) -> Option<string>, slots: seq<UnsignedSlot>, ghost mark: nat)
      requires Tree(waves) && GoodBatch(waves, batch) && At(waves, submit) && InStep(mark)
      requires Lined(batch, met + slots)
      modifies this
      ensures At(waves, submit) && InStep(mark) && met == old(met) + slots && replayed == old(replayed)
      ensures old(events) <= events
    {
      hide *;
      ghost var all := met + slots;
      for i := 0 to |slots|
        invariant At(waves, submit) && InStep(mark) && replayed == old(replayed)
        invariant met == all[..|old(met)| + i] && old(events) <= events
      {
        PrefixIsLined(batch, all, |old(met)| + i + 1);
        assert all[..|old(met)| + i + 1] == met + [slots[i]];
        SendSlot(waves, submit, slots[i], mark);
      }
    }

    /** A wave event joins the stream. */
    method Note(waves: Waves, ghost submit: (nat, string) -> Option<string>, e: Event)
      requires Tree(waves) && At(waves, submit) && !e.SlotSubmitted? && !e.SlotFailed?
      modifies `events
      ensures At(waves, submit) && events == old(events) + [e]
    {
      hide Lined, Tallied, AttemptsFor, Tree, Elements, AllDropped;
      TallyNote(waves, batch.failed, replayed, events, attempts, lost, submittedCount, failedCount, e);
      events := events + [e];
    }

    /** One wave (orchestrator.ts:959-1038), its report kept in two lists on the way. */
    method RunWave(waves: Waves, submit: (nat, string) -> Option<string>, k: nat, waveSlots: seq<UnsignedSlot>, waveFailed: seq<BuildFailure>)
      requires Tree(waves) && GoodBatch(waves, batch) && At(waves, submit)
      requires waveSlots == InWave(batch.slots, SlotWave, k) && waveFailed == InWave(batch.failed, FailureWave, k)
      requires met == InOrder(batch.slots, k) && replayed == multiset(AllDropped(UpTo(batch.failed, k)))
      modifies this
      ensures At(waves, submit)
      ensures met == InOrder(batch.slots, k + 1) && replayed == multiset(AllDropped(UpTo(batch.failed, k + 1)))
      ensures old(events) <= events
      ensures WaveReported(events[|old(events)|..], k, |waveSlots|)
    {
      hide *;
      UpToNext(batch.failed, k);
      InOrderNext(batch.slots, k);
      InOrderLined(waves, batch, k + 1);
      ghost var mark := |events|;
      Note(waves, submit, WaveStarted(k, |waveSlots|));
      ghost var begun := events;
      AtFacts(waves, submit);
      submittedThisWave, failedThisWave := [], [];
      WaveBegins(events, mark);
      StepHolds(mark);
      AtHolds(waves, submit);
      Replay(waves, submit, waveFailed, mark);
      SendSlots(waves, submit, waveSlots, mark);
      StepBack(mark);
      var report := WaveCompleted(k, submittedThisWave, failedThisWave);
      OneMoreInWave(events, mark, report);
      Note(waves, submit, report);
      assert events[mark..][0] == begun[mark];
      WaveIsReported(events[mark..], k, |waveSlots|);
    }
  }

  lemma WaveIsReported(part: seq<Event>, k: nat, slotCount: nat)
    requires |part| >= 2 && part[0] == WaveStarted(k, slotCount)
    requires part[|part| - 1] == WaveCompleted(k, SubmittedIn(part), FailedIn(part))
    ensures WaveReported(part, k, slotCount)
  {
  }

  /** How many built slots each wave has, up to the last wave with a slot or a failure. */
  function BuiltCounts(batch: UnsignedBatch): seq<nat> {
    seq(WaveCount(batch), k requires 0 <= k < WaveCount(batch) => |InWave(batch.slots, SlotWave, k)|)
  }

  function WaveCount(batch: UnsignedBatch): nat {
    var s, f := LastWave(batch.slots, SlotWave), LastWave(batch.failed, FailureWave);
    1 + if s > f then s else f
  }

  lemma WaveCountIs(batch: UnsignedBatch)
    ensures var s, f := LastWave(batch.slots, SlotWave), LastWave(batch.failed, FailureWave);
            WaveCount(batch) == 1 + (if s > f then s else f) && s >= -1 && f >= -1
  {
  }

  lemma CountsMore(batch: UnsignedBatch, k: nat)
    requires k < WaveCount(batch)
    ensures |BuiltCounts(batch)| == WaveCount(batch)
    ensures BuiltCounts(batch)[..k + 1] == BuiltCounts(batch)[..k] + [|InWave(batch.slots, SlotWave, k)|]
  {
    hide InWave, WaveCount;
  }

  lemma AllCounts(batch: UnsignedBatch)
    ensures |BuiltCounts(batch)| == WaveCount(batch) && BuiltCounts(batch)[..0] == []
    ensures BuiltCounts(batch)[..WaveCount(batch)] == BuiltCounts(batch)
  {
    hide InWave, WaveCount;
  }

  lemma InLine(batch: UnsignedBatch, order: seq<UnsignedSlot>, s: UnsignedSlot)
    requires Lined(batch, order + [s])
    ensures s in batch.slots && forall x :: x in order + [s] ==> x in batch.slots
  {
    assert (order + [s])[|order|] == s;
  }

  /** The submission a run makes, or does not make, for the next slot. */
  lemma NextSend(waves: Waves, batch: UnsignedBatch, signed: seq<string>, submit: (nat, string) -> Option<string>,
                 order: seq<UnsignedSlot>, s: UnsignedSlot)
    requires Tree(waves) && |signed| == |batch.slots| && forall x :: x in order + [s] ==> x in batch.slots
    requires s in batch.slots && forall x :: x in order ==> x in batch.slots
    ensures var before := AttemptsFor(waves, batch, signed, submit, order);
            AttemptsFor(waves, batch, signed, submit, order + [s]) ==
            if s.slotId in AllDropped(batch.failed) || LostTo(waves, Refused(before), s.slotId) then before
            else before + [Attempt(s, signed[IndexOf(batch.slots, s)], submit(|before|, signed[IndexOf(batch.slots, s)]))]
  {
    assert (order + [s])[..|order|] == order;
    hide Tree, LostTo, IndexOf;
  }

  lemma DroppedMeans(waves: Waves, batch: UnsignedBatch, attempts: seq<Attempt>, dropped: set<SlotId>, lost: seq<SlotId>, x: SlotId)
    requires Tree(waves) && LostBelow(waves, lost, Refused(attempts))
    requires dropped == Elements(AllDropped(batch.failed)) + Elements(lost)
    ensures x in dropped <==> x in AllDropped(batch.failed) || LostTo(waves, Refused(attempts), x)
  {
    hide Tree, LostTo, AllDropped, Refused;
  }

  lemma CascadeNotLost(waves: Waves, batch: UnsignedBatch, signed: seq<string>, submit: (nat, string) -> Option<string>,
                     order: seq<UnsignedSlot>, s: UnsignedSlot, attempts: seq<Attempt>, lost: seq<SlotId>, cascade: seq<SlotId>)
    requires Tree(waves) && GoodBatch(waves, batch) && |signed| == |batch.slots|
    requires Lined(batch, order) && Lined(batch, order + [s]) && InPlan(waves, s.slotId)
    requires attempts == AttemptsFor(waves, batch, signed, submit, order)
    requires LostBelow(waves, lost, Refused(attempts)) && !LostTo(waves, Refused(attempts), s.slotId)
    requires Cascade(waves, s.slotId, cascade)
    ensures forall x :: x in cascade ==> x !in lost
  {
    RunIsSending(waves, batch, signed, submit, order);
    forall x | x in cascade ensures x !in lost {
      RefusalIsNew(waves, batch, order, s, Refused(attempts), x);
    }
  }

  lemma MoreLost(lost: seq<SlotId>, cascade: seq<SlotId>)
    ensures Elements(lost + cascade) == Elements(lost) + Elements(cascade)
  {
  }

  // ---- the whole submission ----

  /** The wallet is not asked when nothing was built (orchestrator.ts:938-943). */
  function Signatures(batch: UnsignedBatch, signTxs: seq<string> -> Option<seq<string>>): Option<seq<string>> {
    if batch.slots == [] then Some([])
    else signTxs(seq(|batch.slots|, i requires 0 <= i < |batch.slots| => batch.slots[i].result.unsignedTx))
  }

  /** submitFanoutBatch (orchestrator.ts:908-1045). Signing and submission may fail in any pattern. The
      submissions are exactly those the batch, the signatures and the answers call for; accepted slots are
      reported in order with their results; every cascade is reported; and the closing counts are the
      accepted slots and all cascades together, so they exceed the plan by the slots that a build failure
      and a refusal both dropped. */
  method SubmitFanoutBatch(waves: Waves, batch: UnsignedBatch, canSign: bool, signTxs: seq<string> -> Option<seq<string>>,
                           submit: (nat, string) -> Option<string>)
    returns (r: Result<seq<Event>, BatchError>, attempts: seq<Attempt>)
    requires Tree(waves) && GoodBatch(waves, batch)
    ensures r == Err(NoBatchSigning) <==> !canSign
    ensures r == Err(Rejected) <==> canSign && Signatures(batch, signTxs).None?
    ensures r == Err(WrongCount) <==> canSign && Signatures(batch, signTxs).Some? && |Signatures(batch, signTxs).value| != |batch.slots|
    ensures r.Err? ==> attempts == []
    ensures r.Ok? ==>
              && attempts == Sends(waves, batch, Signatures(batch, signTxs).value, submit)
              && Outcome(waves, batch, attempts)
              && var events := r.value;
                 && ResultsIn(events) == AcceptedResults(attempts)
                 && multiset(DroppedIn(events)) == multiset(AllDropped(batch.failed)) + multiset(Lost(waves, Refused(attempts)))
                 && events != []
                 && Streamed(events[..|events| - 1], BuiltCounts(batch))
                 && events[|events| - 1] ==
                    PlanCompleted(|Accepted(attempts)|, |AllDropped(batch.failed)| + |Lost(waves, Refused(attempts))|)
  {
    hide *;
    attempts := [];
    if !canSign {
      return Err(NoBatchSigning), attempts;
    }
    var slotsByWave, lastSlotWave := GroupByWave(batch.slots, SlotWave);
    var failedByWave, lastFailedWave := GroupByWave(batch.failed, FailureWave);
    var maxWave := if lastSlotWave > lastFailedWave then lastSlotWave else lastFailedWave;
    var signatures := Signatures(batch, signTxs);
    if signatures.None? {
      return Err(Rejected), attempts;
    }
    if |signatures.value| != |batch.slots| {
      return Err(WrongCount), attempts;
    }
    WaveCountIs(batch);
    var events, made := Send(waves, batch, signatures.value, slotsByWave, failedByWave, maxWave, submit);
    r, attempts := Ok(events), made;
  }

  /** The waves in order, once everything is signed (orchestrator.ts:952-1044). */
  method Send(waves: Waves, batch: UnsignedBatch, signed: seq<string>, slotsByWave: map<nat, seq<UnsignedSlot>>,
              failedByWave: map<nat, seq<BuildFailure>>, maxWave: int, submit: (nat, string) -> Option<string>)
    returns (events: seq<Event>, attempts: seq<Attempt>)
    requires Tree(waves) && GoodBatch(waves, batch) && |signed| == |batch.slots| && maxWave >= -1
    requires forall k: nat :: Group(slotsByWave, k) == InWave(batch.slots, SlotWave, k)
    requires forall k: nat :: Group(failedByWave, k) == InWave(batch.failed, FailureWave, k)
    requires maxWave + 1 == WaveCount(batch)
    ensures attempts == Sends(waves, batch, signed, submit) && Outcome(waves, batch, attempts)
    ensures ResultsIn(events) == AcceptedResults(attempts)
    ensures multiset(DroppedIn(events)) == multiset(AllDropped(batch.failed)) + multiset(Lost(waves, Refused(attempts)))
    ensures events != [] && Streamed(events[..|events| - 1], BuiltCounts(batch))
    ensures events[|events| - 1] == PlanCompleted(|Accepted(attempts)|, |AllDropped(batch.failed)| + |Lost(waves, Refused(attempts))|)
  {
    hide *;
    var run := new BatchRun(batch, signed, waves, submit);
    NothingBuiltYet(batch);
    NothingStreamed();
    AllCounts(batch);
    for k := 0 to maxWave + 1
      invariant run.At(waves, submit) && run.batch == batch && run.signed == signed
      invariant run.met == InOrder(batch.slots, k) && run.replayed == multiset(AllDropped(UpTo(batch.failed, k)))
      invariant Streamed(run.events, BuiltCounts(batch)[..k])
    {
      ghost var before := run.events;
      run.RunWave(waves, submit, k, Group(slotsByWave, k), Group(failedByWave, k));
      CountsMore(batch, k);
      StreamGrows(before, run.events, BuiltCounts(batch)[..k], |Group(slotsByWave, k)|);
    }
    run.AtFacts(waves, submit);
    attempts := run.attempts;
    WavesCover(batch);
    AllMet(waves, batch, maxWave + 1);
    SendsAre(waves, batch, signed, submit);
    EveryRunSettles(waves, batch, signed, submit);
    Closing(waves, batch, run.replayed, run.events, attempts, run.lost, run.submittedCount, run.failedCount);
    var done := PlanCompleted(run.submittedCount, run.failedCount);
    NothingMore(run.events, done);
    OneMoreResult(run.events, done);
    assert (run.events + [done])[..|run.events|] == run.events;
    events := run.events + [done];
  }

  lemma NothingBuiltYet(batch: UnsignedBatch)
    ensures InOrder(batch.slots, 0) == [] && AllDropped(UpTo(batch.failed, 0)) == []
  {
    UpToNone(batch.failed);
  }

  /** After the last wave that has anything, every wave is done. */
  lemma WavesCover(batch: UnsignedBatch)
    ensures forall i :: 0 <= i < |batch.slots| ==> SlotWave(batch.slots[i]) < WaveCount(batch)
    ensures forall i :: 0 <= i < |batch.failed| ==> FailureWave(batch.failed[i]) < WaveCount(batch)
  {
  }

  lemma AllMet(waves: Waves, batch: UnsignedBatch, n: nat)
    requires Tree(waves) && GoodBatch(waves, batch)
    requires forall i :: 0 <= i < |batch.slots| ==> SlotWave(batch.slots[i]) < n
    requires forall i :: 0 <= i < |batch.failed| ==> FailureWave(batch.failed[i]) < n
    ensures InOrder(batch.slots, n) == InOrder(batch.slots, |waves|) && UpTo(batch.failed, n) == batch.failed
  {
    UpToAll(batch.failed, n);
    forall i | 0 <= i < |batch.slots| ensures batch.slots[i].wave < |waves| {
      BuiltIsNotDropped(batch, batch.slots[i], waves);
    }
    hide Tree, GoodBatch, InOrder, UpTo, AllDropped, SlotIds;
    if n <= |waves| {
      InOrderStops(batch.slots, n, |waves|);
    } else {
      InOrderStops(batch.slots, |waves|, n);
    }
  }

  lemma Closing(waves: Waves, batch: UnsignedBatch, replayed: multiset<SlotId>, events: seq<Event>, attempts: seq<Attempt>,
                lost: seq<SlotId>, sc: nat, fc: nat)
    requires Tree(waves) && Outcome(waves, batch, attempts)
    requires Tallied(waves, batch.failed, replayed, events, attempts, lost, sc, fc)
    requires replayed == multiset(AllDropped(batch.failed))
    ensures ResultsIn(events) == AcceptedResults(attempts)
    ensures sc == |Accepted(attempts)| && fc == |AllDropped(batch.failed)| + |Lost(waves, Refused(attempts))|
    ensures multiset(DroppedIn(events)) == multiset(AllDropped(batch.failed)) + multiset(Lost(waves, Refused(attempts)))
  {
    AllIdsAre(waves);
    DistinctSize(lost);
    hide Tree, InPlan, LostTo, AllIds, Accepted, AllDropped, Refused, Distinct;
    assert Elements(lost) == Lost(waves, Refused(attempts));
  }

  // ---- the closing counts ----

  lemma DistinctSize(xs: seq<SlotId>)
    requires Distinct(xs)
    ensures |Elements(xs)| == |xs| && multiset(Elements(xs)) == multiset(xs)
  {
    SetOfSeq(xs);
    DistinctFits(xs, Elements(xs));
    DistinctCounts(xs);
  }

  lemma {:induction false} DistinctCounts(xs: seq<SlotId>)
    requires Distinct(xs)
    ensures multiset(Elements(xs)) == multiset(xs)
  {
    if xs != [] {
      var front, last := xs[..|xs| - 1], xs[|xs| - 1];
      DistinctCounts(front);
      assert xs == front + [last];
      assert last !in front;
      assert Elements(xs) == Elements(front) + {last};
    }
  }

  lemma DroppedDistinct(waves: Waves, batch: UnsignedBatch)
    requires Tree(waves) && GoodBatch(waves, batch)
    ensures Distinct(AllDropped(batch.failed))
  {
    var xs, ys := SlotIds(batch.slots), AllDropped(batch.failed);
    forall i, j | 0 <= i < j < |ys| ensures ys[i] != ys[j] {
      assert (xs + ys)[|xs| + i] == ys[i] && (xs + ys)[|xs| + j] == ys[j];
    }
  }

  /** What the closing event counts: accepted slots, the builder's cascades, and the slots refusals drop. */
  ghost function Counted(waves: Waves, batch: UnsignedBatch, attempts: seq<Attempt>): nat
    requires Tree(waves)
  {
    |Accepted(attempts)| + (|AllDropped(batch.failed)| + |Lost(waves, Refused(attempts))|)
  }

  /** The two closing counts exceed the number of slots by exactly the slots dropped twice. */
  lemma CountsExceedByOverlap(waves: Waves, batch: UnsignedBatch, attempts: seq<Attempt>)
    requires Tree(waves) && GoodBatch(waves, batch) && Outcome(waves, batch, attempts)
    ensures Counted(waves, batch, attempts) ==
            SlotTotal(waves) + |Elements(AllDropped(batch.failed)) * Lost(waves, Refused(attempts))|
  {
    DroppedDistinct(waves, batch);
    AllIdsAre(waves);
    hide Tree, GoodBatch, LostTo, InPlan, AllIds, Distinct, Accepted, AllDropped, Refused, Elements;
    Overlap(Accepted(attempts), AllDropped(batch.failed), Lost(waves, Refused(attempts)), AllIds(waves));
  }

  lemma Overlap(a: seq<SlotId>, b: seq<SlotId>, c: set<SlotId>, all: seq<SlotId>)
    requires Distinct(a) && Distinct(b) && Distinct(all)
    requires forall x :: x in all <==> x in a || x in b || x in c
    requires forall x :: x in a ==> x !in b && x !in c
    ensures |a| + (|b| + |c|) == |all| + |Elements(b) * c|
  {
    DistinctSize(a);
    DistinctSize(b);
    DistinctSize(all);
    hide Distinct;
    var bc := Elements(b) + c;
    assert Elements(all) == Elements(a) + bc;
    assert Elements(a) !! bc;
    assert |bc| == |Elements(b)| + |c| - |Elements(b) * c|;
  }

  /** A slot whose submission was refused has a build failure below it. */
  ghost predicate FailureBelow(waves: Waves, batch: UnsignedBatch, tops: seq<SlotId>)
    requires Tree(waves)
  {
    exists f, i :: f in tops && 0 <= i < |batch.failed| && Below(waves, batch.failed[i].slotId, f)
  }

  /** A slot is dropped by the builder and by a refusal exactly when a build failure lies below a refused slot. */
  lemma OverlapIff(waves: Waves, batch: UnsignedBatch, refused: seq<SlotId>)
    requires Tree(waves) && GoodBatch(waves, batch) && forall f :: f in refused ==> f in SlotIds(batch.slots)
    ensures (exists x :: LostTo(waves, refused, x) && x in AllDropped(batch.failed)) <==> FailureBelow(waves, batch, refused)
  {
    if x :| LostTo(waves, refused, x) && x in AllDropped(batch.failed) {
      var f :| f in refused && Below(waves, x, f);
      DroppedBelow(waves, batch.failed, x);
      var i :| 0 <= i < |batch.failed| && Below(waves, x, batch.failed[i].slotId);
      NotDropped(batch, f);
      DroppedBelow(waves, batch.failed, f);
      assert InPlan(waves, x) by {
        assert x in SlotIds(batch.slots) + AllDropped(batch.failed);
      }
      OneChain(waves, x, f, batch.failed[i].slotId);
      assert Below(waves, batch.failed[i].slotId, f);
    }
    if f, i :| f in refused && 0 <= i < |batch.failed| && Below(waves, batch.failed[i].slotId, f) {
      var x := batch.failed[i].slotId;
      DroppedBelow(waves, batch.failed, x);
      BelowItself(waves, x);
      assert LostTo(waves, refused, x) && x in AllDropped(batch.failed);
    }
  }

  /** The counts add up to the plan exactly when no build failure lies below a refused slot. */
  lemma CountsAddUpIff(waves: Waves, batch: UnsignedBatch, attempts: seq<Attempt>)
    requires Tree(waves) && GoodBatch(waves, batch) && Outcome(waves, batch, attempts)
    ensures Counted(waves, batch, attempts) == SlotTotal(waves) <==> !FailureBelow(waves, batch, Refused(attempts))
  {
    hide *;
    CountsExceedByOverlap(waves, batch, attempts);
    RefusedInSlots(waves, batch, attempts);
    OverlapIff(waves, batch, Refused(attempts));
    SharedIff(waves, batch, Refused(attempts));
  }

  lemma RefusedInSlots(waves: Waves, batch: UnsignedBatch, attempts: seq<Attempt>)
    requires Tree(waves) && Outcome(waves, batch, attempts)
    ensures forall f :: f in Refused(attempts) ==> f in SlotIds(batch.slots)
  {
  }

  lemma SharedIff(waves: Waves, batch: UnsignedBatch, refused: seq<SlotId>)
    requires Tree(waves) && GoodBatch(waves, batch)
    ensures |Elements(AllDropped(batch.failed)) * Lost(waves, refused)| != 0 <==>
            exists x :: LostTo(waves, refused, x) && x in AllDropped(batch.failed)
  {
    var both := Elements(AllDropped(batch.failed)) * Lost(waves, refused);
    AllIdsAre(waves);
    if x :| LostTo(waves, refused, x) && x in AllDropped(batch.failed) {
      assert InPlan(waves, x) by {
        assert x in SlotIds(batch.slots) + AllDropped(batch.failed);
      }
      assert x in both;
    }
    hide GoodBatch, LostTo, AllIds, AllDropped;
    if both != {} {
      var x :| x in both;
      assert LostTo(waves, refused, x) && x in AllDropped(batch.failed);
    }
  }

  // ---- before anything is submitted ----

  /** Before anything is submitted: the counts add up under every pattern of answers if and only if no
      failed slot of the batch lies below a built one. */
  lemma CountsAlwaysAddUpIff(waves: Waves, batch: UnsignedBatch, signed: seq<string>)
    requires Tree(waves) && GoodBatch(waves, batch) && |signed| == |batch.slots|
    ensures (forall submit: (nat, string) -> Option<string> ::
               Counted(waves, batch, Sends(waves, batch, signed, submit)) == SlotTotal(waves)) <==>
            !FailureBelow(waves, batch, SlotIds(batch.slots))
  {
    hide *;
    forall submit: (nat, string) -> Option<string> | !FailureBelow(waves, batch, SlotIds(batch.slots))
      ensures Counted(waves, batch, Sends(waves, batch, signed, submit)) == SlotTotal(waves)
    {
      var attempts := Sends(waves, batch, signed, submit);
      EveryRunSettles(waves, batch, signed, submit);
      RefusedInSlots(waves, batch, attempts);
      FewerTops(waves, batch, Refused(attempts), SlotIds(batch.slots));
      CountsAddUpIff(waves, batch, attempts);
    }
    if FailureBelow(waves, batch, SlotIds(batch.slots)) {
      var refuse: (nat, string) -> Option<string> := (_, _) => None;
      var attempts := Sends(waves, batch, signed, refuse);
      EveryRunSettles(waves, batch, signed, refuse);
      RefuseAll(waves, batch, signed, refuse);
      CountsAddUpIff(waves, batch, attempts);
      assert Counted(waves, batch, Sends(waves, batch, signed, refuse)) != SlotTotal(waves);
    }
  }

  lemma FewerTops(waves: Waves, batch: UnsignedBatch, tops: seq<SlotId>, more: seq<SlotId>)
    requires Tree(waves) && forall f :: f in tops ==> f in more
    ensures FailureBelow(waves, batch, tops) ==> FailureBelow(waves, batch, more)
  {
    hide Tree, Below;
  }

  /** When everything is refused, a build failure below a built slot lies below a refused one. */
  lemma RefuseAll(waves: Waves, batch: UnsignedBatch, signed: seq<string>, refuse: (nat, string) -> Option<string>)
    requires Tree(waves) && GoodBatch(waves, batch) && |signed| == |batch.slots|
    requires forall i, tx :: refuse(i, tx) == None
    requires FailureBelow(waves, batch, SlotIds(batch.slots))
    ensures FailureBelow(waves, batch, Refused(Sends(waves, batch, signed, refuse)))
  {
    var attempts := Sends(waves, batch, signed, refuse);
    SendsAre(waves, batch, signed, refuse);
    NothingAccepted(waves, batch, signed, refuse, InOrder(batch.slots, |waves|));
    EveryRunSettles(waves, batch, signed, refuse);
    var f, i :| f in SlotIds(batch.slots) && 0 <= i < |batch.failed| && Below(waves, batch.failed[i].slotId, f);
    var x := batch.failed[i].slotId;
    hide Sends, AttemptsFor;
    NotDropped(batch, f);
    assert InPlan(waves, f) by {
      assert f in SlotIds(batch.slots) + AllDropped(batch.failed);
    }
    assert LostTo(waves, Refused(attempts), f);
    var g :| g in Refused(attempts) && Below(waves, f, g);
    if x != f {
      BelowBelow(waves, x, f, g);
    }
    assert Below(waves, x, g);
  }

  lemma {:induction false} NothingAccepted(waves: Waves, batch: UnsignedBatch, signed: seq<string>, refuse: (nat, string) -> Option<string>,
                                           order: seq<UnsignedSlot>)
    requires Tree(waves) && |signed| == |batch.slots| && forall s :: s in order ==> s in batch.slots
    requires forall i, tx :: refuse(i, tx) == None
    ensures Accepted(AttemptsFor(waves, batch, signed, refuse, order)) == []
  {
    if order != [] {
      var s := order[|order| - 1];
      var before := AttemptsFor(waves, batch, signed, refuse, order[..|order| - 1]);
      NothingAccepted(waves, batch, signed, refuse, order[..|order| - 1]);
      var tx := signed[IndexOf(batch.slots, s)];
      OneAttempt(before, Attempt(s, tx, refuse(|before|, tx)));
    }
  }

  // ---- the counts do go wrong ----

  const TOP := SlotId(0, 0)

  const LEFT := SlotId(1, 0)

  const RIGHT := SlotId(1, 1)

  /** One slot and its two children. */
  function ThreeSlots(): (waves: Waves)
    ensures |waves| == 2 && |waves[0]| == 1 && |waves[1]| == 2
  {
    [[Slot(TOP, [Root(Select.PoolEntry(Refs.UtxoRef("", 0), "", ""))])],
     [Slot(LEFT, [Parent(TOP, 0)]), Slot(RIGHT, [Parent(TOP, 1)])]]
  }

  lemma ThreeSlotsAreATree()
    ensures Tree(ThreeSlots())
    ensures forall x :: InPlan(ThreeSlots(), x) <==> x == TOP || x == LEFT || x == RIGHT
    ensures ParentOf(ThreeSlots(), LEFT) == TOP && ParentOf(ThreeSlots(), RIGHT) == TOP
  {
    var waves := ThreeSlots();
    forall x: SlotId | InPlan(waves, x) ensures Rooted(waves, x) {
      assert x == TOP || x == LEFT || x == RIGHT;
    }
  }

  lemma ThreeSlotsBelow()
    requires Tree(ThreeSlots())
    ensures forall x :: Below(ThreeSlots(), x, LEFT) <==> x == LEFT
    ensures forall x :: Below(ThreeSlots(), x, TOP) <==> x == TOP || x == LEFT || x == RIGHT
  {
    ThreeSlotsAreATree();
    var waves := ThreeSlots();
    hide ThreeSlots, Tree, InPlan, ParentOf;
    assert Descends(waves, LEFT, TOP) && Descends(waves, RIGHT, TOP);
    assert !Descends(waves, TOP, LEFT) && !Descends(waves, RIGHT, LEFT);
  }

  lemma ThreeSlotTotal()
    ensures SlotTotal(ThreeSlots()) == 3
  {
    var waves := ThreeSlots();
    assert waves[..1][..0] == [] && SlotTotal(waves[..1]) == 1;
  }

  /** A wallet backend that refuses the transaction signed as "top". */
  function RefuseTop(i: nat, tx: string): Option<string> { if tx == "top" then None else Some(tx) }

  /** The root and its right child were built, the left child was not. */
  function LeftMissing(made: MixResult): UnsignedBatch {
    UnsignedBatch([UnsignedSlot(TOP, 0, made), UnsignedSlot(RIGHT, 1, made)], [BuildFailure(LEFT, 1, [LEFT])])
  }

  lemma LeftMissingIsGood(made: MixResult)
    ensures Tree(ThreeSlots()) && GoodBatch(ThreeSlots(), LeftMissing(made)) && AllDropped(LeftMissing(made).failed) == [LEFT]
  {
    ThreeSlotsAreATree();
    ThreeSlotsBelow();
    hide ThreeSlots, Tree, InPlan, Below, ParentOf;
    var batch := LeftMissing(made);
    assert batch.failed[..0] == [] && AllDropped(batch.failed) == [LEFT];
    assert SlotIds(batch.slots) + AllDropped(batch.failed) == [TOP, RIGHT, LEFT];
  }

  lemma LeftMissingOrder(made: MixResult)
    ensures InOrder(LeftMissing(made).slots, 2) == LeftMissing(made).slots
  {
    var slots := LeftMissing(made).slots;
    assert slots[..1] == [slots[0]] && [slots[0]][..0] == [];
    assert InWave([slots[0]], SlotWave, 0) == [slots[0]] && InWave([slots[0]], SlotWave, 1) == [];
    assert InWave(slots, SlotWave, 0) == [slots[0]] && InWave(slots, SlotWave, 1) == [slots[1]];
    assert InOrder(slots, 1) == [slots[0]];
  }

  /** A refused first slot drops the second before its turn. */
  lemma SecondIsDropped(waves: Waves, batch: UnsignedBatch, signed: seq<string>, submit: (nat, string) -> Option<string>,
                        s: UnsignedSlot, s': UnsignedSlot)
    requires Tree(waves) && |signed| == |batch.slots| && batch.slots == [s, s']
    requires s.slotId !in AllDropped(batch.failed) && !LostTo(waves, [], s.slotId) && LostTo(waves, [s.slotId], s'.slotId)
    requires submit(0, signed[0]) == None
    ensures AttemptsFor(waves, batch, signed, submit, [s, s']) == [Attempt(s, signed[0], None)]
  {
    hide Tree, LostTo, AttemptsFor, AllDropped;
    NoAttempts(waves, batch, signed, submit);
    NextSend(waves, batch, signed, submit, [], s);
    assert [] + [s] == [s] && [s] + [s'] == [s, s'];
    var first := Attempt(s, signed[0], None);
    OneAttempt([], first);
    assert [] + [first] == [first] && [] + [s.slotId] == [s.slotId];
    assert IndexOf(batch.slots, s) == 0;
    NextSend(waves, batch, signed, submit, [s], s');
  }

  /** The root is refused, which drops its right child before its turn. */
  lemma LeftMissingSends(made: MixResult)
    requires Tree(ThreeSlots()) && GoodBatch(ThreeSlots(), LeftMissing(made))
    ensures Sends(ThreeSlots(), LeftMissing(made), ["top", "right"], RefuseTop) ==
            [Attempt(LeftMissing(made).slots[0], "top", None)]
  {
    var waves, batch, signed := ThreeSlots(), LeftMissing(made), ["top", "right"];
    LeftMissingOrder(made);
    LeftMissingIsGood(made);
    RightIsBelowTop();
    SendsAre(waves, batch, signed, RefuseTop);
    hide ThreeSlots, Tree, LostTo, GoodBatch, Sends, InOrder, AttemptsFor, AllDropped;
    SecondIsDropped(waves, batch, signed, RefuseTop, batch.slots[0], batch.slots[1]);
  }

  lemma NoAttempts(waves: Waves, batch: UnsignedBatch, signed: seq<string>, submit: (nat, string) -> Option<string>)
    requires Tree(waves) && |signed| == |batch.slots|
    ensures AttemptsFor(waves, batch, signed, submit, []) == []
  {
    hide Tree;
  }

  lemma RightIsBelowTop()
    requires Tree(ThreeSlots())
    ensures LostTo(ThreeSlots(), [TOP], RIGHT) && !LostTo(ThreeSlots(), [], TOP)
  {
    ThreeSlotsBelow();
    hide ThreeSlots, Tree, Below;
    assert TOP in [TOP] && Below(ThreeSlots(), RIGHT, TOP);
  }

  /** One slot was never built; its parent's submission is refused, which also drops its sibling: the run
      makes one submission, and counts four failures for three slots. */
  lemma CountedTwice(made: MixResult)
    ensures Tree(ThreeSlots()) && GoodBatch(ThreeSlots(), LeftMissing(made))
    ensures var attempts := Sends(ThreeSlots(), LeftMissing(made), ["top", "right"], RefuseTop);
            && attempts == [Attempt(LeftMissing(made).slots[0], "top", None)]
            && Counted(ThreeSlots(), LeftMissing(made), attempts) == SlotTotal(ThreeSlots()) + 1
  {
    LeftMissingIsGood(made);
    LeftMissingSends(made);
    ThreeSlotsBelow();
    var waves, batch := ThreeSlots(), LeftMissing(made);
    var attempts := [Attempt(batch.slots[0], "top", None)];
    EveryRunSettles(waves, batch, ["top", "right"], RefuseTop);
    CountsExceedByOverlap(waves, batch, attempts);
    assert attempts[..0] == [] && Refused(attempts) == [TOP];
    LeftIsLost();
    hide ThreeSlots, Tree, GoodBatch, Sends, LostTo, Lost;
    assert Elements(AllDropped(batch.failed)) * Lost(waves, Refused(attempts)) == {LEFT};
  }

  lemma LeftIsLost()
    requires Tree(ThreeSlots())
    ensures LEFT in Lost(ThreeSlots(), [TOP])
  {
    ThreeSlotsAreATree();
    ThreeSlotsBelow();
    AllIdsAre(ThreeSlots());
    hide ThreeSlots, Tree, InPlan, Below, AllIds;
    assert TOP in [TOP] && Below(ThreeSlots(), LEFT, TOP);
  }
}
