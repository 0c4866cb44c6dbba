/** The crash-resumable launch (infra/bootstrap/koios-launch.py:97-129, 381-420, 595-764).

    Everything outside the process is an oracle: every question is numbered, and its answer may be
    anything. One of the questions, asked before each effect, is whether the process dies here: memory
    is lost, the journal and the other files stay. */
module Launch {
  import opened Options

  datatype Stage = Prep | PublishMixBox | PublishMixLogic | PublishFeeContract | Register | Mint

  function Rank(s: Stage): nat {
    match s
    case Prep => 0
    case PublishMixBox => 1
    case PublishMixLogic => 2
    case PublishFeeContract => 3
    case Register => 4
    case Mint => 5
  }

  function StageAt(i: nat): (s: Stage)
    requires i < 6
    ensures Rank(s) == i
  {
    if i == 0 then Prep else if i == 1 then PublishMixBox else if i == 2 then PublishMixLogic
    else if i == 3 then PublishFeeContract else if i == 4 then Register else Mint
  }

  type SignedTx = string

  datatype Record = Record(txid: string, signedSha256: string)

  /** launch-state.json: the stages signed so far, the contract hashes of the first launch that got to
      them, and the lovelace each stage locks at the holder. */
  datatype Journal = Journal(returnAddress: string, stages: map<Stage, Record>, hashes: Option<string>, locked: map<Stage, nat>)

  function LockedFor(j: Journal, s: Stage): Option<nat> { if s in j.locked then Some(j.locked[s]) else None }

  /** The stages with an output at the holder (koios-launch.py:665-669). */
  predicate Locks(s: Stage) { s != Prep && s != Register }

  /** The stages that run a script, and have a budget. */
  predicate Evaluated(s: Stage) { s == Register || s == Mint }

  /** What a launch never changes in the journal: the return address, a signed stage and what it locks,
      and the contract hashes once they are there. */
  ghost predicate Extends(before: Option<Journal>, after: Option<Journal>) {
    before.Some? ==>
      && after.Some? && after.value.returnAddress == before.value.returnAddress
      && (forall s :: s in before.value.stages ==>
            s in after.value.stages && after.value.stages[s] == before.value.stages[s] &&
            LockedFor(after.value, s) == LockedFor(before.value, s))
      && (before.value.hashes.Some? ==> after.value.hashes == before.value.hashes)
  }

  /** Execution units: what a transaction's script is measured to use, or is assigned. */
  datatype Budget = Budget(steps: nat, memory: nat)

  /** `<stage>.evaluation.json`. */
  datatype Receipt = Receipt(txid: string, budget: Budget)

  datatype Outcome = Done | Failed | Killed

  /** What survives the process, and how many questions were asked so far. */
  datatype Disk = Disk(journal: Option<Journal>, files: map<Stage, SignedTx>, receipts: map<Stage, Receipt>, clock: nat)

  /** What the launcher did that matters outside: it wrote a stage into the journal, sent a
      transaction, or was told how many confirmations one has; and where each launch began and ended. */
  datatype Effect =
    | Journaled(stage: Stage, txid: string, locked: Option<nat>)
    | Submitted(stage: Stage, txid: string)
    | Seen(txid: string, confirmations: nat)
    | Began(returnAddress: string, disk: Disk)
    | Ended(outcome: Outcome, disk: Disk)

  /** `built` is the signed transaction of a stage, built when asked for the amount to lock and with the budget
      assigned; `evaluation` measures a transaction when asked (`None`: it raised), `status` counts the
      confirmations of an id, `locksOf` is what the transaction of an id sends to the holder. */
  datatype Oracle = Oracle(
    killed: nat -> bool,
    status: (string, nat) -> nat,
    built: (Stage, nat, Option<nat>, Option<Budget>) -> SignedTx,
    buildOk: nat -> bool,
    submitOk: nat -> bool,
    evaluation: (SignedTx, nat) -> Option<Budget>,
    limits: nat -> Budget,
    polls: nat -> nat,
    checkOk: nat -> bool,
    hashes: nat -> string,
    minUtxo: nat -> nat,
    sha256: SignedTx -> string,
    txIdOf: SignedTx -> string,
    locksOf: string -> Option<nat>)

  // ---- what is safe ----

  /** Before position i, the stage was journaled and its transaction then seen with two confirmations. */
  ghost predicate ConfirmedBefore(trace: seq<Effect>, i: nat, s: Stage)
    requires i <= |trace|
  {
    exists j, k :: 0 <= j < k < i && trace[j].Journaled? && trace[j].stage == s &&
                   trace[k].Seen? && trace[k].txid == trace[j].txid && trace[k].confirmations >= 2
  }

  ghost predicate JournaledBefore(trace: seq<Effect>, i: nat, s: Stage, txid: string)
    requires i <= |trace|
  {
    exists j :: 0 <= j < i && trace[j].Journaled? && trace[j].stage == s && trace[j].txid == txid
  }

  ghost predicate Previous(p: Stage, s: Stage) { Rank(p) + 1 == Rank(s) }

  /** What holds of everything done so far and of the journal on disk. */
  ghost predicate Safe(trace: seq<Effect>, journal: Option<Journal>) {
    && (forall i :: 0 <= i < |trace| && trace[i].Journaled? ==>
          journal.Some? && trace[i].stage in journal.value.stages && journal.value.stages[trace[i].stage].txid == trace[i].txid &&
          LockedFor(journal.value, trace[i].stage) == trace[i].locked)
    && (journal.Some? ==> forall s :: s in journal.value.stages ==> JournaledBefore(trace, |trace|, s, journal.value.stages[s].txid))
    && (forall i, j :: 0 <= i < j < |trace| && trace[i].Journaled? && trace[j].Journaled? ==> trace[i].stage != trace[j].stage)
    && (forall i :: 0 <= i < |trace| && trace[i].Submitted? ==> JournaledBefore(trace, i, trace[i].stage, trace[i].txid))
    && (forall i, p :: 0 <= i < |trace| && trace[i].Journaled? && Previous(p, trace[i].stage) ==> ConfirmedBefore(trace, i, p))
    && (forall i, s :: 0 <= i < |trace| && trace[i].Ended? && trace[i].outcome == Done ==> ConfirmedBefore(trace, i, s))
  }

  /** The builder puts the amount it is given into the transaction. */
  ghost predicate BuildsAsTold(o: Oracle) {
    forall s: Stage, t: nat, l: Option<nat>, b: Option<Budget> :: o.locksOf(o.txIdOf(o.built(s, t, l, b))) == l
  }

  /** Every journaled transaction locks the amount recorded with it. */
  ghost predicate TrueLocks(o: Oracle, trace: seq<Effect>) {
    BuildsAsTold(o) ==> forall i :: 0 <= i < |trace| && trace[i].Journaled? ==> o.locksOf(trace[i].txid) == trace[i].locked
  }

  /** At most one transaction per stage is ever submitted. */
  lemma OneTransactionPerStage(trace: seq<Effect>, journal: Option<Journal>, i: nat, j: nat)
    requires Safe(trace, journal) && i < |trace| && j < |trace|
    requires trace[i].Submitted? && trace[j].Submitted? && trace[i].stage == trace[j].stage
    ensures trace[i].txid == trace[j].txid
  {
    var k :| 0 <= k < i && trace[k].Journaled? && trace[k].stage == trace[i].stage && trace[k].txid == trace[i].txid;
    var l :| 0 <= l < j && trace[l].Journaled? && trace[l].stage == trace[j].stage && trace[l].txid == trace[j].txid;
  }

  /** It was journaled before. */
  lemma JournaledFirst(trace: seq<Effect>, journal: Option<Journal>, i: nat)
    requires Safe(trace, journal) && i < |trace| && trace[i].Submitted?
    ensures JournaledBefore(trace, i, trace[i].stage, trace[i].txid)
    ensures journal.Some? && trace[i].stage in journal.value.stages && journal.value.stages[trace[i].stage].txid == trace[i].txid
  {
    var k :| 0 <= k < i && trace[k].Journaled? && trace[k].stage == trace[i].stage && trace[k].txid == trace[i].txid;
  }

  /** A stage is submitted only after the stage before it was seen with two confirmations. */
  lemma ConfirmedFirst(trace: seq<Effect>, journal: Option<Journal>, i: nat, p: Stage)
    requires Safe(trace, journal) && i < |trace| && trace[i].Submitted? && Previous(p, trace[i].stage)
    ensures ConfirmedBefore(trace, i, p)
  {
    var k :| 0 <= k < i && trace[k].Journaled? && trace[k].stage == trace[i].stage && trace[k].txid == trace[i].txid;
    assert ConfirmedBefore(trace, k, p);
  }

  /** However the ledger minimum moves later, every submitted transaction sends to the holder exactly what
      the journal says its stage locks, provided the builder does as it is told. */
  lemma LockedAsSigned(o: Oracle, trace: seq<Effect>, journal: Option<Journal>, i: nat)
    requires Safe(trace, journal) && TrueLocks(o, trace) && BuildsAsTold(o) && i < |trace| && trace[i].Submitted?
    ensures journal.Some? && o.locksOf(trace[i].txid) == LockedFor(journal.value, trace[i].stage)
  {
    hide BuildsAsTold;
    var k :| 0 <= k < i && trace[k].Journaled? && trace[k].stage == trace[i].stage && trace[k].txid == trace[i].txid;
  }

  // ---- launches in the trace ----

  /** Where the launches began and ended. */
  function Markers(trace: seq<Effect>): seq<Effect> {
    if trace == [] then []
    else
      var last := trace[|trace| - 1];
      Markers(trace[..|trace| - 1]) + if last.Began? || last.Ended? then [last] else []
  }

  /** The trace grew within one launch; what was confirmed stays confirmed. */
  ghost predicate Quiet(before: seq<Effect>, after: seq<Effect>) {
    && before <= after && Markers(after) == Markers(before)
    && forall s :: ConfirmedBefore(before, |before|, s) ==> ConfirmedBefore(after, |after|, s)
  }

  lemma StillQuiet(a: seq<Effect>, b: seq<Effect>, c: seq<Effect>)
    requires Quiet(a, b) && Quiet(b, c)
    ensures Quiet(a, c)
  {
    hide ConfirmedBefore, Markers;
  }

  lemma QuietSelf(a: seq<Effect>)
    ensures Quiet(a, a)
  {
  }

  lemma QuietMeans(a: seq<Effect>, b: seq<Effect>)
    requires Quiet(a, b)
    ensures a <= b && Markers(b) == Markers(a)
    ensures forall s :: ConfirmedBefore(a, |a|, s) ==> ConfirmedBefore(b, |b|, s)
  {
  }

  lemma MarkersMore(trace: seq<Effect>, e: Effect)
    ensures Markers(trace + [e]) == Markers(trace) + if e.Began? || e.Ended? then [e] else []
  {
    assert (trace + [e])[..|trace|] == trace;
  }

  lemma OneMoreEffect(trace: seq<Effect>, e: Effect)
    requires !e.Began? && !e.Ended?
    ensures Quiet(trace, trace + [e])
  {
    MarkersMore(trace, e);
    hide Markers;
    Grows(trace, e);
    hide ConfirmedBefore, JournaledBefore;
    assert Markers(trace) + [] == Markers(trace);
  }

  // ---- one more effect ----

  lemma SeenIsSafe(o: Oracle, trace: seq<Effect>, journal: Option<Journal>, txid: string, n: nat)
    requires Safe(trace, journal) && TrueLocks(o, trace)
    ensures Safe(trace + [Seen(txid, n)], journal) && TrueLocks(o, trace + [Seen(txid, n)])
  {
    Grows(trace, Seen(txid, n));
    hide JournaledBefore, ConfirmedBefore, BuildsAsTold;
  }

  /** What was so before some position stays so as the trace grows. */
  lemma Grows(trace: seq<Effect>, e: Effect)
    ensures forall i: nat, s, t :: i <= |trace| ==> JournaledBefore(trace + [e], i, s, t) == JournaledBefore(trace, i, s, t)
    ensures forall i: nat, s :: i <= |trace| ==> ConfirmedBefore(trace + [e], i, s) == ConfirmedBefore(trace, i, s)
    ensures forall s, t :: JournaledBefore(trace, |trace|, s, t) ==> JournaledBefore(trace + [e], |trace| + 1, s, t)
    ensures forall s :: ConfirmedBefore(trace, |trace|, s) ==> ConfirmedBefore(trace + [e], |trace| + 1, s)
  {
    var more := trace + [e];
    assert forall i :: 0 <= i < |trace| ==> more[i] == trace[i];
    forall s | ConfirmedBefore(trace, |trace|, s) ensures ConfirmedBefore(more, |more|, s) {
      var j, k :| 0 <= j < k < |trace| && trace[j].Journaled? && trace[j].stage == s &&
                  trace[k].Seen? && trace[k].txid == trace[j].txid && trace[k].confirmations >= 2;
      assert more[j] == trace[j] && more[k] == trace[k];
    }
    forall s, t | JournaledBefore(trace, |trace|, s, t) ensures JournaledBefore(more, |more|, s, t) {
      var j :| 0 <= j < |trace| && trace[j].Journaled? && trace[j].stage == s && trace[j].txid == t;
      assert more[j] == trace[j];
    }
  }

  lemma SubmitIsSafe(o: Oracle, trace: seq<Effect>, journal: Option<Journal>, s: Stage, txid: string)
    requires Safe(trace, journal) && TrueLocks(o, trace)
    requires journal.Some? && s in journal.value.stages && journal.value.stages[s].txid == txid
    ensures Safe(trace + [Submitted(s, txid)], journal) && TrueLocks(o, trace + [Submitted(s, txid)])
  {
    Grows(trace, Submitted(s, txid));
    hide JournaledBefore, ConfirmedBefore, BuildsAsTold;
  }

  lemma MarkerIsSafe(o: Oracle, trace: seq<Effect>, journal: Option<Journal>, e: Effect)
    requires Safe(trace, journal) && TrueLocks(o, trace) && (e.Began? || e.Ended?)
    requires e.Ended? && e.outcome == Done ==> forall s :: ConfirmedBefore(trace, |trace|, s)
    ensures Safe(trace + [e], journal) && TrueLocks(o, trace + [e])
    ensures forall s :: ConfirmedBefore(trace, |trace|, s) ==> ConfirmedBefore(trace + [e], |trace| + 1, s)
  {
    Grows(trace, e);
    hide JournaledBefore, ConfirmedBefore, BuildsAsTold;
  }

  lemma JournalIsSafe(o: Oracle, trace: seq<Effect>, journal: Option<Journal>, next: Journal, s: Stage, r: Record)
    requires Safe(trace, journal) && TrueLocks(o, trace) && journal.Some? && s !in journal.value.stages
    requires next == journal.value.(stages := journal.value.stages[s := r])
    requires BuildsAsTold(o) ==> o.locksOf(r.txid) == LockedFor(next, s)
    requires forall p :: Previous(p, s) ==> ConfirmedBefore(trace, |trace|, p)
    ensures Safe(trace + [Journaled(s, r.txid, LockedFor(next, s))], Some(next))
    ensures TrueLocks(o, trace + [Journaled(s, r.txid, LockedFor(next, s))])
  {
    hide JournaledBefore, ConfirmedBefore;
    var e := Journaled(s, r.txid, LockedFor(next, s));
    Grows(trace, e);
    JournaledNow(trace, e);
    assert forall x :: LockedFor(next, x) == LockedFor(journal.value, x);
    hide LockedFor;
  }

  lemma JournaledNow(trace: seq<Effect>, e: Effect)
    requires e.Journaled?
    ensures JournaledBefore(trace + [e], |trace| + 1, e.stage, e.txid)
  {
    assert (trace + [e])[|trace|] == e;
  }

  lemma SeenConfirms(trace: seq<Effect>, journal: Option<Journal>, s: Stage, n: nat)
    requires Safe(trace, journal) && journal.Some? && s in journal.value.stages && n >= 2
    ensures ConfirmedBefore(trace + [Seen(journal.value.stages[s].txid, n)], |trace| + 1, s)
  {
    var txid := journal.value.stages[s].txid;
    var j :| 0 <= j < |trace| && trace[j].Journaled? && trace[j].stage == s && trace[j].txid == txid;
    var more := trace + [Seen(txid, n)];
    assert more[j] == trace[j] && more[|trace|] == Seen(txid, n);
  }

  // ---- what can be resumed ----

  /** The measured budget is within the one assigned. */
  predicate Fits(used: Option<Budget>, b: Budget) { used.Some? && used.value.steps <= b.steps && used.value.memory <= b.memory }

  /** Measured from now on, the transaction stays within the budget. */
  ghost predicate FitsFrom(o: Oracle, x: SignedTx, b: Budget, from: nat) {
    forall t :: t >= from ==> Fits(o.evaluation(x, t), b)
  }

  function Max(a: nat, b: nat): nat { if a > b then a else b }

  /** What is assigned after a measurement: a quarter more, and never less than a fixed margin
      (koios-launch.py:283-284). */
  function Headroom(used: Budget): Budget {
    Budget(Max(used.steps + 1_000_000, (used.steps * 125 + 99) / 100), Max(used.memory + 5_000, (used.memory * 125 + 99) / 100))
  }

  /** The budget assigned in round k of building the stage from `t` on: nothing at first, then the measured
      one with headroom. A round asks three questions. */
  function Assigned(o: Oracle, s: Stage, l: Option<nat>, t: nat, k: nat): Budget {
    if k == 0 then Budget(0, 0)
    else
      var used := Measured(o, s, l, t, k - 1, Assigned(o, s, l, t, k - 1));
      if used.None? then Budget(0, 0) else Headroom(used.value)
  }

  /** What round k measures of the transaction built with budget `b`. */
  function Measured(o: Oracle, s: Stage, l: Option<nat>, t: nat, k: nat, b: Budget): Option<Budget> {
    o.evaluation(o.built(s, t + 3 * k + 1, l, Some(b)), t + 3 * k + 3)
  }

  predicate WithinLimits(o: Oracle, b: Budget, t: nat) { b.steps <= o.limits(t).steps && b.memory <= o.limits(t).memory }

  /** The round is measured, and the next assignment is within the network's limits. */
  ghost predicate RoundPasses(o: Oracle, s: Stage, l: Option<nat>, t: nat, k: nat) {
    && Measured(o, s, l, t, k, Assigned(o, s, l, t, k)).Some?
    && WithinLimits(o, Assigned(o, s, l, t, k + 1), t + 3 * k + 3)
  }

  ghost predicate RoundFits(o: Oracle, s: Stage, l: Option<nat>, t: nat, k: nat) {
    Fits(Measured(o, s, l, t, k, Assigned(o, s, l, t, k)), Assigned(o, s, l, t, k))
  }

  /** The first k rounds measured more than they assigned, and each could be followed by another. */
  ghost predicate RoundsPass(o: Oracle, s: Stage, l: Option<nat>, t: nat, k: nat) {
    forall j: nat :: j < k ==> RoundPasses(o, s, l, t, j) && !RoundFits(o, s, l, t, j)
  }

  ghost predicate SettlesIn(o: Oracle, s: Stage, l: Option<nat>, t: nat, k: nat) {
    k < 4 && RoundsPass(o, s, l, t, k) && RoundFits(o, s, l, t, k)
  }

  /** One of the four rounds of build_evaluated_tx measures no more than it assigned. */
  ghost predicate Settles(o: Oracle, s: Stage, l: Option<nat>, t: nat) {
    exists k: nat :: SettlesIn(o, s, l, t, k)
  }

  /** The file and the receipt are what round k built and assigned. */
  ghost predicate FromRound(o: Oracle, s: Stage, l: Option<nat>, t: nat, k: nat, x: SignedTx, r: Receipt) {
    var b := Assigned(o, s, l, t, k);
    x == o.built(s, t + 3 * k + 1, l, Some(b)) && r == Receipt(o.txIdOf(x), b)
  }

  /** From now on the process is not killed and the commands of the builder succeed. */
  ghost predicate Willing(o: Oracle, from: nat) {
    forall t :: t >= from ==> !o.killed(t) && o.buildOk(t)
  }

  /** Every signed stage still has its file, and its receipt where it has a budget. */
  ghost predicate Intact(o: Oracle, d: Disk) {
    d.journal.Some? ==> forall s :: s in d.journal.value.stages ==> StageIntact(o, d, s, d.journal.value.stages[s])
  }

  ghost predicate StageIntact(o: Oracle, d: Disk, s: Stage, r: Record) {
    && s in d.files && o.sha256(d.files[s]) == r.signedSha256 && o.txIdOf(d.files[s]) == r.txid
    && (Evaluated(s) ==> s in d.receipts && d.receipts[s].txid == r.txid)
  }

  /** From now on the process is not killed, builds and checks succeed, no answer to a submission is lost
      without the chain knowing the transaction, two confirmations are seen within the polls, the contract
      hashes stay the same, a stage's budget settles within its four rounds, and a transaction that was
      within the budget assigned to it stays within it. */
  ghost predicate Smooth(o: Oracle, from: nat) {
    && (forall t :: t >= from ==> SmoothAt(o, t))
    && (forall t, x: string :: t >= from ==> Answers(o, x, t))
    && (forall t :: t >= from ==> o.hashes(t) == o.hashes(from))
    && (forall t, s, l: Option<nat> :: t >= from && Evaluated(s) ==> Settles(o, s, l, t))
    && (forall t, s, l: Option<nat>, b, u :: t >= from && Evaluated(s) ==> Steady(o, s, l, b, u, t))
  }

  ghost predicate SmoothAt(o: Oracle, t: nat) { !o.killed(t) && o.buildOk(t) && o.checkOk(t) }

  ghost predicate Answers(o: Oracle, txid: string, t: nat) {
    (o.submitOk(t) || o.status(txid, t + 2) != 0) && ConfirmsWithin(o, txid, t)
  }

  ghost predicate ConfirmsWithin(o: Oracle, txid: string, t: nat) {
    exists i: nat :: i < o.polls(t) && o.status(txid, t + 2 * i + 1) >= 2
  }

  /** The stage's transaction built at `u` with budget `b`, once within it at `t`, stays within it. */
  ghost predicate Steady(o: Oracle, s: Stage, l: Option<nat>, b: Budget, u: nat, t: nat) {
    var x := o.built(s, u, l, Some(b));
    Fits(o.evaluation(x, t), b) ==> FitsFrom(o, x, b, t)
  }

  /** Each signed stage stays within the budget of its own receipt, and the contract hashes are the ones in
      the journal. */
  ghost predicate Agrees(o: Oracle, d: Disk) {
    d.journal.Some? ==>
      && (forall s :: s in d.journal.value.stages && Evaluated(s) && s in d.files && s in d.receipts ==>
            FitsFrom(o, d.files[s], d.receipts[s].budget, d.clock))
      && (d.journal.value.hashes.Some? ==> d.journal.value.hashes.value == o.hashes(d.clock))
  }

  ghost predicate Ready(o: Oracle, d: Disk) { Intact(o, d) && Smooth(o, d.clock) && Agrees(o, d) }

  /** What every part of a launch keeps: the journal only grows, the files of signed stages stay, and in a
      world that is ready the part succeeds (`ok`) and leaves it ready. */
  ghost predicate Keeps(o: Oracle, before: Disk, after: Disk, ok: bool) {
    && before.clock <= after.clock && Extends(before.journal, after.journal)
    && (Intact(o, before) ==> Intact(o, after))
    && (Ready(o, before) ==> ok && Ready(o, after))
  }

  lemma StillKeeps(o: Oracle, a: Disk, b: Disk, c: Disk, ok: bool)
    requires Keeps(o, a, b, true) && Keeps(o, b, c, ok)
    ensures Keeps(o, a, c, ok)
  {
    hide Ready, Intact;
  }

  lemma KeepsWeaker(o: Oracle, a: Disk, b: Disk, ok: bool, ok': bool)
    requires Keeps(o, a, b, ok) && (ok ==> ok')
    ensures Keeps(o, a, b, ok')
  {
    hide Ready, Intact, Extends;
  }

  lemma SmoothLater(o: Oracle, t: nat, t': nat)
    requires Smooth(o, t) && t <= t'
    ensures Smooth(o, t') && o.hashes(t') == o.hashes(t)
  {
    hide SmoothAt, Answers, Settles, Steady;
  }

  lemma JournalIsItself(j: Option<Journal>)
    ensures Extends(j, j)
  {
  }

  lemma ReadyLater(o: Oracle, d: Disk, t: nat)
    requires d.clock <= t
    ensures Intact(o, d) ==> Intact(o, d.(clock := t))
    ensures Ready(o, d) ==> Ready(o, d.(clock := t))
  {
    hide Smooth, Fits;
    if Ready(o, d) {
      SmoothLater(o, d.clock, t);
    }
  }

  /** Only questions were asked. */
  lemma Waited(o: Oracle, d: Disk, t: nat, ok: bool)
    requires d.clock <= t && (Ready(o, d) ==> ok)
    ensures Keeps(o, d, d.(clock := t), ok)
  {
    ReadyLater(o, d, t);
    JournalIsItself(d.journal);
    hide Ready, Intact, Extends;
  }

  lemma ReadyMeans(o: Oracle, d: Disk)
    requires Ready(o, d)
    ensures forall t :: t >= d.clock ==> !o.killed(t) && o.buildOk(t) && o.checkOk(t)
    ensures forall t, x: string :: t >= d.clock ==> Answers(o, x, t)
    ensures forall t :: t >= d.clock ==> o.hashes(t) == o.hashes(d.clock)
    ensures d.journal.Some? && d.journal.value.hashes.Some? ==> d.journal.value.hashes.value == o.hashes(d.clock)
  {
    hide Answers, Fits, Settles, Steady, Intact;
    forall t | t >= d.clock ensures !o.killed(t) && o.buildOk(t) && o.checkOk(t) {
      assert SmoothAt(o, t);
    }
  }

  /** In a ready world a stage with a budget settles, and its transaction stays within the budget. */
  lemma ReadyBudget(o: Oracle, d: Disk, s: Stage, l: Option<nat>)
    requires Ready(o, d) && Evaluated(s)
    ensures Willing(o, d.clock) && Settles(o, s, l, d.clock)
    ensures forall t, b, u :: t >= d.clock ==> Steady(o, s, l, b, u, t)
  {
    hide Answers, Fits, Settles, Steady, Intact;
    forall t | t >= d.clock ensures !o.killed(t) && o.buildOk(t) {
      assert SmoothAt(o, t);
    }
  }

  /** A signed stage of a ready world can be sent. */
  lemma ReadyStage(o: Oracle, d: Disk, s: Stage)
    requires Ready(o, d) && d.journal.Some? && s in d.journal.value.stages
    ensures StageIntact(o, d, s, d.journal.value.stages[s])
    ensures Evaluated(s) ==> s in d.receipts && Fits(o.evaluation(d.files[s], d.clock), d.receipts[s].budget)
  {
    hide Smooth, Fits;
  }

  lemma IntactStage(o: Oracle, d: Disk, s: Stage)
    requires Intact(o, d) && d.journal.Some? && s in d.journal.value.stages
    ensures StageIntact(o, d, s, d.journal.value.stages[s])
  {
  }

  /** Files of a stage that is not signed yet may change. */
  lemma BuildKeeps(o: Oracle, before: Disk, after: Disk, s: Stage, ok: bool)
    requires before.journal == after.journal && before.clock <= after.clock
    requires before.journal.Some? ==> s !in before.journal.value.stages
    requires after.files - {s} == before.files - {s} && after.receipts - {s} == before.receipts - {s}
    requires Ready(o, before) ==> ok
    ensures Keeps(o, before, after, ok)
  {
    JournalIsItself(before.journal);
    var moved := before.(clock := after.clock);
    ReadyLater(o, before, after.clock);
    forall x | x != s ensures StageFilesSame(moved, after, x) {
      SameElsewhere(moved.files, after.files, s, x);
      SameElsewhere(moved.receipts, after.receipts, s, x);
    }
    hide Smooth, FitsFrom, Extends;
    if Intact(o, moved) && before.journal.Some? {
      forall x | x in before.journal.value.stages ensures StageIntact(o, after, x, before.journal.value.stages[x]) {
        assert StageFilesSame(moved, after, x);
      }
    }
    if Agrees(o, moved) && before.journal.Some? {
      forall x | x in before.journal.value.stages && Evaluated(x) && x in after.files && x in after.receipts
        ensures FitsFrom(o, after.files[x], after.receipts[x].budget, after.clock)
      {
        assert StageFilesSame(moved, after, x);
      }
    }
  }

  ghost predicate StageFilesSame(a: Disk, b: Disk, x: Stage) {
    && (x in a.files <==> x in b.files) && (x in a.files ==> b.files[x] == a.files[x])
    && (x in a.receipts <==> x in b.receipts) && (x in a.receipts ==> b.receipts[x] == a.receipts[x])
  }

  lemma SameElsewhere<T>(m: map<Stage, T>, n: map<Stage, T>, s: Stage, x: Stage)
    requires m - {s} == n - {s} && x != s
    ensures (x in m <==> x in n) && (x in m ==> m[x] == n[x])
  {
    assert x in m <==> x in m - {s};
    assert x in n <==> x in n - {s};
    if x in m {
      assert (m - {s})[x] == m[x] && (n - {s})[x] == n[x];
    }
  }

  /** Writing a journal with the same signed stages. */
  lemma PersistKeeps(o: Oracle, before: Disk, next: Journal, t: nat, ok: bool)
    requires before.clock <= t && (Ready(o, before) ==> ok)
    requires SameStages(before.journal, next) && Extends(before.journal, Some(next))
    requires next.hashes.Some? ==>
               next.hashes.value == o.hashes(before.clock) || (before.journal.Some? && before.journal.value.hashes == next.hashes)
    ensures Keeps(o, before, Disk(Some(next), before.files, before.receipts, t), ok)
  {
    ReadyLater(o, before, t);
    var moved, after := before.(clock := t), Disk(Some(next), before.files, before.receipts, t);
    if Smooth(o, before.clock) {
      SmoothLater(o, before.clock, t);
    }
    hide Smooth, FitsFrom, Extends, LockedFor, StageIntact;
    assert Intact(o, moved) ==> Intact(o, after);
    if Ready(o, before) {
      assert Agrees(o, moved);
      assert Agrees(o, after);
    }
  }

  /** Signing a stage that was built: its file, and its receipt where it has a budget, are there. */
  lemma JournalKeeps(o: Oracle, before: Disk, built: Disk, next: Journal, s: Stage, r: Record, t: nat)
    requires Keeps(o, before, built, true) && built.journal.Some? && s !in built.journal.value.stages && built.clock <= t
    requires next == built.journal.value.(stages := built.journal.value.stages[s := r]) && StageIntact(o, built, s, r)
    requires Evaluated(s) && Ready(o, before) ==> FitsFrom(o, built.files[s], built.receipts[s].budget, built.clock)
    ensures Keeps(o, before, Disk(Some(next), built.files, built.receipts, t), true)
  {
    var after := Disk(Some(next), built.files, built.receipts, t);
    ReadyLater(o, built, t);
    hide Smooth, Fits, LockedFor;
    assert Intact(o, built) ==> Intact(o, after);
    if Ready(o, before) {
      assert Evaluated(s) ==> FitsFrom(o, built.files[s], built.receipts[s].budget, t);
      assert Agrees(o, after);
    }
    assert Extends(built.journal, Some(next)) by {
      assert forall x :: LockedFor(next, x) == LockedFor(built.journal.value, x) by {
        LockedSame(built.journal.value, next);
      }
    }
  }

  lemma LockedSame(j: Journal, next: Journal)
    requires next.locked == j.locked
    ensures forall x :: LockedFor(next, x) == LockedFor(j, x)
  {
  }

  // ---- the launcher ----

  class Launcher {
    const oracle: Oracle
    var journal: Option<Journal>
    var files: map<Stage, SignedTx>
    var receipts: map<Stage, Receipt>
    var clock: nat
    ghost var trace: seq<Effect>

    ghost predicate Valid()
      reads `trace, `journal
    {
      Safe(trace, journal) && TrueLocks(oracle, trace)
    }

    /** The stage was journaled and seen with two confirmations. */
    ghost predicate Confirmed(s: Stage)
      reads `trace
    {
      ConfirmedBefore(trace, |trace|, s)
    }

    function OnDisk(): Disk
      reads `journal, `files, `receipts, `clock
    {
      Disk(journal, files, receipts, clock)
    }

    constructor (oracle: Oracle)
      ensures Valid() && this.oracle == oracle && OnDisk() == Disk(None, map[], map[], 0) && trace == []
    {
      this.oracle := oracle;
      journal, files, receipts, clock, trace := None, map[], map[], 0, [];
    }

    /** The process may die before any effect. */
    method Dies() returns (b: bool)
      modifies `clock
      ensures clock == old(clock) + 1 && b == oracle.killed(old(clock))
    {
      b := oracle.killed(clock);
      clock := clock + 1;
    }

    /** status (koios-launch.py:114-119). */
    method Status(txid: string) returns (n: nat)
      requires Valid()
      modifies `clock, `trace
      ensures Valid() && trace == old(trace) + [Seen(txid, n)] && Quiet(old(trace), trace)
      ensures clock == old(clock) + 1 && n == oracle.status(txid, old(clock))
    {
      hide Safe, TrueLocks, Quiet;
      n := oracle.status(txid, clock);
      clock := clock + 1;
      SeenIsSafe(oracle, trace, journal, txid, n);
      OneMoreEffect(trace, Seen(txid, n));
      trace := trace + [Seen(txid, n)];
    }

    /** await_confirmed (koios-launch.py:122-129): as many polls as the deadline allows. */
    method AwaitConfirmed(state: Journal, s: Stage) returns (r: Outcome)
      requires Valid() && journal == Some(state) && s in state.stages
      modifies `clock, `trace
      ensures Valid() && Quiet(old(trace), trace) && (r == Done ==> Confirmed(s))
      ensures Keeps(oracle, old(OnDisk()), OnDisk(), r == Done)
    {
      hide Safe, TrueLocks, Quiet, Keeps, Ready, ConfirmedBefore, Answers;
      ghost var begun, seen, start := trace, OnDisk(), clock;
      ghost var ready := Ready(oracle, seen);
      if ready {
        ReadyMeans(oracle, seen);
      }
      QuietSelf(trace);
      var polls := oracle.polls(clock);
      for i := 0 to polls
        invariant Valid() && Quiet(begun, trace) && clock == start + 2 * i
        invariant forall k :: 0 <= k < i ==> oracle.status(state.stages[s].txid, start + 2 * k + 1) < 2
      {
        var dies := Dies();
        if dies {
          Waited(oracle, seen, clock, false);
          return Killed;
        }
        ghost var before := trace;
        var n := Status(state.stages[s].txid);
        StillQuiet(begun, before, trace);
        if n >= 2 {
          SeenConfirms(before, journal, s, n);
          Waited(oracle, seen, clock, true);
          return Done;
        }
      }
      if ready {
        NeverConfirmed(oracle, state.stages[s].txid, start);
      }
      Waited(oracle, seen, clock, false);
      r := Failed;
    }

    /** atomic_json(STATE, state) where no stage is new: a rename, so all or nothing. The contract hashes
        were read at `from`. */
    method Persist(state: Journal, ghost from: nat) returns (r: Outcome)
      requires Valid() && SameStages(journal, state) && Extends(journal, Some(state)) && from <= clock
      requires state.hashes.Some? ==> state.hashes.value == oracle.hashes(from) || (journal.Some? && journal.value.hashes == state.hashes)
      modifies `clock, `journal
      ensures Valid() && r != Failed && (r == Done ==> journal == Some(state)) && (r == Killed ==> journal == old(journal))
      ensures clock == old(clock) + 1
      ensures Keeps(oracle, old(OnDisk()).(clock := from), OnDisk(), r == Done)
    {
      hide Safe, TrueLocks, Keeps, Ready, Smooth, SameStages, Extends;
      ghost var before := OnDisk().(clock := from);
      if Ready(oracle, before) {
        ReadyMeans(oracle, before);
      }
      var dies := Dies();
      if dies {
        Waited(oracle, before, clock, false);
        return Killed;
      }
      NoNewStage(trace, journal, state);
      PersistKeeps(oracle, before, state, clock, true);
      journal := Some(state);
      r := Done;
    }

    /** build_tx (koios-launch.py:329-378): it may raise before or after the stage's file is written over. */
    method BuildOnce(s: Stage, locked: Option<nat>, budget: Option<Budget>) returns (r: Outcome)
      modifies `clock, `files
      ensures clock <= old(clock) + 2 && clock >= old(clock) && files - {s} == old(files) - {s}
      ensures r == Done ==>
                clock == old(clock) + 2 && s in files && files[s] == oracle.built(s, old(clock) + 1, locked, budget)
      ensures !oracle.killed(old(clock)) && oracle.buildOk(old(clock) + 1) && oracle.buildOk(old(clock) + 2) ==> r == Done
    {
      var dies := Dies();
      if dies {
        return Killed;
      }
      if !oracle.buildOk(clock) {
        return Failed;
      }
      files := files[s := oracle.built(s, clock, locked, budget)];
      clock := clock + 1;
      r := if oracle.buildOk(clock) then Done else Failed;
    }

    /** The builder of a stage: build_tx, or build_evaluated_tx, which assigns what it measured with headroom
        until a round measures no more than it assigned, and writes the receipt last
        (koios-launch.py:262-288). */
    method Build(s: Stage, locked: Option<nat>) returns (r: Outcome)
      requires journal.Some? && s !in journal.value.stages
      modifies `clock, `files, `receipts
      ensures Keeps(oracle, old(OnDisk()), OnDisk(), r == Done)
      ensures r == Done ==> s in files && (BuildsAsTold(oracle) ==> oracle.locksOf(oracle.txIdOf(files[s])) == locked)
      ensures r == Done && Evaluated(s) ==> s in receipts && receipts[s].txid == oracle.txIdOf(files[s])
      ensures Evaluated(s) && old(Ready(oracle, OnDisk())) ==>
                r == Done && FitsFrom(oracle, files[s], receipts[s].budget, clock)
    {
      hide *;
      DiskIs();
      ghost var before := OnDisk();
      ghost var ready := Ready(oracle, before);
      if ready {
        ReadyMeans(oracle, before);
      }
      if Evaluated(s) {
        r := BuildEvaluated(s, locked);
        DiskIs();
        BuildKeeps(oracle, before, OnDisk(), s, r == Done);
        if r == Done {
          ReceiptIsOwn(oracle, s, locked, before.clock, files[s], receipts[s]);
        }
        return;
      }
      r := BuildOnce(s, locked, None);
      DiskIs();
      BuildKeeps(oracle, before, OnDisk(), s, r == Done);
      if r == Done {
        ToldAmount(oracle, s, before.clock + 1, locked, None);
      }
    }

    /** One round: the transaction built with the budget, and measured. */
    method BuildRound(s: Stage, locked: Option<nat>, budget: Budget) returns (r: Outcome, used: Budget)
      modifies `clock, `files
      ensures clock >= old(clock) && files - {s} == old(files) - {s}
      ensures r == Done ==>
                && clock == old(clock) + 3 && s in files && files[s] == oracle.built(s, old(clock) + 1, locked, Some(budget))
                && oracle.evaluation(files[s], clock) == Some(used)
      ensures r != Done ==>
                || oracle.killed(old(clock)) || oracle.killed(old(clock) + 2)
                || !oracle.buildOk(old(clock) + 1) || !oracle.buildOk(old(clock) + 2)
                || oracle.evaluation(oracle.built(s, old(clock) + 1, locked, Some(budget)), old(clock) + 3).None?
    {
      used := budget;
      r := BuildOnce(s, locked, Some(budget));
      if r != Done {
        return;
      }
      var dies := Dies();
      if dies {
        return Killed, used;
      }
      var measured := oracle.evaluation(files[s], clock);
      if measured.None? {
        return Failed, used;
      }
      used := measured.value;
    }

    /** atomic_json of the evaluation file (koios-launch.py:276-281). */
    method WriteReceipt(s: Stage, receipt: Receipt) returns (r: Outcome)
      modifies `clock, `receipts
      ensures clock == old(clock) + 1 && receipts - {s} == old(receipts) - {s}
      ensures r == if oracle.killed(old(clock)) then Killed else Done
      ensures r == Done ==> s in receipts && receipts[s] == receipt
    {
      var dies := Dies();
      if dies {
        return Killed;
      }
      receipts := receipts[s := receipt];
      r := Done;
    }

    /** build_evaluated_tx (koios-launch.py:262-288): what it leaves is what the first round that fits built
        and assigned, and it fails only when no round does. */
    method BuildEvaluated(s: Stage, locked: Option<nat>) returns (r: Outcome)
      requires Evaluated(s)
      modifies `clock, `files, `receipts
      ensures old(clock) <= clock && files - {s} == old(files) - {s} && receipts - {s} == old(receipts) - {s}
      ensures r == Done ==> s in files && s in receipts &&
                            exists k: nat :: SettlesIn(oracle, s, locked, old(clock), k) &&
                                             FromRound(oracle, s, locked, old(clock), k, files[s], receipts[s])
      ensures Willing(oracle, old(clock)) ==> (r == Done <==> Settles(oracle, s, locked, old(clock)))
      ensures r == Done && BuildsAsTold(oracle) ==> oracle.locksOf(oracle.txIdOf(files[s])) == locked
      ensures old(Ready(oracle, OnDisk())) ==> r == Done && FitsFrom(oracle, files[s], receipts[s].budget, clock)
    {
      hide *;
      ghost var start := clock;
      ghost var ready, willing := Ready(oracle, OnDisk()), Willing(oracle, start);
      DiskIs();
      if ready {
        ReadyBudget(oracle, OnDisk(), s, locked);
      }
      if willing {
        WillingMeans(oracle, start);
      }
      var budget := Budget(0, 0);
      FirstRound(oracle, s, locked, start);
      for k := 0 to 4
        invariant files - {s} == old(files) - {s} && receipts == old(receipts)
        invariant OnCourse(oracle, s, locked, start, k, clock, budget)
      {
        ghost var begun := clock;
        NextRound(oracle, s, locked, start, k, begun, budget);
        var used;
        r, used := BuildRound(s, locked, budget);
        if r != Done {
          return;
        }
        if used.steps <= budget.steps && used.memory <= budget.memory {
          if ready {
            SteadyMeans(oracle, s, locked, budget, begun + 1, begun + 3, clock + 1);
          }
          ToldAmount(oracle, s, begun + 1, locked, Some(budget));
          RoundLeaves(oracle, s, locked, start, k, begun, budget);
          r := WriteReceipt(s, Receipt(oracle.txIdOf(files[s]), budget));
          return;
        }
        budget := Headroom(used);
        var limits := oracle.limits(clock);
        if budget.steps > limits.steps || budget.memory > limits.memory {
          return Failed;
        }
      }
      NotSettled(oracle, s, locked, start, clock, budget);
      r := Failed;
    }

    lemma DiskIs()
      ensures OnDisk() == Disk(journal, files, receipts, clock)
    {
    }

    /** The first half of prepare_stage (koios-launch.py:383-388): built, then written into the
        journal before anything is sent. */
    method JournalStage(state: Journal, s: Stage) returns (r: Outcome, next: Journal)
      requires Valid() && journal == Some(state) && s !in state.stages
      requires forall p :: Previous(p, s) ==> Confirmed(p)
      modifies `clock, `journal, `files, `receipts, `trace
      ensures Valid() && Quiet(old(trace), trace)
      ensures Keeps(oracle, old(OnDisk()), OnDisk(), r == Done)
      ensures r == Done ==> s in next.stages && next == state.(stages := state.stages[s := next.stages[s]]) && journal == Some(next)
    {
      hide Safe, TrueLocks, Quiet, Keeps, Ready, Smooth, ConfirmedBefore, FitsFrom, LockedFor, BuildsAsTold;
      ghost var before := OnDisk();
      QuietSelf(trace);
      next := state;
      var b := Build(s, LockedFor(state, s));
      if b != Done {
        return b, next;
      }
      ghost var built := OnDisk();
      var record := Record(oracle.txIdOf(files[s]), oracle.sha256(files[s]));
      next := next.(stages := next.stages[s := record]);
      LockedStays(state, next, s);
      var dies := Dies();
      if dies {
        KilledKeeps(oracle, before, built, clock);
        return Killed, next;
      }
      JournalIsSafe(oracle, trace, journal, next, s, record);
      JournalKeeps(oracle, before, built, next, s, record, clock);
      OneMoreEffect(trace, Journaled(s, record.txid, LockedFor(next, s)));
      journal := Some(next);
      trace := trace + [Journaled(s, record.txid, LockedFor(next, s))];
      r := Done;
    }

    /** prepare_stage (koios-launch.py:381-396): a stage in the journal is never built again; the file
        it names must still hold the transaction it names. */
    method PrepareStage(state: Journal, s: Stage, mayBuild: bool) returns (r: Outcome, next: Journal)
      requires Valid() && journal == Some(state)
      requires s in state.stages || mayBuild
      requires forall p :: Previous(p, s) ==> Confirmed(p)
      modifies `clock, `journal, `files, `receipts, `trace
      ensures Valid() && Quiet(old(trace), trace)
      ensures Keeps(oracle, old(OnDisk()), OnDisk(), r == Done)
      ensures r == Done ==>
                && journal == Some(next) && next.returnAddress == state.returnAddress
                && s in next.stages && s in files && oracle.txIdOf(files[s]) == next.stages[s].txid
                && (forall x :: x in state.stages ==> x in next.stages && next.stages[x] == state.stages[x])
    {
      hide Safe, TrueLocks, Quiet, Keeps, Ready, ConfirmedBefore;
      ghost var before := OnDisk();
      QuietSelf(trace);
      Waited(oracle, before, clock, true);
      next := state;
      if s !in next.stages {
        r, next := JournalStage(state, s);
        if r != Done {
          return;
        }
      }
      ghost var here := OnDisk();
      if Ready(oracle, here) {
        ReadyStage(oracle, here, s);
      }
      var record := next.stages[s];
      if s !in files || record.signedSha256 != oracle.sha256(files[s]) || oracle.txIdOf(files[s]) != record.txid {
        Waited(oracle, here, clock, false);
        StillKeeps(oracle, before, here, OnDisk(), false);
        return Failed, next;
      }
      r := Done;
    }

    /** submit (koios-launch.py:97-111): the transaction leaves whether or not the answer arrives. */
    method Submit(state: Journal, s: Stage) returns (ok: bool)
      requires Valid() && journal == Some(state)
      requires s in state.stages && s in files && oracle.txIdOf(files[s]) == state.stages[s].txid
      modifies `clock, `trace
      ensures Valid() && trace == old(trace) + [Submitted(s, state.stages[s].txid)] && Quiet(old(trace), trace)
      ensures clock == old(clock) + 1 && ok == oracle.submitOk(old(clock))
    {
      hide Safe, TrueLocks, Quiet;
      ok := oracle.submitOk(clock);
      clock := clock + 1;
      SubmitIsSafe(oracle, trace, journal, s, oracle.txIdOf(files[s]));
      OneMoreEffect(trace, Submitted(s, oracle.txIdOf(files[s])));
      trace := trace + [Submitted(s, oracle.txIdOf(files[s]))];
    }

    /** run_stage (koios-launch.py:399-420). */
    method RunStage(state: Journal, s: Stage, mayBuild: bool) returns (r: Outcome, next: Journal)
      requires Valid() && journal == Some(state)
      requires s in state.stages || mayBuild
      requires forall p :: Previous(p, s) ==> Confirmed(p)
      modifies `clock, `journal, `files, `receipts, `trace
      ensures Valid() && Quiet(old(trace), trace)
      ensures Keeps(oracle, old(OnDisk()), OnDisk(), r == Done)
      ensures r == Done ==>
                && journal == Some(next) && next.returnAddress == state.returnAddress
                && Confirmed(s) && s in next.stages
                && (forall x :: x in state.stages ==> x in next.stages && next.stages[x] == state.stages[x])
    {
      hide Safe, TrueLocks, Quiet, Keeps, Ready, ConfirmedBefore;
      ghost var begun, before := trace, OnDisk();
      var prepared, state' := PrepareStage(state, s, mayBuild);
      next := state';
      if prepared != Done {
        return prepared, next;
      }
      ghost var quiet, here := trace, OnDisk();
      if Ready(oracle, here) {
        ReadyMeans(oracle, here);
      }
      var dies := Dies();
      if dies {
        KilledKeeps(oracle, before, here, clock);
        return Killed, next;
      }
      var txid := next.stages[s].txid;
      var confirmations := Status(txid);
      StillQuiet(begun, quiet, trace);
      Waited(oracle, here, clock, true);
      StillKeeps(oracle, before, here, OnDisk(), true);
      if confirmations >= 2 {
        SeenConfirms(quiet, journal, s, confirmations);
        return Done, next;
      }
      ghost var asked, there := trace, OnDisk();
      if confirmations == 0 {
        var sent := SendStage(next, s);
        StillQuiet(begun, asked, trace);
        StillKeeps(oracle, before, there, OnDisk(), sent == Done);
        if sent != Done {
          return sent, next;
        }
      }
      ghost var waiting, now := trace, OnDisk();
      r := AwaitConfirmed(next, s);
      StillQuiet(begun, waiting, trace);
      StillKeeps(oracle, before, now, OnDisk(), r == Done);
    }

    /** The submission in run_stage (koios-launch.py:403-417): budgets are measured again first, and a
        submission that seems to fail counts as sent when the chain knows the transaction. */
    method SendStage(state: Journal, s: Stage) returns (r: Outcome)
      requires Valid() && journal == Some(state)
      requires s in state.stages && s in files && oracle.txIdOf(files[s]) == state.stages[s].txid
      modifies `clock, `trace
      ensures Valid() && Quiet(old(trace), trace)
      ensures Keeps(oracle, old(OnDisk()), OnDisk(), r == Done)
      ensures r == Done ==> |trace| > |old(trace)| && trace[|old(trace)|] == Submitted(s, state.stages[s].txid)
      ensures r == Done && Evaluated(s) ==>
                s in receipts && receipts[s].txid == state.stages[s].txid && Fits(oracle.evaluation(files[s], old(clock)), receipts[s].budget)
    {
      hide Safe, TrueLocks, Quiet, Keeps, Ready, ConfirmedBefore, Smooth;
      ghost var begun, before := trace, OnDisk();
      QuietSelf(trace);
      if Ready(oracle, before) {
        ReadyMeans(oracle, before);
        ReadyStage(oracle, before, s);
      }
      if Evaluated(s) {
        if s !in receipts || receipts[s].txid != state.stages[s].txid {
          Waited(oracle, before, clock, false);
          return Failed;
        }
        var used, budget := oracle.evaluation(files[s], clock), receipts[s].budget;
        if used.None? || used.value.steps > budget.steps || used.value.memory > budget.memory {
          Waited(oracle, before, clock, false);
          return Failed;
        }
      }
      var dies := Dies();
      if dies {
        Waited(oracle, before, clock, false);
        return Killed;
      }
      var ok := Submit(state, s);
      if !ok {
        dies := Dies();
        if dies {
          Waited(oracle, before, clock, false);
          return Killed;
        }
        ghost var between := trace;
        if Ready(oracle, before) {
          assert Answers(oracle, state.stages[s].txid, clock - 2);
        }
        var n := Status(state.stages[s].txid);
        StillQuiet(begun, between, trace);
        if n == 0 {
          Waited(oracle, before, clock, false);
          return Failed;
        }
      }
      Waited(oracle, before, clock, true);
      r := Done;
    }

    /** A check that raises or passes: addresses, hashes, amounts, UTxOs. */
    method Check() returns (r: Outcome)
      modifies `clock
      ensures clock == old(clock) + 1
      ensures r == if oracle.killed(old(clock)) then Killed else if oracle.checkOk(clock) then Done else Failed
      ensures Keeps(oracle, old(OnDisk()), OnDisk(), r == Done)
    {
      hide Keeps, Ready;
      ghost var before := OnDisk();
      if Ready(oracle, before) {
        ReadyMeans(oracle, before);
      }
      Waited(oracle, before, clock + 1, !oracle.killed(clock) && oracle.checkOk(clock + 1));
      var dies := Dies();
      if dies {
        return Killed;
      }
      r := if oracle.checkOk(clock) then Done else Failed;
    }

    /** The journal of this launch: the saved one, if it is for the same return address, or a new one
        (koios-launch.py:596-608). */
    method Open(returnAddress: string) returns (r: Outcome, state: Journal)
      requires Valid()
      modifies `clock, `journal
      ensures Valid()
      ensures Keeps(oracle, old(OnDisk()), OnDisk(), r == Done || OtherAddress(old(OnDisk()), returnAddress))
      ensures r == Done ==> journal == Some(state) && state.returnAddress == returnAddress
      ensures old(journal).None? && journal.Some? ==> journal.value.returnAddress == returnAddress
    {
      hide Safe, TrueLocks, Keeps, Ready, Smooth;
      ghost var before := OnDisk();
      state := Journal(returnAddress, map[], None, map[]);
      if journal.Some? {
        state := journal.value;
        Waited(oracle, before, clock, state.returnAddress == returnAddress || OtherAddress(before, returnAddress));
        r := if state.returnAddress == returnAddress then Done else Failed;
        return;
      }
      r := Check();
      if r == Done {
        ghost var here := OnDisk();
        r := Persist(state, clock);
        StillKeeps(oracle, before, here, OnDisk(), r == Done);
      }
    }

    /** The contract hashes: those of the saved journal, or written into it now (koios-launch.py:643-648). */
    method FixHashes(state: Journal) returns (r: Outcome, next: Journal)
      requires Valid() && journal == Some(state)
      modifies `clock, `journal
      ensures Valid()
      ensures Keeps(oracle, old(OnDisk()), OnDisk(), r == Done)
      ensures r == Done ==> journal == Some(next) && next.hashes.Some? && next == state.(hashes := next.hashes)
    {
      hide Safe, TrueLocks, Keeps, Ready, Smooth;
      ghost var before := OnDisk();
      next := state;
      r := Check();
      if r != Done {
        return;
      }
      ghost var here := OnDisk();
      if Ready(oracle, here) {
        ReadyMeans(oracle, here);
      }
      var hashes := oracle.hashes(clock);
      clock := clock + 1;
      if state.hashes.Some? && state.hashes.value != hashes {
        Waited(oracle, here, clock, false);
        StillKeeps(oracle, before, here, OnDisk(), false);
        return Failed, next;
      }
      next := next.(hashes := Some(hashes));
      r := Persist(next, here.clock);
      StillKeeps(oracle, before, here, OnDisk(), r == Done);
    }

    /** What each stage locks follows the ledger minimum until the stage is signed
        (koios-launch.py:670-674). */
    method FixLocked(state: Journal) returns (r: Outcome, next: Journal)
      requires Valid() && journal == Some(state)
      modifies `clock, `journal
      ensures Valid()
      ensures Keeps(oracle, old(OnDisk()), OnDisk(), r == Done)
      ensures r == Done ==>
                && journal == Some(next) && next == state.(locked := next.locked)
                && (forall s :: s in state.stages ==> LockedFor(next, s) == LockedFor(state, s))
                && forall s :: Locks(s) && s !in state.stages ==>
                     s in next.locked && WasMinimum(oracle, old(clock), clock, next.locked[s])
    {
      hide Safe, TrueLocks, Keeps, Ready, Smooth;
      ghost var before := OnDisk();
      next := state;
      for i := 1 to 6
        invariant Valid() && journal == Some(state) && before.clock <= clock
        invariant next == state.(locked := next.locked)
        invariant forall s :: s in state.stages ==> LockedFor(next, s) == LockedFor(state, s)
        invariant forall s :: Locks(s) && s !in state.stages && Rank(s) < i ==>
                    s in next.locked && WasMinimum(oracle, before.clock, clock, next.locked[s])
      {
        var s := StageAt(i);
        OnlyStage(i);
        if Locks(s) && s !in next.stages {
          next := next.(locked := next.locked[s := oracle.minUtxo(clock)]);
          clock := clock + 1;
        }
      }
      FiveRanks();
      ghost var here := OnDisk();
      Waited(oracle, before, clock, true);
      r := Persist(next, clock);
      StillKeeps(oracle, before, here, OnDisk(), r == Done);
      forall s | Locks(s) && s !in state.stages ensures WasMinimum(oracle, before.clock, clock, next.locked[s]) {
        WasMinimumLater(oracle, before.clock, here.clock, clock, next.locked[s]);
      }
    }

    /** The stages after the first, in order (koios-launch.py:695-762). */
    method RunRest(state: Journal) returns (r: Outcome)
      requires Valid() && journal == Some(state) && Confirmed(Prep)
      modifies `clock, `journal, `files, `receipts, `trace
      ensures Valid() && Quiet(old(trace), trace)
      ensures Keeps(oracle, old(OnDisk()), OnDisk(), r == Done)
      ensures r == Done ==> forall s: Stage :: Confirmed(s)
    {
      hide Safe, TrueLocks, Quiet, Keeps, Ready, ConfirmedBefore;
      ghost var begun, before := trace, OnDisk();
      QuietSelf(trace);
      Waited(oracle, before, clock, true);
      var state := state;
      for i := 1 to 6
        invariant Valid() && journal == Some(state) && Quiet(begun, trace) && Keeps(oracle, before, OnDisk(), true)
        invariant forall s :: Rank(s) < i ==> Confirmed(s)
      {
        ghost var here := OnDisk();
        r := Check();
        StillKeeps(oracle, before, here, OnDisk(), r == Done);
        if r != Done {
          return;
        }
        ghost var quiet, there := trace, OnDisk();
        r, state := RunStage(state, StageAt(i), true);
        StillQuiet(begun, quiet, trace);
        QuietMeans(quiet, trace);
        StillKeeps(oracle, before, there, OnDisk(), r == Done);
        if r != Done {
          return;
        }
        OnlyStage(i);
      }
      ghost var now := OnDisk();
      r := Check();
      StillKeeps(oracle, before, now, OnDisk(), r == Done);
    }

    /** launch_locked up to the refund (koios-launch.py:595-764). */
    method LaunchLocked(returnAddress: string) returns (r: Outcome)
      requires Valid()
      modifies `clock, `journal, `files, `receipts, `trace
      ensures Valid()
      ensures Markers(trace) == old(Markers(trace)) + [Began(returnAddress, old(OnDisk())), Ended(r, OnDisk())]
      ensures old(trace) <= trace && (r == Done ==> forall s: Stage :: Confirmed(s))
      ensures IsLaunch(oracle, returnAddress, old(OnDisk()), r, OnDisk())
    {
      hide Safe, TrueLocks, Quiet, IsLaunch, ConfirmedBefore;
      ghost var begun, began := trace, Began(returnAddress, OnDisk());
      MarkerIsSafe(oracle, trace, journal, began);
      MarkersMore(trace, began);
      trace := trace + [began];
      ghost var quiet := trace;
      r := LaunchStages(returnAddress);
      QuietMeans(quiet, trace);
      ghost var ended := Ended(r, OnDisk());
      if r == Done {
        forall s ensures ConfirmedBefore(trace, |trace|, s) {
          assert Confirmed(s);
        }
      }
      MarkerIsSafe(oracle, trace, journal, ended);
      MarkersMore(trace, ended);
      hide Markers;
      ghost var last := trace;
      trace := trace + [ended];
      if r == Done {
        forall s: Stage ensures Confirmed(s) {
          assert ConfirmedBefore(last, |last|, s);
        }
      }
    }

    /** The next launch, after the signed files and receipts were changed or not. */
    method NextLaunch(change: Option<Files>, returnAddress: string) returns (r: Outcome)
      requires Valid()
      modifies `clock, `journal, `files, `receipts, `trace
      ensures Valid() && old(trace) <= trace
      ensures Markers(trace) == old(Markers(trace)) + [Began(returnAddress, Tampered(change, old(OnDisk()))), Ended(r, OnDisk())]
      ensures IsLaunch(oracle, returnAddress, Tampered(change, old(OnDisk())), r, OnDisk())
    {
      hide Safe, TrueLocks, ConfirmedBefore, IsLaunch, Markers;
      if change.Some? {
        files, receipts := change.value.signed, change.value.receipts;
      }
      r := LaunchLocked(returnAddress);
    }

    method LaunchStages(returnAddress: string) returns (r: Outcome)
      requires Valid()
      modifies `clock, `journal, `files, `receipts, `trace
      ensures Valid() && Quiet(old(trace), trace) && (r == Done ==> forall s: Stage :: Confirmed(s))
      ensures IsLaunch(oracle, returnAddress, old(OnDisk()), r, OnDisk())
    {
      hide Safe, TrueLocks, Quiet, Keeps, IsLaunch, ConfirmedBefore, Previous;
      NothingBefore(Prep);
      ghost var begun, before := trace, OnDisk();
      QuietSelf(trace);
      var state: Journal;
      r, state := Open(returnAddress);
      if r != Done {
        LaunchHolds(oracle, returnAddress, before, OnDisk(), r);
        return;
      }
      ghost var start := OnDisk();
      JournalIsItself(journal);
      r := Check();
      if r != Done {
        LaunchGoesOn(oracle, returnAddress, before, start, OnDisk(), r);
        return;
      }
      ghost var checked := OnDisk();
      r, state := PrepareStage(state, Prep, true);
      StillKeeps(oracle, start, checked, OnDisk(), r == Done);
      if r != Done {
        LaunchGoesOn(oracle, returnAddress, before, start, OnDisk(), r);
        return;
      }
      ghost var prepared := OnDisk();
      r, state := FixHashes(state);
      StillKeeps(oracle, start, prepared, OnDisk(), r == Done);
      if r != Done {
        LaunchGoesOn(oracle, returnAddress, before, start, OnDisk(), r);
        return;
      }
      ghost var hashed := OnDisk();
      r, state := FixLocked(state);
      StillKeeps(oracle, start, hashed, OnDisk(), r == Done);
      if r != Done {
        LaunchGoesOn(oracle, returnAddress, before, start, OnDisk(), r);
        return;
      }
      ghost var fixed := OnDisk();
      r := Check();
      StillKeeps(oracle, start, fixed, OnDisk(), r == Done);
      if r != Done {
        LaunchGoesOn(oracle, returnAddress, before, start, OnDisk(), r);
        return;
      }
      ghost var quiet, running := trace, OnDisk();
      r, state := RunStage(state, Prep, false);
      StillQuiet(begun, quiet, trace);
      StillKeeps(oracle, start, running, OnDisk(), r == Done);
      if r == Done {
        ghost var first, sent := trace, OnDisk();
        r := RunRest(state);
        StillQuiet(begun, first, trace);
        StillKeeps(oracle, start, sent, OnDisk(), r == Done);
      }
      LaunchGoesOn(oracle, returnAddress, before, start, OnDisk(), r);
    }
  }

  lemma ToldAmount(o: Oracle, s: Stage, t: nat, l: Option<nat>, b: Option<Budget>)
    ensures BuildsAsTold(o) ==> o.locksOf(o.txIdOf(o.built(s, t, l, b))) == l
  {
  }

  /** After `k` rounds that did not fit: the time, and the budget to assign next. */
  ghost predicate OnCourse(o: Oracle, s: Stage, l: Option<nat>, t: nat, k: nat, clock: nat, b: Budget) {
    clock == t + 3 * k && b == Assigned(o, s, l, t, k) && RoundsPass(o, s, l, t, k)
  }

  lemma FirstRound(o: Oracle, s: Stage, l: Option<nat>, t: nat)
    ensures OnCourse(o, s, l, t, 0, t, Budget(0, 0))
  {
  }

  /** A round fits, or another follows it, or the stage does not settle. */
  lemma NextRound(o: Oracle, s: Stage, l: Option<nat>, t: nat, k: nat, begun: nat, b: Budget)
    requires OnCourse(o, s, l, t, k, begun, b) && k < 4
    ensures begun >= t
    ensures var used := o.evaluation(o.built(s, begun + 1, l, Some(b)), begun + 3);
            if used.None? then !Settles(o, s, l, t)
            else if used.value.steps <= b.steps && used.value.memory <= b.memory then
              SettlesIn(o, s, l, t, k) && Settles(o, s, l, t)
            else
              var limits, next := o.limits(begun + 3), Headroom(used.value);
              if next.steps > limits.steps || next.memory > limits.memory then !Settles(o, s, l, t)
              else OnCourse(o, s, l, t, k + 1, begun + 3, next)
  {
    RoundIs(o, s, l, t, k);
    hide Headroom, Assigned;
    var used := Measured(o, s, l, t, k, b);
    assert RoundFits(o, s, l, t, k) <==> Fits(used, b);
    if RoundFits(o, s, l, t, k) {
      assert SettlesIn(o, s, l, t, k);
    } else if !RoundPasses(o, s, l, t, k) {
      Stuck(o, s, l, t, k);
    }
  }

  lemma Stuck(o: Oracle, s: Stage, l: Option<nat>, t: nat, k: nat)
    requires RoundsPass(o, s, l, t, k) && !RoundFits(o, s, l, t, k) && !RoundPasses(o, s, l, t, k)
    ensures !Settles(o, s, l, t)
  {
    hide RoundFits, RoundPasses;
  }

  lemma RoundIs(o: Oracle, s: Stage, l: Option<nat>, t: nat, k: nat)
    ensures var used := Measured(o, s, l, t, k, Assigned(o, s, l, t, k));
            Assigned(o, s, l, t, k + 1) == if used.None? then Budget(0, 0) else Headroom(used.value)
  {
    hide Headroom;
  }

  lemma RoundLeaves(o: Oracle, s: Stage, l: Option<nat>, t: nat, k: nat, begun: nat, b: Budget)
    requires OnCourse(o, s, l, t, k, begun, b)
    ensures var x := o.built(s, begun + 1, l, Some(b)); FromRound(o, s, l, t, k, x, Receipt(o.txIdOf(x), b))
  {
  }

  lemma ReceiptIsOwn(o: Oracle, s: Stage, l: Option<nat>, t: nat, x: SignedTx, r: Receipt)
    requires exists k: nat :: SettlesIn(o, s, l, t, k) && FromRound(o, s, l, t, k, x, r)
    ensures r.txid == o.txIdOf(x)
  {
    hide SettlesIn, Assigned;
  }

  lemma NotSettled(o: Oracle, s: Stage, l: Option<nat>, t: nat, clock: nat, b: Budget)
    requires OnCourse(o, s, l, t, 4, clock, b)
    ensures clock >= t && !Settles(o, s, l, t)
  {
    hide RoundFits, RoundPasses;
  }

  lemma WillingMeans(o: Oracle, from: nat)
    requires Willing(o, from)
    ensures forall t :: t >= from ==> !o.killed(t) && o.buildOk(t)
  {
  }

  lemma SteadyMeans(o: Oracle, s: Stage, l: Option<nat>, b: Budget, u: nat, t: nat, t': nat)
    requires Steady(o, s, l, b, u, t) && t <= t' && o.evaluation(o.built(s, u, l, Some(b)), t).Some?
    requires var used := o.evaluation(o.built(s, u, l, Some(b)), t).value; used.steps <= b.steps && used.memory <= b.memory
    ensures FitsFrom(o, o.built(s, u, l, Some(b)), b, t')
  {
  }

  lemma NeverConfirmed(o: Oracle, txid: string, t: nat)
    requires Answers(o, txid, t)
    ensures exists k: nat :: k < o.polls(t) && o.status(txid, t + 2 * k + 1) >= 2
  {
  }

  lemma KilledKeeps(o: Oracle, a: Disk, b: Disk, t: nat)
    requires Keeps(o, a, b, true) && b.clock < t && o.killed(b.clock)
    ensures Keeps(o, a, b.(clock := t), false)
  {
    if Ready(o, b) {
      ReadyMeans(o, b);
    }
    hide Ready, Keeps;
    Waited(o, b, t, false);
    StillKeeps(o, a, b, b.(clock := t), false);
  }

  lemma LockedStays(j: Journal, next: Journal, s: Stage)
    requires next == j.(stages := next.stages)
    ensures LockedFor(next, s) == LockedFor(j, s)
  {
  }

  lemma NothingBefore(s: Stage)
    requires s == Prep
    ensures forall p :: !Previous(p, s)
  {
  }

  /** A journal that only gained contents outside its signed stages. */
  ghost predicate SameStages(before: Option<Journal>, after: Journal) {
    if before.None? then after.stages == map[]
    else
      && before.value.stages == after.stages
      && forall s :: s in after.stages ==> LockedFor(after, s) == LockedFor(before.value, s)
  }

  lemma OnlyStage(i: nat)
    requires i < 6
    ensures forall s :: Rank(s) < i + 1 ==> Rank(s) < i || s == StageAt(i)
  {
  }

  lemma FiveRanks()
    ensures forall s :: Rank(s) < 6
  {
  }

  /** The amount is a ledger minimum asked for in this span. */
  ghost predicate WasMinimum(o: Oracle, from: nat, to: nat, amount: nat) {
    exists t: nat :: from <= t < to && amount == o.minUtxo(t)
  }

  lemma WasMinimumLater(o: Oracle, from: nat, to: nat, to': nat, amount: nat)
    requires WasMinimum(o, from, to, amount) && to <= to'
    ensures WasMinimum(o, from, to', amount)
  {
    var t: nat :| from <= t < to && amount == o.minUtxo(t);
    assert from <= t < to' && amount == o.minUtxo(t);
  }

  lemma NoNewStage(trace: seq<Effect>, journal: Option<Journal>, next: Journal)
    requires Safe(trace, journal) && SameStages(journal, next)
    ensures Safe(trace, Some(next))
  {
    hide JournaledBefore, ConfirmedBefore;
  }

  // ---- whole launches ----

  predicate OtherAddress(d: Disk, returnAddress: string) { d.journal.Some? && d.journal.value.returnAddress != returnAddress }

  /** What one launch does to the disk: it keeps what Keeps says, succeeds in a ready world unless the
      journal is for another address, and a journal it starts is for its own address. */
  ghost predicate IsLaunch(o: Oracle, returnAddress: string, before: Disk, r: Outcome, after: Disk) {
    && Keeps(o, before, after, r == Done || OtherAddress(before, returnAddress))
    && (before.journal.None? && after.journal.Some? ==> after.journal.value.returnAddress == returnAddress)
  }

  lemma LaunchHolds(o: Oracle, returnAddress: string, before: Disk, after: Disk, r: Outcome)
    requires Keeps(o, before, after, r == Done || OtherAddress(before, returnAddress))
    requires before.journal.None? && after.journal.Some? ==> after.journal.value.returnAddress == returnAddress
    ensures IsLaunch(o, returnAddress, before, r, after)
  {
  }

  lemma LaunchGoesOn(o: Oracle, returnAddress: string, before: Disk, start: Disk, after: Disk, r: Outcome)
    requires Keeps(o, before, start, true) && Keeps(o, start, after, r == Done)
    requires start.journal.Some? && start.journal.value.returnAddress == returnAddress
    ensures IsLaunch(o, returnAddress, before, r, after)
  {
    StillKeeps(o, before, start, after, r == Done);
    hide Ready, Intact;
  }

  /** The disk at the end of a log of launches; a new one at first. */
  function DiskAfter(log: seq<Effect>): Disk {
    if log != [] && log[|log| - 1].Ended? then log[|log| - 1].disk else Disk(None, map[], map[], 0)
  }

  /** A log of launches: each is a launch from the disk the one before left, with the signed files and
      receipts changed in any way in between. */
  ghost predicate LaunchLog(o: Oracle, addresses: seq<string>, outcomes: seq<Outcome>, tampered: nat -> Option<Files>, log: seq<Effect>)
  {
    && |addresses| == |outcomes| && |log| == 2 * |addresses|
    && (addresses != [] ==>
          var n := |addresses| - 1;
          && LaunchLog(o, addresses[..n], outcomes[..n], tampered, log[..2 * n])
          && LoggedLaunch(o, addresses[n], outcomes[n], Tampered(tampered(n), DiskAfter(log[..2 * n])), log[2 * n], log[2 * n + 1]))
  }

  ghost predicate LoggedLaunch(o: Oracle, address: string, outcome: Outcome, before: Disk, b: Effect, e: Effect) {
    b == Began(address, before) && e.Ended? && e.outcome == outcome && IsLaunch(o, address, before, outcome, e.disk)
  }

  datatype Files = Files(signed: map<Stage, SignedTx>, receipts: map<Stage, Receipt>)

  function Tampered(change: Option<Files>, d: Disk): Disk {
    if change.None? then d else Disk(d.journal, change.value.signed, change.value.receipts, d.clock)
  }

  lemma OneMoreLaunch(o: Oracle, addresses: seq<string>, outcomes: seq<Outcome>, tampered: nat -> Option<Files>, log: seq<Effect>,
                      address: string, r: Outcome, after: Disk)
    requires LaunchLog(o, addresses, outcomes, tampered, log)
    requires IsLaunch(o, address, Tampered(tampered(|addresses|), DiskAfter(log)), r, after)
    ensures var more := log + [Began(address, Tampered(tampered(|addresses|), DiskAfter(log))), Ended(r, after)];
            LaunchLog(o, addresses + [address], outcomes + [r], tampered, more) && DiskAfter(more) == after
  {
    hide IsLaunch, Tampered;
    var n, b, e := |addresses|, Began(address, Tampered(tampered(|addresses|), DiskAfter(log))), Ended(r, after);
    assert (log + [b, e])[..2 * n] == log;
    assert (addresses + [address])[..n] == addresses && (outcomes + [r])[..n] == outcomes;
  }

  lemma LogGrows(o: Oracle, addresses: seq<string>, i: nat, outcomes: seq<Outcome>, tampered: nat -> Option<Files>, log: seq<Effect>,
                 before: Disk, r: Outcome, after: Disk, next: seq<Effect>)
    requires i < |addresses| && LaunchLog(o, addresses[..i], outcomes, tampered, log) && before == DiskAfter(log)
    requires IsLaunch(o, addresses[i], Tampered(tampered(i), before), r, after)
    requires next == log + [Began(addresses[i], Tampered(tampered(i), before)), Ended(r, after)]
    ensures LaunchLog(o, addresses[..i + 1], outcomes + [r], tampered, next) && after == DiskAfter(next)
  {
    hide *;
    OneMoreLaunch(o, addresses[..i], outcomes, tampered, log, addresses[i], r, after);
    assert addresses[..i + 1] == addresses[..i] + [addresses[i]];
  }

  lemma NothingLogged(o: Oracle, tampered: nat -> Option<Files>)
    ensures LaunchLog(o, [], [], tampered, []) && DiskAfter([]) == Disk(None, map[], map[], 0)
  {
  }

  /** Any number of launches, each killed at any step, with the signed files and receipts changed in
      any way in between: what was done stays safe, and the trace logs each launch from disk to disk. */
  method Launches(oracle: Oracle, addresses: seq<string>, tampered: nat -> Option<Files>)
    returns (l: Launcher, outcomes: seq<Outcome>)
    ensures fresh(l) && l.Valid() && l.oracle == oracle
    ensures LaunchLog(oracle, addresses, outcomes, tampered, Markers(l.trace)) && l.OnDisk() == DiskAfter(Markers(l.trace))
  {
    l := new Launcher(oracle);
    outcomes := [];
    NothingLogged(oracle, tampered);
    assert Markers([]) == [];
    hide *;
    for i := 0 to |addresses|
      invariant fresh(l) && l.Valid() && l.oracle == oracle
      invariant LaunchLog(oracle, addresses[..i], outcomes, tampered, Markers(l.trace)) && l.OnDisk() == DiskAfter(Markers(l.trace))
    {
      ghost var log, before := Markers(l.trace), l.OnDisk();
      var r := l.NextLaunch(tampered(i), addresses[i]);
      LogGrows(oracle, addresses, i, outcomes, tampered, log, before, r, l.OnDisk(), Markers(l.trace));
      outcomes := outcomes + [r];
    }
    assert addresses[..|addresses|] == addresses;
  }

  /** With untouched files every signed stage stays intact, and the journal is for the one address. */
  lemma {:induction false} StaysIntact(o: Oracle, addresses: seq<string>, outcomes: seq<Outcome>, tampered: nat -> Option<Files>,
                                       log: seq<Effect>, address: string)
    requires LaunchLog(o, addresses, outcomes, tampered, log)
    requires forall j :: 0 <= j < |addresses| ==> tampered(j) == None && addresses[j] == address
    ensures Intact(o, DiskAfter(log)) && !OtherAddress(DiskAfter(log), address)
  {
    hide *;
    if addresses == [] {
      NothingOnDisk(o, addresses, outcomes, tampered, log, address);
    } else {
      var n := |addresses| - 1;
      LastLogged(o, addresses, outcomes, tampered, log);
      StaysIntact(o, addresses[..n], outcomes[..n], tampered, log[..2 * n], address);
      LaunchStaysIntact(o, address, DiskAfter(log[..2 * n]), outcomes[n], DiskAfter(log));
    }
  }

  lemma NothingOnDisk(o: Oracle, addresses: seq<string>, outcomes: seq<Outcome>, tampered: nat -> Option<Files>, log: seq<Effect>,
                      address: string)
    requires LaunchLog(o, addresses, outcomes, tampered, log) && addresses == []
    ensures Intact(o, DiskAfter(log)) && !OtherAddress(DiskAfter(log), address)
  {
  }

  /** The last launch of a log, when nothing was changed before it. */
  lemma LastLogged(o: Oracle, addresses: seq<string>, outcomes: seq<Outcome>, tampered: nat -> Option<Files>, log: seq<Effect>)
    requires LaunchLog(o, addresses, outcomes, tampered, log) && addresses != [] && tampered(|addresses| - 1) == None
    ensures var n := |addresses| - 1;
            && |outcomes| == n + 1 && |log| == 2 * n + 2
            && LaunchLog(o, addresses[..n], outcomes[..n], tampered, log[..2 * n])
            && IsLaunch(o, addresses[n], DiskAfter(log[..2 * n]), outcomes[n], DiskAfter(log))
  {
    hide IsLaunch;
  }

  lemma LaunchStaysIntact(o: Oracle, address: string, before: Disk, r: Outcome, after: Disk)
    requires IsLaunch(o, address, before, r, after) && Intact(o, before) && !OtherAddress(before, address)
    ensures Intact(o, after) && !OtherAddress(after, address)
  {
    hide Ready, StageIntact;
  }

  /** No crash leaves the launch stuck: whatever launches for one address were killed or failed before, with
      untouched files the next one ends in `Done` when the world is smooth from then on, the budgets of the
      signed stages suffice and the contract hashes are those in the journal. */
  lemma Resumption(o: Oracle, addresses: seq<string>, outcomes: seq<Outcome>, tampered: nat -> Option<Files>, log: seq<Effect>,
                   address: string)
    requires LaunchLog(o, addresses, outcomes, tampered, log) && addresses != []
    requires forall j :: 0 <= j < |addresses| ==> tampered(j) == None && addresses[j] == address
    requires var before := DiskAfter(log[..2 * (|addresses| - 1)]); Smooth(o, before.clock) && Agrees(o, before)
    ensures outcomes[|addresses| - 1] == Done
  {
    hide *;
    var n := |addresses| - 1;
    LastLogged(o, addresses, outcomes, tampered, log);
    StaysIntact(o, addresses[..n], outcomes[..n], tampered, log[..2 * n], address);
    ReadyLaunchEnds(o, address, DiskAfter(log[..2 * n]), outcomes[n], DiskAfter(log));
  }

  lemma ReadyLaunchEnds(o: Oracle, address: string, before: Disk, r: Outcome, after: Disk)
    requires IsLaunch(o, address, before, r, after) && !OtherAddress(before, address)
    requires Intact(o, before) && Smooth(o, before.clock) && Agrees(o, before)
    ensures r == Done
  {
    hide Intact, Smooth, Agrees;
  }

  // ---- a launch killed between signing the mint and sending it ----

  function NameOf(s: Stage): string {
    match s
    case Prep => "prep"
    case PublishMixBox => "publish_mix_box"
    case PublishMixLogic => "publish_mix_logic"
    case PublishFeeContract => "publish_fee_contract"
    case Register => "register"
    case Mint => "mint"
  }

  /** What the two scripts are measured to use: the mint more than the registration, of both. */
  function Need(x: SignedTx): Budget {
    if x == "mint" then Budget(2_000_000_000, 8_000_000) else Budget(1_000_000_000, 3_000_000)
  }

  /** Everything goes well; the mint is seen only some time after it is sent. */
  function CalmWorld(): Oracle {
    Oracle(
      killed := (t: nat) => false,
      status := (x: string, t: nat) => if x == "mint" && t < 100 then 0 else 2,
      built := (s: Stage, t: nat, l: Option<nat>, b: Option<Budget>) => NameOf(s),
      buildOk := (t: nat) => true,
      submitOk := (t: nat) => true,
      evaluation := (x: SignedTx, t: nat) => Some(Need(x)),
      limits := (t: nat) => Budget(10_000_000_000, 14_000_000),
      polls := (t: nat) => 100,
      checkOk := (t: nat) => true,
      hashes := (t: nat) => "",
      minUtxo := (t: nat) => 0,
      sha256 := (x: SignedTx) => x,
      txIdOf := (x: SignedTx) => x,
      locksOf := (x: string) => None)
  }

  function SignedStage(s: Stage): Record { Record(NameOf(s), NameOf(s)) }

  /** All stages are signed, each with its file, and nothing else is left to do but to send the mint. */
  function MintSigned(): Disk {
    Disk(Some(Journal("", map[Prep := SignedStage(Prep), PublishMixBox := SignedStage(PublishMixBox),
                              PublishMixLogic := SignedStage(PublishMixLogic), PublishFeeContract := SignedStage(PublishFeeContract),
                              Register := SignedStage(Register), Mint := SignedStage(Mint)], Some(""), map[])),
         map[Prep := NameOf(Prep), PublishMixBox := NameOf(PublishMixBox), PublishMixLogic := NameOf(PublishMixLogic),
             PublishFeeContract := NameOf(PublishFeeContract), Register := NameOf(Register), Mint := NameOf(Mint)],
         map[Register := Receipt("register", Headroom(Need("register"))), Mint := Receipt("mint", Headroom(Need("mint")))],
         0)
  }

  lemma CalmSettles(s: Stage, l: Option<nat>, t: nat)
    ensures Settles(CalmWorld(), s, l, t)
  {
    var o, need := CalmWorld(), Need(NameOf(s));
    assert Assigned(o, s, l, t, 0) == Budget(0, 0);
    assert Measured(o, s, l, t, 0, Budget(0, 0)) == Some(need);
    assert Assigned(o, s, l, t, 1) == Headroom(need);
    assert Measured(o, s, l, t, 1, Headroom(need)) == Some(need);
    assert !RoundFits(o, s, l, t, 0) && RoundPasses(o, s, l, t, 0);
    assert RoundFits(o, s, l, t, 1);
    assert RoundsPass(o, s, l, t, 1);
    assert SettlesIn(o, s, l, t, 1);
  }

  lemma CalmIsSmooth()
    ensures Smooth(CalmWorld(), 0)
  {
    var o := CalmWorld();
    forall t: nat, x: string ensures Answers(o, x, t) {
      assert 50 < o.polls(t) && o.status(x, t + 2 * 50 + 1) >= 2;
    }
    forall t: nat, s: Stage, l: Option<nat> ensures Settles(o, s, l, t) {
      CalmSettles(s, l, t);
    }
    hide Settles, Answers;
  }

  /** What Resumption asks for can hold when the launch died between signing the mint and sending it, the
      mint not known to the chain and costing more than the registration was ever assigned. */
  lemma MintMayCostMore()
    ensures var o, d := CalmWorld(), MintSigned();
            && Intact(o, d) && Smooth(o, d.clock) && Agrees(o, d)
            && o.status("mint", d.clock) == 0
            && o.evaluation(d.files[Mint], d.clock).value.steps > d.receipts[Register].budget.steps
            && o.evaluation(d.files[Mint], d.clock).value.memory > d.receipts[Register].budget.memory
  {
    CalmIsSmooth();
    hide Smooth;
    assert "mint" != "register";
  }
}
