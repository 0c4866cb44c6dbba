/** Wallet UTxOs threaded through a batch of unsigned transactions
    (offchain/src/strategy/orchestrator.ts:656-747, 794-873). */
module Wallet {
  import opened Options
  import opened Refs
  import opened Fanout

  /** `address` is `None` for an output whose address is not bech32. */
  datatype TxOutput = TxOutput(address: Option<string>, hasDatum: bool, hasScript: bool, amount: seq<(string, nat)>)

  datatype Tx = Tx(id: string, inputs: seq<UtxoRef>, outputs: seq<TxOutput>)

  datatype WalletUtxo = WalletUtxo(ref: UtxoRef, amount: seq<(string, nat)>)

  function Key(u: WalletUtxo): UtxoRef { LowerRef(u.ref) }

  function Keys(us: seq<WalletUtxo>): set<UtxoRef> { set u | u in us :: Key(u) }

  function Consumed(tx: Tx): set<UtxoRef> { LowerRefs(tx.inputs) }

  predicate IsChange(o: TxOutput, changeAddress: string) {
    o.address.Some? && Lower(o.address.value) == Lower(changeAddress) && !o.hasDatum && !o.hasScript
  }

  /** The change among the first outputs, in order. */
  function ChangeAmong(id: string, outputs: seq<TxOutput>, changeAddress: string): seq<WalletUtxo> {
    if outputs == [] then []
    else
      var i := |outputs| - 1;
      ChangeAmong(id, outputs[..i], changeAddress) +
      if IsChange(outputs[i], changeAddress) then [WalletUtxo(UtxoRef(Lower(id), i), outputs[i].amount)] else []
  }

  function ChangeOf(tx: Tx, changeAddress: string): seq<WalletUtxo> { ChangeAmong(tx.id, tx.outputs, changeAddress) }

  function Unspent(us: seq<WalletUtxo>, consumed: set<UtxoRef>): seq<WalletUtxo> {
    if us == [] then []
    else
      var last := us[|us| - 1];
      Unspent(us[..|us| - 1], consumed) + if Key(last) in consumed then [] else [last]
  }

  /** chainWalletUtxosAfterBuild (orchestrator.ts:794-873). */
  method ChainWalletUtxosAfterBuild(current: seq<WalletUtxo>, tx: Tx, changeAddress: string)
    returns (rolling: seq<WalletUtxo>, inFlightChange: seq<WalletUtxo>, consumedKeys: set<UtxoRef>)
    ensures consumedKeys == Consumed(tx)
    ensures inFlightChange == ChangeOf(tx, changeAddress)
    ensures rolling == Unspent(current, Consumed(tx)) + ChangeOf(tx, changeAddress)
  {
    consumedKeys := {};
    for i := 0 to |tx.inputs|
      invariant consumedKeys == LowerRefs(tx.inputs[..i])
    {
      assert tx.inputs[..i + 1] == tx.inputs[..i] + [tx.inputs[i]];
      consumedKeys := consumedKeys + {LowerRef(tx.inputs[i])};
    }
    assert tx.inputs[..|tx.inputs|] == tx.inputs;
    rolling := FilterUnspent(current, consumedKeys);
    ghost var kept := rolling;
    inFlightChange := [];
    hide LowerRefs, Unspent, Lower;
    for i := 0 to |tx.outputs|
      invariant inFlightChange == ChangeAmong(tx.id, tx.outputs[..i], changeAddress)
      invariant rolling == kept + inFlightChange
    {
      assert tx.outputs[..i + 1][..i] == tx.outputs[..i];
      var o := tx.outputs[i];
      if o.address.None? || Lower(o.address.value) != Lower(changeAddress) {
        continue;
      }
      if o.hasDatum || o.hasScript {
        continue;
      }
      rolling := rolling + [WalletUtxo(UtxoRef(Lower(tx.id), i), o.amount)];
      inFlightChange := inFlightChange + [WalletUtxo(UtxoRef(Lower(tx.id), i), o.amount)];
    }
    assert tx.outputs[..|tx.outputs|] == tx.outputs;
  }

  method FilterUnspent(us: seq<WalletUtxo>, consumed: set<UtxoRef>) returns (r: seq<WalletUtxo>)
    ensures r == Unspent(us, consumed)
  {
    r := [];
    for i := 0 to |us|
      invariant r == Unspent(us[..i], consumed)
    {
      assert us[..i + 1][..i] == us[..i];
      if Key(us[i]) !in consumed {
        r := r + [us[i]];
      }
    }
    assert us[..|us|] == us;
  }

  // ---- a whole batch ----

  function RollingAfter(initial: seq<WalletUtxo>, changeAddress: string, txs: seq<Tx>): seq<WalletUtxo> {
    if txs == [] then initial
    else
      var last := txs[|txs| - 1];
      Unspent(RollingAfter(initial, changeAddress, txs[..|txs| - 1]), Consumed(last)) + ChangeOf(last, changeAddress)
  }

  function WithAll(m: map<UtxoRef, WalletUtxo>, us: seq<WalletUtxo>): (r: map<UtxoRef, WalletUtxo>)
    ensures r.Keys == m.Keys + Keys(us)
  {
    if us == [] then m
    else
      assert us == us[..|us| - 1] + [us[|us| - 1]];
      WithAll(m, us[..|us| - 1])[Key(us[|us| - 1]) := us[|us| - 1]]
  }

  function InFlightAfter(changeAddress: string, txs: seq<Tx>): map<UtxoRef, WalletUtxo> {
    if txs == [] then map[]
    else
      var last := txs[|txs| - 1];
      WithAll(InFlightAfter(changeAddress, txs[..|txs| - 1]) - Consumed(last), ChangeOf(last, changeAddress))
  }

  /** The wallet of a batch: what the next build may spend, and the change not yet on chain. The
      builder may answer anything; it is told what was built before, the override (when one is
      passed) and the change in flight. */
  class WalletChain {
    const initial: seq<WalletUtxo>
    const changeAddress: string
    var rolling: seq<WalletUtxo>
    var inFlight: map<UtxoRef, WalletUtxo>
    var built: seq<Tx>

    ghost predicate Valid()
      reads this
    {
      rolling == RollingAfter(initial, changeAddress, built) && inFlight == InFlightAfter(changeAddress, built)
    }

    constructor (initial: seq<WalletUtxo>, changeAddress: string)
      ensures Valid() && built == [] && this.initial == initial && this.changeAddress == changeAddress
    {
      this.initial, this.changeAddress := initial, changeAddress;
      rolling, inFlight, built := initial, map[], [];
    }

    /** buildOnlyMix (orchestrator.ts:707-747). */
    method BuildOnly(underlying: (seq<Tx>, Option<seq<WalletUtxo>>, map<UtxoRef, WalletUtxo>) -> Option<Tx>)
      returns (tx: Option<Tx>)
      requires Valid()
      modifies `rolling, `inFlight, `built
      ensures Valid()
      ensures tx == underlying(old(built), PassedOverride(old(rolling)), old(inFlight))
      ensures built == if tx.None? then old(built) else old(built) + [tx.value]
    {
      hide Unspent, ChangeAmong, LowerRefs, Key, Keys;
      tx := underlying(built, PassedOverride(rolling), inFlight);
      if tx.None? {
        return;
      }
      var next, change, consumed := ChainWalletUtxosAfterBuild(rolling, tx.value, changeAddress);
      assert (built + [tx.value])[..|built|] == built;
      rolling := next;
      inFlight := inFlight - consumed;
      ghost var left := inFlight;
      for i := 0 to |change|
        invariant inFlight == WithAll(left, change[..i])
        modifies `inFlight
      {
        assert change[..i + 1][..i] == change[..i];
        inFlight := inFlight[Key(change[i]) := change[i]];
      }
      assert change[..|change|] == change;
      built := built + [tx.value];
    }
  }

  /** The override is passed only when the rolling set is not empty (orchestrator.ts:708-711). */
  function PassedOverride(rolling: seq<WalletUtxo>): Option<seq<WalletUtxo>> {
    if rolling == [] then None else Some(rolling)
  }

  // ---- conservation ----

  function AllConsumed(txs: seq<Tx>): set<UtxoRef> { set i, r | 0 <= i < |txs| && r in Consumed(txs[i]) :: r }

  function AllChange(changeAddress: string, txs: seq<Tx>): set<UtxoRef> {
    set i, r | 0 <= i < |txs| && r in Keys(ChangeOf(txs[i], changeAddress)) :: r
  }

  /** A transaction id is new: no earlier transaction has it, and neither the wallet nor any input up
      to and including the transaction's own names it. Ids are hashes of the transaction body. */
  ghost predicate NewIds(initial: seq<WalletUtxo>, txs: seq<Tx>) {
    forall i :: 0 <= i < |txs| ==>
      && (forall r :: r in Keys(initial) ==> r.txId != Lower(txs[i].id))
      && (forall j :: 0 <= j < i ==> Lower(txs[j].id) != Lower(txs[i].id))
      && (forall j, r :: 0 <= j <= i && r in Consumed(txs[j]) ==> r.txId != Lower(txs[i].id))
  }

  lemma {:induction false} UnspentKeys(us: seq<WalletUtxo>, consumed: set<UtxoRef>)
    ensures Keys(Unspent(us, consumed)) == Keys(us) - consumed
  {
    if us != [] {
      var front, last := us[..|us| - 1], us[|us| - 1];
      UnspentKeys(front, consumed);
      assert us == front + [last];
      KeysAppend(front, [last]);
      KeysAppend(Unspent(front, consumed), [last]);
      assert Keys([last]) == {Key(last)};
      assert Unspent(front, consumed) + [] == Unspent(front, consumed);
      hide Keys;
      assert Keys(us) == Keys(front) + {Key(last)};
    }
  }

  lemma KeysAppend(xs: seq<WalletUtxo>, ys: seq<WalletUtxo>)
    ensures Keys(xs + ys) == Keys(xs) + Keys(ys)
  {
  }

  lemma {:induction false} ChangeIds(id: string, outputs: seq<TxOutput>, changeAddress: string)
    ensures forall r :: r in Keys(ChangeAmong(id, outputs, changeAddress)) ==> r.txId == Lower(id)
  {
    if outputs != [] {
      var i := |outputs| - 1;
      ChangeIds(id, outputs[..i], changeAddress);
      LowerTwice(id);
      var front := ChangeAmong(id, outputs[..i], changeAddress);
      KeysAppend(front, [WalletUtxo(UtxoRef(Lower(id), i), outputs[i].amount)]);
      assert front + [] == front;
    }
  }

  lemma LowerTwice(s: string)
    ensures Lower(Lower(s)) == Lower(s)
  {
    forall i | 0 <= i < |s| ensures LowerChar(LowerChar(s[i])) == LowerChar(s[i]) {
    }
  }

  lemma SplitLast(changeAddress: string, txs: seq<Tx>)
    requires txs != []
    ensures var front, last := txs[..|txs| - 1], txs[|txs| - 1];
            && AllConsumed(txs) == AllConsumed(front) + Consumed(last)
            && AllChange(changeAddress, txs) == AllChange(changeAddress, front) + Keys(ChangeOf(last, changeAddress))
  {
    var n := |txs| - 1;
    assert forall i :: 0 <= i < n ==> txs[..n][i] == txs[i];
  }

  lemma NewIdsPrefix(initial: seq<WalletUtxo>, txs: seq<Tx>, n: nat)
    requires NewIds(initial, txs) && n <= |txs|
    ensures NewIds(initial, txs[..n])
  {
  }

  /** Change is new when it is made: nothing consumed so far names it. */
  lemma ChangeIsNew(initial: seq<WalletUtxo>, changeAddress: string, txs: seq<Tx>)
    requires NewIds(initial, txs) && txs != []
    ensures Keys(ChangeOf(txs[|txs| - 1], changeAddress)) !! AllConsumed(txs)
  {
    var last := txs[|txs| - 1];
    ChangeIds(last.id, last.outputs, changeAddress);
  }

  /** The rolling set is the initial UTxOs and all change, less everything consumed; the in-flight
      map is exactly the unspent change. */
  lemma {:induction false} WalletIsConserved(initial: seq<WalletUtxo>, changeAddress: string, txs: seq<Tx>)
    requires NewIds(initial, txs)
    ensures Keys(RollingAfter(initial, changeAddress, txs)) == Keys(initial) + AllChange(changeAddress, txs) - AllConsumed(txs)
    ensures InFlightAfter(changeAddress, txs).Keys == AllChange(changeAddress, txs) - AllConsumed(txs)
  {
    if txs != [] {
      hide NewIds, Consumed, ChangeOf, AllConsumed, AllChange, Keys, Unspent;
      var front, last := txs[..|txs| - 1], txs[|txs| - 1];
      NewIdsPrefix(initial, txs, |txs| - 1);
      WalletIsConserved(initial, changeAddress, front);
      SplitLast(changeAddress, txs);
      ChangeIsNew(initial, changeAddress, txs);
      UnspentKeys(RollingAfter(initial, changeAddress, front), Consumed(last));
      KeysAppend(Unspent(RollingAfter(initial, changeAddress, front), Consumed(last)), ChangeOf(last, changeAddress));
      Conserved(Keys(initial), AllChange(changeAddress, front), AllConsumed(front), Consumed(last), Keys(ChangeOf(last, changeAddress)));
      MapLess(InFlightAfter(changeAddress, front), Consumed(last));
    } else {
      assert AllChange(changeAddress, txs) == {} && AllConsumed(txs) == {};
    }
  }

  lemma MapLess<K, V>(m: map<K, V>, s: set<K>)
    ensures (m - s).Keys == m.Keys - s
  {
  }

  lemma Conserved<K>(initial: set<K>, change: set<K>, consumed: set<K>, spent: set<K>, made: set<K>)
    requires made !! consumed + spent
    ensures (initial + change - consumed) - spent + made == initial + (change + made) - (consumed + spent)
    ensures (change - consumed) - spent + made == (change + made) - (consumed + spent)
  {
  }

  lemma NothingLeft<K>(initial: set<K>, change: set<K>, consumed: set<K>)
    requires initial + change - consumed == {}
    ensures initial <= consumed
  {
    forall x | x in initial ensures x in consumed {
      assert x in consumed || x in initial + change - consumed;
    }
  }

  // ---- nothing is spent twice ----

  /** What the builder can reach for: the override, or else the wallet's own snapshot. */
  function Available(initial: seq<WalletUtxo>, changeAddress: string, txs: seq<Tx>): seq<WalletUtxo> {
    var rolling := RollingAfter(initial, changeAddress, txs);
    if PassedOverride(rolling).Some? then rolling else initial
  }

  /** Every transaction spends wallet UTxOs (initial or change of an earlier one) only from an
      override it was passed. */
  ghost predicate SpendsFromOverride(initial: seq<WalletUtxo>, changeAddress: string, txs: seq<Tx>) {
    forall i, r :: 0 <= i < |txs| && r in Consumed(txs[i]) && r in Keys(initial) + AllChange(changeAddress, txs[..i]) ==>
      PassedOverride(RollingAfter(initial, changeAddress, txs[..i])).Some? && r in Keys(RollingAfter(initial, changeAddress, txs[..i]))
  }

  /** No wallet UTxO, initial or change, is an input of two built transactions. */
  lemma WalletSpentOnce(initial: seq<WalletUtxo>, changeAddress: string, txs: seq<Tx>, i: nat, j: nat, r: UtxoRef)
    requires NewIds(initial, txs) && SpendsFromOverride(initial, changeAddress, txs)
    requires i < j < |txs| && r in Keys(initial) + AllChange(changeAddress, txs)
    ensures !(r in Consumed(txs[i]) && r in Consumed(txs[j]))
  {
    if r in Consumed(txs[j]) {
      KnownBefore(initial, changeAddress, txs, j, r);
      NewIdsPrefix(initial, txs, j);
      WalletIsConserved(initial, changeAddress, txs[..j]);
      assert r !in AllConsumed(txs[..j]);
      assert txs[..j][i] == txs[i];
    }
  }

  /** A wallet UTxO that a transaction spends was there before that transaction. */
  lemma KnownBefore(initial: seq<WalletUtxo>, changeAddress: string, txs: seq<Tx>, j: nat, r: UtxoRef)
    requires NewIds(initial, txs) && j < |txs| && r in Consumed(txs[j])
    requires r in Keys(initial) + AllChange(changeAddress, txs)
    ensures r in Keys(initial) + AllChange(changeAddress, txs[..j])
  {
    if r !in Keys(initial) {
      var m :| 0 <= m < |txs| && r in Keys(ChangeOf(txs[m], changeAddress));
      ChangeIds(txs[m].id, txs[m].outputs, changeAddress);
      assert m < j;
      assert txs[..j][m] == txs[m];
    }
  }

  /** After any batch, a builder that takes wallet UTxOs from where it is told is safe exactly when
      the rolling set is not empty (or the wallet was empty from the start): with an empty rolling set
      no override is passed, and the wallet's snapshot holds only spent UTxOs. */
  lemma NextBuildIsSafeIff(initial: seq<WalletUtxo>, changeAddress: string, txs: seq<Tx>)
    requires NewIds(initial, txs)
    ensures Keys(Available(initial, changeAddress, txs)) !! AllConsumed(txs) <==>
            RollingAfter(initial, changeAddress, txs) != [] || initial == []
  {
    hide RollingAfter, AllConsumed, AllChange, NewIds;
    WalletIsConserved(initial, changeAddress, txs);
    var rolling := RollingAfter(initial, changeAddress, txs);
    assert Keys([]) == {};
    if rolling != [] {
      hide Keys;
    } else {
      assert Available(initial, changeAddress, txs) == initial;
      NothingLeft(Keys(initial), AllChange(changeAddress, txs), AllConsumed(txs));
      if initial != [] {
        assert Key(initial[0]) in Keys(initial);
        hide Keys;
        assert Key(initial[0]) in Keys(initial) * AllConsumed(txs);
      }
    }
  }

  /** The unsafe case is reachable: one UTxO, spent without change, is what the next build is offered. */
  lemma SpentUtxoIsOfferedAgain(changeAddress: string)
    ensures exists initial, txs ::
              && |initial| == 1 && |txs| == 1 && NewIds(initial, txs) && SpendsFromOverride(initial, changeAddress, txs)
              && Available(initial, changeAddress, txs) == initial && Key(initial[0]) in AllConsumed(txs)
  {
    var u := WalletUtxo(UtxoRef("aa", 0), []);
    var tx := Tx("bb", [UtxoRef("aa", 0)], []);
    var initial, txs := [u], [tx];
    assert Lower("aa")[0] == 'a' && Lower("bb")[0] == 'b';
    assert Key(u) == LowerRef(UtxoRef("aa", 0));
    assert UtxoRef("aa", 0) in tx.inputs && Key(u) in Consumed(tx);
    assert txs[..0] == [];
    assert initial[..0] == [];
    assert RollingAfter(initial, changeAddress, []) == initial && u in initial;
    assert Unspent(initial, Consumed(tx)) == [];
    assert ChangeAmong("bb", [], changeAddress) == [];
    assert RollingAfter(initial, changeAddress, txs) == [];
    assert txs[0] == tx && Key(initial[0]) in AllConsumed(txs);
    assert SpendsFromOverride(initial, changeAddress, txs);
    assert NewIds(initial, txs);
  }
}
