/** One half (pool or fee shards) of the undo record a block builds while it is applied
    (backend/src/indexer/state.ts:150-226, 386-397). */
module UndoLog {
  import opened Options
  import opened Refs
  import opened IndexerTypes

  /** `added` and `removed` go into the stored record; `index` is the per-block map from a key
      to its position in `added`. */
  datatype MapLog<V> = MapLog(added: seq<UtxoRef>, index: map<UtxoRef, nat>, removed: seq<V>)

  /** `index` is the inverse of `added`. */
  ghost predicate Indexed<V>(log: MapLog<V>) {
    && (forall k :: k in log.index ==> log.index[k] < |log.added| && log.added[log.index[k]] == k)
    && (forall i :: 0 <= i < |log.added| ==> log.added[i] in log.index && log.index[log.added[i]] == i)
  }

  /** Put removed entries back, in order, each under its own key. */
  function Restore<V>(m: map<UtxoRef, V>, removed: seq<V>, key: V -> UtxoRef): map<UtxoRef, V> {
    if removed == [] then m
    else
      var e := removed[|removed| - 1];
      Restore(m, removed[..|removed| - 1], key)[key(e) := e]
  }

  function Undo<V>(m: map<UtxoRef, V>, added: seq<UtxoRef>, removed: seq<V>, key: V -> UtxoRef): map<UtxoRef, V> {
    Restore(m - Elements(added), removed, key)
  }

  /** The log undoes `m` to `m0`. An entry removed in this block is only back if it was added again. */
  ghost predicate Tracks<V(!new)>(m0: map<UtxoRef, V>, m: map<UtxoRef, V>, log: MapLog<V>, key: V -> UtxoRef) {
    && Indexed(log)
    && Undo(m, log.added, log.removed, key) == m0
    && KeyedBy(m, key)
    && (forall k :: k in log.added ==> k in m)
    && (forall e :: e in log.removed && key(e) in m ==> key(e) in log.added)
  }

  lemma {:induction false} RestoreOver<V>(m: map<UtxoRef, V>, removed: seq<V>, key: V -> UtxoRef, k: UtxoRef, e: V)
    requires k in m && m[k] == e
    requires forall x :: x in removed ==> key(x) != k
    ensures Restore(m - {k}, removed, key)[k := e] == Restore(m, removed, key)
  {
    if removed == [] {
      assert (m - {k})[k := e] == m;
    } else {
      RestoreOver(m, removed[..|removed| - 1], key, k, e);
    }
  }

  function Without<T>(s: seq<T>, at: nat): seq<T>
    requires at < |s|
  {
    s[..at] + s[at + 1..]
  }

  /** Shifting every later position by one keeps `index` the inverse of the spliced `added`. */
  lemma SpliceKeepsIndex<V>(log: MapLog<V>, k: UtxoRef, r: MapLog<V>)
    requires Indexed(log) && k in log.index
    requires r.added == Without(log.added, log.index[k])
    requires r.index.Keys == log.index.Keys - {k}
    requires forall j :: j in r.index ==>
               r.index[j] == if log.index[j] > log.index[k] then log.index[j] - 1 else log.index[j]
    ensures Indexed(r)
    ensures Elements(r.added) == Elements(log.added) - {k}
  {
    var at := log.index[k];
    forall i | 0 <= i < |r.added| ensures r.added[i] in r.index && r.index[r.added[i]] == i {
      assert r.added[i] == log.added[if i < at then i else i + 1];
    }
    forall j | j in r.index ensures r.index[j] < |r.added| && r.added[r.index[j]] == j {
      assert log.added[log.index[j]] == j;
    }
    forall x ensures x in r.added <==> x in log.added && x != k {
      if x in log.added && x != k {
        assert x in r.index && r.added[r.index[x]] == x;
      }
    }
  }

  /** state.ts:198-208: drop a transient output and shift the later positions left. */
  method DropTransient<V>(log: MapLog<V>, k: UtxoRef) returns (r: MapLog<V>)
    requires Indexed(log) && k in log.index
    ensures Indexed(r) && r.removed == log.removed
    ensures Elements(r.added) == Elements(log.added) - {k}
  {
    var addedAt := log.index[k];
    var rest := log.index - {k};
    var index := rest;
    var todo := rest.Keys;
    while todo != {}
      invariant todo <= rest.Keys == index.Keys
      invariant forall j :: j in todo ==> index[j] == rest[j]
      invariant forall j :: j in rest && j !in todo ==>
                  index[j] == if rest[j] > addedAt then rest[j] - 1 else rest[j]
    {
      var j :| j in todo;
      if index[j] > addedAt {
        index := index[j := index[j] - 1];
      }
      todo := todo - {j};
    }
    r := MapLog(Without(log.added, addedAt), index, log.removed);
    SpliceKeepsIndex(log, k, r);
  }

  /** The consumption of one input against one of the two maps (state.ts:194-212, 213-226). */
  method TakeOut<V(!new)>(m: map<UtxoRef, V>, log: MapLog<V>, k: UtxoRef, ghost key: V -> UtxoRef, ghost m0: map<UtxoRef, V>)
    returns (m': map<UtxoRef, V>, log': MapLog<V>)
    requires Tracks(m0, m, log, key)
    ensures m' == m - {k}
    ensures Tracks(m0, m', log', key)
  {
    m', log' := m, log;
    if k in m {
      var entry := m[k];
      m' := m - {k};
      if k in log.index {
        log' := DropTransient(log, k);
        assert m' - Elements(log'.added) == m - Elements(log.added);
      } else {
        log' := MapLog(log.added, log.index, log.removed + [entry]);
        assert log'.removed[..|log.removed|] == log.removed;
        assert m' - Elements(log.added) == (m - Elements(log.added)) - {k};
        RestoreOver(m - Elements(log.added), log.removed, key, k, entry);
      }
    } else {
      assert m' == m - {k};
    }
  }

  /** The creation of one output in one of the two maps (state.ts:249-253, 260-268). */
  method PutIn<V(!new)>(m: map<UtxoRef, V>, log: MapLog<V>, k: UtxoRef, e: V, ghost key: V -> UtxoRef, ghost m0: map<UtxoRef, V>)
    returns (m': map<UtxoRef, V>, log': MapLog<V>)
    requires Tracks(m0, m, log, key) && k !in m && key(e) == k
    ensures m' == m[k := e]
    ensures Tracks(m0, m', log', key)
  {
    m' := m[k := e];
    log' := MapLog(log.added + [k], log.index[k := |log.added|], log.removed);
    assert Elements(log'.added) == Elements(log.added) + {k};
    assert m' - Elements(log'.added) == m - Elements(log.added);
  }

  ghost predicate KeyedBy<V>(m: map<UtxoRef, V>, key: V -> UtxoRef) {
    forall k :: k in m ==> key(m[k]) == k
  }

  lemma {:induction false} RestoreKeyed<V>(m: map<UtxoRef, V>, removed: seq<V>, key: V -> UtxoRef)
    requires KeyedBy(m, key)
    ensures KeyedBy(Restore(m, removed, key), key)
  {
    if removed != [] {
      RestoreKeyed(m, removed[..|removed| - 1], key);
    }
  }

  /** One map's share of unwindLast (state.ts:390-397): deletions, then restorations. */
  method Unwind<V>(m: map<UtxoRef, V>, added: seq<UtxoRef>, removed: seq<V>, key: V -> UtxoRef) returns (r: map<UtxoRef, V>)
    requires KeyedBy(m, key)
    ensures r == Undo(m, added, removed, key)
    ensures KeyedBy(r, key)
  {
    r := m;
    for i := 0 to |added|
      invariant r == m - Elements(added[..i])
    {
      r := r - {added[i]};
    }
    assert added[..|added|] == added;
    for i := 0 to |removed|
      invariant r == Restore(m - Elements(added), removed[..i], key)
    {
      assert removed[..i + 1][..i] == removed[..i];
      r := r[key(removed[i]) := removed[i]];
    }
    assert removed[..|removed|] == removed;
    RestoreKeyed(m - Elements(added), removed, key);
  }
}
