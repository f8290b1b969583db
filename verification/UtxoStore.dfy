// The stores of mobilecoind working inside one LMDB write transaction: the
// UTXO store with its three tables, and the processed-block store, whose
// cursor walks run in the byte order of the encoded keys.

module UtxoStore {
  import opened Common
  import opened Keys
  import opened Wallet

  /** An open read-write transaction: private tables until the caller commits. */
  class RwTransaction {
    var tables: Tables

    constructor (committed: Tables)
      ensures tables == committed
    {
      tables := committed;
    }
  }

  function DupsOf(t: Tables, key: MonitorKey): set<KeyImage> {
    set p | p in t.subaddressToUtxoId && p.0 == key :: p.1
  }

  method AppendUtxo(txn: RwTransaction, id: MonitorId, index: U64, utxo: UnspentTxOut) returns (r: Result<(), Error>)
    requires IndicesAgree(txn.tables)
    modifies txn
    ensures IndicesAgree(txn.tables)
    ensures r == if index != utxo.subaddressIndex then Err(InvalidArgument)
                 else if utxo.keyImage in old(txn.tables.utxos) then Err(DuplicateUnspentTxOut)
                 else Ok(())
    ensures txn.tables == if r.Ok? then Appended(old(txn.tables), id, utxo) else old(txn.tables)
  {
    var key := MonitorKey(id, index);
    if index != utxo.subaddressIndex {
      return Err(InvalidArgument);
    }
    if utxo.keyImage in txn.tables.utxos {
      return Err(DuplicateUnspentTxOut);
    }
    AppendedAgrees(txn.tables, id, utxo);
    txn.tables := txn.tables.(utxos := txn.tables.utxos[utxo.keyImage := utxo]);
    if utxo.keyImage in txn.tables.keyImageToSubaddress {
      return Err(LmdbKeyExist);
    }
    txn.tables := txn.tables.(keyImageToSubaddress := txn.tables.keyImageToSubaddress[utxo.keyImage := key]);
    if (key, utxo.keyImage) in txn.tables.subaddressToUtxoId {
      return Err(LmdbKeyExist);
    }
    txn.tables := txn.tables.(subaddressToUtxoId := txn.tables.subaddressToUtxoId + {(key, utxo.keyImage)});
    return Ok(());
  }

  /** Deletes one output from the two maps; the LMDB delete fails on a missing key. */
  method DeleteUtxo(txn: RwTransaction, k: KeyImage) returns (r: Result<(), Error>)
    requires txn.tables.keyImageToSubaddress.Keys == txn.tables.utxos.Keys
    modifies txn
    ensures r.Ok? <==> k in old(txn.tables.utxos)
    ensures txn.tables == old(txn.tables).(utxos := old(txn.tables.utxos) - {k},
                                           keyImageToSubaddress := old(txn.tables.keyImageToSubaddress) - {k})
  {
    if k !in txn.tables.utxos {
      assert txn.tables.utxos - {k} == txn.tables.utxos;
      assert txn.tables.keyImageToSubaddress - {k} == txn.tables.keyImageToSubaddress;
      return Err(LmdbNotFound);
    }
    txn.tables := txn.tables.(utxos := txn.tables.utxos - {k});
    if k !in txn.tables.keyImageToSubaddress {
      return Err(LmdbNotFound);
    }
    txn.tables := txn.tables.(keyImageToSubaddress := txn.tables.keyImageToSubaddress - {k});
    return Ok(());
  }

  method DeleteUtxos(txn: RwTransaction, ids: set<KeyImage>) returns (r: Result<(), Error>)
    requires txn.tables.keyImageToSubaddress.Keys == txn.tables.utxos.Keys
    requires ids <= txn.tables.utxos.Keys
    modifies txn
    ensures r == Ok(())
    ensures txn.tables == old(txn.tables).(utxos := old(txn.tables.utxos) - ids,
                                           keyImageToSubaddress := old(txn.tables.keyImageToSubaddress) - ids)
  {
    var todo := ids;
    ghost var t := txn.tables;
    assert t.utxos - {} == t.utxos && t.keyImageToSubaddress - {} == t.keyImageToSubaddress;
    while todo != {}
      invariant todo <= ids
      invariant txn.tables == t.(utxos := t.utxos - (ids - todo), keyImageToSubaddress := t.keyImageToSubaddress - (ids - todo))
      decreases |todo|
    {
      var k :| k in todo;
      var deleted := DeleteUtxo(txn, k);
      if deleted.Err? {
        return deleted;
      }
      assert ids - (todo - {k}) == (ids - todo) + {k};
      todo := todo - {k};
    }
    assert ids - todo == ids;
    return Ok(());
  }

  lemma DroppingAList(t: Tables, key: MonitorKey)
    requires IndicesAgree(t)
    ensures DupsOf(t, key) <= t.utxos.Keys
    ensures (set p | p in t.subaddressToUtxoId && p.0 != key) == set p | p in t.subaddressToUtxoId && p.1 !in DupsOf(t, key)
  {
    forall p | p in t.subaddressToUtxoId
      ensures p.0 == key <==> p.1 in DupsOf(t, key)
    {
    }
  }

  method RemoveUtxos(txn: RwTransaction, id: MonitorId, index: U64) returns (r: Result<(), Error>)
    requires IndicesAgree(txn.tables)
    modifies txn
    ensures r == Ok(())
    ensures IndicesAgree(txn.tables)
    ensures txn.tables == Dropped(old(txn.tables), DupsOf(old(txn.tables), MonitorKey(id, index)))
  {
    var key := MonitorKey(id, index);
    var utxoIds := DupsOf(txn.tables, key);
    DroppingAList(txn.tables, key);
    DroppedAgrees(txn.tables, utxoIds);
    r := DeleteUtxos(txn, utxoIds);
    if utxoIds != {} && DupsOf(txn.tables, key) == {} {
      return Err(LmdbNotFound);
    }
    txn.tables := txn.tables.(subaddressToUtxoId := set p | p in txn.tables.subaddressToUtxoId && p.0 != key);
  }

  ghost predicate InGroup(groups: map<MonitorKey, seq<KeyImage>>, key: MonitorKey, k: KeyImage) {
    key in groups && k in groups[key]
  }

  /** The monitor's key images of the list, sorted by the subaddress that owns them. */
  ghost predicate Grouped(t: Tables, id: MonitorId, spent: seq<KeyImage>, groups: map<MonitorKey, seq<KeyImage>>) {
    && (forall key, k :: InGroup(groups, key, k) ==> k in spent && Owns(t, id, k) && t.keyImageToSubaddress[k] == key)
    && (forall k :: k in spent && Owns(t, id, k) ==> InGroup(groups, t.keyImageToSubaddress[k], k))
  }

  lemma GroupedSnoc(t: Tables, id: MonitorId, spent: seq<KeyImage>, groups: map<MonitorKey, seq<KeyImage>>, k: KeyImage, after: map<MonitorKey, seq<KeyImage>>)
    requires Grouped(t, id, spent, groups)
    requires Owns(t, id, k)
    requires forall key, j :: InGroup(after, key, j) <==> InGroup(groups, key, j) || (key == t.keyImageToSubaddress[k] && j == k)
    ensures Grouped(t, id, spent + [k], after)
  {
  }

  method GroupKeyImages(t: Tables, id: MonitorId, spent: seq<KeyImage>) returns (groups: map<MonitorKey, seq<KeyImage>>)
    ensures Grouped(t, id, spent, groups)
  {
    groups := map[];
    for i := 0 to |spent|
      invariant Grouped(t, id, spent[..i], groups)
    {
      var k := spent[i];
      assert spent[..i + 1] == spent[..i] + [k];
      if k in t.keyImageToSubaddress && t.keyImageToSubaddress[k].monitorId == id {
        var key := t.keyImageToSubaddress[k];
        ghost var before := groups;
        groups := groups[key := (if key in groups then groups[key] else []) + [k]];
        GroupedSnoc(t, id, spent[..i], before, k, groups);
      }
    }
    assert spent[..|spent|] == spent;
  }

  /** The tables with some key images taken off one subaddress' list. */
  function OffList(t: Tables, key: MonitorKey, ks: set<KeyImage>): Tables {
    t.(subaddressToUtxoId := set p | p in t.subaddressToUtxoId && !(p.0 == key && p.1 in ks))
  }

  lemma OffListStep(t: Tables, key: MonitorKey, ks: set<KeyImage>, k: KeyImage)
    ensures OffList(t, key, {}) == t
    ensures OffList(t, key, ks + {k}).subaddressToUtxoId == OffList(t, key, ks).subaddressToUtxoId - {(key, k)}
  {
    assert OffList(t, key, {}).subaddressToUtxoId == t.subaddressToUtxoId;
  }

  /** Deletes the listed key images from one subaddress' list, as the cursor meets them. */
  method DeleteDups(txn: RwTransaction, key: MonitorKey, kis: seq<KeyImage>) returns (removed: seq<KeyImage>)
    modifies txn
    ensures Distinct(removed)
    ensures Elements(removed) == DupsOf(old(txn.tables), key) * Elements(kis)
    ensures txn.tables == OffList(old(txn.tables), key, Elements(removed))
  {
    removed := [];
    var all := DupsOf(txn.tables, key);
    var todo := all;
    ghost var t := txn.tables;
    OffListStep(t, key, {}, KeyImage(0));
    while todo != {}
      invariant todo <= all
      invariant Distinct(removed)
      invariant Elements(removed) == (all - todo) * Elements(kis)
      invariant txn.tables == OffList(t, key, Elements(removed))
      decreases |todo|
    {
      var k :| k in todo;
      if k in kis {
        DistinctSnoc(removed, k);
        OffListStep(t, key, Elements(removed), k);
        removed := removed + [k];
        txn.tables := txn.tables.(subaddressToUtxoId := txn.tables.subaddressToUtxoId - {(key, k)});
      }
      todo := todo - {k};
    }
  }

  lemma DistinctSnoc<T>(s: seq<T>, x: T)
    requires Distinct(s) && x !in Elements(s)
    ensures Distinct(s + [x]) && Elements(s + [x]) == Elements(s) + {x}
  {
  }

  lemma DistinctConcat<T>(a: seq<T>, b: seq<T>)
    requires Distinct(a) && Distinct(b) && Elements(a) !! Elements(b)
    ensures Distinct(a + b) && Elements(a + b) == Elements(a) + Elements(b)
  {
    forall i, j | 0 <= i < j < |a + b|
      ensures (a + b)[i] != (a + b)[j]
    {
      if i < |a| <= j {
        assert a[i] in Elements(a) && b[j - |a|] in Elements(b);
      }
    }
  }

  /** The part of `gone` that hangs off the given subaddresses. */
  ghost function GoneUnder(t: Tables, gone: set<KeyImage>, keys: set<MonitorKey>): set<KeyImage>
    requires gone <= t.keyImageToSubaddress.Keys
  {
    set k | k in gone && t.keyImageToSubaddress[k] in keys
  }

  lemma GroupIsGone(t: Tables, mid: Tables, id: MonitorId, spent: seq<KeyImage>, groups: map<MonitorKey, seq<KeyImage>>, key: MonitorKey)
    requires IndicesAgree(t) && Grouped(t, id, spent, groups) && key in groups
    requires forall k :: (key, k) in mid.subaddressToUtxoId <==> (key, k) in t.subaddressToUtxoId
    ensures DupsOf(mid, key) * Elements(groups[key]) == GoneUnder(t, SpentIn(t, id, spent), {key})
  {
    forall k
      ensures k in DupsOf(mid, key) * Elements(groups[key]) <==> k in GoneUnder(t, SpentIn(t, id, spent), {key})
    {
      assert InGroup(groups, key, k) <==> k in Elements(groups[key]);
      assert k in DupsOf(mid, key) <==> (key, k) in mid.subaddressToUtxoId;
      assert (key, k) in t.subaddressToUtxoId <==> k in t.keyImageToSubaddress && t.keyImageToSubaddress[k] == key;
    }
  }

  /** The tables with some key images taken off every list. */
  function OffLists(t: Tables, ks: set<KeyImage>): Tables {
    t.(subaddressToUtxoId := set p | p in t.subaddressToUtxoId && p.1 !in ks)
  }

  lemma OffListsStep(t: Tables, done: set<KeyImage>, key: MonitorKey, batch: set<KeyImage>)
    requires IndicesAgree(t)
    requires forall k :: k in batch ==> k in t.keyImageToSubaddress && t.keyImageToSubaddress[k] == key
    ensures OffList(OffLists(t, done), key, batch) == OffLists(t, done + batch)
  {
    assert OffList(OffLists(t, done), key, batch).subaddressToUtxoId == OffLists(t, done + batch).subaddressToUtxoId;
  }

  lemma ListUntouched(t: Tables, done: set<KeyImage>, key: MonitorKey, k: KeyImage)
    requires IndicesAgree(t)
    requires forall j :: j in done ==> j in t.keyImageToSubaddress && t.keyImageToSubaddress[j] != key
    ensures (key, k) in OffLists(t, done).subaddressToUtxoId <==> (key, k) in t.subaddressToUtxoId
  {
  }

  /** First pass of the removal: take every spent output off its subaddress' list. */
  method DeleteSpentDups(txn: RwTransaction, id: MonitorId, spent: seq<KeyImage>) returns (removed: seq<KeyImage>)
    requires IndicesAgree(txn.tables)
    modifies txn
    ensures Distinct(removed)
    ensures Elements(removed) == SpentIn(old(txn.tables), id, spent)
    ensures txn.tables == OffLists(old(txn.tables), Elements(removed))
  {
    var groups := GroupKeyImages(txn.tables, id, spent);
    removed := [];
    var todo := groups.Keys;
    ghost var t := txn.tables;
    ghost var gone := SpentIn(t, id, spent);
    assert OffLists(t, {}).subaddressToUtxoId == t.subaddressToUtxoId;
    while todo != {}
      invariant todo <= groups.Keys
      invariant Distinct(removed)
      invariant Elements(removed) == GoneUnder(t, gone, groups.Keys - todo)
      invariant txn.tables == OffLists(t, Elements(removed))
      decreases |todo|
    {
      var key :| key in todo;
      forall k
        ensures (key, k) in txn.tables.subaddressToUtxoId <==> (key, k) in t.subaddressToUtxoId
      {
        ListUntouched(t, Elements(removed), key, k);
      }
      GroupIsGone(t, txn.tables, id, spent, groups, key);
      var batch := DeleteDups(txn, key, groups[key]);
      OffListsStep(t, Elements(removed), key, Elements(batch));
      DistinctConcat(removed, batch);
      assert GoneUnder(t, gone, groups.Keys - (todo - {key})) ==
             GoneUnder(t, gone, groups.Keys - todo) + GoneUnder(t, gone, {key});
      removed := removed + batch;
      todo := todo - {key};
    }
    assert GoneUnder(t, gone, groups.Keys) == gone by {
      forall k | k in gone
        ensures t.keyImageToSubaddress[k] in groups
      {
        assert Owns(t, id, k);
        assert InGroup(groups, t.keyImageToSubaddress[k], k);
      }
    }
  }

  /** Second pass: delete the outputs themselves, collecting what they were. */
  method DeleteCollecting(txn: RwTransaction, removed: seq<KeyImage>) returns (r: Result<seq<UnspentTxOut>, Error>)
    requires Distinct(removed) && Elements(removed) <= txn.tables.utxos.Keys
    requires txn.tables.keyImageToSubaddress.Keys == txn.tables.utxos.Keys
    modifies txn
    ensures txn.tables == old(txn.tables).(utxos := old(txn.tables).utxos - Elements(removed),
                                           keyImageToSubaddress := old(txn.tables).keyImageToSubaddress - Elements(removed))
    ensures r.Ok? && |r.value| == |removed|
    ensures forall j :: 0 <= j < |removed| ==> removed[j] in old(txn.tables).utxos && r.value[j] == old(txn.tables).utxos[removed[j]]
  {
    ghost var t := txn.tables;
    var removedUtxos := [];
    assert t.utxos - Elements(removed[..0]) == t.utxos && t.keyImageToSubaddress - Elements(removed[..0]) == t.keyImageToSubaddress;
    for i := 0 to |removed|
      invariant |removedUtxos| == i
      invariant forall j :: 0 <= j < i ==> removed[j] in t.utxos && removedUtxos[j] == t.utxos[removed[j]]
      invariant txn.tables == t.(utxos := t.utxos - Elements(removed[..i]),
                                 keyImageToSubaddress := t.keyImageToSubaddress - Elements(removed[..i]))
    {
      var k := removed[i];
      assert removed[..i + 1] == removed[..i] + [k];
      assert k in Elements(removed) && k !in removed[..i];
      if k !in txn.tables.utxos {
        return Err(UtxoIdNotFound);
      }
      removedUtxos := removedUtxos + [txn.tables.utxos[k]];
      var deleted := DeleteUtxo(txn, k);
      if deleted.Err? {
        return Err(LmdbNotFound);
      }
    }
    assert removed[..|removed|] == removed;
    return Ok(removedUtxos);
  }

  method RemoveUtxosByKeyImages(txn: RwTransaction, id: MonitorId, spent: seq<KeyImage>)
    returns (r: Result<seq<UnspentTxOut>, Error>)
    requires IndicesAgree(txn.tables)
    modifies txn
    ensures IndicesAgree(txn.tables)
    ensures txn.tables == Dropped(old(txn.tables), SpentIn(old(txn.tables), id, spent))
    ensures r.Ok?
    ensures Elements(r.value) == set k | k in SpentIn(old(txn.tables), id, spent) :: old(txn.tables.utxos)[k]
    ensures |r.value| == |SpentIn(old(txn.tables), id, spent)|
  {
    ghost var t := txn.tables;
    ghost var gone := SpentIn(t, id, spent);
    var removed := DeleteSpentDups(txn, id, spent);
    DistinctCardinality(removed);
    r := DeleteCollecting(txn, removed);
    DroppedAgrees(t, gone);
    assert txn.tables == Dropped(t, gone);
    RemovedValues(t, removed, r.value);
  }

  lemma RemovedValues(t: Tables, removed: seq<KeyImage>, us: seq<UnspentTxOut>)
    requires |us| == |removed|
    requires forall j :: 0 <= j < |removed| ==> removed[j] in t.utxos && us[j] == t.utxos[removed[j]]
    ensures Elements(us) == set k | k in Elements(removed) && k in t.utxos :: t.utxos[k]
  {
    forall k | k in removed
      ensures k in t.utxos && t.utxos[k] in us
    {
      var j :| 0 <= j < |removed| && removed[j] == k;
    }
  }

  lemma UpdateStep(t: Tables, ids: seq<KeyImage>, k: KeyImage, height: U64, tombstone: U64)
    ensures Marked(t, Elements([]), height, tombstone) == t
    ensures var mid := Marked(t, Elements(ids), height, tombstone);
            Marked(t, Elements(ids + [k]), height, tombstone) ==
            if k in t.utxos then
              mid.(utxos := mid.utxos[k := mid.utxos[k].(attemptedSpendHeight := height, attemptedSpendTombstone := tombstone)])
            else mid
  {
    assert Marked(t, Elements([]), height, tombstone).utxos == t.utxos;
    var mid := Marked(t, Elements(ids), height, tombstone);
    var after := Marked(t, Elements(ids + [k]), height, tombstone);
    assert after.utxos == if k in t.utxos then
      mid.utxos[k := mid.utxos[k].(attemptedSpendHeight := height, attemptedSpendTombstone := tombstone)] else mid.utxos;
  }

  method UpdateAttemptedSpend(txn: RwTransaction, ids: seq<KeyImage>, height: U64, tombstone: U64)
    requires MayUpdate(txn.tables, ids, height, tombstone)
    modifies txn
    ensures txn.tables == Marked(old(txn.tables), Elements(ids), height, tombstone)
  {
    ghost var t := txn.tables;
    UpdateStep(t, [], KeyImage(0), height, tombstone);
    for i := 0 to |ids|
      invariant txn.tables == Marked(t, Elements(ids[..i]), height, tombstone)
    {
      var k := ids[i];
      assert ids[..i + 1] == ids[..i] + [k];
      UpdateStep(t, ids[..i], k, height, tombstone);
      if k !in txn.tables.utxos {
        continue;
      }
      var utxo := txn.tables.utxos[k];
      assert height >= utxo.attemptedSpendHeight;
      assert tombstone >= height;
      utxo := utxo.(attemptedSpendHeight := height, attemptedSpendTombstone := tombstone);
      txn.tables := txn.tables.(utxos := txn.tables.utxos[k := utxo]);
    }
    assert ids[..|ids|] == ids;
  }

  /** Keys a cursor opened at (id, 0) can still reach. */
  ghost function KeysFrom(keys: set<MonitorKey>, id: MonitorId): set<MonitorKey> {
    set k | k in keys && !Precedes(k, MonitorKey(id, 0))
  }

  /** What the walk has collected: the lists of the monitor's keys it has passed. */
  ghost predicate Collected(t: Tables, id: MonitorId, passed: set<MonitorKey>, ids: set<KeyImage>) {
    forall k :: k in ids <==> Owns(t, id, k) && t.keyImageToSubaddress[k] in passed
  }

  lemma CollectedStep(t: Tables, id: MonitorId, passed: set<MonitorKey>, ids: set<KeyImage>, key: MonitorKey)
    requires IndicesAgree(t) && Collected(t, id, passed, ids)
    ensures Collected(t, id, passed + {key}, if key.monitorId == id then ids + DupsOf(t, key) else ids)
  {
    forall k
      ensures k in DupsOf(t, key) <==> k in t.keyImageToSubaddress && t.keyImageToSubaddress[k] == key
    {
      assert k in DupsOf(t, key) <==> (key, k) in t.subaddressToUtxoId;
    }
  }

  /** get_utxo_ids_for_monitor_id: walks the subaddress lists from (id, 0). */
  method GetUtxoIdsForMonitor(t: Tables, id: MonitorId) returns (ids: set<KeyImage>)
    requires IndicesAgree(t)
    ensures ids == OwnedBy(t, id)
  {
    ids := {};
    var keys := set p | p in t.subaddressToUtxoId :: p.0;
    var ahead := OpenCursor(keys, MonitorKey(id, 0));
    ghost var passed := {};
    while ahead != {}
      invariant ahead + passed == KeysFrom(keys, id)
      invariant Collected(t, id, passed, ids)
      decreases |ahead|
    {
      var key := NextKey(ahead);
      CollectedStep(t, id, passed, ids, key);
      if key.monitorId == id {
        ids := ids + DupsOf(t, key);
      }
      passed := passed + {key};
      ahead := ahead - {key};
    }
    forall k | k in OwnedBy(t, id)
      ensures k in ids
    {
      assert (t.keyImageToSubaddress[k], k) in t.subaddressToUtxoId;
    }
  }

  function WithoutKeys(t: Tables, keys: set<MonitorKey>): Tables {
    t.(processed := set p | p in t.processed && p.0 !in keys)
  }

  lemma WithoutKeysStep(t: Tables, keys: set<MonitorKey>, key: MonitorKey)
    ensures WithoutKeys(t, {}) == t
    ensures WithoutKeys(WithoutKeys(t, keys), {key}) == WithoutKeys(t, keys + {key})
  {
    assert WithoutKeys(t, {}).processed == t.processed;
    assert WithoutKeys(WithoutKeys(t, keys), {key}).processed == WithoutKeys(t, keys + {key}).processed;
  }

  /** Having deleted keys of the monitor only, and left none ahead, the walk has deleted them all. */
  lemma WalkComplete(t: Tables, id: MonitorId, keys: set<MonitorKey>, ahead: set<MonitorKey>, deleted: set<MonitorKey>)
    requires keys == set p | p in t.processed :: p.0
    requires ahead + deleted == KeysFrom(keys, id)
    requires forall k :: k in deleted ==> k.monitorId == id
    requires forall k :: k in ahead ==> k.monitorId != id
    ensures WithoutKeys(t, deleted).processed == set p | p in t.processed && p.0.monitorId != id
  {
    forall p | p in t.processed
      ensures p.0 in deleted <==> p.0.monitorId == id
    {
      assert p.0 in keys;
    }
  }

  /** ProcessedBlockStore::remove: walks from (id, 0) and stops at another monitor's key. */
  method RemoveProcessedBlocks(txn: RwTransaction, id: MonitorId)
    modifies txn
    ensures txn.tables == old(txn.tables).(processed := set p | p in old(txn.tables.processed) && p.0.monitorId != id)
  {
    ghost var t := txn.tables;
    var keys := set p | p in txn.tables.processed :: p.0;
    var ahead := OpenCursor(keys, MonitorKey(id, 0));
    ghost var deleted := {};
    WithoutKeysStep(t, deleted, MonitorKey(id, 0));
    while ahead != {}
      invariant ahead + deleted == KeysFrom(keys, id)
      invariant forall k :: k in deleted ==> k.monitorId == id
      invariant txn.tables == WithoutKeys(t, deleted)
      decreases |ahead|
    {
      var key := NextKey(ahead);
      if key.monitorId != id {
        break;
      }
      WithoutKeysStep(t, deleted, key);
      txn.tables := WithoutKeys(txn.tables, {key});
      deleted := deleted + {key};
      ahead := ahead - {key};
    }
    WalkComplete(t, id, keys, ahead, deleted);
  }

  method RecordBlock(txn: RwTransaction, id: MonitorId, block: U64, discovered: seq<UnspentTxOut>, spent: seq<UnspentTxOut>)
    modifies txn
    ensures txn.tables == old(txn.tables).(processed := old(txn.tables.processed)
              + (set u | u in discovered :: (MonitorKey(id, block), ReceivedRecord(u)))
              + (set u | u in spent :: (MonitorKey(id, block), SpentRecord(u))))
  {
    var key := MonitorKey(id, block);
    ghost var t := txn.tables;
    for i := 0 to |discovered|
      invariant txn.tables == t.(processed := t.processed + set u | u in discovered[..i] :: (key, ReceivedRecord(u)))
    {
      assert discovered[..i + 1] == discovered[..i] + [discovered[i]];
      txn.tables := txn.tables.(processed := txn.tables.processed + {(key, ReceivedRecord(discovered[i]))});
    }
    assert discovered[..|discovered|] == discovered;
    ghost var mid := txn.tables;
    for i := 0 to |spent|
      invariant txn.tables == mid.(processed := mid.processed + set u | u in spent[..i] :: (key, SpentRecord(u)))
    {
      assert spent[..i + 1] == spent[..i] + [spent[i]];
      txn.tables := txn.tables.(processed := txn.tables.processed + {(key, SpentRecord(spent[i]))});
    }
    assert spent[..|spent|] == spent;
  }
}
