// The database object: every operation opens a write transaction, works on its
// private tables, and either commits them or returns an error without
// committing, which leaves the committed tables as they were.

module WalletDb {
  import opened Common
  import opened Keys
  import opened Wallet
  import opened UtxoStore
  import opened WalletInvariants

  /** As SpksFree, for the first `count` subaddresses. */
  ghost predicate SpksFreeUpTo(env: Env, t: Tables, data: MonitorData, count: nat) {
    && (forall i :: data.firstSubaddress <= i < data.firstSubaddress + count ==> env.spkOf(data.accountKey, i) !in t.spkToSubaddress)
    && (forall i, j :: data.firstSubaddress <= i < j < data.firstSubaddress + count ==>
          env.spkOf(data.accountKey, i) != env.spkOf(data.accountKey, j))
  }

  /** Inserting the next key fails exactly when it breaks freeness. */
  lemma SpksFreeStep(env: Env, t: Tables, id: MonitorId, data: MonitorData, count: nat)
    requires data.firstSubaddress + data.numSubaddresses < TWO64 && count < data.numSubaddresses
    requires SpksFreeUpTo(env, t, data, count)
    ensures var spk := env.spkOf(data.accountKey, data.firstSubaddress + count);
            if spk in SpksInserted(env, t.spkToSubaddress, id, data, count)
            then !SpksFree(env, t, data) else SpksFreeUpTo(env, t, data, count + 1)
  {
    SpksInsertedKeys(env, t.spkToSubaddress, id, data, count);
    var last := data.firstSubaddress + count;
    var spk := env.spkOf(data.accountKey, last);
    assert InRange(data, last);
    if spk in SpksInserted(env, t.spkToSubaddress, id, data, count) {
      if spk !in t.spkToSubaddress {
        var i :| data.firstSubaddress <= i < last && env.spkOf(data.accountKey, i) == spk;
        assert InRange(data, i);
      }
    }
  }

  /** The keys of the first `count` subaddresses of a live monitor. */
  ghost function FirstSpks(env: Env, data: MonitorData, count: nat): set<Spk> {
    set i | data.firstSubaddress <= i < data.firstSubaddress + count :: env.spkOf(data.accountKey, i)
  }

  /** Its outputs under those subaddresses. */
  ghost function FirstUtxos(t: Tables, id: MonitorId, data: MonitorData, count: nat): set<KeyImage> {
    set k | k in OwnedBy(t, id) && data.firstSubaddress <= t.keyImageToSubaddress[k].index < data.firstSubaddress + count
  }

  /** The tables remove_monitor has left after the first `count` subaddresses. */
  ghost function Removing(env: Env, t: Tables, id: MonitorId, data: MonitorData, count: nat): Tables {
    Dropped(t, FirstUtxos(t, id, data, count)).(spkToSubaddress := t.spkToSubaddress - FirstSpks(env, data, count))
  }

  lemma RemovingStarts(env: Env, t: Tables, id: MonitorId, data: MonitorData)
    ensures Removing(env, t, id, data, 0) == t
  {
    assert FirstUtxos(t, id, data, 0) == {};
    assert FirstSpks(env, data, 0) == {};
    var r := Removing(env, t, id, data, 0);
    assert r.utxos == t.utxos && r.keyImageToSubaddress == t.keyImageToSubaddress && r.spkToSubaddress == t.spkToSubaddress;
    assert r.subaddressToUtxoId == t.subaddressToUtxoId;
  }

  lemma DroppedTwice(t: Tables, a: set<KeyImage>, b: set<KeyImage>)
    ensures Dropped(Dropped(t, a), b) == Dropped(t, a + b)
  {
    var l, r := Dropped(Dropped(t, a), b), Dropped(t, a + b);
    assert l.utxos == r.utxos && l.keyImageToSubaddress == r.keyImageToSubaddress;
    assert l.subaddressToUtxoId == r.subaddressToUtxoId;
  }

  lemma FirstUtxosStep(t: Tables, id: MonitorId, data: MonitorData, count: nat)
    requires IndicesAgree(t) && data.firstSubaddress + count < TWO64
    ensures FirstUtxos(t, id, data, count + 1) ==
            FirstUtxos(t, id, data, count) + DupsOf(Dropped(t, FirstUtxos(t, id, data, count)), MonitorKey(id, data.firstSubaddress + count))
  {
    var gone := FirstUtxos(t, id, data, count);
    var key := MonitorKey(id, data.firstSubaddress + count);
    forall k
      ensures k in DupsOf(Dropped(t, gone), key) <==> k in OwnedBy(t, id) && t.keyImageToSubaddress[k].index == key.index && k !in gone
    {
      assert k in DupsOf(Dropped(t, gone), key) <==> (key, k) in Dropped(t, gone).subaddressToUtxoId;
    }
  }

  lemma FirstSpksStep(env: Env, t: Tables, id: MonitorId, data: MonitorData, count: nat)
    requires SpkIndexExact(env, t) && id in t.monitors && t.monitors[id] == data && count < data.numSubaddresses
    ensures env.spkOf(data.accountKey, data.firstSubaddress + count) in t.spkToSubaddress
    ensures env.spkOf(data.accountKey, data.firstSubaddress + count) !in FirstSpks(env, data, count)
    ensures t.spkToSubaddress - FirstSpks(env, data, count + 1) ==
            t.spkToSubaddress - FirstSpks(env, data, count) - {env.spkOf(data.accountKey, data.firstSubaddress + count)}
  {
    var last := data.firstSubaddress + count;
    assert InRange(data, last);
    forall i: U64 | data.firstSubaddress <= i < last
      ensures env.spkOf(data.accountKey, i) != env.spkOf(data.accountKey, last)
    {
      assert InRange(data, i);
    }
    assert FirstSpks(env, data, count + 1) == FirstSpks(env, data, count) + {env.spkOf(data.accountKey, last)};
  }

  lemma RemovingEnds(env: Env, t: Tables, id: MonitorId)
    requires SpkIndexExact(env, t) && id in t.monitors
    ensures var data := t.monitors[id];
            && FirstUtxos(t, id, data, data.numSubaddresses) == InOwnRange(t, id)
            && t.spkToSubaddress - FirstSpks(env, data, data.numSubaddresses) ==
               RemoveMonitor(t, id).tables.spkToSubaddress
  {
    var data := t.monitors[id];
    forall spk | spk in t.spkToSubaddress
      ensures spk in FirstSpks(env, data, data.numSubaddresses) <==> t.spkToSubaddress[spk].monitorId == id
    {
      if spk in FirstSpks(env, data, data.numSubaddresses) {
        var i: U64 :| data.firstSubaddress <= i < data.firstSubaddress + data.numSubaddresses && env.spkOf(data.accountKey, i) == spk;
        assert InRange(data, i);
      }
    }
  }

  /** SubaddressStore::insert over the monitor's whole range. */
  method InsertSubaddresses(env: Env, txn: RwTransaction, id: MonitorId, data: MonitorData) returns (r: Result<(), Error>)
    requires data.firstSubaddress + data.numSubaddresses < TWO64
    modifies txn
    ensures r == if SpksFree(env, old(txn.tables), data) then Ok(()) else Err(SubaddressSpkIdExists)
    ensures r.Ok? ==> txn.tables == old(txn.tables).(spkToSubaddress :=
              SpksInserted(env, old(txn.tables.spkToSubaddress), id, data, data.numSubaddresses))
  {
    ghost var t := txn.tables;
    for i := 0 to data.numSubaddresses
      invariant txn.tables == t.(spkToSubaddress := SpksInserted(env, t.spkToSubaddress, id, data, i))
      invariant SpksFreeUpTo(env, t, data, i)
    {
      var index := data.firstSubaddress + i;
      var spk := env.spkOf(data.accountKey, index);
      SpksFreeStep(env, t, id, data, i);
      if spk in txn.tables.spkToSubaddress {
        return Err(SubaddressSpkIdExists);
      }
      txn.tables := txn.tables.(spkToSubaddress := txn.tables.spkToSubaddress[spk := MonitorKey(id, index)]);
    }
    assert SpksFree(env, t, data);
    return Ok(());
  }

  /** Deletes every spend key of a live monitor and every output under it. */
  method ClearSubaddresses(env: Env, txn: RwTransaction, id: MonitorId, data: MonitorData) returns (r: Result<(), Error>)
    requires IndicesAgree(txn.tables) && SpkIndexExact(env, txn.tables)
    requires id in txn.tables.monitors && txn.tables.monitors[id] == data
    modifies txn
    ensures r == Ok(())
    ensures txn.tables == Removing(env, old(txn.tables), id, data, data.numSubaddresses)
  {
    ghost var t := txn.tables;
    RemovingStarts(env, t, id, data);
    for i := 0 to data.numSubaddresses
      invariant txn.tables == Removing(env, t, id, data, i)
    {
      var index := data.firstSubaddress + i;
      var spk := env.spkOf(data.accountKey, index);
      FirstSpksStep(env, t, id, data, i);
      if spk !in txn.tables.spkToSubaddress {
        return Err(LmdbNotFound);
      }
      DroppedAgrees(t, FirstUtxos(t, id, data, i));
      txn.tables := txn.tables.(spkToSubaddress := txn.tables.spkToSubaddress - {spk});
      var removed := RemoveUtxos(txn, id, index);
      if removed.Err? {
        return removed;
      }
      FirstUtxosStep(t, id, data, i);
      DroppedTwice(t, FirstUtxos(t, id, data, i), DupsOf(Dropped(t, FirstUtxos(t, id, data, i)), MonitorKey(id, index)));
    }
    return Ok(());
  }

  /** UtxoStore::append_utxo over a block's discovered outputs. */
  method AppendDiscovered(txn: RwTransaction, id: MonitorId, us: seq<UnspentTxOut>) returns (r: Result<(), Error>)
    requires IndicesAgree(txn.tables)
    modifies txn
    ensures r == if Fresh(old(txn.tables), us) then Ok(()) else Err(DuplicateUnspentTxOut)
    ensures r.Ok? ==> txn.tables == AppendedAll(old(txn.tables), id, us)
  {
    ghost var t := txn.tables;
    for i := 0 to |us|
      invariant Fresh(t, us[..i])
      invariant txn.tables == AppendedAll(t, id, us[..i])
      invariant IndicesAgree(txn.tables)
    {
      assert us[..i + 1][..i] == us[..i];
      ghost var before := txn.tables;
      r := AppendUtxo(txn, id, us[i].subaddressIndex, us[i]);
      FreshStep(t, before, id, us, i);
      if r.Err? {
        return;
      }
    }
    assert us[..|us|] == us;
    return Ok(());
  }

  lemma FreshStep(t: Tables, mid: Tables, id: MonitorId, us: seq<UnspentTxOut>, i: nat)
    requires i < |us| && Fresh(t, us[..i]) && mid == AppendedAll(t, id, us[..i])
    ensures us[i].keyImage in mid.utxos ==> !Fresh(t, us)
    ensures us[i].keyImage !in mid.utxos ==> Fresh(t, us[..i + 1])
  {
    AppendedAllUtxos(t, id, us[..i]);
    if us[i].keyImage !in mid.utxos {
      FreshSnoc(t, us[..i], us[i]);
      assert us[..i + 1] == us[..i] + [us[i]];
    } else if us[i].keyImage !in t.utxos {
      RepeatsEarlier(us, i);
    }
  }

  lemma RepeatsEarlier(us: seq<UnspentTxOut>, i: nat)
    requires i < |us| && us[i].keyImage in ByKeyImage(us[..i])
    ensures exists j :: 0 <= j < i && us[j].keyImage == us[i].keyImage
  {
    var init := us[..i];
    ByKeyImageContents(init);
    var j :| 0 <= j < |init| && init[j] == ByKeyImage(init)[us[i].keyImage];
    assert us[j] == init[j];
  }

  lemma FreshSnoc(t: Tables, us: seq<UnspentTxOut>, u: UnspentTxOut)
    requires Fresh(t, us) && u.keyImage !in t.utxos && u.keyImage !in ByKeyImage(us)
    ensures Fresh(t, us + [u])
  {
    ByKeyImageContents(us);
  }

  /** The body of block_processed inside its transaction; only a successful one is committed. */
  method ProcessBlock(txn: RwTransaction, id: MonitorId, blockNum: U64, discovered: seq<UnspentTxOut>, spent: seq<KeyImage>)
    returns (r: Result<(), Error>)
    requires IndicesAgree(txn.tables)
    modifies txn
    ensures r == BlockProcessed(old(txn.tables), id, blockNum, discovered, spent).result
    ensures r.Ok? ==> txn.tables == BlockProcessed(old(txn.tables), id, blockNum, discovered, spent).tables
  {
    ghost var t := txn.tables;
    if id !in txn.tables.monitors {
      return Err(MonitorIdNotFound);
    }
    var monitorData := txn.tables.monitors[id];
    if blockNum != monitorData.nextBlock {
      return Err(InvalidArgument);
    }
    r := AppendDiscovered(txn, id, discovered);
    if r.Err? {
      return;
    }
    AppendedAllAgrees(t, id, discovered);
    ghost var mid := txn.tables;
    var removed := RemoveUtxosByKeyImages(txn, id, spent);
    if removed.Err? {
      return Err(UtxoIdNotFound);
    }
    if monitorData.nextBlock + 1 >= TWO64 {
      return Err(Overflow);
    }
    monitorData := monitorData.(nextBlock := monitorData.nextBlock + 1);
    txn.tables := txn.tables.(monitors := txn.tables.monitors[id := monitorData]);
    RecordBlock(txn, id, blockNum, discovered, removed.value);
    RecordsOfRemoved(mid, MonitorKey(id, blockNum), SpentIn(mid, id, spent), removed.value);
    SetUnionAssociates(t.processed, set u | u in discovered :: (MonitorKey(id, blockNum), ReceivedRecord(u)),
                       set u | u in removed.value :: (MonitorKey(id, blockNum), SpentRecord(u)));
  }

  lemma SetUnionAssociates<T>(a: set<T>, b: set<T>, c: set<T>)
    ensures a + b + c == a + (b + c)
  {
  }

  class Database {
    const env: Env
    var tables: Tables

    constructor (env: Env)
      ensures this.env == env && tables == EMPTY
      ensures Consistent(env, tables) && Confined(tables)
    {
      this.env := env;
      tables := EMPTY;
    }

    method AddMonitor(data: MonitorData) returns (r: Result<MonitorId, Error>)
      requires Consistent(env, tables)
      modifies this
      ensures Outcome(tables, r) == Wallet.AddMonitor(env, old(tables), data)
      ensures Consistent(env, tables)
      ensures old(Confined(tables)) ==> Confined(tables)
    {
      AddMonitorKeeps(env, tables, data);
      var txn := new RwTransaction(tables);
      var id := env.monitorIdOf(data);
      if id in txn.tables.monitors {
        return Err(MonitorIdExists);
      }
      txn.tables := txn.tables.(monitors := txn.tables.monitors[id := data]);
      if data.firstSubaddress + data.numSubaddresses >= TWO64 {
        return Err(Overflow);
      }
      var inserted := InsertSubaddresses(env, txn, id, data);
      if inserted.Err? {
        return Err(inserted.error);
      }
      tables := txn.tables;
      return Ok(id);
    }

    method RemoveMonitor(id: MonitorId) returns (r: Result<(), Error>)
      requires Consistent(env, tables)
      modifies this
      ensures Outcome(tables, r) == Wallet.RemoveMonitor(old(tables), id)
      ensures Consistent(env, tables)
      ensures old(Confined(tables)) ==> Confined(tables)
    {
      ghost var t := tables;
      RemoveMonitorKeeps(env, t, id);
      var txn := new RwTransaction(tables);
      if id !in txn.tables.monitors {
        return Err(MonitorIdNotFound);
      }
      var data := txn.tables.monitors[id];
      var cleared := ClearSubaddresses(env, txn, id, data);
      if cleared.Err? {
        return cleared;
      }
      RemovingEnds(env, t, id);
      RemoveProcessedBlocks(txn, id);
      txn.tables := txn.tables.(monitors := txn.tables.monitors - {id});
      tables := txn.tables;
      return Ok(());
    }

    /** Keeps Consistent and, for scanned outputs, Confined: lemma BlockProcessedKeeps. */
    method BlockProcessed(id: MonitorId, blockNum: U64, discovered: seq<UnspentTxOut>, spent: seq<KeyImage>)
      returns (r: Result<(), Error>)
      requires IndicesAgree(tables)
      modifies this
      ensures Outcome(tables, r) == Wallet.BlockProcessed(old(tables), id, blockNum, discovered, spent)
      ensures IndicesAgree(tables)
    {
      BlockAgrees(tables, id, blockNum, discovered, spent);
      var txn := new RwTransaction(tables);
      r := ProcessBlock(txn, id, blockNum, discovered, spent);
      if r.Ok? {
        tables := txn.tables;
      }
    }

    method UpdateAttemptedSpend(ids: seq<KeyImage>, height: U64, tombstone: U64)
      requires Consistent(env, tables)
      requires MayUpdate(tables, ids, height, tombstone)
      modifies this
      ensures tables == Marked(old(tables), Elements(ids), height, tombstone)
      ensures Consistent(env, tables)
      ensures old(Confined(tables)) ==> Confined(tables)
    {
      UpdateKeeps(env, tables, Elements(ids), height, tombstone);
      var txn := new RwTransaction(tables);
      UtxoStore.UpdateAttemptedSpend(txn, ids, height, tombstone);
      tables := txn.tables;
    }

    /** What the records are after a run of the database: lemma BlockReplayed. */
    method GetProcessedBlock(id: MonitorId, blockNum: U64) returns (r: Result<set<ProcessedTxOut>, Error>)
      ensures r == ProcessedBlock(tables, id, blockNum)
    {
      if id !in tables.monitors {
        return Err(MonitorIdNotFound);
      }
      var monitorData := tables.monitors[id];
      if blockNum < monitorData.firstBlock {
        return Err(BlockIndexTooSmall);
      }
      if blockNum >= monitorData.nextBlock {
        return Err(BlockNotYetProcessed);
      }
      return Ok(set p | p in tables.processed && p.0 == MonitorKey(id, blockNum) :: p.1);
    }
  }

  lemma RecordsOfRemoved(t: Tables, key: MonitorKey, gone: set<KeyImage>, removed: seq<UnspentTxOut>)
    requires gone <= t.utxos.Keys
    requires Elements(removed) == set k | k in gone :: t.utxos[k]
    ensures (set u | u in removed :: (key, SpentRecord(u))) == set k | k in gone && k in t.utxos :: (key, SpentRecord(t.utxos[k]))
  {
    forall k | k in gone
      ensures t.utxos[k] in removed
    {
      assert t.utxos[k] in Elements(removed);
    }
    forall u | u in removed
      ensures exists k :: k in gone && u == t.utxos[k]
    {
      assert u in Elements(removed);
    }
  }
}
