// What every committed transaction keeps: the tables agree with each other,
// the spend-key index is exactly the live monitors' ranges, and the history
// stays behind the block cursor.

module WalletInvariants {
  import opened Common
  import opened Keys
  import opened Wallet

  // ---- add_monitor ----

  lemma {:induction false} SpksInsertedKeys(env: Env, spks: map<Spk, MonitorKey>, id: MonitorId, data: MonitorData, count: nat)
    requires data.firstSubaddress + count < TWO64
    ensures forall spk :: spk in SpksInserted(env, spks, id, data, count) <==>
              spk in spks || exists i :: data.firstSubaddress <= i < data.firstSubaddress + count && env.spkOf(data.accountKey, i) == spk
  {
    if count > 0 {
      SpksInsertedKeys(env, spks, id, data, count - 1);
      var last := data.firstSubaddress + count - 1;
      var spk := env.spkOf(data.accountKey, last);
      assert SpksInserted(env, spks, id, data, count) == SpksInserted(env, spks, id, data, count - 1)[spk := MonitorKey(id, last)];
      forall s | s in SpksInserted(env, spks, id, data, count)
        ensures s in spks || exists i :: data.firstSubaddress <= i < data.firstSubaddress + count && env.spkOf(data.accountKey, i) == s
      {
        if s == spk {
          assert env.spkOf(data.accountKey, last) == s;
        }
      }
    }
  }

  lemma {:induction false} SpksInsertedValues(env: Env, t: Tables, id: MonitorId, data: MonitorData, count: nat)
    requires data.firstSubaddress + count < TWO64 && count <= data.numSubaddresses
    requires SpksFree(env, t, data)
    ensures forall i: U64 :: data.firstSubaddress <= i < data.firstSubaddress + count ==>
              var spk := env.spkOf(data.accountKey, i);
              spk in SpksInserted(env, t.spkToSubaddress, id, data, count) &&
              SpksInserted(env, t.spkToSubaddress, id, data, count)[spk] == MonitorKey(id, i)
    ensures forall spk :: spk in t.spkToSubaddress ==>
              spk in SpksInserted(env, t.spkToSubaddress, id, data, count) &&
              SpksInserted(env, t.spkToSubaddress, id, data, count)[spk] == t.spkToSubaddress[spk]
  {
    if count > 0 {
      SpksInsertedValues(env, t, id, data, count - 1);
      var last := data.firstSubaddress + count - 1;
      assert InRange(data, last);
      forall i: U64 | data.firstSubaddress <= i < last
        ensures env.spkOf(data.accountKey, i) != env.spkOf(data.accountKey, last)
      {
        assert InRange(data, i);
      }
    }
  }

  /** A successful add_monitor leaves the index the union of one more range; a failed one changes nothing. */
  lemma AddMonitorKeeps(env: Env, t: Tables, data: MonitorData)
    requires Consistent(env, t)
    ensures Consistent(env, AddMonitor(env, t, data).tables)
    ensures Confined(t) ==> Confined(AddMonitor(env, t, data).tables)
    ensures AddMonitor(env, t, data).result.Err? ==> AddMonitor(env, t, data).tables == t
  {
    var out := AddMonitor(env, t, data);
    var id := env.monitorIdOf(data);
    if out.result.Ok? {
      SpksInsertedKeys(env, t.spkToSubaddress, id, data, data.numSubaddresses);
      SpksInsertedValues(env, t, id, data, data.numSubaddresses);
      AddedIndexExact(env, t, data);
    }
  }

  lemma AddedIndexExact(env: Env, t: Tables, data: MonitorData)
    requires SpkIndexExact(env, t)
    requires AddMonitor(env, t, data).result.Ok?
    ensures SpkIndexExact(env, AddMonitor(env, t, data).tables)
  {
    var r := AddMonitor(env, t, data).tables;
    var id := env.monitorIdOf(data);
    SpksInsertedKeys(env, t.spkToSubaddress, id, data, data.numSubaddresses);
    SpksInsertedValues(env, t, id, data, data.numSubaddresses);
    forall m, i: U64 | m in r.monitors && InRange(r.monitors[m], i)
      ensures env.spkOf(r.monitors[m].accountKey, i) in r.spkToSubaddress
      ensures r.spkToSubaddress[env.spkOf(r.monitors[m].accountKey, i)] == MonitorKey(m, i)
    {
      if m != id {
        assert m in t.monitors && InRange(t.monitors[m], i);
      }
    }
    forall spk | spk in r.spkToSubaddress
      ensures r.spkToSubaddress[spk].monitorId in r.monitors
      ensures InRange(r.monitors[r.spkToSubaddress[spk].monitorId], r.spkToSubaddress[spk].index)
      ensures env.spkOf(r.monitors[r.spkToSubaddress[spk].monitorId].accountKey, r.spkToSubaddress[spk].index) == spk
    {
      if spk !in t.spkToSubaddress {
        var i :| data.firstSubaddress <= i < data.firstSubaddress + data.numSubaddresses && env.spkOf(data.accountKey, i) == spk;
        assert InRange(data, i);
      }
    }
  }

  // ---- remove_monitor ----

  /** remove_monitor succeeds exactly on a live monitor and leaves the rest of the tables as they were. */
  lemma RemoveMonitorKeeps(env: Env, t: Tables, id: MonitorId)
    requires Consistent(env, t)
    ensures Consistent(env, RemoveMonitor(t, id).tables)
    ensures Confined(t) ==> Confined(RemoveMonitor(t, id).tables)
  {
    if id in t.monitors {
      var r := RemoveMonitor(t, id).tables;
      DroppedAgrees(t, InOwnRange(t, id));
      assert IndicesAgree(r);
      RemovedIndexExact(env, t, id);
    }
  }

  lemma RemovedIndexExact(env: Env, t: Tables, id: MonitorId)
    requires SpkIndexExact(env, t)
    requires id in t.monitors
    ensures SpkIndexExact(env, RemoveMonitor(t, id).tables)
  {
  }

  /** Removal erases every trace of the monitor exactly when its outputs lie in its own range. */
  lemma RemoveMonitorErases(env: Env, t: Tables, id: MonitorId)
    requires Consistent(env, t) && id in t.monitors
    ensures var r := RemoveMonitor(t, id).tables;
            && (forall spk :: spk in r.spkToSubaddress ==> r.spkToSubaddress[spk].monitorId != id)
            && (forall p :: p in r.processed ==> p.0.monitorId != id)
            && (OwnedBy(r, id) == {} <==> forall k :: k in OwnedBy(t, id) ==> InRange(t.monitors[id], t.utxos[k].subaddressIndex))
  {
    var r := RemoveMonitor(t, id).tables;
    forall k | k in OwnedBy(t, id)
      ensures k in OwnedBy(r, id) <==> !InRange(t.monitors[id], t.utxos[k].subaddressIndex)
    {
    }
    if OwnedBy(r, id) != {} {
      var k :| k in OwnedBy(r, id);
      assert k in OwnedBy(t, id);
    }
  }

  /** Removal leaves the data of every other monitor alone. */
  lemma RemoveMonitorFrames(t: Tables, id: MonitorId, other: MonitorId)
    requires IndicesAgree(t) && other != id
    ensures var r := RemoveMonitor(t, id).tables;
            && (other in r.monitors <==> other in t.monitors)
            && (other in t.monitors ==> r.monitors[other] == t.monitors[other])
            && OwnedBy(r, other) == OwnedBy(t, other)
            && (forall k :: k in OwnedBy(t, other) ==> k in r.utxos && r.utxos[k] == t.utxos[k])
            && (forall key: MonitorKey, x :: key.monitorId == other ==> ((key, x) in r.processed <==> (key, x) in t.processed))
            && (forall spk :: (spk in r.spkToSubaddress && r.spkToSubaddress[spk].monitorId == other) <==>
                              (spk in t.spkToSubaddress && t.spkToSubaddress[spk].monitorId == other))
  {
  }

  // ---- block_processed ----

  /** The scan only reports outputs of the monitor's own subaddresses. */
  ghost predicate ScanConfined(t: Tables, id: MonitorId, discovered: seq<UnspentTxOut>) {
    id in t.monitors ==> forall u :: u in discovered ==> InRange(t.monitors[id], u.subaddressIndex)
  }

  lemma BlockAgrees(t: Tables, id: MonitorId, blockNum: U64, discovered: seq<UnspentTxOut>, spent: seq<KeyImage>)
    requires IndicesAgree(t)
    ensures IndicesAgree(BlockProcessed(t, id, blockNum, discovered, spent).tables)
  {
    var out := BlockProcessed(t, id, blockNum, discovered, spent);
    if out.result.Ok? {
      var mid := AppendedAll(t, id, discovered);
      AppendedAllAgrees(t, id, discovered);
      DroppedAgrees(mid, SpentIn(mid, id, spent));
    }
  }

  lemma BlockProcessedKeeps(env: Env, t: Tables, id: MonitorId, blockNum: U64, discovered: seq<UnspentTxOut>, spent: seq<KeyImage>)
    requires Consistent(env, t)
    ensures Consistent(env, BlockProcessed(t, id, blockNum, discovered, spent).tables)
    ensures BlockProcessed(t, id, blockNum, discovered, spent).result.Err? ==>
              BlockProcessed(t, id, blockNum, discovered, spent).tables == t
    ensures Confined(t) && ScanConfined(t, id, discovered) ==>
              Confined(BlockProcessed(t, id, blockNum, discovered, spent).tables)
  {
    var out := BlockProcessed(t, id, blockNum, discovered, spent);
    if out.result.Ok? {
      BlockAgrees(t, id, blockNum, discovered, spent);
      BlockIndexExact(env, t, out.tables, id);
      BlockHistoryBehind(t, id, blockNum, discovered, spent);
      if Confined(t) && ScanConfined(t, id, discovered) {
        BlockConfined(t, id, blockNum, discovered, spent);
      }
    }
  }

  lemma BlockIndexExact(env: Env, t: Tables, r: Tables, id: MonitorId)
    requires SpkIndexExact(env, t) && id in t.monitors
    requires r.spkToSubaddress == t.spkToSubaddress
    requires exists next: U64 :: r.monitors == t.monitors[id := t.monitors[id].(nextBlock := next)]
    ensures SpkIndexExact(env, r)
  {
    forall m, i: U64 | m in r.monitors && InRange(r.monitors[m], i)
      ensures InRange(t.monitors[m], i)
    {
    }
  }

  lemma BlockHistoryBehind(t: Tables, id: MonitorId, blockNum: U64, discovered: seq<UnspentTxOut>, spent: seq<KeyImage>)
    requires IndicesAgree(t) && HistoryBehindCursor(t)
    requires BlockProcessed(t, id, blockNum, discovered, spent).result.Ok?
    ensures HistoryBehindCursor(BlockProcessed(t, id, blockNum, discovered, spent).tables)
  {
    AppendedAllAgrees(t, id, discovered);
  }

  lemma BlockConfined(t: Tables, id: MonitorId, blockNum: U64, discovered: seq<UnspentTxOut>, spent: seq<KeyImage>)
    requires IndicesAgree(t) && Confined(t) && ScanConfined(t, id, discovered)
    requires BlockProcessed(t, id, blockNum, discovered, spent).result.Ok?
    ensures Confined(BlockProcessed(t, id, blockNum, discovered, spent).tables)
  {
    AppendedAllAgrees(t, id, discovered);
    AppendedAllOwners(t, id, discovered);
    ByKeyImageContents(discovered);
    var r := BlockProcessed(t, id, blockNum, discovered, spent).tables;
    forall k | k in r.keyImageToSubaddress
      ensures r.keyImageToSubaddress[k].monitorId in r.monitors
      ensures InRange(r.monitors[r.keyImageToSubaddress[k].monitorId], r.keyImageToSubaddress[k].index)
    {
      var owner := AppendedAll(t, id, discovered).keyImageToSubaddress[k];
      if k in ByKeyImage(discovered) {
        assert ByKeyImage(discovered)[k] in discovered;
      }
    }
  }

  // ---- update_attempted_spend ----

  lemma UpdateKeeps(env: Env, t: Tables, ids: set<KeyImage>, height: U64, tombstone: U64)
    requires Consistent(env, t)
    ensures Consistent(env, Marked(t, ids, height, tombstone))
    ensures Confined(t) ==> Confined(Marked(t, ids, height, tombstone))
  {
  }

  // ---- Answers ----

  /** A monitor is accepted exactly if it has a range that ends below 2^64, its id is new and so are its spend keys; it is
      then stored as given, to start at its first block, beside the others. */
  lemma AddMonitorAnswers(env: Env, t: Tables, account: AccountKey, first: U64, num: U64, firstBlock: U64, name: string)
    ensures var made := NewMonitorData(account, first, num, firstBlock, name);
            && (made == Err(InvalidArgument) <==> num == 0)
            && (made.Ok? <==> num > 0)
            && (made.Ok? ==>
                  var data, out := made.value, AddMonitor(env, t, made.value);
                  var id := env.monitorIdOf(data);
                  && data.accountKey == account && data.firstSubaddress == first && data.numSubaddresses == num
                  && data.firstBlock == firstBlock && data.nextBlock == firstBlock && data.name == name
                  && (out.result == Err(MonitorIdExists) <==> id in t.monitors)
                  && (out.result == Err(Overflow) <==> id !in t.monitors && first + num >= TWO64)
                  && (out.result == Err(SubaddressSpkIdExists) <==> id !in t.monitors && first + num < TWO64 && !SpksFree(env, t, data))
                  && (out.result == Ok(id) <==> id !in t.monitors && first + num < TWO64 && SpksFree(env, t, data))
                  && (out.result.Ok? ==> out.tables.monitors == t.monitors[id := data])
                  && (out.result.Err? ==> out.tables == t))
  {
  }

  lemma RemoveMonitorAnswers(t: Tables, id: MonitorId)
    ensures var out := RemoveMonitor(t, id);
            && (out.result == Ok(()) <==> id in t.monitors)
            && (out == Outcome(t, Err(MonitorIdNotFound)) <==> id !in t.monitors)
            && (id in t.monitors ==> out.tables.monitors == t.monitors - {id})
  {
  }

  /** A block is accepted exactly if the monitor is there and expects it, none of its outputs is stored or comes twice, and
      there is a next block number; the cursor then stands on that, and nothing else about monitors changes. */
  lemma BlockAnswers(t: Tables, id: MonitorId, blockNum: U64, discovered: seq<UnspentTxOut>, spent: seq<KeyImage>)
    ensures var out := BlockProcessed(t, id, blockNum, discovered, spent);
            var expected := id in t.monitors && blockNum == t.monitors[id].nextBlock;
            && (out.result == Err(MonitorIdNotFound) <==> id !in t.monitors)
            && (out.result == Err(InvalidArgument) <==> id in t.monitors && blockNum != t.monitors[id].nextBlock)
            && (out.result == Err(DuplicateUnspentTxOut) <==> expected && !Fresh(t, discovered))
            && (out.result == Err(Overflow) <==> expected && Fresh(t, discovered) && blockNum + 1 == TWO64)
            && (out.result.Ok? <==> expected && Fresh(t, discovered) && blockNum + 1 < TWO64)
            && (out.result.Ok? ==>
                  && out.tables.monitors == t.monitors[id := t.monitors[id].(nextBlock := blockNum + 1)]
                  && out.tables.spkToSubaddress == t.spkToSubaddress)
            && (out.result.Err? ==> out.tables == t)
  {
  }
}
