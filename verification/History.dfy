// The per-block history as a ledger: for every monitor, subaddress and token,
// everything received minus everything spent is what the UTXO store holds.

module History {
  import opened Common
  import opened Keys
  import opened Wallet
  import opened ChainReplay

  /** One account line: a monitor's subaddress and a token. */
  datatype Line = Line(id: MonitorId, subaddress: U64, token: TokenId)

  function RecordWeight(line: Line, p: (MonitorKey, ProcessedTxOut)): int {
    if p.0.monitorId == line.id && p.1.subaddressIndex == line.subaddress && p.1.tokenId == line.token then
      if p.1.direction.Received? then p.1.value else -(p.1.value as int)
    else 0
  }

  function OutputWeight(t: Tables, line: Line, k: KeyImage): int {
    if Owns(t, line.id, k) && k in t.utxos && t.utxos[k].subaddressIndex == line.subaddress && t.utxos[k].tokenId == line.token
    then t.utxos[k].value else 0
  }

  /** Received minus spent over all processed blocks. */
  ghost function HistoryTotal(t: Tables, line: Line): int {
    SumSet(t.processed, p => RecordWeight(line, p))
  }

  /** Value currently in the UTXO store. */
  ghost function StoreTotal(t: Tables, line: Line): int {
    SumSet(t.utxos.Keys, k => OutputWeight(t, line, k))
  }

  ghost predicate Balanced(t: Tables) {
    forall line :: HistoryTotal(t, line) == StoreTotal(t, line)
  }

  // ---- A committed block ----

  lemma FreshApart(t: Tables, us: seq<UnspentTxOut>)
    requires Fresh(t, us)
    ensures ByKeyImage(us).Keys !! t.utxos.Keys
  {
    ByKeyImageContents(us);
    forall k | k in ByKeyImage(us)
      ensures k !in t.utxos
    {
      var i :| 0 <= i < |us| && us[i] == ByKeyImage(us)[k];
    }
  }

  lemma StoreTotalGrown(t: Tables, mid: Tables, added: set<KeyImage>, line: Line)
    requires mid.utxos.Keys == t.utxos.Keys + added && added !! t.utxos.Keys
    requires forall k :: k in t.utxos.Keys ==> OutputWeight(t, line, k) == OutputWeight(mid, line, k)
    ensures StoreTotal(mid, line) == StoreTotal(t, line) + SumSet(added, k => OutputWeight(mid, line, k))
  {
    SumSetUnion(t.utxos.Keys, added, k => OutputWeight(mid, line, k));
    SumSetCongruent(t.utxos.Keys, k => OutputWeight(t, line, k), k => OutputWeight(mid, line, k));
  }

  /** Appending a fresh batch adds the batch's own total. */
  lemma StoreTotalAppended(t: Tables, id: MonitorId, us: seq<UnspentTxOut>, line: Line)
    requires IndicesAgree(t) && Fresh(t, us)
    ensures var mid := AppendedAll(t, id, us);
            StoreTotal(mid, line) == StoreTotal(t, line) + SumSet(ByKeyImage(us).Keys, k => OutputWeight(mid, line, k))
  {
    var mid := AppendedAll(t, id, us);
    AppendedAllUtxos(t, id, us);
    AppendedAllOwners(t, id, us);
    FreshApart(t, us);
    StoreTotalGrown(t, mid, ByKeyImage(us).Keys, line);
  }

  lemma StoreTotalDropped(t: Tables, gone: set<KeyImage>, line: Line)
    requires IndicesAgree(t) && gone <= t.utxos.Keys
    ensures StoreTotal(Dropped(t, gone), line) == StoreTotal(t, line) - SumSet(gone, k => OutputWeight(t, line, k))
  {
    var r := Dropped(t, gone);
    var rest := t.utxos.Keys - gone;
    assert r.utxos.Keys == rest && rest + gone == t.utxos.Keys;
    SumSetUnion(rest, gone, k => OutputWeight(t, line, k));
    SumSetCongruent(rest, k => OutputWeight(t, line, k), k => OutputWeight(r, line, k));
  }

  function Record(u: UnspentTxOut, direction: Direction): ProcessedTxOut {
    if direction.Received? then ReceivedRecord(u) else SpentRecord(u)
  }

  function BatchWeight(batch: map<KeyImage, UnspentTxOut>, id: MonitorId, line: Line, k: KeyImage): int {
    if id == line.id && k in batch && batch[k].subaddressIndex == line.subaddress && batch[k].tokenId == line.token
    then batch[k].value else 0
  }

  ghost function RecordsOf(batch: map<KeyImage, UnspentTxOut>, key: MonitorKey, direction: Direction): set<(MonitorKey, ProcessedTxOut)> {
    set k | k in batch :: (key, Record(batch[k], direction))
  }

  ghost function BatchTotal(batch: map<KeyImage, UnspentTxOut>, id: MonitorId, line: Line): int {
    SumSet(batch.Keys, k => BatchWeight(batch, id, line, k))
  }

  lemma RecordsWithout(batch: map<KeyImage, UnspentTxOut>, key: MonitorKey, direction: Direction, line: Line, x: KeyImage)
    requires forall k :: k in batch ==> batch[k].keyImage == k
    requires x in batch
    ensures var pair := (key, Record(batch[x], direction));
            SumSet(RecordsOf(batch, key, direction), p => RecordWeight(line, p)) ==
            RecordWeight(line, pair) + SumSet(RecordsOf(batch - {x}, key, direction), p => RecordWeight(line, p))
  {
    var rest, pair := batch - {x}, (key, Record(batch[x], direction));
    forall k | k in rest
      ensures rest[k] == batch[k] && Record(rest[k], direction).keyImage == k
    {
    }
    assert RecordsOf(batch, key, direction) - {pair} == RecordsOf(rest, key, direction);
    SumSetRemove(RecordsOf(batch, key, direction), p => RecordWeight(line, p), pair);
  }

  lemma BatchWithout(batch: map<KeyImage, UnspentTxOut>, id: MonitorId, line: Line, x: KeyImage)
    requires x in batch
    ensures BatchTotal(batch, id, line) == BatchWeight(batch, id, line, x) + BatchTotal(batch - {x}, id, line)
  {
    var rest := batch - {x};
    assert rest.Keys == batch.Keys - {x};
    SumSetRemove(batch.Keys, k => BatchWeight(batch, id, line, k), x);
    SumSetCongruent(rest.Keys, k => BatchWeight(batch, id, line, k), k => BatchWeight(rest, id, line, k));
  }

  /** Records of a batch of outputs weigh what the outputs weigh, signed by direction. */
  lemma {:induction false} RecordsTotal(batch: map<KeyImage, UnspentTxOut>, key: MonitorKey, direction: Direction, line: Line)
    requires forall k :: k in batch ==> batch[k].keyImage == k
    ensures var total := BatchTotal(batch, key.monitorId, line);
            SumSet(RecordsOf(batch, key, direction), p => RecordWeight(line, p)) ==
            if direction.Received? then total else -total
    decreases |batch|
  {
    if batch.Keys == {} {
      assert RecordsOf(batch, key, direction) == {};
    } else {
      var x :| x in batch;
      RecordsWithout(batch, key, direction, line, x);
      BatchWithout(batch, key.monitorId, line, x);
      RecordsTotal(batch - {x}, key, direction, line);
    }
  }

  /** A fresh batch once stored, and a set of the monitor's outputs, weigh what their batches weigh. */
  lemma BatchInStore(t: Tables, id: MonitorId, batch: map<KeyImage, UnspentTxOut>, line: Line)
    requires forall k :: k in batch ==> Owns(t, id, k) && k in t.utxos && t.utxos[k] == batch[k]
    ensures SumSet(batch.Keys, k => BatchWeight(batch, id, line, k)) == SumSet(batch.Keys, k => OutputWeight(t, line, k))
  {
    SumSetCongruent(batch.Keys, k => BatchWeight(batch, id, line, k), k => OutputWeight(t, line, k));
  }

  /** The Received records weigh what the batch weighs in the store. */
  lemma ReceivedTotal(t: Tables, id: MonitorId, block: U64, us: seq<UnspentTxOut>, line: Line)
    requires IndicesAgree(t) && Fresh(t, us)
    ensures var mid := AppendedAll(t, id, us);
            SumSet(set u | u in us :: (MonitorKey(id, block), ReceivedRecord(u)), p => RecordWeight(line, p)) ==
            SumSet(ByKeyImage(us).Keys, k => OutputWeight(mid, line, k))
  {
    var key, batch := MonitorKey(id, block), ByKeyImage(us);
    AppendedAllUtxos(t, id, us);
    AppendedAllOwners(t, id, us);
    ByKeyImageContents(us);
    forall u | u in us
      ensures u.keyImage in batch && batch[u.keyImage] == u
    {
      ByKeyImageExact(t, us, u);
    }
    assert (set u | u in us :: (key, ReceivedRecord(u))) == set k | k in batch :: (key, Record(batch[k], Received));
    RecordsTotal(batch, key, Received, line);
    BatchInStore(AppendedAll(t, id, us), id, batch, line);
  }

  /** The Spent records weigh minus what the spent outputs weighed in the store. */
  lemma SpentTotal(t: Tables, id: MonitorId, block: U64, gone: set<KeyImage>, line: Line)
    requires IndicesAgree(t) && gone <= OwnedBy(t, id)
    ensures SumSet(set k | k in gone && k in t.utxos :: (MonitorKey(id, block), SpentRecord(t.utxos[k])), p => RecordWeight(line, p)) ==
            -SumSet(gone, k => OutputWeight(t, line, k))
  {
    var key, batch := MonitorKey(id, block), map k | k in gone :: t.utxos[k];
    assert batch.Keys == gone;
    assert (set k | k in gone && k in t.utxos :: (key, SpentRecord(t.utxos[k]))) == set k | k in batch :: (key, Record(batch[k], Spent));
    RecordsTotal(batch, key, Spent, line);
    BatchInStore(t, id, batch, line);
  }

  lemma HistoryTotalAfterBlock(t: Tables, id: MonitorId, blockNum: U64, discovered: seq<UnspentTxOut>, spent: seq<KeyImage>, line: Line)
    requires IndicesAgree(t) && HistoryBehindCursor(t)
    requires BlockProcessed(t, id, blockNum, discovered, spent).result.Ok?
    ensures var mid := AppendedAll(t, id, discovered);
            HistoryTotal(BlockProcessed(t, id, blockNum, discovered, spent).tables, line) ==
            HistoryTotal(t, line) + SumSet(ByKeyImage(discovered).Keys, k => OutputWeight(mid, line, k))
              - SumSet(SpentIn(mid, id, spent), k => OutputWeight(mid, line, k))
  {
    var mid := AppendedAll(t, id, discovered);
    var gone := SpentIn(mid, id, spent);
    var key := MonitorKey(id, blockNum);
    var received := set u | u in discovered :: (key, ReceivedRecord(u));
    var consumed := set k | k in gone && k in mid.utxos :: (key, SpentRecord(mid.utxos[k]));
    AppendedAllAgrees(t, id, discovered);
    ReceivedTotal(t, id, blockNum, discovered, line);
    SpentTotal(mid, id, blockNum, gone, line);
    assert received !! consumed;
    assert t.processed !! received + consumed;
    SumSetUnion(received, consumed, p => RecordWeight(line, p));
    SumSetUnion(t.processed, received + consumed, p => RecordWeight(line, p));
  }

  lemma BlockBalances(t: Tables, id: MonitorId, blockNum: U64, discovered: seq<UnspentTxOut>, spent: seq<KeyImage>)
    requires IndicesAgree(t) && HistoryBehindCursor(t) && Balanced(t)
    ensures Balanced(BlockProcessed(t, id, blockNum, discovered, spent).tables)
  {
    var out := BlockProcessed(t, id, blockNum, discovered, spent);
    if out.result.Ok? {
      var mid := AppendedAll(t, id, discovered);
      var gone := SpentIn(mid, id, spent);
      AppendedAllAgrees(t, id, discovered);
      forall line
        ensures HistoryTotal(out.tables, line) == StoreTotal(out.tables, line)
      {
        HistoryTotalAfterBlock(t, id, blockNum, discovered, spent, line);
        StoreTotalAppended(t, id, discovered, line);
        StoreTotalDropped(mid, gone, line);
        SameStore(Dropped(mid, gone), out.tables, line);
      }
    }
  }

  /** The store total reads the two UTXO maps only. */
  lemma SameStore(t: Tables, r: Tables, line: Line)
    requires r.utxos == t.utxos && r.keyImageToSubaddress == t.keyImageToSubaddress
    ensures StoreTotal(r, line) == StoreTotal(t, line)
  {
    SumSetCongruent(t.utxos.Keys, k => OutputWeight(t, line, k), k => OutputWeight(r, line, k));
  }

  // ---- The other operations ----

  lemma RemoveBalances(t: Tables, id: MonitorId)
    requires IndicesAgree(t) && Confined(t) && Balanced(t)
    ensures Balanced(RemoveMonitor(t, id).tables)
  {
    if id in t.monitors {
      var r := RemoveMonitor(t, id).tables;
      var gone := InOwnRange(t, id);
      forall line
        ensures HistoryTotal(r, line) == StoreTotal(r, line)
      {
        SameStore(Dropped(t, gone), r, line);
        if line.id == id {
          SumSetZero(r.processed, p => RecordWeight(line, p));
          SumSetZero(r.utxos.Keys, k => OutputWeight(r, line, k));
        } else {
          SumSetSupport(t.processed, r.processed, p => RecordWeight(line, p));
          StoreTotalDropped(t, gone, line);
          SumSetZero(gone, k => OutputWeight(t, line, k));
        }
      }
    }
  }

  lemma MarkBalances(t: Tables, ids: set<KeyImage>, height: U64, tombstone: U64)
    requires Balanced(t)
    ensures Balanced(Marked(t, ids, height, tombstone))
  {
    var r := Marked(t, ids, height, tombstone);
    forall line
      ensures HistoryTotal(r, line) == StoreTotal(r, line)
    {
      assert HistoryTotal(t, line) == StoreTotal(t, line);
      assert r.utxos.Keys == t.utxos.Keys;
      SumSetCongruent(t.utxos.Keys, k => OutputWeight(t, line, k), k => OutputWeight(r, line, k));
    }
  }

  lemma ApplyBalances(env: Env, w: World, op: Op)
    requires WorldInv(env, w) && Balanced(w.tables)
    ensures Balanced(Apply(env, w, op).tables)
  {
    match op {
      case Register(_, _, _, _, _) =>
        var r := Apply(env, w, op).tables;
        forall line
          ensures HistoryTotal(r, line) == StoreTotal(r, line)
        {
          SameStore(w.tables, r, line);
        }
      case Remove(id) => RemoveBalances(w.tables, id);
      case Process(id, blockNum, block) => BlockBalances(w.tables, id, blockNum, block.discovered, block.spent);
      case Mark(ids, height, tombstone) => MarkBalances(w.tables, Elements(ids), height, tombstone);
    }
  }

  /** After any run of the database, on every line, received minus spent is the value in store. */
  lemma HistoryConserved(env: Env, ops: seq<Op>, line: Line)
    requires ScannedRun(env, ops)
    ensures HistoryTotal(Run(env, ops).tables, line) == StoreTotal(Run(env, ops).tables, line)
  {
    RunBalances(env, ops);
  }

  lemma {:induction false} RunBalances(env: Env, ops: seq<Op>)
    requires ScannedRun(env, ops)
    ensures Balanced(Run(env, ops).tables)
  {
    if ops != [] {
      var init := ops[..|ops| - 1];
      ScannedPrefix(env, ops);
      RunBalances(env, init);
      RunKeeps(env, init);
      ApplyBalances(env, Run(env, init), ops[|ops| - 1]);
    }
  }
}
