// What the history of a processed block says: a received record for every
// output the block brought, a spent record for every output it spent.

module ProcessedBlocks {
  import opened Common
  import opened Keys
  import opened Wallet
  import opened ChainReplay

  /** The record is about the output, in every field. */
  predicate About(p: ProcessedTxOut, u: UnspentTxOut, direction: Direction) {
    && p.subaddressIndex == u.subaddressIndex && p.publicKey == u.publicKey && p.keyImage == u.keyImage
    && p.value == u.value && p.tokenId == u.tokenId && p.direction == direction
  }

  lemma RecordsAbout(p: ProcessedTxOut, u: UnspentTxOut)
    ensures p == ReceivedRecord(u) <==> About(p, u, Received)
    ensures p == SpentRecord(u) <==> About(p, u, Spent)
  {
  }

  ghost predicate Receives(block: Block, p: ProcessedTxOut) {
    exists u :: u in block.discovered && About(p, u, Received)
  }

  /** The output was unspent before the block, or came with it, and the block spends it. */
  ghost predicate SpentBy(chain: seq<Block>, block: Block, u: UnspentTxOut) {
    (FoundUnspent(chain, u) || Lists(block.discovered, u)) && u.keyImage in block.spent
  }

  ghost predicate Spends(chain: seq<Block>, block: Block, p: ProcessedTxOut) {
    exists u :: SpentBy(chain, block, u) && About(p, u, Spent)
  }

  /** The records of block i of a chain. */
  ghost predicate Tells(t: Tables, id: MonitorId, first: nat, chain: seq<Block>, i: nat)
    requires i < |chain| && first + |chain| <= TWO64
  {
    forall p :: (MonitorKey(id, first + i), p) in t.processed <==> Receives(chain[i], p) || Spends(chain[..i], chain[i], p)
  }

  /** One of the removed outputs gives the record. */
  ghost predicate Removes(t: Tables, gone: set<KeyImage>, p: ProcessedTxOut) {
    exists k :: k in gone && k in t.utxos && p == SpentRecord(t.utxos[k])
  }

  lemma SpentRecordsTell(t: Tables, id: MonitorId, block: Block, chain: seq<Block>, p: ProcessedTxOut)
    requires IndicesAgree(t) && Replays(t, id, chain) && Fresh(t, block.discovered)
    ensures var mid := AppendedAll(t, id, block.discovered);
            Removes(mid, SpentIn(mid, id, block.spent), p) <==> Spends(chain, block, p)
  {
    var mid := AppendedAll(t, id, block.discovered);
    var gone := SpentIn(mid, id, block.spent);
    AppendedAllAgrees(t, id, block.discovered);
    if k :| k in gone && k in mid.utxos && p == SpentRecord(mid.utxos[k]) {
      var u := mid.utxos[k];
      StoredAfterAppend(t, id, block.discovered, u);
      assert SpentBy(chain, block, u);
    }
    if u :| SpentBy(chain, block, u) && About(p, u, Spent) {
      StoredAfterAppend(t, id, block.discovered, u);
      var k := u.keyImage;
      assert Stored(mid, id, u);
      assert Strip(mid.utxos[k]) == Strip(u) && SpentRecord(mid.utxos[k]) == SpentRecord(u);
      assert k in gone && k in mid.utxos && p == SpentRecord(mid.utxos[k]);
    }
  }

  lemma RecordsAdded(t: Tables, key: MonitorKey, block: Block, gone: set<KeyImage>, p: ProcessedTxOut)
    ensures (key, p) in BlockRecords(t, key, block.discovered, gone) <==> Receives(block, p) || Removes(t, gone, p)
  {
    if u :| u in block.discovered && About(p, u, Received) {
      assert (key, ReceivedRecord(u)) in BlockRecords(t, key, block.discovered, gone);
    }
    if k :| k in gone && k in t.utxos && p == SpentRecord(t.utxos[k]) {
      assert (key, SpentRecord(t.utxos[k])) in BlockRecords(t, key, block.discovered, gone);
    }
  }

  /** The records one committed block adds. */
  lemma BlockTells(t: Tables, id: MonitorId, blockNum: U64, block: Block, chain: seq<Block>, p: ProcessedTxOut)
    requires IndicesAgree(t) && HistoryBehindCursor(t) && Replays(t, id, chain)
    requires BlockProcessed(t, id, blockNum, block.discovered, block.spent).result.Ok?
    ensures var r := BlockProcessed(t, id, blockNum, block.discovered, block.spent).tables;
            (MonitorKey(id, blockNum), p) in r.processed <==> Receives(block, p) || Spends(chain, block, p)
  {
    var mid := AppendedAll(t, id, block.discovered);
    var key := MonitorKey(id, blockNum);
    assert (key, p) !in t.processed;
    SpentRecordsTell(t, id, block, chain, p);
    RecordsAdded(mid, key, block, SpentIn(mid, id, block.spent), p);
  }

  /** What a block adds leaves the records of every other block alone. */
  lemma OtherBlocksKept(t: Tables, id: MonitorId, blockNum: U64, block: Block, key: MonitorKey, p: ProcessedTxOut)
    requires BlockProcessed(t, id, blockNum, block.discovered, block.spent).result.Ok? && key != MonitorKey(id, blockNum)
    ensures (key, p) in BlockProcessed(t, id, blockNum, block.discovered, block.spent).tables.processed <==> (key, p) in t.processed
  {
  }

  ghost predicate Telling(w: World, m: MonitorId, i: nat) {
    m in w.chain && m in w.tables.monitors && i < |w.chain[m]| && w.tables.monitors[m].firstBlock + |w.chain[m]| <= TWO64 ==>
      Tells(w.tables, m, w.tables.monitors[m].firstBlock, w.chain[m], i)
  }

  lemma NewBlockTells(t: Tables, r: Tables, id: MonitorId, first: nat, blockNum: U64, block: Block, chain: seq<Block>)
    requires IndicesAgree(t) && HistoryBehindCursor(t) && Replays(t, id, chain) && first + |chain| == blockNum
    requires BlockProcessed(t, id, blockNum, block.discovered, block.spent) == Outcome(r, Ok(()))
    ensures Tells(r, id, first, chain + [block], |chain|)
  {
    assert (chain + [block])[..|chain|] == chain;
    var key := MonitorKey(id, blockNum);
    forall p
      ensures (key, p) in r.processed <==> Receives(block, p) || Spends(chain, block, p)
    {
      BlockTells(t, id, blockNum, block, chain, p);
    }
  }

  lemma OldBlockTells(t: Tables, r: Tables, m: MonitorId, first: nat, chain: seq<Block>, longer: seq<Block>, i: nat, key: MonitorKey)
    requires i < |chain| <= |longer| && first + |longer| <= TWO64 && longer[..|chain|] == chain
    requires Tells(t, m, first, chain, i)
    requires key == MonitorKey(m, first + i) && forall p :: (key, p) in r.processed <==> (key, p) in t.processed
    ensures Tells(r, m, first, longer, i)
  {
    assert longer[i] == longer[..|chain|][i] && longer[..i] == longer[..|chain|][..i];
  }

  lemma ProcessTells(env: Env, w: World, id: MonitorId, blockNum: U64, block: Block, m: MonitorId, i: nat)
    requires WorldInv(env, w) && Telling(w, m, i)
    ensures Telling(Apply(env, w, Process(id, blockNum, block)), m, i)
  {
    var r := Apply(env, w, Process(id, blockNum, block));
    var out := BlockProcessed(w.tables, id, blockNum, block.discovered, block.spent);
    if out.result.Ok? && m in r.chain && m in r.tables.monitors && i < |r.chain[m]| {
      var first, chain := w.tables.monitors[m].firstBlock, w.chain[m];
      if m == id && i == |chain| {
        NewBlockTells(w.tables, r.tables, id, first, blockNum, block, chain);
      } else {
        var key := MonitorKey(m, first + i);
        forall p
          ensures (key, p) in r.tables.processed <==> (key, p) in w.tables.processed
        {
          OtherBlocksKept(w.tables, id, blockNum, block, key, p);
        }
        OldBlockTells(w.tables, r.tables, m, first, chain, r.chain[m], i, key);
      }
    }
  }

  lemma OthersTell(env: Env, w: World, op: Op, m: MonitorId, i: nat)
    requires WorldInv(env, w) && Telling(w, m, i) && !op.Process?
    ensures Telling(Apply(env, w, op), m, i)
  {
    var r := Apply(env, w, op);
    if m in r.chain && i < |r.chain[m]| {
      assert m in w.chain && r.chain[m] == w.chain[m] && r.tables.monitors[m].firstBlock == w.tables.monitors[m].firstBlock;
      assert forall key: MonitorKey, p :: key.monitorId == m ==> ((key, p) in r.tables.processed <==> (key, p) in w.tables.processed);
    }
  }

  lemma {:induction false} RunTells(env: Env, ops: seq<Op>, m: MonitorId, i: nat)
    requires ScannedRun(env, ops)
    ensures Telling(Run(env, ops), m, i)
  {
    if ops != [] {
      var init, op := ops[..|ops| - 1], ops[|ops| - 1];
      ScannedPrefix(env, ops);
      RunTells(env, init, m, i);
      RunKeeps(env, init);
      match op
      case Process(id, blockNum, block) => ProcessTells(env, Run(env, init), id, blockNum, block, m, i);
      case _ => OthersTell(env, Run(env, init), op, m, i);
    }
  }

  lemma AnswerTells(t: Tables, id: MonitorId, chain: seq<Block>, b: U64)
    requires ProcessedBlock(t, id, b).Ok? && t.monitors[id].firstBlock + |chain| == t.monitors[id].nextBlock
    requires Tells(t, id, t.monitors[id].firstBlock, chain, b - t.monitors[id].firstBlock)
    ensures var i := b - t.monitors[id].firstBlock;
            forall p :: p in ProcessedBlock(t, id, b).value <==> Receives(chain[i], p) || Spends(chain[..i], chain[i], p)
  {
    var key := MonitorKey(id, b);
    forall p
      ensures p in ProcessedBlock(t, id, b).value <==> (key, p) in t.processed
    {
    }
  }

  /** The answer for a block the monitor has passed is a received record for every output of that block and a spent record
      for every output that was unspent until then, or came with the block, and that the block spends. */
  ghost predicate AnswerRight(w: World, id: MonitorId, b: U64)
    requires id in w.tables.monitors
  {
    var data, answer := w.tables.monitors[id], ProcessedBlock(w.tables, id, b);
    && id in w.chain && data.firstBlock + |w.chain[id]| == data.nextBlock
    && (answer.Ok? <==> data.firstBlock <= b < data.nextBlock)
    && (b < data.firstBlock ==> answer == Err(BlockIndexTooSmall))
    && (data.firstBlock <= b && data.nextBlock <= b ==> answer == Err(BlockNotYetProcessed))
    && (answer.Ok? ==> forall p :: p in answer.value <==>
          || Receives(w.chain[id][b - data.firstBlock], p)
          || Spends(w.chain[id][..b - data.firstBlock], w.chain[id][b - data.firstBlock], p))
  }

  lemma TellingAnswers(env: Env, w: World, id: MonitorId, b: U64)
    requires WorldInv(env, w) && id in w.tables.monitors
    requires forall i: nat :: Telling(w, id, i)
    ensures AnswerRight(w, id, b)
  {
    if ProcessedBlock(w.tables, id, b).Ok? {
      assert Telling(w, id, b - w.tables.monitors[id].firstBlock);
      AnswerTells(w.tables, id, w.chain[id], b);
    }
  }

  lemma BlockReplayed(env: Env, ops: seq<Op>, id: MonitorId, b: U64)
    requires ScannedRun(env, ops) && id in Run(env, ops).tables.monitors
    ensures AnswerRight(Run(env, ops), id, b)
  {
    var w := Run(env, ops);
    RunKeeps(env, ops);
    forall i: nat
      ensures Telling(w, id, i)
    {
      RunTells(env, ops, id, i);
    }
    TellingAnswers(env, w, id, b);
  }
}
