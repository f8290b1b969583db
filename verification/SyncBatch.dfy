// sync_monitor as one undisturbed call: scan up to num_workers blocks in
// parallel, then commit the results in block order.  The source looks up each
// output in a read transaction of its own; SyncInterleaved takes that apart.

module SyncBatch {
  import opened Common
  import opened Keys
  import opened Wallet
  import opened WalletInvariants
  import opened WalletDb

  type TxOut = int

  datatype BlockContents = BlockContents(outputs: seq<TxOut>, keyImages: seq<KeyImage>)

  /** A block that the ledger fails to return is an error entry. */
  type Ledger = s: seq<Result<BlockContents, Error>> | |s| < TWO64

  /** What an account sees inside an output to one of its subaddresses. */
  datatype Sight = Sight(publicKey: PublicKey, keyImage: KeyImage, value: U64, tokenId: TokenId, memoPayload: MemoPayload)

  /** View-key arithmetic: the spend key an account recovers from an output, and what it sees inside. */
  datatype Viewer = Viewer(
    recover: (AccountKey, TxOut) -> Option<Spk>,
    open: (AccountKey, U64, TxOut) -> Sight)

  datatype SyncOk = NoMoreBlocks | MoreBlocksPotentiallyAvailable

  datatype Scanned = Scanned(utxos: seq<UnspentTxOut>, keyImages: seq<KeyImage>)

  // ---- match_tx_outs_into_utxos ----

  /** The subaddress an output pays, if the index knows the recovered key. */
  function Payee(viewer: Viewer, spks: map<Spk, MonitorKey>, account: AccountKey, txOut: TxOut): Option<MonitorKey> {
    match viewer.recover(account, txOut)
    case None => None
    case Some(spk) => if spk in spks then Some(spks[spk]) else None
  }

  /** The source asserts that a recognised output belongs to the monitor being scanned. */
  predicate OnlyOwn(viewer: Viewer, spks: map<Spk, MonitorKey>, id: MonitorId, account: AccountKey, outputs: seq<TxOut>) {
    forall txOut :: txOut in outputs && Payee(viewer, spks, account, txOut).Some? ==>
      Payee(viewer, spks, account, txOut).value.monitorId == id
  }

  function Opened(viewer: Viewer, account: AccountKey, index: U64, txOut: TxOut): UnspentTxOut {
    var sight := viewer.open(account, index, txOut);
    UnspentTxOut(sight.publicKey, index, sight.keyImage, sight.value, 0, 0, sight.tokenId, sight.memoPayload)
  }

  function Match(viewer: Viewer, spks: map<Spk, MonitorKey>, account: AccountKey, outputs: seq<TxOut>): seq<UnspentTxOut> {
    if outputs == [] then [] else
      var rest := Match(viewer, spks, account, outputs[..|outputs| - 1]);
      var txOut := outputs[|outputs| - 1];
      match Payee(viewer, spks, account, txOut)
      case None => rest
      case Some(key) =>
        rest + [Opened(viewer, account, key.index, txOut)]
  }

  /** The stored output is the one on the ledger as the account sees it, whatever has been noted about spending it since. */
  predicate Reads(viewer: Viewer, account: AccountKey, index: U64, txOut: TxOut, u: UnspentTxOut) {
    var sight := viewer.open(account, index, txOut);
    && u.subaddressIndex == index && u.publicKey == sight.publicKey && u.keyImage == sight.keyImage
    && u.value == sight.value && u.tokenId == sight.tokenId && u.memoPayload == sight.memoPayload
  }

  /** The positions of a block whose output the index recognises, in order. */
  function Recognised(viewer: Viewer, spks: map<Spk, MonitorKey>, account: AccountKey, outputs: seq<TxOut>): seq<nat> {
    if outputs == [] then [] else
      var n := |outputs| - 1;
      var rest := Recognised(viewer, spks, account, outputs[..n]);
      if Payee(viewer, spks, account, outputs[n]).Some? then rest + [n] else rest
  }

  lemma {:induction false} RecognisedAre(viewer: Viewer, spks: map<Spk, MonitorKey>, account: AccountKey, outputs: seq<TxOut>)
    ensures var at := Recognised(viewer, spks, account, outputs);
            && (forall i, j :: 0 <= i < j < |at| ==> at[i] < at[j])
            && (forall n: nat :: n in at <==> n < |outputs| && Payee(viewer, spks, account, outputs[n]).Some?)
  {
    if outputs != [] {
      var init := outputs[..|outputs| - 1];
      RecognisedAre(viewer, spks, account, init);
      var before := Recognised(viewer, spks, account, init);
      assert forall i :: 0 <= i < |before| ==> before[i] in before;
    }
  }

  /** A scan reports exactly the recognised outputs of the block, in order, each as the account sees it under the
      subaddress found and with no spending attempted. */
  lemma {:induction false} ScanReads(viewer: Viewer, spks: map<Spk, MonitorKey>, account: AccountKey, outputs: seq<TxOut>)
    ensures var at, found := Recognised(viewer, spks, account, outputs), Match(viewer, spks, account, outputs);
            && |found| == |at|
            && forall i :: 0 <= i < |at| ==>
                 && at[i] < |outputs| && Payee(viewer, spks, account, outputs[at[i]]).Some?
                 && Reads(viewer, account, Payee(viewer, spks, account, outputs[at[i]]).value.index, outputs[at[i]], found[i])
                 && found[i].attemptedSpendHeight == 0 && found[i].attemptedSpendTombstone == 0
  {
    if outputs != [] {
      ScanReads(viewer, spks, account, outputs[..|outputs| - 1]);
    }
  }

  /** What the scan reports lies in the monitor's own range. */
  lemma {:induction false} MatchConfined(viewer: Viewer, env: Env, t: Tables, id: MonitorId, outputs: seq<TxOut>)
    requires SpkIndexExact(env, t) && id in t.monitors
    requires OnlyOwn(viewer, t.spkToSubaddress, id, t.monitors[id].accountKey, outputs)
    ensures ScanConfined(t, id, Match(viewer, t.spkToSubaddress, t.monitors[id].accountKey, outputs))
  {
    if outputs != [] {
      MatchConfined(viewer, env, t, id, outputs[..|outputs| - 1]);
    }
  }

  function ScanBlock(viewer: Viewer, spks: map<Spk, MonitorKey>, account: AccountKey, block: Result<BlockContents, Error>)
    : Result<Scanned, Error>
  {
    match block
    case Err(e) => Err(e)
    case Ok(contents) => Ok(Scanned(Match(viewer, spks, account, contents.outputs), contents.keyImages))
  }

  // ---- sync_monitor ----

  /** Commits one scan result; an error result commits nothing. */
  ghost function CommitOne(t: Tables, id: MonitorId, blockNum: nat, result: Result<Scanned, Error>): Outcome<()> {
    match result
    case Err(e) => Outcome(t, Err(e))
    case Ok(scan) =>
      if blockNum < TWO64 then BlockProcessed(t, id, blockNum, scan.utxos, scan.keyImages) else Outcome(t, Err(InvalidArgument))
  }

  /** A way to commit the scan of a block for one monitor. */
  type Commit = (Tables, nat, Result<Scanned, Error>) -> Outcome<()>

  ghost function CommitFor(id: MonitorId): Commit {
    (t: Tables, blockNum: nat, result: Result<Scanned, Error>) => CommitOne(t, id, blockNum, result)
  }

  /** Commits scan results in order from block `next`, stopping at the first error. */
  ghost function CommitAll(commit: Commit, t: Tables, next: nat, results: seq<Result<Scanned, Error>>): Outcome<()>
    decreases |results|
  {
    if results == [] then Outcome(t, Ok(())) else
      var first := commit(t, next, results[0]);
      if first.result.Err? then first else CommitAll(commit, first.tables, next + 1, results[1..])
  }

  function ScanAll(viewer: Viewer, t: Tables, ledger: Ledger, id: MonitorId, count: nat): seq<Result<Scanned, Error>>
    requires id in t.monitors && t.monitors[id].nextBlock + count <= |ledger|
  {
    seq(count, i requires 0 <= i < count =>
      ScanBlock(viewer, t.spkToSubaddress, t.monitors[id].accountKey, ledger[t.monitors[id].nextBlock + i]))
  }

  function BatchSize(t: Tables, ledger: Ledger, id: MonitorId, workers: nat): nat
    requires id in t.monitors && t.monitors[id].nextBlock < |ledger|
  {
    Min(workers, |ledger| - t.monitors[id].nextBlock)
  }

  /** The source's assertion holds in every block of the batch. */
  predicate BatchOwn(viewer: Viewer, t: Tables, ledger: Ledger, id: MonitorId, count: nat)
    requires id in t.monitors && t.monitors[id].nextBlock + count <= |ledger|
  {
    var data := t.monitors[id];
    forall b :: data.nextBlock <= b < data.nextBlock + count && ledger[b].Ok? ==>
      OnlyOwn(viewer, t.spkToSubaddress, id, data.accountKey, ledger[b].value.outputs)
  }

  /** What a call scans trips no assertion. */
  predicate MaySync(viewer: Viewer, t: Tables, ledger: Ledger, id: MonitorId, workers: nat) {
    id in t.monitors && t.monitors[id].nextBlock < |ledger| ==>
      BatchOwn(viewer, t, ledger, id, BatchSize(t, ledger, id, workers))
  }

  ghost function Sync(viewer: Viewer, t: Tables, ledger: Ledger, id: MonitorId, workers: nat): Outcome<SyncOk> {
    if id !in t.monitors then
      Outcome(t, Err(MonitorIdNotFound))
    else if t.monitors[id].nextBlock >= |ledger| then
      Outcome(t, Ok(NoMoreBlocks))
    else
      var next := t.monitors[id].nextBlock;
      var count := BatchSize(t, ledger, id, workers);
      var out := CommitAll(CommitFor(id), t, next, ScanAll(viewer, t, ledger, id, count));
      match out.result
      case Err(e) => Outcome(out.tables, Err(e))
      case Ok(_) => Outcome(out.tables, Ok(if next + count == |ledger| then NoMoreBlocks else MoreBlocksPotentiallyAvailable))
  }

  method CommitResult(db: Database, id: MonitorId, blockNum: nat, result: Result<Scanned, Error>) returns (r: Result<(), Error>)
    requires IndicesAgree(db.tables) && blockNum < TWO64
    modifies db
    ensures IndicesAgree(db.tables)
    ensures Outcome(db.tables, r) == CommitFor(id)(old(db.tables), blockNum, result)
  {
    match result
    case Err(e) => return Err(e);
    case Ok(scan) => r := db.BlockProcessed(id, blockNum, scan.utxos, scan.keyImages);
  }

  /** The commit loop of sync_monitor. */
  method CommitResults(db: Database, id: MonitorId, next: nat, results: seq<Result<Scanned, Error>>) returns (r: Result<(), Error>)
    requires IndicesAgree(db.tables)
    requires next + |results| < TWO64
    modifies db
    ensures IndicesAgree(db.tables)
    ensures Outcome(db.tables, r) == CommitAll(CommitFor(id), old(db.tables), next, results)
  {
    ghost var all := CommitAll(CommitFor(id), db.tables, next, results);
    var block, pending := next, results;
    while pending != []
      invariant IndicesAgree(db.tables)
      invariant block + |pending| == next + |results|
      invariant all == CommitAll(CommitFor(id), db.tables, block, pending)
      decreases |pending|
    {
      r := CommitResult(db, id, block, pending[0]);
      if r.Err? {
        return;
      }
      block, pending := block + 1, pending[1..];
    }
    return Ok(());
  }

  method SyncMonitor(db: Database, viewer: Viewer, ledger: Ledger, id: MonitorId, workers: nat) returns (r: Result<SyncOk, Error>)
    requires IndicesAgree(db.tables)
    // match_tx_outs_into_utxos panics on an output that pays another monitor.
    requires MaySync(viewer, db.tables, ledger, id, workers)
    modifies db
    ensures IndicesAgree(db.tables)
    ensures Outcome(db.tables, r) == Sync(viewer, old(db.tables), ledger, id, workers)
  {
    if id !in db.tables.monitors {
      return Err(MonitorIdNotFound);
    }
    var monitorData := db.tables.monitors[id];
    if monitorData.nextBlock >= |ledger| {
      return Ok(NoMoreBlocks);
    }
    var blocksRemaining := |ledger| - monitorData.nextBlock;
    var numBlocksToLoad := Min(workers, blocksRemaining);
    var results := ScanAll(viewer, db.tables, ledger, id, numBlocksToLoad);
    var committed := CommitResults(db, id, monitorData.nextBlock, results);
    if committed.Err? {
      return Err(committed.error);
    }
    return Ok(if blocksRemaining == numBlocksToLoad then NoMoreBlocks else MoreBlocksPotentiallyAvailable);
  }

  // ---- One block at a time ----

  /** The same work without batching: read the cursor, scan that block, commit it, repeat. */
  ghost function OneByOne(commit: Commit, viewer: Viewer, t: Tables, ledger: Ledger, id: MonitorId, count: nat): Outcome<()>
    decreases count
  {
    if count == 0 then
      Outcome(t, Ok(()))
    else if id !in t.monitors then
      Outcome(t, Err(MonitorIdNotFound))
    else
      var data := t.monitors[id];
      if data.nextBlock >= |ledger| then Outcome(t, Ok(())) else
        var first := commit(t, data.nextBlock, ScanBlock(viewer, t.spkToSubaddress, data.accountKey, ledger[data.nextBlock]));
        if first.result.Err? then first else OneByOne(commit, viewer, first.tables, ledger, id, count - 1)
  }

  /** Committing blocks moves cursors and nothing else about monitors or spend keys. */
  ghost predicate SameMonitors(t: Tables, r: Tables) {
    && r.spkToSubaddress == t.spkToSubaddress
    && r.monitors.Keys == t.monitors.Keys
    && forall m :: m in t.monitors ==> r.monitors[m] == t.monitors[m].(nextBlock := r.monitors[m].nextBlock)
  }

  /** A committed block moves its monitor's cursor by one; a failed one changes nothing. */
  ghost predicate StepsCursor(commit: Commit, id: MonitorId, t: Tables, next: nat, result: Result<Scanned, Error>) {
    var out := commit(t, next, result);
    if out.result.Ok? then
      && SameMonitors(t, out.tables)
      && id in t.monitors && t.monitors[id].nextBlock == next
      && out.tables.monitors[id].nextBlock == next + 1
    else out.tables == t
  }

  ghost predicate StepsCursors(commit: Commit, id: MonitorId) {
    forall t, next: nat, result :: StepsCursor(commit, id, t, next, result)
  }

  lemma CommitForSteps(id: MonitorId)
    ensures StepsCursors(CommitFor(id), id)
  {
    forall t, next: nat, result
      ensures StepsCursor(CommitFor(id), id, t, next, result)
    {
    }
  }

  /** The parallel scan with ordered commit is the sequential scan and commit. */
  lemma {:induction false} BatchIsSequence(commit: Commit, viewer: Viewer, t: Tables, ledger: Ledger, id: MonitorId, count: nat)
    requires StepsCursors(commit, id)
    requires id in t.monitors && t.monitors[id].nextBlock + count <= |ledger|
    ensures CommitAll(commit, t, t.monitors[id].nextBlock, ScanAll(viewer, t, ledger, id, count)) ==
            OneByOne(commit, viewer, t, ledger, id, count)
    decreases count
  {
    if count > 0 {
      var next := t.monitors[id].nextBlock;
      var results := ScanAll(viewer, t, ledger, id, count);
      var first := commit(t, next, results[0]);
      assert StepsCursor(commit, id, t, next, results[0]);
      if first.result.Ok? {
        assert results[1..] == ScanAll(viewer, first.tables, ledger, id, count - 1);
        BatchIsSequence(commit, viewer, first.tables, ledger, id, count - 1);
      }
    }
  }

  /** A whole call of sync_monitor, tables and error included, is the sequential one. */
  lemma SyncIsSequence(viewer: Viewer, t: Tables, ledger: Ledger, id: MonitorId, workers: nat)
    requires id in t.monitors && t.monitors[id].nextBlock < |ledger|
    ensures var one := OneByOne(CommitFor(id), viewer, t, ledger, id, BatchSize(t, ledger, id, workers));
            && Sync(viewer, t, ledger, id, workers).tables == one.tables
            && (Sync(viewer, t, ledger, id, workers).result.Err? <==> one.result.Err?)
            && (one.result.Err? ==> Sync(viewer, t, ledger, id, workers).result == Err(one.result.error))
  {
    CommitForSteps(id);
    BatchIsSequence(CommitFor(id), viewer, t, ledger, id, BatchSize(t, ledger, id, workers));
  }

  /** The blocks before `next + j` are committed and the one at `next + j` is what failed. */
  ghost predicate StoppedAt(commit: Commit, t: Tables, next: nat, results: seq<Result<Scanned, Error>>, j: nat) {
    var out := CommitAll(commit, t, next, results);
    && j < |results|
    && CommitAll(commit, t, next, results[..j]) == Outcome(out.tables, Ok(()))
    && commit(out.tables, next + j, results[j]) == out
  }

  /** On error, exactly the blocks before the failing one are committed. */
  lemma {:induction false} ErrorLeavesPrefix(commit: Commit, t: Tables, id: MonitorId, next: nat, results: seq<Result<Scanned, Error>>)
    requires StepsCursors(commit, id)
    requires CommitAll(commit, t, next, results).result.Err?
    ensures exists j: nat :: StoppedAt(commit, t, next, results, j)
    decreases |results|
  {
    var first := commit(t, next, results[0]);
    assert StepsCursor(commit, id, t, next, results[0]);
    if first.result.Err? {
      assert StoppedAt(commit, t, next, results, 0);
    } else {
      ErrorLeavesPrefix(commit, first.tables, id, next + 1, results[1..]);
      var j: nat :| StoppedAt(commit, first.tables, next + 1, results[1..], j);
      assert results[..j + 1][1..] == results[1..][..j];
      assert StoppedAt(commit, t, next, results, j + 1);
    }
  }

  lemma {:induction false} CommitMovesCursor(commit: Commit, t: Tables, id: MonitorId, next: nat, results: seq<Result<Scanned, Error>>)
    requires StepsCursors(commit, id)
    requires id in t.monitors && t.monitors[id].nextBlock == next
    ensures var out := CommitAll(commit, t, next, results);
            out.result.Ok? ==> id in out.tables.monitors && out.tables.monitors[id].nextBlock == next + |results|
    decreases |results|
  {
    if results != [] {
      var first := commit(t, next, results[0]);
      assert StepsCursor(commit, id, t, next, results[0]);
      if first.result.Ok? {
        CommitMovesCursor(commit, first.tables, id, next + 1, results[1..]);
      }
    }
  }

  /** What a call answers: an unknown monitor is an error that changes nothing; a call that succeeds has taken as many blocks
      as there are workers, or all that remained, and reports that there are no more exactly if the end is reached. */
  lemma SyncAnswers(viewer: Viewer, t: Tables, ledger: Ledger, id: MonitorId, workers: nat)
    ensures id !in t.monitors ==> Sync(viewer, t, ledger, id, workers) == Outcome(t, Err(MonitorIdNotFound))
    ensures var out := Sync(viewer, t, ledger, id, workers);
            id in t.monitors && out.result.Ok? ==>
              && id in out.tables.monitors
              && (out.result.value == NoMoreBlocks <==> out.tables.monitors[id].nextBlock >= |ledger|)
              && out.tables.monitors[id].nextBlock ==
                 if t.monitors[id].nextBlock >= |ledger| then t.monitors[id].nextBlock
                 else Min(|ledger|, t.monitors[id].nextBlock + workers)
  {
    if id in t.monitors && t.monitors[id].nextBlock < |ledger| {
      CommitForSteps(id);
      var results := ScanAll(viewer, t, ledger, id, BatchSize(t, ledger, id, workers));
      CommitMovesCursor(CommitFor(id), t, id, t.monitors[id].nextBlock, results);
    }
  }

  // ---- Every batch keeps the database sound ----

  lemma ScanAllConfined(viewer: Viewer, env: Env, t: Tables, ledger: Ledger, id: MonitorId, count: nat, i: nat)
    requires SpkIndexExact(env, t) && id in t.monitors && t.monitors[id].nextBlock + count <= |ledger| && i < count
    requires BatchOwn(viewer, t, ledger, id, count)
    ensures var result := ScanAll(viewer, t, ledger, id, count)[i];
            result.Ok? ==> ScanConfined(t, id, result.value.utxos)
  {
    var block := ledger[t.monitors[id].nextBlock + i];
    var result := ScanAll(viewer, t, ledger, id, count)[i];
    assert result == ScanBlock(viewer, t.spkToSubaddress, t.monitors[id].accountKey, block);
    if block.Ok? {
      MatchConfined(viewer, env, t, id, block.value.outputs);
      assert result.value.utxos == Match(viewer, t.spkToSubaddress, t.monitors[id].accountKey, block.value.outputs);
    }
  }

  lemma {:induction false} CommitAllKeeps(env: Env, t: Tables, id: MonitorId, next: nat, results: seq<Result<Scanned, Error>>)
    requires Consistent(env, t) && Confined(t)
    requires forall i :: 0 <= i < |results| && results[i].Ok? ==> ScanConfined(t, id, results[i].value.utxos)
    ensures Consistent(env, CommitAll(CommitFor(id), t, next, results).tables)
    ensures Confined(CommitAll(CommitFor(id), t, next, results).tables)
    decreases |results|
  {
    if results != [] {
      var first := CommitFor(id)(t, next, results[0]);
      CommitOneKeeps(env, t, id, next, results[0]);
      CommitForSteps(id);
      assert StepsCursor(CommitFor(id), id, t, next, results[0]);
      if first.result.Ok? {
        forall i | 0 <= i < |results[1..]| && results[1..][i].Ok?
          ensures ScanConfined(first.tables, id, results[1..][i].value.utxos)
        {
          assert results[1..][i] == results[i + 1];
          ConfinedAcross(t, first.tables, id, results[i + 1].value.utxos);
        }
        CommitAllKeeps(env, first.tables, id, next + 1, results[1..]);
      }
    }
  }

  lemma CommitOneKeeps(env: Env, t: Tables, id: MonitorId, next: nat, result: Result<Scanned, Error>)
    requires Consistent(env, t) && Confined(t)
    requires result.Ok? ==> ScanConfined(t, id, result.value.utxos)
    ensures Consistent(env, CommitOne(t, id, next, result).tables)
    ensures Confined(CommitOne(t, id, next, result).tables)
  {
    if result.Ok? && next < TWO64 {
      BlockProcessedKeeps(env, t, id, next, result.value.utxos, result.value.keyImages);
    }
  }

  lemma ConfinedAcross(t: Tables, r: Tables, id: MonitorId, us: seq<UnspentTxOut>)
    requires SameMonitors(t, r) && ScanConfined(t, id, us)
    ensures ScanConfined(r, id, us)
  {
  }

  /** sync_monitor keeps every table invariant, because what it scans lies in the monitor's range. */
  lemma SyncKeeps(viewer: Viewer, env: Env, t: Tables, ledger: Ledger, id: MonitorId, workers: nat)
    requires Consistent(env, t) && Confined(t)
    requires MaySync(viewer, t, ledger, id, workers)
    ensures Consistent(env, Sync(viewer, t, ledger, id, workers).tables)
    ensures Confined(Sync(viewer, t, ledger, id, workers).tables)
  {
    if id in t.monitors && t.monitors[id].nextBlock < |ledger| {
      var count := BatchSize(t, ledger, id, workers);
      var results := ScanAll(viewer, t, ledger, id, count);
      forall i | 0 <= i < |results| && results[i].Ok?
        ensures ScanConfined(t, id, results[i].value.utxos)
      {
        ScanAllConfined(viewer, env, t, ledger, id, count, i);
      }
      CommitAllKeeps(env, t, id, t.monitors[id].nextBlock, results);
    }
  }

  // ---- How many calls it takes ----

  /** The outcome of the last of `calls` calls in a row; an error ends the row. */
  ghost function AfterCalls(call: Tables -> Outcome<SyncOk>, t: Tables, calls: nat): Outcome<SyncOk>
    requires calls >= 1
  {
    if calls == 1 then call(t) else
      var before := AfterCalls(call, t, calls - 1);
      if before.result.Err? then before else call(before.tables)
  }

  ghost predicate Behind(t: Tables, id: MonitorId, height: nat) {
    id in t.monitors && t.monitors[id].nextBlock < height
  }

  /** What a successful call on a monitor that is behind does to its cursor. */
  ghost predicate Advances(call: Tables -> Outcome<SyncOk>, t: Tables, id: MonitorId, height: nat, workers: nat)
    requires Behind(t, id, height)
  {
    var out := call(t);
    out.result.Ok? ==>
      && id in out.tables.monitors
      && out.tables.monitors[id].nextBlock == Min(t.monitors[id].nextBlock + workers, height)
      && (out.result.value == NoMoreBlocks <==> out.tables.monitors[id].nextBlock == height)
  }

  ghost function SyncCall(viewer: Viewer, ledger: Ledger, id: MonitorId, workers: nat): Tables -> Outcome<SyncOk> {
    t => Sync(viewer, t, ledger, id, workers)
  }

  lemma SyncAdvances(viewer: Viewer, t: Tables, ledger: Ledger, id: MonitorId, workers: nat)
    requires Behind(t, id, |ledger|)
    ensures Advances(SyncCall(viewer, ledger, id, workers), t, id, |ledger|, workers)
  {
    CommitForSteps(id);
    CommitMovesCursor(CommitFor(id), t, id, t.monitors[id].nextBlock, ScanAll(viewer, t, ledger, id, BatchSize(t, ledger, id, workers)));
  }

  /** Blocks covered by a number of full batches. */
  function Moved(workers: nat, calls: nat): nat {
    if calls == 0 then 0 else Moved(workers, calls - 1) + workers
  }

  /** Each successful call but the last moves the cursor by a full batch. */
  lemma {:induction false} CallsAdvance(call: Tables -> Outcome<SyncOk>, t: Tables, id: MonitorId, height: nat, workers: nat, calls: nat)
    requires Behind(t, id, height) && calls >= 1
    requires forall r :: Behind(r, id, height) ==> Advances(call, r, id, height, workers)
    requires t.monitors[id].nextBlock + Moved(workers, calls - 1) < height
    requires AfterCalls(call, t, calls).result.Ok?
    ensures var out := AfterCalls(call, t, calls);
            && id in out.tables.monitors
            && out.tables.monitors[id].nextBlock == Min(t.monitors[id].nextBlock + Moved(workers, calls), height)
            && (out.result.value == NoMoreBlocks <==> t.monitors[id].nextBlock + Moved(workers, calls) >= height)
  {
    if calls == 1 {
      assert Advances(call, t, id, height, workers);
    } else {
      CallsAdvance(call, t, id, height, workers, calls - 1);
      assert Advances(call, AfterCalls(call, t, calls - 1).tables, id, height, workers);
    }
  }

  function CeilDiv(n: nat, d: nat): nat
    requires d >= 1
  {
    (n + d - 1) / d
  }

  lemma CallsCounted(call: Tables -> Outcome<SyncOk>, t: Tables, id: MonitorId, height: nat, workers: nat, calls: nat)
    requires Behind(t, id, height) && workers >= 1
    requires forall r :: Behind(r, id, height) ==> Advances(call, r, id, height, workers)
    requires 1 <= calls <= CeilDiv(height - t.monitors[id].nextBlock, workers)
    requires AfterCalls(call, t, calls).result.Ok?
    ensures AfterCalls(call, t, calls).result.value == NoMoreBlocks <==>
            calls == CeilDiv(height - t.monitors[id].nextBlock, workers)
  {
    MovedReaches(height - t.monitors[id].nextBlock, workers, calls);
    MovedReaches(height - t.monitors[id].nextBlock, workers, calls - 1);
    CallsAdvance(call, t, id, height, workers, calls);
  }

  /** A monitor r >= 1 blocks behind a fixed ledger learns it has caught up in call ceil(r / workers), not earlier. */
  lemma CallsNeeded(viewer: Viewer, t: Tables, ledger: Ledger, id: MonitorId, workers: nat, calls: nat)
    requires Behind(t, id, |ledger|) && workers >= 1
    requires 1 <= calls <= CeilDiv(|ledger| - t.monitors[id].nextBlock, workers)
    requires AfterCalls(SyncCall(viewer, ledger, id, workers), t, calls).result.Ok?
    ensures AfterCalls(SyncCall(viewer, ledger, id, workers), t, calls).result.value == NoMoreBlocks <==>
            calls == CeilDiv(|ledger| - t.monitors[id].nextBlock, workers)
  {
    forall r | Behind(r, id, |ledger|)
      ensures Advances(SyncCall(viewer, ledger, id, workers), r, id, |ledger|, workers)
    {
      SyncAdvances(viewer, r, ledger, id, workers);
    }
    CallsCounted(SyncCall(viewer, ledger, id, workers), t, id, |ledger|, workers, calls);
  }

  /** ceil(n / d) batches of d are the fewest that cover n. */
  lemma MovedReaches(n: nat, d: nat, c: nat)
    requires d >= 1
    ensures Moved(d, c) >= n <==> c >= CeilDiv(n, d)
  {
    var q := CeilDiv(n, d);
    CeilDivBounds(n, d);
    MovedIsProduct(d, q);
    if c >= q {
      MovedGrows(d, q, c);
    } else {
      MovedGrows(d, c, q - 1);
    }
  }

  lemma CeilDivBounds(n: nat, d: nat)
    requires d >= 1
    ensures n <= CeilDiv(n, d) * d < n + d
  {
    var q := CeilDiv(n, d);
    assert n + d - 1 == q * d + (n + d - 1) % d;
  }

  lemma {:induction false} MovedGrows(d: nat, a: nat, b: nat)
    requires a <= b
    ensures Moved(d, a) <= Moved(d, b)
  {
    if a < b {
      MovedGrows(d, a, b - 1);
    }
  }

  lemma {:induction false} MovedIsProduct(d: nat, c: nat)
    ensures Moved(d, c) == c * d
  {
    if c > 0 {
      MovedIsProduct(d, c - 1);
      assert (c - 1) * d + d == c * d;
    }
  }
}
