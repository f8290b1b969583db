// The wallet against one fixed ledger: whatever monitors are added, synced,
// marked and removed, a monitor stores what the ledger itself leaves unspent.

module LedgerReplay {
  import opened Common
  import opened Keys
  import opened Wallet
  import opened WalletInvariants
  import opened ChainReplay
  import opened SyncBatch

  /** A call on the wallet; blocks arrive only through syncing. */
  datatype Call =
    | AddCall(account: AccountKey, firstSubaddress: U64, numSubaddresses: U64, firstBlock: U64, name: string)
    | RemoveCall(id: MonitorId)
    | MarkCall(ids: seq<KeyImage>, height: U64, tombstone: U64)
    | SyncCall(id: MonitorId, workers: nat)

  // ---- What a monitor finds in a block, whoever else is registered ----

  /** The registration of a monitor, without its cursor and its name. */
  function Origin(data: MonitorData): MonitorData {
    data.(nextBlock := data.firstBlock, name := "")
  }

  ghost predicate Pays(env: Env, data: MonitorData, spk: Spk, index: U64) {
    InRange(data, index) && env.spkOf(data.accountKey, index) == spk
  }

  /** The monitor's own subaddress with that spend key. */
  ghost function OwnIndex(env: Env, data: MonitorData, spk: Spk): Option<U64> {
    if exists i: U64 :: Pays(env, data, spk, i) then
      var i: U64 :| Pays(env, data, spk, i);
      Some(i)
    else None
  }

  ghost function OwnPayee(viewer: Viewer, env: Env, data: MonitorData, txOut: TxOut): Option<U64> {
    match viewer.recover(data.accountKey, txOut)
    case None => None
    case Some(spk) => OwnIndex(env, data, spk)
  }

  /** The outputs that pay one of the monitor's subaddresses. */
  ghost function OwnOutputs(viewer: Viewer, env: Env, data: MonitorData, outputs: seq<TxOut>): seq<UnspentTxOut> {
    if outputs == [] then [] else
      var rest := OwnOutputs(viewer, env, data, outputs[..|outputs| - 1]);
      var txOut := outputs[|outputs| - 1];
      match OwnPayee(viewer, env, data, txOut)
      case None => rest
      case Some(index) => rest + [Opened(viewer, data.accountKey, index, txOut)]
  }

  /** Position j of the block pays the output to one of the monitor's subaddresses. */
  ghost predicate PaysAt(viewer: Viewer, env: Env, data: MonitorData, outputs: seq<TxOut>, u: UnspentTxOut, j: nat) {
    && j < |outputs|
    && var index := OwnPayee(viewer, env, data, outputs[j]);
    index.Some? && Reads(viewer, data.accountKey, index.value, outputs[j], u)
  }

  ghost predicate PaidIn(viewer: Viewer, env: Env, data: MonitorData, outputs: seq<TxOut>, u: UnspentTxOut) {
    exists j: nat :: PaysAt(viewer, env, data, outputs, u, j)
  }

  lemma {:induction false} OwnListed(viewer: Viewer, env: Env, data: MonitorData, outputs: seq<TxOut>, u: UnspentTxOut)
    ensures Lists(OwnOutputs(viewer, env, data, outputs), u) <==> PaidIn(viewer, env, data, outputs, u)
  {
    if outputs != [] {
      var n := |outputs| - 1;
      var init := outputs[..n];
      OwnListed(viewer, env, data, init, u);
      var rest, all := OwnOutputs(viewer, env, data, init), OwnOutputs(viewer, env, data, outputs);
      var index := OwnPayee(viewer, env, data, outputs[n]);
      assert Lists(all, u) <==> Lists(rest, u) || PaysAt(viewer, env, data, outputs, u, n) by {
        if index.Some? {
          var own := Opened(viewer, data.accountKey, index.value, outputs[n]);
          assert all == rest + [own] && own in all;
        }
      }
      if j: nat :| PaysAt(viewer, env, data, init, u, j) {
        assert PaysAt(viewer, env, data, outputs, u, j);
      }
      if j: nat :| PaysAt(viewer, env, data, outputs, u, j) {
        if j < n {
          assert PaysAt(viewer, env, data, init, u, j);
        }
      }
    }
  }

  /** The block as the monitor sees it. */
  ghost function OwnBlock(viewer: Viewer, env: Env, data: MonitorData, contents: BlockContents): Block {
    Block(OwnOutputs(viewer, env, data, contents.outputs), contents.keyImages)
  }

  lemma OwnIndexExact(env: Env, t: Tables, id: MonitorId, spk: Spk)
    requires SpkIndexExact(env, t) && id in t.monitors
    ensures OwnIndex(env, Origin(t.monitors[id]), spk) ==
            if spk in t.spkToSubaddress && t.spkToSubaddress[spk].monitorId == id then Some(t.spkToSubaddress[spk].index) else None
  {
    var data := Origin(t.monitors[id]);
    if i: U64 :| Pays(env, data, spk, i) {
      assert InRange(t.monitors[id], i);
    }
    if spk in t.spkToSubaddress && t.spkToSubaddress[spk].monitorId == id {
      assert Pays(env, data, spk, t.spkToSubaddress[spk].index);
    }
  }

  lemma PayeeIsOwn(viewer: Viewer, env: Env, t: Tables, id: MonitorId, txOut: TxOut)
    requires SpkIndexExact(env, t) && id in t.monitors
    requires OnlyOwn(viewer, t.spkToSubaddress, id, t.monitors[id].accountKey, [txOut])
    ensures var payee := Payee(viewer, t.spkToSubaddress, t.monitors[id].accountKey, txOut);
            OwnPayee(viewer, env, Origin(t.monitors[id]), txOut) == if payee.Some? then Some(payee.value.index) else None
  {
    assert txOut in [txOut];
    var recovered := viewer.recover(t.monitors[id].accountKey, txOut);
    if recovered.Some? {
      OwnIndexExact(env, t, id, recovered.value);
    }
  }

  /** A scan that trips no assertion finds the monitor's own outputs, whatever else the index holds. */
  lemma {:induction false} MatchIsOwn(viewer: Viewer, env: Env, t: Tables, id: MonitorId, outputs: seq<TxOut>)
    requires SpkIndexExact(env, t) && id in t.monitors
    requires OnlyOwn(viewer, t.spkToSubaddress, id, t.monitors[id].accountKey, outputs)
    ensures Match(viewer, t.spkToSubaddress, t.monitors[id].accountKey, outputs) ==
            OwnOutputs(viewer, env, Origin(t.monitors[id]), outputs)
  {
    if outputs != [] {
      var last := outputs[|outputs| - 1];
      assert last in outputs;
      MatchIsOwn(viewer, env, t, id, outputs[..|outputs| - 1]);
      PayeeIsOwn(viewer, env, t, id, last);
    }
  }

  lemma {:induction false} OwnConfined(viewer: Viewer, env: Env, data: MonitorData, outputs: seq<TxOut>)
    ensures forall u :: u in OwnOutputs(viewer, env, data, outputs) ==> InRange(data, u.subaddressIndex)
  {
    if outputs != [] {
      OwnConfined(viewer, env, data, outputs[..|outputs| - 1]);
    }
  }

  // ---- Runs ----

  function BlockOf(result: Result<Scanned, Error>): Block {
    if result.Ok? then Block(result.value.utxos, result.value.keyImages) else Block([], [])
  }

  ghost function Recorded(w: World, id: MonitorId, t: Tables, block: Block): World {
    World(t, w.chain[id := BlocksOf(w, id) + [block]])
  }

  /** Commits scan results in order, and keeps account of the blocks. */
  ghost function CommitWorld(commit: Commit, w: World, id: MonitorId, next: nat, results: seq<Result<Scanned,
                             Error>>): World
    decreases |results|
  {
    if results == [] then w else
      var first := commit(w.tables, next, results[0]);
      if first.result.Err? then w.(tables := first.tables)
      else CommitWorld(commit, Recorded(w, id, first.tables, BlockOf(results[0])), id, next + 1, results[1..])
  }

  /** A call of sync_monitor; a scan that trips the assertion commits nothing. */
  ghost function SyncWorld(viewer: Viewer, ledger: Ledger, w: World, id: MonitorId, workers: nat): World {
    var t := w.tables;
    if id !in t.monitors || t.monitors[id].nextBlock >= |ledger| || !MaySync(viewer, t, ledger, id, workers) then w
    else CommitWorld(CommitFor(id), w, id, t.monitors[id].nextBlock, ScanAll(viewer, t, ledger, id, BatchSize(t, ledger, id, workers)))
  }

  ghost function Step(env: Env, viewer: Viewer, ledger: Ledger, w: World, call: Call): World {
    match call
    case AddCall(account, firstSubaddress, numSubaddresses, firstBlock, name) =>
      Apply(env, w, Register(account, firstSubaddress, numSubaddresses, firstBlock, name))
    case RemoveCall(id) => Apply(env, w, Remove(id))
    case MarkCall(ids, height, tombstone) => Apply(env, w, Mark(ids, height, tombstone))
    case SyncCall(id, workers) => SyncWorld(viewer, ledger, w, id, workers)
  }

  ghost function After(env: Env, viewer: Viewer, ledger: Ledger, calls: seq<Call>): World {
    if calls == [] then World(EMPTY, map[])
    else Step(env, viewer, ledger, After(env, viewer, ledger, calls[..|calls| - 1]), calls[|calls| - 1])
  }

  lemma {:induction false} CommitWorldTables(commit: Commit, w: World, id: MonitorId, next: nat,
                                             results: seq<Result<Scanned, Error>>)
    ensures CommitWorld(commit, w, id, next, results).tables == CommitAll(commit, w.tables, next, results).tables
    decreases |results|
  {
    if results != [] {
      var first := commit(w.tables, next, results[0]);
      if first.result.Ok? {
        CommitWorldTables(commit, Recorded(w, id, first.tables, BlockOf(results[0])), id, next + 1, results[1..]);
      }
    }
  }

  /** The tables are those sync_monitor leaves. */
  lemma SyncWorldTables(viewer: Viewer, ledger: Ledger, w: World, id: MonitorId, workers: nat)
    requires MaySync(viewer, w.tables, ledger, id, workers)
    ensures SyncWorld(viewer, ledger, w, id, workers).tables == Sync(viewer, w.tables, ledger, id, workers).tables
  {
    var t := w.tables;
    if id in t.monitors && t.monitors[id].nextBlock < |ledger| {
      CommitWorldTables(CommitFor(id), w, id, t.monitors[id].nextBlock, ScanAll(viewer, t, ledger, id, BatchSize(t, ledger, id, workers)));
    }
  }

  // ---- The chain of every monitor is the ledger ----

  ghost predicate ChainIs(env: Env, viewer: Viewer, ledger: Ledger, data: MonitorData, chain: seq<Block>) {
    && (chain != [] ==> data.firstBlock + |chain| <= |ledger|)
    && forall i :: 0 <= i < |chain| ==> BlockIs(env, viewer, ledger, data, data.firstBlock + i, chain[i])
  }

  ghost predicate BlockIs(env: Env, viewer: Viewer, ledger: Ledger, data: MonitorData, b: nat, block: Block) {
    b < |ledger| && ledger[b].Ok? && block == OwnBlock(viewer, env, Origin(data), ledger[b].value)
  }

  ghost predicate LedgerInv(env: Env, viewer: Viewer, ledger: Ledger, w: World) {
    && WorldInv(env, w)
    && forall m :: m in w.chain ==> ChainIs(env, viewer, ledger, w.tables.monitors[m], w.chain[m])
  }

  /** The block the scan of one result stands for. */
  ghost predicate ScansLedger(env: Env, viewer: Viewer, ledger: Ledger, data: MonitorData, b: nat,
                              result: Result<Scanned, Error>) {
    result.Ok? ==> BlockIs(env, viewer, ledger, data, b, BlockOf(result))
  }

  lemma ChainGrows(env: Env, viewer: Viewer, ledger: Ledger, data: MonitorData, after: MonitorData,
                   chain: seq<Block>, block: Block)
    requires ChainIs(env, viewer, ledger, data, chain) && Origin(after) == Origin(data)
    requires BlockIs(env, viewer, ledger, data, data.firstBlock + |chain|, block)
    ensures ChainIs(env, viewer, ledger, after, chain + [block])
  {
    var longer := chain + [block];
    forall i | 0 <= i < |longer|
      ensures BlockIs(env, viewer, ledger, after, after.firstBlock + i, longer[i])
    {
      if i < |chain| {
        assert BlockIs(env, viewer, ledger, data, data.firstBlock + i, chain[i]);
      }
    }
  }

  lemma OwnBlockConfined(env: Env, viewer: Viewer, ledger: Ledger, t: Tables, id: MonitorId, b: nat, block: Block)
    requires id in t.monitors && BlockIs(env, viewer, ledger, t.monitors[id], b, block)
    ensures ScanConfined(t, id, block.discovered)
  {
    OwnConfined(viewer, env, Origin(t.monitors[id]), ledger[b].value.outputs);
  }

  lemma CommitIsProcess(env: Env, w: World, id: MonitorId, next: nat, result: Result<Scanned, Error>)
    requires CommitFor(id)(w.tables, next, result).result.Ok?
    ensures next < TWO64 && result.Ok?
    ensures Recorded(w, id, CommitFor(id)(w.tables, next, result).tables, BlockOf(result)) == Apply(env, w, Process(id, next, BlockOf(result)))
    ensures id in w.tables.monitors && next == w.tables.monitors[id].nextBlock
    ensures SameMonitors(w.tables, CommitFor(id)(w.tables, next, result).tables)
  {
    CommitForSteps(id);
    assert StepsCursor(CommitFor(id), id, w.tables, next, result);
  }

  /** One more committed block. */
  lemma CommitExtends(env: Env, viewer: Viewer, ledger: Ledger, w: World, id: MonitorId, next: nat,
                      result: Result<Scanned, Error>)
    requires LedgerInv(env, viewer, ledger, w) && id in w.tables.monitors
    requires ScansLedger(env, viewer, ledger, w.tables.monitors[id], next, result)
    requires CommitFor(id)(w.tables, next, result).result.Ok?
    ensures LedgerInv(env, viewer, ledger, Recorded(w, id, CommitFor(id)(w.tables, next, result).tables, BlockOf(result)))
  {
    CommitIsProcess(env, w, id, next, result);
    var block := BlockOf(result);
    OwnBlockConfined(env, viewer, ledger, w.tables, id, next, block);
    ProcessKeeps(env, w, id, next, block);
    var r := Recorded(w, id, CommitFor(id)(w.tables, next, result).tables, block);
    SameOrigins(w.tables, r.tables);
    forall m | m in r.chain
      ensures ChainIs(env, viewer, ledger, r.tables.monitors[m], r.chain[m])
    {
      assert ChainIs(env, viewer, ledger, w.tables.monitors[m], w.chain[m]);
      if m == id {
        ChainGrows(env, viewer, ledger, w.tables.monitors[m], r.tables.monitors[m], w.chain[m], block);
      } else {
        ChainCarries(env, viewer, ledger, w.tables.monitors[m], r.tables.monitors[m], w.chain[m]);
      }
    }
  }

  lemma SameOrigins(t: Tables, r: Tables)
    requires SameMonitors(t, r)
    ensures r.monitors.Keys == t.monitors.Keys
    ensures forall m :: m in t.monitors ==> Origin(r.monitors[m]) == Origin(t.monitors[m])
  {
  }

  lemma ChainCarries(env: Env, viewer: Viewer, ledger: Ledger, data: MonitorData, after: MonitorData, chain: seq<Block>)
    requires ChainIs(env, viewer, ledger, data, chain) && Origin(after) == Origin(data)
    ensures ChainIs(env, viewer, ledger, after, chain)
  {
    forall i | 0 <= i < |chain|
      ensures BlockIs(env, viewer, ledger, after, after.firstBlock + i, chain[i])
    {
      assert BlockIs(env, viewer, ledger, data, data.firstBlock + i, chain[i]);
    }
  }

  type Scans = (Tables, nat, Result<Scanned, Error>) -> bool

  /** A commit of a scanned block keeps an invariant and what the later results stand for; a failed one changes nothing. */
  ghost predicate Extends(commit: Commit, inv: World -> bool, scans: Scans, id: MonitorId, w: World, next: nat,
                          result: Result<Scanned, Error>) {
    var first := commit(w.tables, next, result);
    inv(w) && scans(w.tables, next, result) ==>
      if first.result.Err? then first.tables == w.tables
      else inv(Recorded(w, id, first.tables, BlockOf(result))) && Carries(scans, w.tables, first.tables)
  }

  ghost predicate Carries(scans: Scans, t: Tables, r: Tables) {
    forall b: nat, result :: scans(t, b, result) ==> scans(r, b, result)
  }

  lemma {:induction false} CommitWorldKeeps(commit: Commit, inv: World -> bool, scans: Scans, w: World,
                                            id: MonitorId, next: nat, results: seq<Result<Scanned, Error>>)
    requires inv(w) && forall i :: 0 <= i < |results| ==> scans(w.tables, next + i, results[i])
    requires forall w, next: nat, result :: Extends(commit, inv, scans, id, w, next, result)
    ensures inv(CommitWorld(commit, w, id, next, results))
    decreases |results|
  {
    if results != [] {
      var first := commit(w.tables, next, results[0]);
      assert scans(w.tables, next + 0, results[0]);
      assert Extends(commit, inv, scans, id, w, next, results[0]);
      if first.result.Err? {
        assert w.(tables := first.tables) == w;
      } else {
        var r, rest := Recorded(w, id, first.tables, BlockOf(results[0])), results[1..];
        forall i | 0 <= i < |rest|
          ensures scans(r.tables, next + 1 + i, rest[i])
        {
          assert scans(w.tables, next + (i + 1), results[i + 1]);
          assert next + (i + 1) == next + 1 + i && rest[i] == results[i + 1];
        }
        CommitWorldKeeps(commit, inv, scans, r, id, next + 1, rest);
      }
    }
  }

  ghost function FollowsLedger(env: Env, viewer: Viewer, ledger: Ledger, id: MonitorId): World -> bool {
    w => LedgerInv(env, viewer, ledger, w) && id in w.tables.monitors
  }

  ghost function ScansFor(env: Env, viewer: Viewer, ledger: Ledger, id: MonitorId): Scans {
    (t: Tables, b: nat, result: Result<Scanned, Error>) =>
      id in t.monitors && ScansLedger(env, viewer, ledger, t.monitors[id], b, result)
  }

  lemma CommitForExtends(env: Env, viewer: Viewer, ledger: Ledger, id: MonitorId, w: World, next: nat,
                         result: Result<Scanned, Error>)
    ensures Extends(CommitFor(id), FollowsLedger(env, viewer, ledger, id), ScansFor(env, viewer, ledger, id), id, w, next, result)
  {
    var first := CommitFor(id)(w.tables, next, result);
    var inv, scans := FollowsLedger(env, viewer, ledger, id), ScansFor(env, viewer, ledger, id);
    if inv(w) && scans(w.tables, next, result) {
      if first.result.Err? {
        CommitForSteps(id);
        assert StepsCursor(CommitFor(id), id, w.tables, next, result);
      } else {
        CommitIsProcess(env, w, id, next, result);
        CommitExtends(env, viewer, ledger, w, id, next, result);
        forall b: nat, other | scans(w.tables, b, other)
          ensures scans(first.tables, b, other)
        {
          ScanCarries(env, viewer, ledger, w.tables, first.tables, id, b, other);
        }
      }
    }
  }

  lemma ScanCarries(env: Env, viewer: Viewer, ledger: Ledger, t: Tables, r: Tables, id: MonitorId, b: nat,
                    result: Result<Scanned, Error>)
    requires SameMonitors(t, r) && id in t.monitors
    requires ScansLedger(env, viewer, ledger, t.monitors[id], b, result)
    ensures ScansLedger(env, viewer, ledger, r.monitors[id], b, result)
  {
    SameOrigins(t, r);
  }

  lemma ScanAllScans(env: Env, viewer: Viewer, ledger: Ledger, t: Tables, id: MonitorId, count: nat, i: nat)
    requires SpkIndexExact(env, t) && id in t.monitors && t.monitors[id].nextBlock + count <= |ledger| && i < count
    requires BatchOwn(viewer, t, ledger, id, count)
    ensures ScansLedger(env, viewer, ledger, t.monitors[id], t.monitors[id].nextBlock + i, ScanAll(viewer, t, ledger, id, count)[i])
  {
    var b := t.monitors[id].nextBlock + i;
    assert ScanAll(viewer, t, ledger, id, count)[i] == ScanBlock(viewer, t.spkToSubaddress, t.monitors[id].accountKey, ledger[b]);
    if ledger[b].Ok? {
      MatchIsOwn(viewer, env, t, id, ledger[b].value.outputs);
    }
  }

  lemma SyncKeepsLedger(env: Env, viewer: Viewer, ledger: Ledger, w: World, id: MonitorId, workers: nat)
    requires LedgerInv(env, viewer, ledger, w)
    ensures LedgerInv(env, viewer, ledger, SyncWorld(viewer, ledger, w, id, workers))
  {
    var t := w.tables;
    if id in t.monitors && t.monitors[id].nextBlock < |ledger| && MaySync(viewer, t, ledger, id, workers) {
      var count := BatchSize(t, ledger, id, workers);
      var results := ScanAll(viewer, t, ledger, id, count);
      var inv, scans := FollowsLedger(env, viewer, ledger, id), ScansFor(env, viewer, ledger, id);
      forall i | 0 <= i < |results|
        ensures scans(t, t.monitors[id].nextBlock + i, results[i])
      {
        ScanAllScans(env, viewer, ledger, t, id, count, i);
      }
      forall w, next: nat, result
        ensures Extends(CommitFor(id), inv, scans, id, w, next, result)
      {
        CommitForExtends(env, viewer, ledger, id, w, next, result);
      }
      CommitWorldKeeps(CommitFor(id), inv, scans, w, id, t.monitors[id].nextBlock, results);
    }
  }

  /** Adding, removing and marking leave the chains of the monitors that stay as they were. */
  lemma OthersKeepLedger(env: Env, viewer: Viewer, ledger: Ledger, w: World, op: Op)
    requires LedgerInv(env, viewer, ledger, w) && !op.Process?
    ensures LedgerInv(env, viewer, ledger, Apply(env, w, op))
  {
    ApplyKeeps(env, w, op);
    var r := Apply(env, w, op);
    forall m | m in r.chain
      ensures ChainIs(env, viewer, ledger, r.tables.monitors[m], r.chain[m])
    {
      if m in w.chain {
        assert r.chain[m] == w.chain[m] && r.tables.monitors[m] == w.tables.monitors[m];
      } else {
        assert r.chain[m] == [];
      }
    }
  }

  lemma {:induction false} RunFollowsLedger(env: Env, viewer: Viewer, ledger: Ledger, calls: seq<Call>)
    ensures LedgerInv(env, viewer, ledger, After(env, viewer, ledger, calls))
  {
    if calls != [] {
      var init, call := calls[..|calls| - 1], calls[|calls| - 1];
      RunFollowsLedger(env, viewer, ledger, init);
      var w := After(env, viewer, ledger, init);
      match call
      case AddCall(account, first, num, block, name) => OthersKeepLedger(env, viewer, ledger, w, Register(account, first, num, block, name));
      case RemoveCall(id) => OthersKeepLedger(env, viewer, ledger, w, Remove(id));
      case MarkCall(ids, height, tombstone) => OthersKeepLedger(env, viewer, ledger, w, Mark(ids, height, tombstone));
      case SyncCall(id, workers) => SyncKeepsLedger(env, viewer, ledger, w, id, workers);
    } else {
      RunKeeps(env, []);
    }
  }

  /** The ledger has the output for the monitor in block b, and neither b nor a later block before `next` spends it. */
  ghost predicate UnspentFrom(env: Env, viewer: Viewer, ledger: Ledger, data: MonitorData, next: nat,
                              u: UnspentTxOut, b: nat) {
    && data.firstBlock <= b < next <= |ledger| && ledger[b].Ok?
    && PaidIn(viewer, env, Origin(data), ledger[b].value.outputs, u)
    && forall c :: b <= c < next ==> ledger[c].Ok? && u.keyImage !in ledger[c].value.keyImages
  }

  lemma FoundInLedger(env: Env, viewer: Viewer, ledger: Ledger, data: MonitorData, chain: seq<Block>,
                      u: UnspentTxOut, b: nat)
    requires ChainIs(env, viewer, ledger, data, chain) && data.firstBlock + |chain| == data.nextBlock && data.firstBlock <= b
    ensures FoundAt(chain, u, b - data.firstBlock) <==> UnspentFrom(env, viewer, ledger, data, data.nextBlock, u, b)
  {
    forall c | data.firstBlock <= c < data.nextBlock
      ensures c < |ledger| && ledger[c].Ok? && chain[c - data.firstBlock] == OwnBlock(viewer, env, Origin(data), ledger[c].value)
    {
      assert BlockIs(env, viewer, ledger, data, data.firstBlock + (c - data.firstBlock), chain[c - data.firstBlock]);
    }
    if b < data.nextBlock {
      OwnListed(viewer, env, Origin(data), ledger[b].value.outputs, u);
    }
    if UnspentFrom(env, viewer, ledger, data, data.nextBlock, u, b) {
      forall k | b - data.firstBlock <= k < |chain|
        ensures u.keyImage !in chain[k].spent
      {
        assert u.keyImage !in ledger[data.firstBlock + k].value.keyImages;
      }
    }
    if FoundAt(chain, u, b - data.firstBlock) {
      forall c | b <= c < data.nextBlock
        ensures ledger[c].Ok? && u.keyImage !in ledger[c].value.keyImages
      {
        assert u.keyImage !in chain[c - data.firstBlock].spent;
      }
    }
  }

  ghost predicate UnspentOnLedger(env: Env, viewer: Viewer, ledger: Ledger, data: MonitorData, u: UnspentTxOut) {
    exists b: nat :: UnspentFrom(env, viewer, ledger, data, data.nextBlock, u, b)
  }

  lemma InvAnswers(env: Env, viewer: Viewer, ledger: Ledger, data: MonitorData, chain: seq<Block>, u: UnspentTxOut)
    requires ChainIs(env, viewer, ledger, data, chain) && data.firstBlock + |chain| == data.nextBlock
    ensures FoundUnspent(chain, u) <==> UnspentOnLedger(env, viewer, ledger, data, u)
  {
    if FoundUnspent(chain, u) {
      var k :| FoundAt(chain, u, k);
      FoundInLedger(env, viewer, ledger, data, chain, u, data.firstBlock + k);
      assert UnspentFrom(env, viewer, ledger, data, data.nextBlock, u, data.firstBlock + k);
    }
    if b: nat :| UnspentFrom(env, viewer, ledger, data, data.nextBlock, u, b) {
      FoundInLedger(env, viewer, ledger, data, chain, u, b);
      assert FoundAt(chain, u, b - data.firstBlock);
    }
  }

  lemma StoredIsUnspent(env: Env, viewer: Viewer, ledger: Ledger, w: World, id: MonitorId, u: UnspentTxOut)
    requires LedgerInv(env, viewer, ledger, w) && id in w.tables.monitors
    ensures Stored(w.tables, id, u) <==> UnspentOnLedger(env, viewer, ledger, w.tables.monitors[id], u)
  {
    assert Replays(w.tables, id, w.chain[id]);
    InvAnswers(env, viewer, ledger, w.tables.monitors[id], w.chain[id], u);
  }

  /** After any run of adding, syncing, marking and removing monitors against one ledger, a live monitor stores exactly the
      outputs the ledger pays to its subaddresses in some block b of [first_block, next_block) whose key image no block
      of [b, next_block) contains. */
  lemma LedgerReplayed(env: Env, viewer: Viewer, ledger: Ledger, calls: seq<Call>, id: MonitorId, u: UnspentTxOut)
    requires id in After(env, viewer, ledger, calls).tables.monitors
    ensures var t := After(env, viewer, ledger, calls).tables;
            Stored(t, id, u) <==> UnspentOnLedger(env, viewer, ledger, t.monitors[id], u)
  {
    RunFollowsLedger(env, viewer, ledger, calls);
    StoredIsUnspent(env, viewer, ledger, After(env, viewer, ledger, calls), id, u);
  }
}
