// Every run of the database against the blocks it was fed: what is stored for
// a monitor is exactly what replaying its blocks leaves unspent.

module ChainReplay {
  import opened Common
  import opened Keys
  import opened Wallet
  import opened WalletInvariants

  datatype Block = Block(discovered: seq<UnspentTxOut>, spent: seq<KeyImage>)

  /** A call on the database. */
  datatype Op =
    | Register(account: AccountKey, firstSubaddress: U64, numSubaddresses: U64, firstBlock: U64, name: string)
    | Remove(id: MonitorId)
    | Process(id: MonitorId, blockNum: U64, block: Block)
    | Mark(ids: seq<KeyImage>, height: U64, tombstone: U64)

  /** The tables, and beside them the blocks committed for each live monitor. */
  datatype World = World(tables: Tables, chain: map<MonitorId, seq<Block>>)

  ghost function BlocksOf(w: World, id: MonitorId): seq<Block> {
    if id in w.chain then w.chain[id] else []
  }

  ghost function Apply(env: Env, w: World, op: Op): World {
    match op
    case Register(account, firstSubaddress, numSubaddresses, firstBlock, name) =>
      (match NewMonitorData(account, firstSubaddress, numSubaddresses, firstBlock, name)
       case Err(_) => w
       case Ok(data) =>
         var out := AddMonitor(env, w.tables, data);
         World(out.tables, if out.result.Ok? then w.chain[out.result.value := []] else w.chain))
    case Remove(id) =>
      var out := RemoveMonitor(w.tables, id);
      World(out.tables, if out.result.Ok? then w.chain - {id} else w.chain)
    case Process(id, blockNum, block) =>
      var out := BlockProcessed(w.tables, id, blockNum, block.discovered, block.spent);
      World(out.tables, if out.result.Ok? then w.chain[id := BlocksOf(w, id) + [block]] else w.chain)
    case Mark(ids, height, tombstone) =>
      // A hint that moves backwards trips an assertion and the transaction is dropped.
      if MayUpdate(w.tables, ids, height, tombstone)
      then w.(tables := Marked(w.tables, Elements(ids), height, tombstone))
      else w
  }

  ghost function Run(env: Env, ops: seq<Op>): World {
    if ops == [] then World(EMPTY, map[]) else Apply(env, Run(env, ops[..|ops| - 1]), ops[|ops| - 1])
  }

  /** Blocks reach the database through the scan, which only reports the monitor's own subaddresses. */
  ghost predicate Scanned(w: World, op: Op) {
    op.Process? ==> ScanConfined(w.tables, op.id, op.block.discovered)
  }

  ghost predicate ScannedRun(env: Env, ops: seq<Op>) {
    forall n :: 0 <= n < |ops| ==> Scanned(Run(env, ops[..n]), ops[n])
  }

  /** The output itself, without the hint about pending spends. */
  function Strip(u: UnspentTxOut): UnspentTxOut {
    u.(attemptedSpendHeight := 0, attemptedSpendTombstone := 0)
  }

  ghost predicate Lists(us: seq<UnspentTxOut>, u: UnspentTxOut) {
    exists v :: v in us && Strip(v) == Strip(u)
  }

  /** The output is stored for the monitor. */
  ghost predicate Stored(t: Tables, id: MonitorId, u: UnspentTxOut) {
    Owns(t, id, u.keyImage) && u.keyImage in t.utxos && Strip(t.utxos[u.keyImage]) == Strip(u)
  }

  ghost predicate FoundAt(chain: seq<Block>, u: UnspentTxOut, b: int) {
    && 0 <= b < |chain|
    && Lists(chain[b].discovered, u)
    && forall c :: b <= c < |chain| ==> u.keyImage !in chain[c].spent
  }

  /** Some block has the output, and neither it nor a later block spends it. */
  ghost predicate FoundUnspent(chain: seq<Block>, u: UnspentTxOut) {
    exists b :: FoundAt(chain, u, b)
  }

  ghost predicate Replays(t: Tables, id: MonitorId, chain: seq<Block>) {
    forall u :: Stored(t, id, u) <==> FoundUnspent(chain, u)
  }

  ghost predicate WorldInv(env: Env, w: World) {
    && Consistent(env, w.tables)
    && Confined(w.tables)
    && w.chain.Keys == w.tables.monitors.Keys
    && (forall m :: m in w.chain ==>
          w.tables.monitors[m].firstBlock + |w.chain[m]| == w.tables.monitors[m].nextBlock)
    && (forall m :: m in w.chain ==> Replays(w.tables, m, w.chain[m]))
  }

  lemma FoundSnoc(chain: seq<Block>, block: Block, u: UnspentTxOut)
    ensures FoundUnspent(chain + [block], u) <==>
            (FoundUnspent(chain, u) || Lists(block.discovered, u)) && u.keyImage !in block.spent
  {
    var longer := chain + [block];
    if FoundUnspent(longer, u) {
      var b :| FoundAt(longer, u, b);
      assert longer[|chain|] == block;
      if b < |chain| {
        assert forall c :: b <= c < |chain| ==> longer[c] == chain[c];
        assert FoundAt(chain, u, b);
      }
    }
    if FoundUnspent(chain, u) && u.keyImage !in block.spent {
      var b :| FoundAt(chain, u, b);
      assert FoundAt(longer, u, b);
    }
    if Lists(block.discovered, u) && u.keyImage !in block.spent {
      assert FoundAt(longer, u, |chain|);
    }
  }

  /** After a batch is appended, the monitor stores what it had and the batch. */
  lemma StoredAfterAppend(t: Tables, id: MonitorId, us: seq<UnspentTxOut>, u: UnspentTxOut)
    requires IndicesAgree(t) && Fresh(t, us)
    ensures Stored(AppendedAll(t, id, us), id, u) <==> Stored(t, id, u) || Lists(us, u)
  {
    AppendedAllUtxos(t, id, us);
    AppendedAllOwners(t, id, us);
    ByKeyImageContents(us);
    if Lists(us, u) {
      var v :| v in us && Strip(v) == Strip(u);
      ByKeyImageExact(t, us, v);
    }
  }

  lemma ByKeyImageExact(t: Tables, us: seq<UnspentTxOut>, u: UnspentTxOut)
    requires Fresh(t, us) && u in us
    ensures u.keyImage in ByKeyImage(us) && ByKeyImage(us)[u.keyImage] == u
  {
    ByKeyImageContents(us);
    var i :| 0 <= i < |us| && us[i] == u;
    var j :| 0 <= j < |us| && us[j] == ByKeyImage(us)[u.keyImage];
    assert us[i].keyImage == us[j].keyImage;
  }

  lemma OthersAfterAppend(t: Tables, id: MonitorId, us: seq<UnspentTxOut>, other: MonitorId, u: UnspentTxOut)
    requires IndicesAgree(t) && Fresh(t, us) && other != id
    ensures Stored(AppendedAll(t, id, us), other, u) <==> Stored(t, other, u)
  {
    AppendedAllUtxos(t, id, us);
    AppendedAllOwners(t, id, us);
    ByKeyImageContents(us);
    if u.keyImage in ByKeyImage(us) {
      var v := ByKeyImage(us)[u.keyImage];
      var i :| 0 <= i < |us| && us[i] == v;
      assert us[i].keyImage !in t.utxos;
    }
  }

  /** One committed block, seen from the monitor it was committed for and from any other. */
  lemma StoredAfterBlock(t: Tables, id: MonitorId, blockNum: U64, block: Block, m: MonitorId, u: UnspentTxOut)
    requires IndicesAgree(t)
    requires BlockProcessed(t, id, blockNum, block.discovered, block.spent).result.Ok?
    ensures var r := BlockProcessed(t, id, blockNum, block.discovered, block.spent).tables;
            Stored(r, m, u) <==>
            if m == id then (Stored(t, id, u) || Lists(block.discovered, u)) && u.keyImage !in block.spent
            else Stored(t, m, u)
  {
    var mid := AppendedAll(t, id, block.discovered);
    if m == id {
      StoredAfterAppend(t, id, block.discovered, u);
    } else {
      OthersAfterAppend(t, id, block.discovered, m, u);
    }
    assert u.keyImage in SpentIn(mid, id, block.spent) <==> Owns(mid, id, u.keyImage) && u.keyImage in block.spent;
  }

  lemma ProcessKeeps(env: Env, w: World, id: MonitorId, blockNum: U64, block: Block)
    requires WorldInv(env, w) && Scanned(w, Process(id, blockNum, block))
    ensures WorldInv(env, Apply(env, w, Process(id, blockNum, block)))
  {
    BlockProcessedKeeps(env, w.tables, id, blockNum, block.discovered, block.spent);
    var out := BlockProcessed(w.tables, id, blockNum, block.discovered, block.spent);
    var r := Apply(env, w, Process(id, blockNum, block));
    if out.result.Ok? {
      forall m | m in r.chain
        ensures Replays(r.tables, m, r.chain[m])
      {
        forall u
          ensures Stored(r.tables, m, u) <==> FoundUnspent(r.chain[m], u)
        {
          StoredAfterBlock(w.tables, id, blockNum, block, m, u);
          FoundSnoc(w.chain[id], block, u);
        }
      }
    }
  }

  lemma RegisterKeeps(env: Env, w: World, op: Op)
    requires WorldInv(env, w) && op.Register?
    ensures WorldInv(env, Apply(env, w, op))
  {
    var made := NewMonitorData(op.account, op.firstSubaddress, op.numSubaddresses, op.firstBlock, op.name);
    if made.Ok? {
      AddMonitorKeeps(env, w.tables, made.value);
      var r := Apply(env, w, op);
      forall m | m in r.chain
        ensures Replays(r.tables, m, r.chain[m])
      {
        if m !in w.chain {
          forall u
            ensures !Stored(r.tables, m, u) && !FoundUnspent([], u)
          {
          }
        } else {
          assert forall u :: Stored(r.tables, m, u) <==> Stored(w.tables, m, u);
        }
      }
    }
  }

  lemma RemoveKeeps(env: Env, w: World, id: MonitorId)
    requires WorldInv(env, w)
    ensures WorldInv(env, Apply(env, w, Remove(id)))
  {
    RemoveMonitorKeeps(env, w.tables, id);
    var r := Apply(env, w, Remove(id));
    forall m | m in r.chain
      ensures Replays(r.tables, m, r.chain[m])
    {
      if id in w.tables.monitors {
        RemoveMonitorFrames(w.tables, id, m);
        forall u
          ensures Stored(r.tables, m, u) <==> Stored(w.tables, m, u)
        {
          assert u.keyImage in OwnedBy(r.tables, m) <==> u.keyImage in OwnedBy(w.tables, m);
        }
      }
    }
  }

  lemma MarkKeeps(env: Env, w: World, ids: seq<KeyImage>, height: U64, tombstone: U64)
    requires WorldInv(env, w)
    ensures WorldInv(env, Apply(env, w, Mark(ids, height, tombstone)))
  {
    UpdateKeeps(env, w.tables, Elements(ids), height, tombstone);
    var r := Apply(env, w, Mark(ids, height, tombstone));
    forall m | m in r.chain
      ensures Replays(r.tables, m, r.chain[m])
    {
      forall u
        ensures Stored(r.tables, m, u) <==> Stored(w.tables, m, u)
      {
      }
    }
  }

  lemma ApplyKeeps(env: Env, w: World, op: Op)
    requires WorldInv(env, w) && Scanned(w, op)
    ensures WorldInv(env, Apply(env, w, op))
  {
    match op {
      case Register(_, _, _, _, _) => RegisterKeeps(env, w, op);
      case Remove(id) => RemoveKeeps(env, w, id);
      case Process(id, blockNum, block) => ProcessKeeps(env, w, id, blockNum, block);
      case Mark(ids, height, tombstone) => MarkKeeps(env, w, ids, height, tombstone);
    }
  }

  lemma ScannedPrefix(env: Env, ops: seq<Op>)
    requires ScannedRun(env, ops) && ops != []
    ensures ScannedRun(env, ops[..|ops| - 1])
    ensures Scanned(Run(env, ops[..|ops| - 1]), ops[|ops| - 1])
  {
    var init := ops[..|ops| - 1];
    forall n | 0 <= n < |init|
      ensures Scanned(Run(env, init[..n]), init[n])
    {
      assert init[..n] == ops[..n];
      assert Scanned(Run(env, ops[..n]), ops[n]);
    }
  }

  lemma {:induction false} RunKeeps(env: Env, ops: seq<Op>)
    requires ScannedRun(env, ops)
    ensures WorldInv(env, Run(env, ops))
  {
    if ops != [] {
      var init := ops[..|ops| - 1];
      ScannedPrefix(env, ops);
      RunKeeps(env, init);
      ApplyKeeps(env, Run(env, init), ops[|ops| - 1]);
    }
  }

  /** After any run, the outputs stored for a live monitor are those found in some block b of
      [first_block, next_block) whose key image no block of [b, next_block) contains. */
  lemma ChainReplayed(env: Env, ops: seq<Op>, id: MonitorId, u: UnspentTxOut)
    requires ScannedRun(env, ops)
    requires id in Run(env, ops).tables.monitors
    ensures var w := Run(env, ops);
            && id in w.chain
            && w.tables.monitors[id].firstBlock + |w.chain[id]| == w.tables.monitors[id].nextBlock
            && (Stored(w.tables, id, u) <==>
                exists b :: 0 <= b < |w.chain[id]| && Lists(w.chain[id][b].discovered, u) &&
                  forall c :: b <= c < |w.chain[id]| ==> u.keyImage !in w.chain[id][c].spent)
  {
    RunKeeps(env, ops);
    var w := Run(env, ops);
    assert Replays(w.tables, id, w.chain[id]);
    if FoundUnspent(w.chain[id], u) {
      var b :| FoundAt(w.chain[id], u, b);
    }
    if b :| 0 <= b < |w.chain[id]| && Lists(w.chain[id][b].discovered, u) &&
            forall c :: b <= c < |w.chain[id]| ==> u.keyImage !in w.chain[id][c].spent {
      assert FoundAt(w.chain[id], u, b);
    }
  }

  // ---- Spend hints ----

  /** What a run has last noted about spending the output k: the last accepted mark that lists it since it was stored, or what
      it was stored with. */
  ghost function Noted(env: Env, ops: seq<Op>, k: KeyImage): (U64, U64) {
    if ops == [] then (0, 0) else
      var before, w := Noted(env, ops[..|ops| - 1], k), Run(env, ops[..|ops| - 1]);
      match ops[|ops| - 1]
      case Mark(ids, height, tombstone) =>
        if k in ids && MayUpdate(w.tables, ids, height, tombstone) then (height, tombstone) else before
      case Process(id, blockNum, block) =>
        if k !in w.tables.utxos && k in ByKeyImage(block.discovered)
        then (ByKeyImage(block.discovered)[k].attemptedSpendHeight, ByKeyImage(block.discovered)[k].attemptedSpendTombstone)
        else before
      case _ => before
  }

  lemma ProcessKeepsHints(t: Tables, id: MonitorId, blockNum: U64, block: Block, k: KeyImage)
    requires k in BlockProcessed(t, id, blockNum, block.discovered, block.spent).tables.utxos
    ensures k in t.utxos || k in ByKeyImage(block.discovered)
    ensures var r := BlockProcessed(t, id, blockNum, block.discovered, block.spent).tables;
            r.utxos[k] == if k in t.utxos then t.utxos[k] else ByKeyImage(block.discovered)[k]
  {
    AppendedAllUtxos(t, id, block.discovered);
    ByKeyImageContents(block.discovered);
  }

  /** After any run, a stored output carries exactly what was last noted about spending it. */
  lemma {:induction false} HintsReplayed(env: Env, ops: seq<Op>, k: KeyImage)
    requires k in Run(env, ops).tables.utxos
    ensures var u := Run(env, ops).tables.utxos[k];
            (u.attemptedSpendHeight, u.attemptedSpendTombstone) == Noted(env, ops, k)
  {
    if ops != [] {
      var init := ops[..|ops| - 1];
      var t := Run(env, init).tables;
      if k in t.utxos {
        HintsReplayed(env, init, k);
      }
      match ops[|ops| - 1] {
        case Process(id, blockNum, block) => ProcessKeepsHints(t, id, blockNum, block, k);
        case _ =>
      }
    }
  }
}
