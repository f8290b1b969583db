// sync_monitor at the grain of the source.  Reading the monitor, reading the
// height of the ledger, looking up each output and committing each block are
// steps of their own.  In between the ledger grows and other threads add, mark,
// sync and remove monitors.

module SyncInterleaved {
  import opened Common
  import opened Keys
  import opened Wallet
  import opened WalletInvariants
  import opened ChainReplay
  import opened SyncBatch
  import opened LedgerReplay

  type ThreadId = nat

  /** An output of the ledger: its block and its position there. */
  datatype Spot = Spot(block: nat, output: nat)

  /** A call of sync_monitor under way. */
  datatype Batch = Batch(
    id: MonitorId,
    data: MonitorData,                          // as read when the call began
    workers: nat,
    sized: bool,                                // whether the height of the ledger has been read
    count: nat,
    answers: map<Spot, Option<UnspentTxOut>>,   // what the lookups gave, in whatever order they were made
    missed: set<Spot>,                          // the lookups made while the monitor was not registered
    committed: nat)

  /** The ledger so far, the database, the lookups missed in each block committed for a live monitor, and the calls under
      way. */
  datatype State = State(ledger: Ledger, world: World, missed: map<MonitorId, seq<set<nat>>>, threads: map<ThreadId, Batch>)

  datatype Action =
    | Grow(block: Result<BlockContents, Error>)              // the ledger gains a block
    | Other(op: Op)                                          // adding, removing or marking
    | Begin(p: ThreadId, id: MonitorId, workers: nat)
    | Count(p: ThreadId)
    | Look(p: ThreadId, spot: Spot)
    | Store(p: ThreadId)

  predicate Listed(ledger: Ledger, k: Batch, spot: Spot) {
    && k.data.nextBlock <= spot.block < k.data.nextBlock + k.count && spot.block < |ledger| && ledger[spot.block].Ok?
    && spot.output < |ledger[spot.block].value.outputs|
  }

  function OutputAt(ledger: Ledger, spot: Spot): TxOut
    requires spot.block < |ledger| && ledger[spot.block].Ok? && spot.output < |ledger[spot.block].value.outputs|
  {
    ledger[spot.block].value.outputs[spot.output]
  }

  ghost predicate LookedAll(ledger: Ledger, k: Batch) {
    forall spot :: Listed(ledger, k, spot) ==> spot in k.answers
  }

  function Halted(s: State, p: ThreadId): State {
    s.(threads := s.threads - {p})
  }

  function BeginStep(s: State, p: ThreadId, id: MonitorId, workers: nat): State {
    var t := s.world.tables;
    if p in s.threads || id !in t.monitors then s
    else s.(threads := s.threads[p := Batch(id, t.monitors[id], workers, false, 0, map[], {}, 0)])
  }

  /** Reads the height of the ledger; a call with nothing to do ends. */
  function CountStep(s: State, p: ThreadId): State
    requires p in s.threads
  {
    var k := s.threads[p];
    if k.data.nextBlock >= |s.ledger| then Halted(s, p)
    else s.(threads := s.threads[p := k.(sized := true, count := Min(k.workers, |s.ledger| - k.data.nextBlock))])
  }

  function Answer(viewer: Viewer, account: AccountKey, payee: Option<MonitorKey>, txOut: TxOut): Option<UnspentTxOut> {
    if payee.Some? then Some(Opened(viewer, account, payee.value.index, txOut)) else None
  }

  /** Looks up one output; an output of another monitor trips the assertion and the call panics. */
  function LookStep(viewer: Viewer, s: State, p: ThreadId, spot: Spot): State
    requires p in s.threads && Listed(s.ledger, s.threads[p], spot)
  {
    var k, t, txOut := s.threads[p], s.world.tables, OutputAt(s.ledger, spot);
    var payee := Payee(viewer, t.spkToSubaddress, k.data.accountKey, txOut);
    if payee.Some? && payee.value.monitorId != k.id then Halted(s, p)
    else s.(threads := s.threads[p := k.(
              answers := k.answers[spot := Answer(viewer, k.data.accountKey, payee, txOut)],
              missed := if k.id in t.monitors then k.missed else k.missed + {spot})])
  }

  /** The outputs found among the first n of a block, in the order of the block. */
  function Collected(answers: map<Spot, Option<UnspentTxOut>>, b: nat, n: nat): seq<UnspentTxOut> {
    if n == 0 then [] else
      var rest, spot := Collected(answers, b, n - 1), Spot(b, n - 1);
      if spot in answers && answers[spot].Some? then rest + [answers[spot].value] else rest
  }

  function MissedIn(missed: set<Spot>, b: nat, n: nat): set<nat> {
    set j: nat | j < n && Spot(b, j) in missed
  }

  /** The block a batch commits next, as it was scanned. */
  function NextBlock(ledger: Ledger, k: Batch): Block
    requires k.data.nextBlock + k.committed < |ledger| && ledger[k.data.nextBlock + k.committed].Ok?
  {
    var b := k.data.nextBlock + k.committed;
    Block(Collected(k.answers, b, |ledger[b].value.outputs|), ledger[b].value.keyImages)
  }

  /** The state after the next block of a batch is committed. */
  ghost function Committed(env: Env, s: State, p: ThreadId): State
    requires p in s.threads
    requires var k := s.threads[p]; var b := k.data.nextBlock + k.committed; b < |s.ledger| && s.ledger[b].Ok?
  {
    var k := s.threads[p];
    var b := k.data.nextBlock + k.committed;
    var more := MissedIn(k.missed, b, |s.ledger[b].value.outputs|);
    State(s.ledger, Apply(env, s.world, Process(k.id, b, NextBlock(s.ledger, k))),
          s.missed[k.id := (if k.id in s.missed then s.missed[k.id] else []) + [more]],
          s.threads[p := k.(committed := k.committed + 1)])
  }

  ghost predicate Accepts(t: Tables, ledger: Ledger, k: Batch) {
    var b := k.data.nextBlock + k.committed;
    && k.committed < k.count && b < |ledger| && ledger[b].Ok?
    && BlockProcessed(t, k.id, b, NextBlock(ledger, k).discovered, NextBlock(ledger, k).spent).result.Ok?
  }

  /** Commits the next block of a scanned batch; the call ends with the batch or with the first error. */
  ghost function StoreStep(env: Env, s: State, p: ThreadId): State
    requires p in s.threads
  {
    if Accepts(s.world.tables, s.ledger, s.threads[p]) then Committed(env, s, p) else Halted(s, p)
  }

  ghost function OtherStep(env: Env, s: State, op: Op): State {
    var w := Apply(env, s.world, op);
    s.(world := w, missed := map m | m in w.chain :: if m in s.missed then s.missed[m] else [])
  }

  predicate MayLook(s: State, p: ThreadId, spot: Spot) {
    p in s.threads && Listed(s.ledger, s.threads[p], spot) && spot !in s.threads[p].answers
  }

  /** A call commits once it has looked up every output of its blocks. */
  ghost predicate MayStore(s: State, p: ThreadId) {
    p in s.threads && s.threads[p].sized && LookedAll(s.ledger, s.threads[p])
  }

  /** An action that is not enabled leaves the state alone. */
  ghost function Next(env: Env, viewer: Viewer, s: State, action: Action): State {
    match action
    case Grow(block) => if |s.ledger| + 1 < TWO64 then s.(ledger := s.ledger + [block]) else s
    case Other(op) => if op.Process? then s else OtherStep(env, s, op)
    case Begin(p, id, workers) => BeginStep(s, p, id, workers)
    case Count(p) => if p in s.threads && !s.threads[p].sized then CountStep(s, p) else s
    case Look(p, spot) => if MayLook(s, p, spot) then LookStep(viewer, s, p, spot) else s
    case Store(p) => if MayStore(s, p) then StoreStep(env, s, p) else s
  }

  const START := State([], World(EMPTY, map[]), map[], map[])

  ghost function Reached(env: Env, viewer: Viewer, actions: seq<Action>): State {
    if actions == [] then START
    else Next(env, viewer, Reached(env, viewer, actions[..|actions| - 1]), actions[|actions| - 1])
  }

  // ---- What a block stands for ----

  /** Among the known registrations, the id is determined by account, range and first block, and determines them. */
  ghost predicate Identifies(env: Env, known: set<MonitorData>) {
    forall data, other :: Origin(data) in known && Origin(other) in known ==>
      (env.monitorIdOf(data) == env.monitorIdOf(other) <==> Origin(data) == Origin(other))
  }

  /** What an action registers is known. */
  predicate Knows(known: set<MonitorData>, action: Action) {
    action.Other? && action.op.Register? ==>
      MonitorData(action.op.account, action.op.firstSubaddress, action.op.numSubaddresses,
                  action.op.firstBlock, action.op.firstBlock, "") in known
  }

  predicate KnowsAll(known: set<MonitorData>, actions: seq<Action>) {
    forall action :: action in actions ==> Knows(known, action)
  }

  /** The environment whose ids are a given numbering. */
  function Telling(ids: map<MonitorData, MonitorId>, base: Env): Env {
    base.(monitorIdOf := (data: MonitorData) => if Origin(data) in ids then ids[Origin(data)] else 0)
  }

  /** Registrations are told apart by every hash that gives no two of them the same id. */
  lemma IdentifiesSome(ids: map<MonitorData, MonitorId>, base: Env)
    requires forall data, other :: data in ids && other in ids && ids[data] == ids[other] ==> data == other
    ensures Identifies(Telling(ids, base), ids.Keys) && Telling(ids, base).spkOf == base.spkOf
  {
    var env := Telling(ids, base);
    forall data, other | Origin(data) in ids && Origin(other) in ids
      ensures env.monitorIdOf(data) == env.monitorIdOf(other) <==> Origin(data) == Origin(other)
    {
      assert env.monitorIdOf(data) == ids[Origin(data)];
    }
  }

  ghost predicate Named(env: Env, known: set<MonitorData>, t: Tables) {
    forall id :: id in t.monitors ==> env.monitorIdOf(t.monitors[id]) == id && Origin(t.monitors[id]) in known
  }

  /** What a lookup of the output should give the monitor. */
  ghost function OwnAnswer(viewer: Viewer, env: Env, data: MonitorData, txOut: TxOut): Option<UnspentTxOut> {
    match OwnPayee(viewer, env, data, txOut)
    case None => None
    case Some(index) => Some(Opened(viewer, data.accountKey, index, txOut))
  }

  /** The monitor's outputs of a block, without those at the missed positions. */
  ghost function SeenOutputs(viewer: Viewer, env: Env, data: MonitorData, outputs: seq<TxOut>,
                             missed: set<nat>): seq<UnspentTxOut> {
    if outputs == [] then [] else
      var n := |outputs| - 1;
      var rest, answer := SeenOutputs(viewer, env, data, outputs[..n], missed), OwnAnswer(viewer, env, data, outputs[n]);
      if n in missed || answer.None? then rest else rest + [answer.value]
  }

  /** Position j is not missed and holds the output. */
  ghost predicate SeesAt(viewer: Viewer, env: Env, data: MonitorData, outputs: seq<TxOut>, missed: set<nat>,
                         u: UnspentTxOut, j: nat) {
    j !in missed && PaysAt(viewer, env, data, outputs, u, j)
  }

  ghost predicate Sees(viewer: Viewer, env: Env, data: MonitorData, outputs: seq<TxOut>, missed: set<nat>,
                       u: UnspentTxOut) {
    exists j: nat :: SeesAt(viewer, env, data, outputs, missed, u, j)
  }

  lemma {:induction false} SeenListed(viewer: Viewer, env: Env, data: MonitorData, outputs: seq<TxOut>,
                                      missed: set<nat>, u: UnspentTxOut)
    ensures Lists(SeenOutputs(viewer, env, data, outputs, missed), u) <==> Sees(viewer, env, data, outputs, missed, u)
  {
    if outputs != [] {
      var n := |outputs| - 1;
      var init := outputs[..n];
      SeenListed(viewer, env, data, init, missed, u);
      var rest, all := SeenOutputs(viewer, env, data, init, missed), SeenOutputs(viewer, env, data, outputs, missed);
      var answer := OwnAnswer(viewer, env, data, outputs[n]);
      assert Lists(all, u) <==> Lists(rest, u) || SeesAt(viewer, env, data, outputs, missed, u, n) by {
        if n !in missed && answer.Some? {
          assert all == rest + [answer.value];
          assert answer.value in all;
        }
      }
      if Sees(viewer, env, data, init, missed, u) {
        var j: nat :| SeesAt(viewer, env, data, init, missed, u, j);
        assert SeesAt(viewer, env, data, outputs, missed, u, j);
      }
      if j: nat :| SeesAt(viewer, env, data, outputs, missed, u, j) {
        if j < n {
          assert SeesAt(viewer, env, data, init, missed, u, j);
        }
      }
    }
  }

  /** No output of the monitor stands at a missed position. */
  ghost predicate Harmless(viewer: Viewer, env: Env, data: MonitorData, outputs: seq<TxOut>, missed: set<nat>) {
    forall j: nat :: j < |outputs| && j in missed ==> OwnPayee(viewer, env, data, outputs[j]).None?
  }

  lemma {:induction false} SeenShorter(viewer: Viewer, env: Env, data: MonitorData, outputs: seq<TxOut>,
                                       missed: set<nat>)
    ensures var seen, own := SeenOutputs(viewer, env, data, outputs, missed), OwnOutputs(viewer, env, data, outputs);
            && |seen| <= |own|
            && (Harmless(viewer, env, data, outputs, missed) ==> seen == own)
            && (!Harmless(viewer, env, data, outputs, missed) ==> |seen| < |own|)
  {
    if outputs != [] {
      var n := |outputs| - 1;
      SeenShorter(viewer, env, data, outputs[..n], missed);
      assert Harmless(viewer, env, data, outputs, missed) <==>
             && Harmless(viewer, env, data, outputs[..n], missed)
             && (n in missed ==> OwnPayee(viewer, env, data, outputs[n]).None?) by {
        assert forall j: nat :: j < n ==> outputs[..n][j] == outputs[j];
      }
    }
  }

  lemma {:induction false} SeenConfined(viewer: Viewer, env: Env, data: MonitorData, outputs: seq<TxOut>,
                                        missed: set<nat>)
    ensures forall u :: u in SeenOutputs(viewer, env, data, outputs, missed) ==> InRange(data, u.subaddressIndex)
  {
    if outputs != [] {
      SeenConfined(viewer, env, data, outputs[..|outputs| - 1], missed);
    }
  }

  // ---- What every interleaving keeps ----

  ghost predicate SeenIs(env: Env, viewer: Viewer, ledger: Ledger, data: MonitorData, b: nat, missed: set<nat>,
                         block: Block) {
    && b < |ledger| && ledger[b].Ok?
    && block == Block(SeenOutputs(viewer, env, Origin(data), ledger[b].value.outputs, missed), ledger[b].value.keyImages)
  }

  ghost predicate ChainSeen(env: Env, viewer: Viewer, ledger: Ledger, data: MonitorData, missed: seq<set<nat>>,
                            chain: seq<Block>) {
    && |missed| == |chain|
    && forall i :: 0 <= i < |chain| ==> SeenIs(env, viewer, ledger, data, data.firstBlock + i, missed[i], chain[i])
  }

  ghost predicate AnswerIs(env: Env, viewer: Viewer, ledger: Ledger, k: Batch, spot: Spot)
    requires spot in k.answers && Listed(ledger, k, spot)
  {
    k.answers[spot] == if spot in k.missed then None else OwnAnswer(viewer, env, Origin(k.data), OutputAt(ledger, spot))
  }

  ghost predicate BatchSound(env: Env, known: set<MonitorData>, viewer: Viewer, ledger: Ledger, k: Batch) {
    && env.monitorIdOf(k.data) == k.id && Origin(k.data) in known && k.missed <= k.answers.Keys && (k.sized || k.count == 0)
    && forall spot :: spot in k.answers ==> Listed(ledger, k, spot) && AnswerIs(env, viewer, ledger, k, spot)
  }

  ghost predicate ThreadsSound(env: Env, known: set<MonitorData>, viewer: Viewer, ledger: Ledger,
                               threads: map<ThreadId, Batch>) {
    forall p :: p in threads ==> BatchSound(env, known, viewer, ledger, threads[p])
  }

  /** The blocks committed for each monitor are those of the ledger as far as they were seen. */
  ghost predicate Tracks(env: Env, known: set<MonitorData>, viewer: Viewer, ledger: Ledger, w: World,
                         missed: map<MonitorId, seq<set<nat>>>) {
    && Named(env, known, w.tables)
    && missed.Keys == w.chain.Keys == w.tables.monitors.Keys
    && forall m :: m in w.chain ==> ChainSeen(env, viewer, ledger, w.tables.monitors[m], missed[m], w.chain[m])
  }

  ghost predicate Inv(env: Env, known: set<MonitorData>, viewer: Viewer, s: State) {
    && WorldInv(env, s.world)
    && Tracks(env, known, viewer, s.ledger, s.world, s.missed)
    && ThreadsSound(env, known, viewer, s.ledger, s.threads)
  }

  /** A lookup that trips no assertion gives the monitor's own answer if the monitor is registered, and none if not. */
  lemma LookupRight(env: Env, known: set<MonitorData>, viewer: Viewer, t: Tables, id: MonitorId, data: MonitorData,
                    txOut: TxOut)
    requires Identifies(env, known) && SpkIndexExact(env, t) && Named(env, known, t)
    requires env.monitorIdOf(data) == id && Origin(data) in known
    requires var payee := Payee(viewer, t.spkToSubaddress, data.accountKey, txOut);
             payee.Some? ==> payee.value.monitorId == id
    ensures Answer(viewer, data.accountKey, Payee(viewer, t.spkToSubaddress, data.accountKey, txOut), txOut) ==
            if id in t.monitors then OwnAnswer(viewer, env, Origin(data), txOut) else None
  {
    if id in t.monitors {
      assert Origin(t.monitors[id]) == Origin(data);
      assert t.monitors[id].accountKey == Origin(data).accountKey == data.accountKey;
      PayeeIsOwn(viewer, env, t, id, txOut);
    }
  }

  lemma LookKeeps(env: Env, known: set<MonitorData>, viewer: Viewer, s: State, p: ThreadId, spot: Spot)
    requires Identifies(env, known) && Inv(env, known, viewer, s)
    requires MayLook(s, p, spot)
    ensures Inv(env, known, viewer, LookStep(viewer, s, p, spot))
  {
    var r, k, t := LookStep(viewer, s, p, spot), s.threads[p], s.world.tables;
    if p in r.threads {
      LookupRight(env, known, viewer, t, k.id, k.data, OutputAt(s.ledger, spot));
      LookSound(env, known, viewer, s.ledger, k, r.threads[p], spot);
    }
  }

  lemma LookSound(env: Env, known: set<MonitorData>, viewer: Viewer, ledger: Ledger, k: Batch, r: Batch, spot: Spot)
    requires BatchSound(env, known, viewer, ledger, k) && Listed(ledger, k, spot) && spot !in k.answers
    requires r.answers.Keys == k.answers.Keys + {spot} && r == k.(answers := r.answers, missed := r.missed)
    requires forall other :: other in k.answers ==> r.answers[other] == k.answers[other]
    requires r.missed == k.missed || r.missed == k.missed + {spot}
    requires r.answers[spot] == if spot in r.missed then None else OwnAnswer(viewer, env, Origin(k.data), OutputAt(ledger, spot))
    ensures BatchSound(env, known, viewer, ledger, r)
  {
    forall other | other in r.answers
      ensures Listed(ledger, r, other) && AnswerIs(env, viewer, ledger, r, other)
    {
      if other != spot {
        assert Listed(ledger, k, other) && AnswerIs(env, viewer, ledger, k, other);
      }
    }
  }

  lemma {:induction false} CollectedSeen(env: Env, known: set<MonitorData>, viewer: Viewer, ledger: Ledger, k: Batch,
                                         b: nat, n: nat, missed: set<nat>)
    requires BatchSound(env, known, viewer, ledger, k) && LookedAll(ledger, k)
    requires k.data.nextBlock <= b < k.data.nextBlock + k.count && b < |ledger| && ledger[b].Ok?
    requires n <= |ledger[b].value.outputs|
    requires forall j: nat :: j < n ==> (j in missed <==> Spot(b, j) in k.missed)
    ensures Collected(k.answers, b, n) == SeenOutputs(viewer, env, Origin(k.data), ledger[b].value.outputs[..n], missed)
  {
    if n > 0 {
      CollectedSeen(env, known, viewer, ledger, k, b, n - 1, missed);
      var outputs, spot := ledger[b].value.outputs, Spot(b, n - 1);
      assert outputs[..n][..n - 1] == outputs[..n - 1];
      assert Listed(ledger, k, spot) && AnswerIs(env, viewer, ledger, k, spot);
    }
  }

  lemma SeenGrows(env: Env, viewer: Viewer, ledger: Ledger, data: MonitorData, after: MonitorData,
                  missed: seq<set<nat>>, chain: seq<Block>, more: set<nat>, block: Block)
    requires ChainSeen(env, viewer, ledger, data, missed, chain) && Origin(after) == Origin(data)
    requires SeenIs(env, viewer, ledger, data, data.firstBlock + |chain|, more, block)
    ensures ChainSeen(env, viewer, ledger, after, missed + [more], chain + [block])
  {
    var longer, marks := chain + [block], missed + [more];
    forall i | 0 <= i < |longer|
      ensures SeenIs(env, viewer, ledger, after, after.firstBlock + i, marks[i], longer[i])
    {
      if i < |chain| {
        assert SeenIs(env, viewer, ledger, data, data.firstBlock + i, missed[i], chain[i]);
      }
    }
  }

  lemma SeenCarries(env: Env, viewer: Viewer, ledger: Ledger, data: MonitorData, after: MonitorData,
                    missed: seq<set<nat>>, chain: seq<Block>)
    requires ChainSeen(env, viewer, ledger, data, missed, chain) && Origin(after) == Origin(data)
    ensures ChainSeen(env, viewer, ledger, after, missed, chain)
  {
    forall i | 0 <= i < |chain|
      ensures SeenIs(env, viewer, ledger, after, after.firstBlock + i, missed[i], chain[i])
    {
      assert SeenIs(env, viewer, ledger, data, data.firstBlock + i, missed[i], chain[i]);
    }
  }

  /** The block a batch commits next. */
  lemma NextBlockSeen(env: Env, known: set<MonitorData>, viewer: Viewer, ledger: Ledger, k: Batch, b: nat)
    requires BatchSound(env, known, viewer, ledger, k) && LookedAll(ledger, k)
    requires k.data.nextBlock <= b < k.data.nextBlock + k.count && b < |ledger| && ledger[b].Ok?
    ensures var n := |ledger[b].value.outputs|;
            SeenIs(env, viewer, ledger, k.data, b, MissedIn(k.missed, b, n),
                   Block(Collected(k.answers, b, n), ledger[b].value.keyImages))
  {
    var outputs := ledger[b].value.outputs;
    var missed := MissedIn(k.missed, b, |outputs|);
    assert outputs[..|outputs|] == outputs;
    CollectedSeen(env, known, viewer, ledger, k, b, |outputs|, missed);
  }

  /** One more block in one chain; the same monitors. */
  ghost predicate Extended(w: World, r: World, id: MonitorId, block: Block) {
    && id in w.chain && r.chain == w.chain[id := w.chain[id] + [block]]
    && r.tables.monitors.Keys == w.tables.monitors.Keys
    && forall m :: m in w.tables.monitors ==> Origin(r.tables.monitors[m]) == Origin(w.tables.monitors[m])
  }

  lemma BlockExtends(env: Env, w: World, id: MonitorId, b: U64, block: Block)
    requires id in w.chain && BlockProcessed(w.tables, id, b, block.discovered, block.spent).result.Ok?
    ensures Extended(w, Apply(env, w, Process(id, b, block)), id, block)
  {
  }

  lemma ExtendedNames(env: Env, known: set<MonitorData>, w: World, r: World, id: MonitorId, block: Block)
    requires Identifies(env, known) && Named(env, known, w.tables) && Extended(w, r, id, block)
    ensures Named(env, known, r.tables)
  {
    forall m | m in r.tables.monitors
      ensures env.monitorIdOf(r.tables.monitors[m]) == m && Origin(r.tables.monitors[m]) in known
    {
      assert env.monitorIdOf(w.tables.monitors[m]) == m && Origin(w.tables.monitors[m]) in known;
    }
  }

  lemma ExtendedSeen(env: Env, viewer: Viewer, ledger: Ledger, w: World, r: World, id: MonitorId, more: set<nat>,
                     block: Block, missed: seq<set<nat>>, m: MonitorId)
    requires Extended(w, r, id, block) && id in w.tables.monitors && m in w.tables.monitors && m in w.chain
    requires ChainSeen(env, viewer, ledger, w.tables.monitors[m], missed, w.chain[m])
    requires var data := w.tables.monitors[id];
             SeenIs(env, viewer, ledger, data, data.firstBlock + |w.chain[id]|, more, block)
    ensures ChainSeen(env, viewer, ledger, r.tables.monitors[m], if m == id then missed + [more] else missed, r.chain[m])
  {
    if m == id {
      SeenGrows(env, viewer, ledger, w.tables.monitors[m], r.tables.monitors[m], missed, w.chain[m], more, block);
    } else {
      SeenCarries(env, viewer, ledger, w.tables.monitors[m], r.tables.monitors[m], missed, w.chain[m]);
    }
  }

  lemma StoredBlockWorld(env: Env, viewer: Viewer, ledger: Ledger, w: World, id: MonitorId, b: U64, more: set<nat>,
                         block: Block)
    requires WorldInv(env, w) && id in w.tables.monitors
    requires SeenIs(env, viewer, ledger, w.tables.monitors[id], b, more, block)
    ensures WorldInv(env, Apply(env, w, Process(id, b, block)))
  {
    SeenConfined(viewer, env, Origin(w.tables.monitors[id]), ledger[b].value.outputs, more);
    ProcessKeeps(env, w, id, b, block);
  }

  lemma ExtendedTracks(env: Env, known: set<MonitorData>, viewer: Viewer, ledger: Ledger, w: World, r: World,
                       missed: map<MonitorId, seq<set<nat>>>, id: MonitorId, more: set<nat>, block: Block)
    requires Identifies(env, known) && Tracks(env, known, viewer, ledger, w, missed) && Extended(w, r, id, block)
    requires var data := w.tables.monitors[id];
             SeenIs(env, viewer, ledger, data, data.firstBlock + |w.chain[id]|, more, block)
    ensures Tracks(env, known, viewer, ledger, r, missed[id := missed[id] + [more]])
  {
    var marks := missed[id := missed[id] + [more]];
    assert Named(env, known, r.tables) by {
      ExtendedNames(env, known, w, r, id, block);
    }
    assert marks.Keys == r.chain.Keys == r.tables.monitors.Keys;
    forall m | m in r.chain
      ensures ChainSeen(env, viewer, ledger, r.tables.monitors[m], marks[m], r.chain[m])
    {
      assert m in w.chain && m in w.tables.monitors && marks[m] == if m == id then missed[m] + [more] else missed[m];
      assert ChainSeen(env, viewer, ledger, w.tables.monitors[m], missed[m], w.chain[m]);
      ExtendedSeen(env, viewer, ledger, w, r, id, more, block, missed[m], m);
    }
  }

  /** The block a call commits is the ledger's as far as the call has seen it. */
  lemma CommitSeen(env: Env, known: set<MonitorData>, viewer: Viewer, ledger: Ledger, t: Tables, k: Batch, b: nat)
    requires Identifies(env, known) && Named(env, known, t) && k.id in t.monitors
    requires BatchSound(env, known, viewer, ledger, k) && LookedAll(ledger, k)
    requires k.data.nextBlock <= b < k.data.nextBlock + k.count && b < |ledger| && ledger[b].Ok?
    ensures var n := |ledger[b].value.outputs|;
            SeenIs(env, viewer, ledger, t.monitors[k.id], b, MissedIn(k.missed, b, n),
                   Block(Collected(k.answers, b, n), ledger[b].value.keyImages))
  {
    NextBlockSeen(env, known, viewer, ledger, k, b);
    assert Origin(t.monitors[k.id]) == Origin(k.data);
  }

  lemma CommitTracks(env: Env, known: set<MonitorData>, viewer: Viewer, ledger: Ledger, w: World,
                     missed: map<MonitorId, seq<set<nat>>>, id: MonitorId, b: U64, more: set<nat>, block: Block)
    requires Identifies(env, known) && Tracks(env, known, viewer, ledger, w, missed) && id in w.tables.monitors && id in w.chain
    requires SeenIs(env, viewer, ledger, w.tables.monitors[id], b, more, block)
    requires b == w.tables.monitors[id].firstBlock + |w.chain[id]|
    requires BlockProcessed(w.tables, id, b, block.discovered, block.spent).result.Ok?
    ensures Tracks(env, known, viewer, ledger, Apply(env, w, Process(id, b, block)), missed[id := missed[id] + [more]])
  {
    BlockExtends(env, w, id, b, block);
    ExtendedTracks(env, known, viewer, ledger, w, Apply(env, w, Process(id, b, block)), missed, id, more, block);
  }

  /** A block that is accepted for a monitor is the next one of its chain. */
  lemma AcceptedIsNext(env: Env, w: World, id: MonitorId, b: U64, block: Block)
    requires WorldInv(env, w) && BlockProcessed(w.tables, id, b, block.discovered, block.spent).result.Ok?
    ensures id in w.tables.monitors && id in w.chain && b == w.tables.monitors[id].firstBlock + |w.chain[id]|
  {
  }

  lemma CommitStepKeeps(env: Env, known: set<MonitorData>, viewer: Viewer, ledger: Ledger, w: World,
                        missed: map<MonitorId, seq<set<nat>>>, k: Batch)
    requires Identifies(env, known) && WorldInv(env, w) && Tracks(env, known, viewer, ledger, w, missed)
    requires BatchSound(env, known, viewer, ledger, k) && LookedAll(ledger, k) && Accepts(w.tables, ledger, k)
    ensures var b := k.data.nextBlock + k.committed;
            var r := Apply(env, w, Process(k.id, b, NextBlock(ledger, k)));
            && WorldInv(env, r) && k.id in missed
            && Tracks(env, known, viewer, ledger, r, missed[k.id := missed[k.id] + [MissedIn(k.missed, b, |ledger[b].value.outputs|)]])
  {
    var b := k.data.nextBlock + k.committed;
    var block, more := NextBlock(ledger, k), MissedIn(k.missed, b, |ledger[b].value.outputs|);
    AcceptedIsNext(env, w, k.id, b, block);
    CommitSeen(env, known, viewer, ledger, w.tables, k, b);
    StoredBlockWorld(env, viewer, ledger, w, k.id, b, more, block);
    CommitTracks(env, known, viewer, ledger, w, missed, k.id, b, more, block);
  }

  lemma CommittedKeeps(env: Env, known: set<MonitorData>, viewer: Viewer, s: State, p: ThreadId)
    requires Identifies(env, known) && Inv(env, known, viewer, s)
    requires MayStore(s, p) && Accepts(s.world.tables, s.ledger, s.threads[p])
    ensures Inv(env, known, viewer, Committed(env, s, p))
  {
    var r, k := Committed(env, s, p), s.threads[p];
    assert ThreadsSound(env, known, viewer, r.ledger, r.threads) && BatchSound(env, known, viewer, s.ledger, k) by {
      CommittedSound(env, known, viewer, s.ledger, s.threads, p);
    }
    assert WorldInv(env, r.world) && Tracks(env, known, viewer, r.ledger, r.world, r.missed) by {
      CommitStepKeeps(env, known, viewer, s.ledger, s.world, s.missed, k);
    }
  }

  lemma CommittedSound(env: Env, known: set<MonitorData>, viewer: Viewer, ledger: Ledger,
                       threads: map<ThreadId, Batch>, p: ThreadId)
    requires ThreadsSound(env, known, viewer, ledger, threads) && p in threads
    ensures ThreadsSound(env, known, viewer, ledger, threads[p := threads[p].(committed := threads[p].committed + 1)])
  {
    var k := threads[p];
    var r := k.(committed := k.committed + 1);
    forall spot | spot in r.answers
      ensures Listed(ledger, r, spot) && AnswerIs(env, viewer, ledger, r, spot)
    {
      assert Listed(ledger, k, spot) && AnswerIs(env, viewer, ledger, k, spot);
    }
  }

  /** Adding, removing and marking leave a monitor that stays as it was; one that is added has no blocks yet. */
  lemma OtherFrames(env: Env, w: World, op: Op, m: MonitorId)
    requires !op.Process? && WorldInv(env, w) && m in Apply(env, w, op).chain && m in Apply(env, w, op).tables.monitors
    ensures var r := Apply(env, w, op);
            if m in w.chain then r.chain[m] == w.chain[m] && r.tables.monitors[m] == w.tables.monitors[m]
            else r.chain[m] == []
  {
  }

  lemma OtherNames(env: Env, known: set<MonitorData>, w: World, op: Op)
    requires !op.Process? && Named(env, known, w.tables) && Knows(known, Other(op))
    ensures Named(env, known, Apply(env, w, op).tables)
  {
  }

  lemma OtherKeeps(env: Env, known: set<MonitorData>, viewer: Viewer, s: State, op: Op)
    requires Inv(env, known, viewer, s) && !op.Process? && Knows(known, Other(op))
    ensures Inv(env, known, viewer, OtherStep(env, s, op))
  {
    ApplyKeeps(env, s.world, op);
    OtherNames(env, known, s.world, op);
    var r := OtherStep(env, s, op);
    forall m | m in r.world.chain
      ensures ChainSeen(env, viewer, r.ledger, r.world.tables.monitors[m], r.missed[m], r.world.chain[m])
    {
      OtherFrames(env, s.world, op, m);
    }
  }

  lemma SoundOnLonger(env: Env, known: set<MonitorData>, viewer: Viewer, ledger: Ledger, longer: Ledger, k: Batch)
    requires BatchSound(env, known, viewer, ledger, k) && ledger <= longer
    ensures BatchSound(env, known, viewer, longer, k)
  {
    forall spot | spot in k.answers
      ensures Listed(longer, k, spot) && AnswerIs(env, viewer, longer, k, spot)
    {
      assert Listed(ledger, k, spot) && AnswerIs(env, viewer, ledger, k, spot);
    }
  }

  lemma SeenOnLonger(env: Env, viewer: Viewer, ledger: Ledger, longer: Ledger, data: MonitorData,
                     missed: seq<set<nat>>, chain: seq<Block>)
    requires ChainSeen(env, viewer, ledger, data, missed, chain) && ledger <= longer
    ensures ChainSeen(env, viewer, longer, data, missed, chain)
  {
    forall i | 0 <= i < |chain|
      ensures SeenIs(env, viewer, longer, data, data.firstBlock + i, missed[i], chain[i])
    {
      assert SeenIs(env, viewer, ledger, data, data.firstBlock + i, missed[i], chain[i]);
    }
  }

  /** A longer ledger says of the blocks so far what it said. */
  lemma GrowKeeps(env: Env, known: set<MonitorData>, viewer: Viewer, s: State, longer: Ledger)
    requires Inv(env, known, viewer, s) && s.ledger <= longer
    ensures Inv(env, known, viewer, s.(ledger := longer))
  {
    forall m | m in s.world.chain
      ensures ChainSeen(env, viewer, longer, s.world.tables.monitors[m], s.missed[m], s.world.chain[m])
    {
      SeenOnLonger(env, viewer, s.ledger, longer, s.world.tables.monitors[m], s.missed[m], s.world.chain[m]);
    }
    forall p | p in s.threads
      ensures BatchSound(env, known, viewer, longer, s.threads[p])
    {
      SoundOnLonger(env, known, viewer, s.ledger, longer, s.threads[p]);
    }
  }

  lemma CountKeeps(env: Env, known: set<MonitorData>, viewer: Viewer, s: State, p: ThreadId)
    requires Inv(env, known, viewer, s) && p in s.threads && !s.threads[p].sized
    ensures Inv(env, known, viewer, CountStep(s, p))
  {
    var k := s.threads[p];
    assert BatchSound(env, known, viewer, s.ledger, k);
    assert forall spot :: spot in k.answers ==> Listed(s.ledger, k, spot);
    assert k.answers == map[];
  }

  lemma BeginKeeps(env: Env, known: set<MonitorData>, viewer: Viewer, s: State, p: ThreadId, id: MonitorId,
                   workers: nat)
    requires Inv(env, known, viewer, s)
    ensures Inv(env, known, viewer, BeginStep(s, p, id, workers))
  {
  }

  lemma StoreKeeps(env: Env, known: set<MonitorData>, viewer: Viewer, s: State, p: ThreadId)
    requires Identifies(env, known) && Inv(env, known, viewer, s) && MayStore(s, p)
    ensures Inv(env, known, viewer, StoreStep(env, s, p))
  {
    if Accepts(s.world.tables, s.ledger, s.threads[p]) {
      CommittedKeeps(env, known, viewer, s, p);
    }
  }

  lemma {:induction false} ReachedKeeps(env: Env, known: set<MonitorData>, viewer: Viewer, actions: seq<Action>)
    requires Identifies(env, known) && KnowsAll(known, actions)
    ensures Inv(env, known, viewer, Reached(env, viewer, actions))
  {
    if actions == [] {
      RunKeeps(env, []);
    } else {
      var init, last := actions[..|actions| - 1], actions[|actions| - 1];
      assert last in actions;
      ReachedKeeps(env, known, viewer, init);
      NextKeeps(env, known, viewer, Reached(env, viewer, init), last);
    }
  }

  lemma NextKeeps(env: Env, known: set<MonitorData>, viewer: Viewer, s: State, action: Action)
    requires Identifies(env, known) && Inv(env, known, viewer, s) && Knows(known, action)
    ensures Inv(env, known, viewer, Next(env, viewer, s, action))
  {
    match action
    case Grow(block) =>
      if |s.ledger| + 1 < TWO64 {
        GrowKeeps(env, known, viewer, s, s.ledger + [block]);
      }
    case Other(op) =>
      if !op.Process? {
        OtherKeeps(env, known, viewer, s, op);
      }
    case Begin(p, id, workers) => BeginKeeps(env, known, viewer, s, p, id, workers);
    case Count(p) =>
      if p in s.threads && !s.threads[p].sized {
        CountKeeps(env, known, viewer, s, p);
      }
    case Look(p, spot) =>
      if MayLook(s, p, spot) {
        LookKeeps(env, known, viewer, s, p, spot);
      }
    case Store(p) =>
      if MayStore(s, p) {
        StoreKeeps(env, known, viewer, s, p);
      }
  }

  // ---- What a monitor stores ----

  /** Block b pays the output at a position that was not missed, and neither b nor a later processed block spends it. */
  ghost predicate SeenFrom(env: Env, viewer: Viewer, ledger: Ledger, data: MonitorData, missed: seq<set<nat>>,
                           u: UnspentTxOut, b: nat) {
    && data.firstBlock <= b < data.firstBlock + |missed| <= |ledger| && ledger[b].Ok?
    && Sees(viewer, env, Origin(data), ledger[b].value.outputs, missed[b - data.firstBlock], u)
    && forall c :: b <= c < data.firstBlock + |missed| ==> ledger[c].Ok? && u.keyImage !in ledger[c].value.keyImages
  }

  lemma SeenAtBlock(env: Env, viewer: Viewer, ledger: Ledger, data: MonitorData, missed: seq<set<nat>>,
                    chain: seq<Block>, i: nat, u: UnspentTxOut)
    requires ChainSeen(env, viewer, ledger, data, missed, chain) && i < |chain|
    ensures var b := data.firstBlock + i;
            && b < |ledger| && ledger[b].Ok? && chain[i].spent == ledger[b].value.keyImages
            && (Lists(chain[i].discovered, u) <==> Sees(viewer, env, Origin(data), ledger[b].value.outputs, missed[i], u))
  {
    var b := data.firstBlock + i;
    assert SeenIs(env, viewer, ledger, data, b, missed[i], chain[i]);
    SeenListed(viewer, env, Origin(data), ledger[b].value.outputs, missed[i], u);
  }

  /** The blocks of the chain and of the ledger say the same about an output. */
  ghost predicate Agree(env: Env, viewer: Viewer, ledger: Ledger, data: MonitorData, missed: seq<set<nat>>,
                        chain: seq<Block>, u: UnspentTxOut) {
    && |missed| == |chain| && (chain != [] ==> data.firstBlock + |chain| <= |ledger|)
    && forall b: nat :: data.firstBlock <= b < data.firstBlock + |chain| ==>
         && ledger[b].Ok? && chain[b - data.firstBlock].spent == ledger[b].value.keyImages
         && (Lists(chain[b - data.firstBlock].discovered, u) <==>
             Sees(viewer, env, Origin(data), ledger[b].value.outputs, missed[b - data.firstBlock], u))
  }

  lemma ChainAgrees(env: Env, viewer: Viewer, ledger: Ledger, data: MonitorData, missed: seq<set<nat>>,
                    chain: seq<Block>, u: UnspentTxOut)
    requires ChainSeen(env, viewer, ledger, data, missed, chain)
    ensures Agree(env, viewer, ledger, data, missed, chain, u)
  {
    if chain != [] {
      SeenAtBlock(env, viewer, ledger, data, missed, chain, |chain| - 1, u);
    }
    forall b: nat | data.firstBlock <= b < data.firstBlock + |chain|
      ensures ledger[b].Ok? && chain[b - data.firstBlock].spent == ledger[b].value.keyImages
      ensures Lists(chain[b - data.firstBlock].discovered, u) <==>
              Sees(viewer, env, Origin(data), ledger[b].value.outputs, missed[b - data.firstBlock], u)
    {
      SeenAtBlock(env, viewer, ledger, data, missed, chain, b - data.firstBlock, u);
    }
  }

  lemma FoundIsSeen(env: Env, viewer: Viewer, ledger: Ledger, data: MonitorData, missed: seq<set<nat>>,
                    chain: seq<Block>, u: UnspentTxOut, i: nat)
    requires Agree(env, viewer, ledger, data, missed, chain, u) && FoundAt(chain, u, i)
    ensures SeenFrom(env, viewer, ledger, data, missed, u, data.firstBlock + i)
  {
    var b: nat := data.firstBlock + i;
    assert b - data.firstBlock == i;
    forall c | b <= c < data.firstBlock + |chain|
      ensures ledger[c].Ok? && u.keyImage !in ledger[c].value.keyImages
    {
      assert u.keyImage !in chain[c - data.firstBlock].spent;
    }
  }

  lemma SeenIsFound(env: Env, viewer: Viewer, ledger: Ledger, data: MonitorData, missed: seq<set<nat>>,
                    chain: seq<Block>, u: UnspentTxOut, b: nat)
    requires Agree(env, viewer, ledger, data, missed, chain, u) && SeenFrom(env, viewer, ledger, data, missed, u, b)
    ensures FoundAt(chain, u, b - data.firstBlock)
  {
    forall i | b - data.firstBlock <= i < |chain|
      ensures u.keyImage !in chain[i].spent
    {
      var c: nat := data.firstBlock + i;
      assert c - data.firstBlock == i;
      assert u.keyImage !in ledger[c].value.keyImages;
    }
  }

  lemma FoundIffSeen(env: Env, viewer: Viewer, ledger: Ledger, data: MonitorData, missed: seq<set<nat>>,
                     chain: seq<Block>, u: UnspentTxOut)
    requires ChainSeen(env, viewer, ledger, data, missed, chain)
    ensures FoundUnspent(chain, u) <==> exists b: nat :: SeenFrom(env, viewer, ledger, data, missed, u, b)
  {
    ChainAgrees(env, viewer, ledger, data, missed, chain, u);
    if FoundUnspent(chain, u) {
      var i :| FoundAt(chain, u, i);
      FoundIsSeen(env, viewer, ledger, data, missed, chain, u, i);
    }
    if b: nat :| SeenFrom(env, viewer, ledger, data, missed, u, b) {
      SeenIsFound(env, viewer, ledger, data, missed, chain, u, b);
    }
  }

  /** However the threads interleave, a live monitor stores exactly the outputs that some processed block pays to its
      subaddresses and whose lookup did not fall in a time when the monitor was not registered, unless that block or a later
      processed one spends them. */
  lemma StoredIffSeen(env: Env, known: set<MonitorData>, viewer: Viewer, actions: seq<Action>, id: MonitorId,
                      u: UnspentTxOut)
    requires Identifies(env, known) && KnowsAll(known, actions) && id in Reached(env, viewer, actions).world.tables.monitors
    ensures var s := Reached(env, viewer, actions);
            var data := s.world.tables.monitors[id];
            && id in s.missed && data.firstBlock + |s.missed[id]| == data.nextBlock
            && (Stored(s.world.tables, id, u) <==> exists b: nat :: SeenFrom(env, viewer, s.ledger, data, s.missed[id], u, b))
  {
    ReachedKeeps(env, known, viewer, actions);
    InvStores(env, known, viewer, Reached(env, viewer, actions), id, u);
  }

  lemma InvStores(env: Env, known: set<MonitorData>, viewer: Viewer, s: State, id: MonitorId, u: UnspentTxOut)
    requires Inv(env, known, viewer, s) && id in s.world.tables.monitors
    ensures var data := s.world.tables.monitors[id];
            && id in s.missed && data.firstBlock + |s.missed[id]| == data.nextBlock
            && (Stored(s.world.tables, id, u) <==> exists b: nat :: SeenFrom(env, viewer, s.ledger, data, s.missed[id], u, b))
  {
    assert Replays(s.world.tables, id, s.world.chain[id]);
    FoundIffSeen(env, viewer, s.ledger, s.world.tables.monitors[id], s.missed[id], s.world.chain[id], u);
  }

  // ---- When nothing is lost ----

  ghost predicate HarmlessAt(env: Env, viewer: Viewer, ledger: Ledger, data: MonitorData, b: nat, missed: set<nat>) {
    b < |ledger| && ledger[b].Ok? ==> Harmless(viewer, env, Origin(data), ledger[b].value.outputs, missed)
  }

  lemma BlockWholeIff(env: Env, viewer: Viewer, ledger: Ledger, data: MonitorData, b: nat, missed: set<nat>,
                      block: Block)
    requires SeenIs(env, viewer, ledger, data, b, missed, block)
    ensures BlockIs(env, viewer, ledger, data, b, block) <==> HarmlessAt(env, viewer, ledger, data, b, missed)
  {
    SeenShorter(viewer, env, Origin(data), ledger[b].value.outputs, missed);
  }

  lemma ChainWholeIff(env: Env, viewer: Viewer, ledger: Ledger, data: MonitorData, missed: seq<set<nat>>,
                      chain: seq<Block>)
    requires ChainSeen(env, viewer, ledger, data, missed, chain)
    ensures ChainIs(env, viewer, ledger, data, chain) <==>
            forall i :: 0 <= i < |missed| ==> HarmlessAt(env, viewer, ledger, data, data.firstBlock + i, missed[i])
  {
    if chain != [] {
      assert SeenIs(env, viewer, ledger, data, data.firstBlock + (|chain| - 1), missed[|chain| - 1], chain[|chain| - 1]);
    }
    forall i | 0 <= i < |chain|
      ensures BlockIs(env, viewer, ledger, data, data.firstBlock + i, chain[i]) <==>
              HarmlessAt(env, viewer, ledger, data, data.firstBlock + i, missed[i])
    {
      assert SeenIs(env, viewer, ledger, data, data.firstBlock + i, missed[i], chain[i]);
      BlockWholeIff(env, viewer, ledger, data, data.firstBlock + i, missed[i], chain[i]);
    }
  }

  /** The blocks processed for the monitor are the ledger's. */
  ghost predicate Whole(env: Env, viewer: Viewer, s: State, id: MonitorId) {
    && id in s.world.tables.monitors && id in s.world.chain
    && ChainIs(env, viewer, s.ledger, s.world.tables.monitors[id], s.world.chain[id])
  }

  /** No output of the monitor in those blocks was looked up while it was not registered. */
  ghost predicate NoneLost(env: Env, viewer: Viewer, s: State, id: MonitorId) {
    && id in s.world.tables.monitors && id in s.missed
    && var data, missed := s.world.tables.monitors[id], s.missed[id];
    forall i :: 0 <= i < |missed| ==> HarmlessAt(env, viewer, s.ledger, data, data.firstBlock + i, missed[i])
  }

  /** The blocks processed for a live monitor are the ledger's exactly if no output of its own was looked up while it was
      not registered. */
  lemma WholeIffHarmless(env: Env, known: set<MonitorData>, viewer: Viewer, actions: seq<Action>, id: MonitorId)
    requires Identifies(env, known) && KnowsAll(known, actions)
    requires id in Reached(env, viewer, actions).world.tables.monitors
    ensures Whole(env, viewer, Reached(env, viewer, actions), id) <==> NoneLost(env, viewer, Reached(env, viewer, actions), id)
  {
    ReachedKeeps(env, known, viewer, actions);
    InvWholeIff(env, known, viewer, Reached(env, viewer, actions), id);
  }

  lemma InvWholeIff(env: Env, known: set<MonitorData>, viewer: Viewer, s: State, id: MonitorId)
    requires Tracks(env, known, viewer, s.ledger, s.world, s.missed) && id in s.world.tables.monitors
    ensures Whole(env, viewer, s, id) <==> NoneLost(env, viewer, s, id)
  {
    ChainWholeIff(env, viewer, s.ledger, s.world.tables.monitors[id], s.missed[id], s.world.chain[id]);
  }

  /** Whoever looks up an output does so for a registered monitor. */
  predicate Watched(s: State, action: Action) {
    action.Look? && action.p in s.threads ==> s.threads[action.p].id in s.world.tables.monitors
  }

  ghost predicate WatchedRun(env: Env, viewer: Viewer, actions: seq<Action>) {
    forall n :: 0 <= n < |actions| ==> Watched(Reached(env, viewer, actions[..n]), actions[n])
  }

  predicate AllEmpty(missed: seq<set<nat>>) {
    forall i :: 0 <= i < |missed| ==> missed[i] == {}
  }

  ghost predicate NothingMissed(s: State) {
    && (forall p :: p in s.threads ==> s.threads[p].missed == {})
    && (forall m :: m in s.missed ==> AllEmpty(s.missed[m]))
  }

  lemma NextMissesNothing(env: Env, viewer: Viewer, s: State, action: Action)
    requires NothingMissed(s) && Watched(s, action)
    ensures NothingMissed(Next(env, viewer, s, action))
  {
    if action.Store? && action.p in s.threads {
      assert forall b: nat, n: nat :: MissedIn(s.threads[action.p].missed, b, n) == {};
    }
  }

  lemma {:induction false} WatchedMissesNothing(env: Env, viewer: Viewer, actions: seq<Action>)
    requires WatchedRun(env, viewer, actions)
    ensures NothingMissed(Reached(env, viewer, actions))
  {
    if actions != [] {
      var init := actions[..|actions| - 1];
      forall n | 0 <= n < |init|
        ensures Watched(Reached(env, viewer, init[..n]), init[n])
      {
        assert init[..n] == actions[..n];
        assert Watched(Reached(env, viewer, actions[..n]), actions[n]);
      }
      WatchedMissesNothing(env, viewer, init);
      assert Watched(Reached(env, viewer, init), actions[|actions| - 1]);
      NextMissesNothing(env, viewer, Reached(env, viewer, init), actions[|actions| - 1]);
    }
  }

  /** If every lookup is made while its monitor is registered, the interleaving does not show: a live monitor stores what
      the ledger itself leaves unspent. */
  lemma WatchedReplaysLedger(env: Env, known: set<MonitorData>, viewer: Viewer, actions: seq<Action>, id: MonitorId,
                             u: UnspentTxOut)
    requires Identifies(env, known) && KnowsAll(known, actions) && WatchedRun(env, viewer, actions)
    requires id in Reached(env, viewer, actions).world.tables.monitors
    ensures var s := Reached(env, viewer, actions);
            Stored(s.world.tables, id, u) <==> UnspentOnLedger(env, viewer, s.ledger, s.world.tables.monitors[id], u)
  {
    ReachedKeeps(env, known, viewer, actions);
    WatchedMissesNothing(env, viewer, actions);
    var s := Reached(env, viewer, actions);
    forall m | m in s.world.chain
      ensures ChainIs(env, viewer, s.ledger, s.world.tables.monitors[m], s.world.chain[m])
    {
      assert AllEmpty(s.missed[m]);
      ChainWholeIff(env, viewer, s.ledger, s.world.tables.monitors[m], s.missed[m], s.world.chain[m]);
    }
    StoredIsUnspent(env, viewer, s.ledger, s.world, id, u);
  }

  // ---- An undisturbed call ----

  /** What a lookup of the output against the index gives. */
  function AnswerFor(viewer: Viewer, spks: map<Spk, MonitorKey>, account: AccountKey, txOut: TxOut): Option<UnspentTxOut> {
    Answer(viewer, account, Payee(viewer, spks, account, txOut), txOut)
  }

  /** Every lookup of the batch was made against the one index. */
  ghost predicate AnsweredFrom(viewer: Viewer, ledger: Ledger, spks: map<Spk, MonitorKey>, k: Batch) {
    forall spot :: Listed(ledger, k, spot) ==>
      spot in k.answers && k.answers[spot] == AnswerFor(viewer, spks, k.data.accountKey, OutputAt(ledger, spot))
  }

  /** A number of steps in a row. */
  ghost function Times(step: State -> State, s: State, n: nat): State
    decreases n
  {
    if n == 0 then s else Times(step, step(s), n - 1)
  }

  ghost function StoreBy(env: Env, viewer: Viewer, p: ThreadId): State -> State {
    s => Next(env, viewer, s, Store(p))
  }

  lemma {:induction false} TimesNothing(step: State -> State, s: State, p: ThreadId, n: nat)
    requires p !in s.threads && forall any: State :: p !in any.threads ==> step(any) == any
    ensures Times(step, s, n) == s
    decreases n
  {
    if n > 0 {
      TimesNothing(step, s, p, n - 1);
    }
  }

  lemma {:induction false} CollectedMatches(viewer: Viewer, ledger: Ledger, spks: map<Spk, MonitorKey>, k: Batch,
                                            b: nat, n: nat)
    requires AnsweredFrom(viewer, ledger, spks, k)
    requires k.data.nextBlock <= b < k.data.nextBlock + k.count && b < |ledger| && ledger[b].Ok?
    requires n <= |ledger[b].value.outputs|
    ensures Collected(k.answers, b, n) == Match(viewer, spks, k.data.accountKey, ledger[b].value.outputs[..n])
  {
    if n > 0 {
      CollectedMatches(viewer, ledger, spks, k, b, n - 1);
      var outputs := ledger[b].value.outputs;
      assert outputs[..n][..n - 1] == outputs[..n - 1];
      assert Listed(ledger, k, Spot(b, n - 1));
    }
  }

  /** The call is ready to commit its blocks, all looked up against the one index. */
  ghost predicate Committing(viewer: Viewer, ledger: Ledger, spks: map<Spk, MonitorKey>, s: State, p: ThreadId,
                             id: MonitorId) {
    && s.ledger == ledger && p in s.threads && s.threads[p].id == id && s.threads[p].sized
    && AnsweredFrom(viewer, ledger, spks, s.threads[p]) && s.threads[p].data.nextBlock + s.threads[p].count <= |ledger|
  }

  /** The step commits the scan of the next block. */
  ghost predicate Commits(step: State -> State, commit: Commit, viewer: Viewer, ledger: Ledger,
                          spks: map<Spk, MonitorKey>, p: ThreadId, id: MonitorId, s: State) {
    Committing(viewer, ledger, spks, s, p, id) && s.threads[p].committed < s.threads[p].count ==>
      var k, r := s.threads[p], step(s);
      var b := k.data.nextBlock + k.committed;
      var out := commit(s.world.tables, b, ScanBlock(viewer, spks, k.data.accountKey, ledger[b]));
      && r.world.tables == out.tables && r.ledger == ledger
      && (if out.result.Ok? then p in r.threads && r.threads[p] == k.(committed := k.committed + 1) else p !in r.threads)
  }

  /** What a batch commits next is the scan of that block. */
  lemma NextIsScan(viewer: Viewer, ledger: Ledger, spks: map<Spk, MonitorKey>, k: Batch, b: nat)
    requires AnsweredFrom(viewer, ledger, spks, k) && b == k.data.nextBlock + k.committed < |ledger| && k.committed < k.count
    ensures LookedAll(ledger, k)
    ensures ledger[b].Ok? ==>
              ScanBlock(viewer, spks, k.data.accountKey, ledger[b]) ==
              Ok(SyncBatch.Scanned(NextBlock(ledger, k).discovered, NextBlock(ledger, k).spent))
  {
    if ledger[b].Ok? {
      var outputs := ledger[b].value.outputs;
      CollectedMatches(viewer, ledger, spks, k, b, |outputs|);
      assert outputs[..|outputs|] == outputs;
    }
  }

  lemma AcceptedIsCommitted(env: Env, w: World, ledger: Ledger, k: Batch, b: nat,
                            result: Result<SyncBatch.Scanned, Error>)
    requires b == k.data.nextBlock + k.committed < |ledger| && k.committed < k.count
    requires ledger[b].Ok? ==> result == Ok(SyncBatch.Scanned(NextBlock(ledger, k).discovered, NextBlock(ledger, k).spent))
    requires ledger[b].Err? ==> result.Err?
    ensures var out := CommitFor(k.id)(w.tables, b, result);
            && (Accepts(w.tables, ledger, k) <==> out.result.Ok?)
            && out.tables == if out.result.Ok? then Apply(env, w, Process(k.id, b, NextBlock(ledger, k))).tables else w.tables
  {
    CommitForSteps(k.id);
    assert StepsCursor(CommitFor(k.id), k.id, w.tables, b, result);
  }

  lemma StoreIsCommit(env: Env, viewer: Viewer, ledger: Ledger, spks: map<Spk, MonitorKey>, p: ThreadId,
                      id: MonitorId, s: State)
    ensures Commits(StoreBy(env, viewer, p), CommitFor(id), viewer, ledger, spks, p, id, s)
  {
    if Committing(viewer, ledger, spks, s, p, id) && s.threads[p].committed < s.threads[p].count {
      var k := s.threads[p];
      var b := k.data.nextBlock + k.committed;
      NextIsScan(viewer, ledger, spks, k, b);
      AcceptedIsCommitted(env, s.world, ledger, k, b, ScanBlock(viewer, spks, k.data.accountKey, ledger[b]));
      assert StoreBy(env, viewer, p)(s) == StoreStep(env, s, p);
    }
  }

  lemma StoreIdle(env: Env, viewer: Viewer, p: ThreadId, s: State)
    ensures p !in s.threads ==> StoreBy(env, viewer, p)(s) == s
  {
  }

  lemma AnsweredStays(viewer: Viewer, ledger: Ledger, spks: map<Spk, MonitorKey>, k: Batch)
    requires AnsweredFrom(viewer, ledger, spks, k)
    ensures AnsweredFrom(viewer, ledger, spks, k.(committed := k.committed + 1))
  {
    var r := k.(committed := k.committed + 1);
    forall spot | Listed(ledger, r, spot)
      ensures spot in r.answers && r.answers[spot] == AnswerFor(viewer, spks, r.data.accountKey, OutputAt(ledger, spot))
    {
      assert Listed(ledger, k, spot);
    }
  }

  lemma {:induction false} TimesCommitAll(step: State -> State, commit: Commit, viewer: Viewer, ledger: Ledger,
                                          spks: map<Spk, MonitorKey>, p: ThreadId, id: MonitorId, s: State,
                                          results: seq<Result<SyncBatch.Scanned, Error>>)
    requires forall any: State :: p !in any.threads ==> step(any) == any
    requires forall any: State :: Commits(step, commit, viewer, ledger, spks, p, id, any)
    requires Committing(viewer, ledger, spks, s, p, id) && s.threads[p].committed + |results| == s.threads[p].count
    requires var k := s.threads[p];
             forall i :: 0 <= i < |results| ==>
               results[i] == ScanBlock(viewer, spks, k.data.accountKey, ledger[k.data.nextBlock + k.committed + i])
    ensures var k := s.threads[p];
            Times(step, s, |results|).world.tables ==
            CommitAll(commit, s.world.tables, k.data.nextBlock + k.committed, results).tables
    decreases |results|
  {
    if results != [] {
      var k, r := s.threads[p], step(s);
      var b := k.data.nextBlock + k.committed;
      assert results[0] == ScanBlock(viewer, spks, k.data.accountKey, ledger[b + 0]);
      assert Commits(step, commit, viewer, ledger, spks, p, id, s);
      if p in r.threads {
        AnsweredStays(viewer, ledger, spks, k);
        forall i | 0 <= i < |results[1..]|
          ensures results[1..][i] == ScanBlock(viewer, spks, k.data.accountKey, ledger[b + 1 + i])
        {
          assert results[1..][i] == results[i + 1];
        }
        TimesCommitAll(step, commit, viewer, ledger, spks, p, id, r, results[1..]);
      } else {
        TimesNothing(step, r, p, |results| - 1);
      }
    }
  }

  lemma AllStoresCommit(env: Env, viewer: Viewer, ledger: Ledger, spks: map<Spk, MonitorKey>, p: ThreadId,
                        id: MonitorId)
    ensures forall s: State :: p !in s.threads ==> StoreBy(env, viewer, p)(s) == s
    ensures forall s: State :: Commits(StoreBy(env, viewer, p), CommitFor(id), viewer, ledger, spks, p, id, s)
  {
    forall s: State
      ensures p !in s.threads ==> StoreBy(env, viewer, p)(s) == s
    {
      StoreIdle(env, viewer, p, s);
    }
    forall s: State
      ensures Commits(StoreBy(env, viewer, p), CommitFor(id), viewer, ledger, spks, p, id, s)
    {
      StoreIsCommit(env, viewer, ledger, spks, p, id, s);
    }
  }

  /** If nobody interferes after the monitor is read, so that every lookup meets the same index and the blocks are stored in
      a row, the tables are those of one call of sync_monitor. */
  lemma UndisturbedIsSync(env: Env, viewer: Viewer, s: State, p: ThreadId)
    requires p in s.threads && s.threads[p].id in s.world.tables.monitors
    requires var k, t := s.threads[p], s.world.tables;
             && k.sized && k.data == t.monitors[k.id] && k.data.nextBlock < |s.ledger| && k.committed == 0
             && k.count == BatchSize(t, s.ledger, k.id, k.workers) && AnsweredFrom(viewer, s.ledger, t.spkToSubaddress, k)
    ensures var k, t := s.threads[p], s.world.tables;
            Times(StoreBy(env, viewer, p), s, k.count).world.tables == Sync(viewer, t, s.ledger, k.id, k.workers).tables
  {
    var k, t := s.threads[p], s.world.tables;
    AllStoresCommit(env, viewer, s.ledger, t.spkToSubaddress, p, k.id);
    TimesCommitAll(StoreBy(env, viewer, p), CommitFor(k.id), viewer, s.ledger, t.spkToSubaddress, p, k.id, s,
                   ScanAll(viewer, t, s.ledger, k.id, k.count));
  }

  // ---- A monitor removed and added again during a scan ----

  /** A state with the one monitor and no other, at the start of its chain. */
  ghost predicate Alone(env: Env, s: State, id: MonitorId, data: MonitorData) {
    && s.world.tables.monitors == map[id := data] && s.world.tables.utxos == map[] && s.missed == map[id := []]
    && s.world.tables.spkToSubaddress == map[env.spkOf(data.accountKey, data.firstSubaddress) := MonitorKey(id, data.firstSubaddress)]
  }

  /** A state without monitors. */
  predicate Vacant(s: State) {
    s.world.tables.monitors == map[] && s.world.tables.spkToSubaddress == map[] && s.world.tables.utxos == map[]
  }

  lemma AddFirst(env: Env, known: set<MonitorData>, viewer: Viewer, s: State, account: AccountKey)
    requires Inv(env, known, viewer, s) && Vacant(s)
    ensures var data := MonitorData(account, 0, 1, 0, 0, "");
            var r := Next(env, viewer, s, Other(Register(account, 0, 1, 0, "")));
            Alone(env, r, env.monitorIdOf(data), data) && r.threads == s.threads && r.ledger == s.ledger
  {
    var data := MonitorData(account, 0, 1, 0, 0, "");
    assert SpksFree(env, s.world.tables, data);
    var r := Next(env, viewer, s, Other(Register(account, 0, 1, 0, "")));
    assert r.world.tables.spkToSubaddress == SpksInserted(env, map[], env.monitorIdOf(data), data, 1);
    assert SpksInserted(env, map[], env.monitorIdOf(data), data, 0) == map[];
  }

  lemma RemoveOnly(env: Env, known: set<MonitorData>, viewer: Viewer, s: State, id: MonitorId, data: MonitorData)
    requires Inv(env, known, viewer, s) && Alone(env, s, id, data)
    ensures var r := Next(env, viewer, s, Other(Remove(id)));
            Vacant(r) && r.threads == s.threads && r.ledger == s.ledger
  {
  }

  /** Looks up the one output of the ledger while no monitor is registered. */
  lemma LookVacant(env: Env, viewer: Viewer, s: State, k: Batch)
    requires Vacant(s) && s.threads == map[0 := k] && k.answers == map[] && k.missed == {} && Listed(s.ledger, k, Spot(0, 0))
    ensures var r := Next(env, viewer, s, Look(0, Spot(0, 0)));
            r == s.(threads := map[0 := k.(answers := map[Spot(0, 0) := None], missed := {Spot(0, 0)})])
  {
    var r := Next(env, viewer, s, Look(0, Spot(0, 0)));
    assert r == LookStep(viewer, s, 0, Spot(0, 0));
    assert r.threads[0].missed == {Spot(0, 0)};
    assert r.threads[0].answers == map[Spot(0, 0) := None];
    assert r.threads == map[0 := r.threads[0]];
  }

  /** Commits the empty scan. */
  lemma StoreMissed(env: Env, viewer: Viewer, s: State, id: MonitorId, data: MonitorData, txOut: TxOut)
    requires s.ledger == [Ok(BlockContents([txOut], []))] && Alone(env, s, id, data) && data.nextBlock == 0
    requires s.threads == map[0 := Batch(id, data, 1, true, 1, map[Spot(0, 0) := None], {Spot(0, 0)}, 0)]
    ensures var r := Next(env, viewer, s, Store(0));
            && r.ledger == s.ledger && r.world.tables.monitors == map[id := data.(nextBlock := 1)]
            && r.missed == map[id := [{0}]]
  {
    var k := s.threads[0];
    forall spot | Listed(s.ledger, k, spot)
      ensures spot in k.answers
    {
      assert spot == Spot(0, 0);
    }
    assert Collected(k.answers, 0, 0) == [];
    assert NextBlock(s.ledger, k) == Block([], []);
    assert MissedIn(k.missed, 0, 1) == {0};
    assert s.missed[id] + [{0}] == [{0}];
  }

  lemma ReachedThen(env: Env, viewer: Viewer, actions: seq<Action>, action: Action)
    ensures Reached(env, viewer, actions + [action]) == Next(env, viewer, Reached(env, viewer, actions), action)
  {
    var all := actions + [action];
    assert all[..|all| - 1] == actions;
  }

  lemma OwnOne(env: Env, viewer: Viewer, data: MonitorData, txOut: TxOut, u: UnspentTxOut)
    requires data.firstSubaddress == 0 && data.numSubaddresses == 1 && Reads(viewer, data.accountKey, 0, txOut, u)
    requires viewer.recover(data.accountKey, txOut) == Some(env.spkOf(data.accountKey, 0))
    ensures PaidIn(viewer, env, data, [txOut], u)
  {
    assert Pays(env, data, env.spkOf(data.accountKey, 0), 0);
    assert PaysAt(viewer, env, data, [txOut], u, 0);
  }

  /** The run: the monitor is removed between the start of a sync call and its lookup, and added again before the commit. */
  function Readded(account: AccountKey, id: MonitorId, txOut: TxOut): seq<Action> {
    var add := Other(Register(account, 0, 1, 0, ""));
    [Grow(Ok(BlockContents([txOut], [])))] + [add] + [Begin(0, id, 1)] + [Count(0)] + [Other(Remove(id))] + [Look(0, Spot(0, 0))]
    + [add] + [Store(0)]
  }

  /** The first half of the run, up to the call that has read the monitor. */
  lemma CallUnderWay(env: Env, viewer: Viewer, account: AccountKey, txOut: TxOut, first: seq<Action>)
    requires var data := MonitorData(account, 0, 1, 0, 0, "");
             && Identifies(env, {data})
             && first == [Grow(Ok(BlockContents([txOut], [])))] + [Other(Register(account, 0, 1, 0, ""))]
                         + [Begin(0, env.monitorIdOf(data), 1)] + [Count(0)]
    ensures var data := MonitorData(account, 0, 1, 0, 0, "");
            var id, s := env.monitorIdOf(data), Reached(env, viewer, first);
            && Alone(env, s, id, data) && s.ledger == [Ok(BlockContents([txOut], []))]
            && s.threads == map[0 := Batch(id, data, 1, true, 1, map[], {}, 0)]
  {
    var data := MonitorData(account, 0, 1, 0, 0, "");
    var id, add := env.monitorIdOf(data), Other(Register(account, 0, 1, 0, ""));
    var grow := Grow(Ok(BlockContents([txOut], [])));
    var a1 := [grow];
    var a2 := a1 + [add];
    var a3 := a2 + [Begin(0, id, 1)];
    assert [] + [grow] == a1;
    ReachedThen(env, viewer, [], grow);
    ReachedKeeps(env, {data}, viewer, a1);
    AddFirst(env, {data}, viewer, Reached(env, viewer, a1), account);
    ReachedThen(env, viewer, a1, add);
    ReachedThen(env, viewer, a2, Begin(0, id, 1));
    assert Reached(env, viewer, a3).threads == map[0 := Batch(id, data, 1, false, 0, map[], {}, 0)];
    ReachedThen(env, viewer, a3, Count(0));
    assert Reached(env, viewer, first).threads == map[0 := Batch(id, data, 1, true, 1, map[], {}, 0)];
  }

  lemma ReaddedMisses(env: Env, viewer: Viewer, account: AccountKey, txOut: TxOut)
    requires Identifies(env, {MonitorData(account, 0, 1, 0, 0, "")})
    ensures var data := MonitorData(account, 0, 1, 0, 0, "");
            var id := env.monitorIdOf(data);
            var s := Reached(env, viewer, Readded(account, id, txOut));
            && s.ledger == [Ok(BlockContents([txOut], []))]
            && s.world.tables.monitors == map[id := data.(nextBlock := 1)] && s.missed == map[id := [{0}]]
  {
    var data := MonitorData(account, 0, 1, 0, 0, "");
    var id, add := env.monitorIdOf(data), Other(Register(account, 0, 1, 0, ""));
    var a4 := [Grow(Ok(BlockContents([txOut], [])))] + [add] + [Begin(0, id, 1)] + [Count(0)];
    var a5 := a4 + [Other(Remove(id))];
    var a6 := a5 + [Look(0, Spot(0, 0))];
    var a7 := a6 + [add];
    CallUnderWay(env, viewer, account, txOut, a4);
    ReachedKeeps(env, {data}, viewer, a4);
    RemoveOnly(env, {data}, viewer, Reached(env, viewer, a4), id, data);
    ReachedThen(env, viewer, a4, Other(Remove(id)));
    LookVacant(env, viewer, Reached(env, viewer, a5), Batch(id, data, 1, true, 1, map[], {}, 0));
    ReachedThen(env, viewer, a5, Look(0, Spot(0, 0)));
    ReachedKeeps(env, {data}, viewer, a6);
    AddFirst(env, {data}, viewer, Reached(env, viewer, a6), account);
    ReachedThen(env, viewer, a6, add);
    StoreMissed(env, viewer, Reached(env, viewer, a7), id, data, txOut);
    ReachedThen(env, viewer, a7, Store(0));
  }

  lemma NoneSeen(env: Env, viewer: Viewer, ledger: Ledger, data: MonitorData, txOut: TxOut, u: UnspentTxOut, b: nat)
    requires ledger == [Ok(BlockContents([txOut], []))] && data.firstBlock == 0
    ensures !SeenFrom(env, viewer, ledger, data, [{0}], u, b)
  {
  }

  lemma PaidOnLedger(env: Env, viewer: Viewer, ledger: Ledger, data: MonitorData, txOut: TxOut)
    requires ledger == [Ok(BlockContents([txOut], []))]
    requires data.firstSubaddress == 0 && data.numSubaddresses == 1 && data.firstBlock == 0 && data.nextBlock == 1
    requires viewer.recover(data.accountKey, txOut) == Some(env.spkOf(data.accountKey, 0))
    ensures UnspentOnLedger(env, viewer, ledger, data, Opened(viewer, data.accountKey, 0, txOut))
  {
    var u := Opened(viewer, data.accountKey, 0, txOut);
    OwnOne(env, viewer, Origin(data), txOut, u);
    assert UnspentFrom(env, viewer, ledger, data, data.nextBlock, u, 0);
  }

  lemma NoneStored(env: Env, known: set<MonitorData>, viewer: Viewer, s: State, id: MonitorId, txOut: TxOut,
                   u: UnspentTxOut)
    requires Inv(env, known, viewer, s) && s.ledger == [Ok(BlockContents([txOut], []))]
    requires id in s.world.tables.monitors && s.world.tables.monitors[id].firstBlock == 0 && s.missed == map[id := [{0}]]
    ensures !Stored(s.world.tables, id, u)
  {
    InvStores(env, known, viewer, s, id, u);
    forall b: nat
      ensures !SeenFrom(env, viewer, s.ledger, s.world.tables.monitors[id], s.missed[id], u, b)
    {
      NoneSeen(env, viewer, s.ledger, s.world.tables.monitors[id], txOut, u, b);
    }
  }

  /** Whatever the account and the output that pays it, the monitor ends past the block, without the output. */
  lemma RemovedMidScan(env: Env, viewer: Viewer, account: AccountKey, txOut: TxOut)
    requires Identifies(env, {MonitorData(account, 0, 1, 0, 0, "")})
    requires viewer.recover(account, txOut) == Some(env.spkOf(account, 0))
    ensures var id := env.monitorIdOf(MonitorData(account, 0, 1, 0, 0, ""));
            var s := Reached(env, viewer, Readded(account, id, txOut));
            && id in s.world.tables.monitors && s.world.tables.monitors[id].nextBlock == |s.ledger|
            && exists u :: && UnspentOnLedger(env, viewer, s.ledger, s.world.tables.monitors[id], u)
                           && !Stored(s.world.tables, id, u)
  {
    var data := MonitorData(account, 0, 1, 0, 0, "");
    var id := env.monitorIdOf(data);
    ReaddedMisses(env, viewer, account, txOut);
    ReachedKeeps(env, {data}, viewer, Readded(account, id, txOut));
    var s := Reached(env, viewer, Readded(account, id, txOut));
    PaidOnLedger(env, viewer, s.ledger, data.(nextBlock := 1), txOut);
    NoneStored(env, {data}, viewer, s, id, txOut, Opened(viewer, account, 0, txOut));
  }

  /** A viewer that recovers the first spend key of the account from every output. */
  function Seeing(env: Env, sight: Viewer): Viewer {
    sight.(recover := (account: AccountKey, txOut: TxOut) => Some(env.spkOf(account, 0)))
  }

  /** There are an environment and a viewer in which the output is lost. */
  lemma LossHappens(account: AccountKey, txOut: TxOut, base: Env, sight: Viewer)
    ensures var data := MonitorData(account, 0, 1, 0, 0, "");
            var env := Telling(map[data := 0], base);
            var viewer, id := Seeing(env, sight), env.monitorIdOf(data);
            var s := Reached(env, viewer, Readded(account, id, txOut));
            && Identifies(env, {data}) && id in s.world.tables.monitors
            && exists u :: && UnspentOnLedger(env, viewer, s.ledger, s.world.tables.monitors[id], u)
                           && !Stored(s.world.tables, id, u)
  {
    var data := MonitorData(account, 0, 1, 0, 0, "");
    var env := Telling(map[data := 0], base);
    IdentifiesSome(map[data := 0], base);
    RemovedMidScan(env, Seeing(env, sight), account, txOut);
  }
}
