// The mobilecoind database as a value: its LMDB tables, and what each write
// transaction does to them as a whole.  A table opened with DUP_SORT is a set
// of (key, value) pairs, every other table is a map.

module Wallet {
  import opened Common
  import opened Keys

  // Opaque identities: the model only compares them.
  type AccountKey = int
  datatype Spk = Spk(bytes: nat)
  datatype KeyImage = KeyImage(bytes: nat)
  type TokenId = U64
  type PublicKey = int
  type MemoPayload = int

  /** Hashing and key derivation, which the database only ever compares. */
  datatype Env = Env(monitorIdOf: MonitorData -> MonitorId, spkOf: (AccountKey, nat) -> Spk)

  datatype MonitorData = MonitorData(
    accountKey: AccountKey,
    firstSubaddress: U64,
    numSubaddresses: U64,
    firstBlock: U64,
    nextBlock: U64,
    name: string)

  datatype UnspentTxOut = UnspentTxOut(
    publicKey: PublicKey,
    subaddressIndex: U64,
    keyImage: KeyImage,
    value: U64,
    attemptedSpendHeight: U64,
    attemptedSpendTombstone: U64,
    tokenId: TokenId,
    memoPayload: MemoPayload)

  datatype Direction = Received | Spent

  datatype ProcessedTxOut = ProcessedTxOut(
    subaddressIndex: U64,
    publicKey: PublicKey,
    keyImage: KeyImage,
    value: U64,
    direction: Direction,
    tokenId: TokenId)

  datatype Tables = Tables(
    monitors: map<MonitorId, MonitorData>,
    spkToSubaddress: map<Spk, MonitorKey>,
    subaddressToUtxoId: set<(MonitorKey, KeyImage)>,
    keyImageToSubaddress: map<KeyImage, MonitorKey>,
    utxos: map<KeyImage, UnspentTxOut>,
    processed: set<(MonitorKey, ProcessedTxOut)>)

  datatype Error =
    | MonitorIdExists
    | MonitorIdNotFound
    | SubaddressSpkIdExists
    | DuplicateUnspentTxOut
    | UtxoIdNotFound
    | InvalidArgument
    | BlockIndexTooSmall
    | BlockNotYetProcessed
    | LmdbNotFound
    | LmdbKeyExist
    | Overflow
    | LedgerFailure

  const EMPTY := Tables(map[], map[], {}, map[], map[], {})

  /** MonitorData::new */
  function NewMonitorData(account: AccountKey, firstSubaddress: U64, numSubaddresses: U64, firstBlock: U64, name: string)
    : Result<MonitorData, Error>
  {
    if numSubaddresses == 0 then
      Err(InvalidArgument)
    else
      Ok(MonitorData(account, firstSubaddress, numSubaddresses, firstBlock, firstBlock, name))
  }

  predicate InRange(data: MonitorData, index: nat) {
    data.firstSubaddress <= index < data.firstSubaddress + data.numSubaddresses
  }

  function ReceivedRecord(u: UnspentTxOut): ProcessedTxOut {
    ProcessedTxOut(u.subaddressIndex, u.publicKey, u.keyImage, u.value, Received, u.tokenId)
  }

  function SpentRecord(u: UnspentTxOut): ProcessedTxOut {
    ProcessedTxOut(u.subaddressIndex, u.publicKey, u.keyImage, u.value, Spent, u.tokenId)
  }

  // ---- What must agree ----

  /** The three UTXO tables describe one and the same set of outputs. */
  ghost predicate IndicesAgree(t: Tables) {
    && t.keyImageToSubaddress.Keys == t.utxos.Keys
    && (forall k :: k in t.utxos ==>
          t.utxos[k].keyImage == k && t.utxos[k].subaddressIndex == t.keyImageToSubaddress[k].index)
    && (forall p :: p in t.subaddressToUtxoId <==> p.1 in t.keyImageToSubaddress && t.keyImageToSubaddress[p.1] == p.0)
  }

  /** The spend-key index is the disjoint union of the live monitors' ranges. */
  ghost predicate SpkIndexExact(env: Env, t: Tables) {
    && (forall m, i: U64 :: m in t.monitors && InRange(t.monitors[m], i) ==>
          var spk := env.spkOf(t.monitors[m].accountKey, i);
          spk in t.spkToSubaddress && t.spkToSubaddress[spk] == MonitorKey(m, i))
    && (forall spk :: spk in t.spkToSubaddress ==>
          var key := t.spkToSubaddress[spk];
          && key.monitorId in t.monitors
          && InRange(t.monitors[key.monitorId], key.index)
          && env.spkOf(t.monitors[key.monitorId].accountKey, key.index) == spk)
    && (forall m :: m in t.monitors ==> t.monitors[m].firstSubaddress + t.monitors[m].numSubaddresses < TWO64)
  }

  /** History exists only for live monitors and only for blocks they have passed. */
  ghost predicate HistoryBehindCursor(t: Tables) {
    forall p :: p in t.processed ==> p.0.monitorId in t.monitors && p.0.index < t.monitors[p.0.monitorId].nextBlock
  }

  ghost predicate Consistent(env: Env, t: Tables) {
    IndicesAgree(t) && SpkIndexExact(env, t) && HistoryBehindCursor(t)
  }

  /** Every stored output lies in the subaddress range of a live monitor. */
  ghost predicate Confined(t: Tables) {
    forall k :: k in t.keyImageToSubaddress ==>
      var key := t.keyImageToSubaddress[k];
      key.monitorId in t.monitors && InRange(t.monitors[key.monitorId], key.index)
  }

  // ---- The UTXO tables ----

  /** Key images whose output belongs to the monitor. */
  function OwnedBy(t: Tables, id: MonitorId): set<KeyImage> {
    set k | k in t.keyImageToSubaddress && t.keyImageToSubaddress[k].monitorId == id
  }

  predicate Owns(t: Tables, id: MonitorId, k: KeyImage) {
    k in t.keyImageToSubaddress && t.keyImageToSubaddress[k].monitorId == id
  }

  function Appended(t: Tables, id: MonitorId, u: UnspentTxOut): Tables {
    var key := MonitorKey(id, u.subaddressIndex);
    t.(utxos := t.utxos[u.keyImage := u],
       keyImageToSubaddress := t.keyImageToSubaddress[u.keyImage := key],
       subaddressToUtxoId := t.subaddressToUtxoId + {(key, u.keyImage)})
  }

  function AppendedAll(t: Tables, id: MonitorId, us: seq<UnspentTxOut>): (r: Tables)
    ensures r.monitors == t.monitors && r.processed == t.processed && r.spkToSubaddress == t.spkToSubaddress
  {
    if us == [] then t else Appended(AppendedAll(t, id, us[..|us| - 1]), id, us[|us| - 1])
  }

  function Dropped(t: Tables, gone: set<KeyImage>): Tables {
    t.(utxos := t.utxos - gone,
       keyImageToSubaddress := t.keyImageToSubaddress - gone,
       subaddressToUtxoId := set p | p in t.subaddressToUtxoId && p.1 !in gone)
  }

  /** No output is new twice, and none is stored already. */
  ghost predicate Fresh(t: Tables, us: seq<UnspentTxOut>) {
    && (forall i :: 0 <= i < |us| ==> us[i].keyImage !in t.utxos)
    && (forall i, j :: 0 <= i < j < |us| ==> us[i].keyImage != us[j].keyImage)
  }

  lemma AppendedAgrees(t: Tables, id: MonitorId, u: UnspentTxOut)
    requires IndicesAgree(t)
    requires u.keyImage !in t.utxos
    ensures IndicesAgree(Appended(t, id, u))
  {
  }

  lemma DroppedAgrees(t: Tables, gone: set<KeyImage>)
    requires IndicesAgree(t)
    ensures IndicesAgree(Dropped(t, gone))
  {
  }

  /** A batch of outputs by key image. */
  function ByKeyImage(us: seq<UnspentTxOut>): map<KeyImage, UnspentTxOut> {
    if us == [] then map[] else ByKeyImage(us[..|us| - 1])[us[|us| - 1].keyImage := us[|us| - 1]]
  }

  lemma {:induction false} ByKeyImageContents(us: seq<UnspentTxOut>)
    ensures forall u :: u in us ==> u.keyImage in ByKeyImage(us)
    ensures forall k :: k in ByKeyImage(us) ==> ByKeyImage(us)[k] in us && ByKeyImage(us)[k].keyImage == k
  {
    if us != [] {
      ByKeyImageContents(us[..|us| - 1]);
    }
  }

  function Owners(id: MonitorId, us: seq<UnspentTxOut>): map<KeyImage, MonitorKey> {
    map k | k in ByKeyImage(us) :: MonitorKey(id, ByKeyImage(us)[k].subaddressIndex)
  }

  lemma MapUpdateLast<K, V>(a: map<K, V>, b: map<K, V>, k: K, v: V)
    ensures (a + b)[k := v] == a + b[k := v]
  {
  }

  lemma OwnersSnoc(id: MonitorId, us: seq<UnspentTxOut>)
    requires us != []
    ensures Owners(id, us) ==
            Owners(id, us[..|us| - 1])[us[|us| - 1].keyImage := MonitorKey(id, us[|us| - 1].subaddressIndex)]
  {
  }

  lemma {:induction false} AppendedAllUtxos(t: Tables, id: MonitorId, us: seq<UnspentTxOut>)
    ensures AppendedAll(t, id, us).utxos == t.utxos + ByKeyImage(us)
  {
    if us != [] {
      var init, u := us[..|us| - 1], us[|us| - 1];
      AppendedAllUtxos(t, id, init);
      MapUpdateLast(t.utxos, ByKeyImage(init), u.keyImage, u);
    }
  }

  lemma {:induction false} AppendedAllOwners(t: Tables, id: MonitorId, us: seq<UnspentTxOut>)
    ensures AppendedAll(t, id, us).keyImageToSubaddress == t.keyImageToSubaddress + Owners(id, us)
  {
    if us != [] {
      var init, u := us[..|us| - 1], us[|us| - 1];
      AppendedAllOwners(t, id, init);
      OwnersSnoc(id, us);
      MapUpdateLast(t.keyImageToSubaddress, Owners(id, init), u.keyImage, MonitorKey(id, u.subaddressIndex));
    }
  }

  lemma {:induction false} AppendedAllAgrees(t: Tables, id: MonitorId, us: seq<UnspentTxOut>)
    requires IndicesAgree(t) && Fresh(t, us)
    ensures IndicesAgree(AppendedAll(t, id, us))
  {
    if us != [] {
      var init, u := us[..|us| - 1], us[|us| - 1];
      AppendedAllAgrees(t, id, init);
      AppendedAllUtxos(t, id, init);
      ByKeyImageContents(init);
      AppendedAgrees(AppendedAll(t, id, init), id, u);
    }
  }

  // ---- Write transactions ----

  datatype Outcome<T> = Outcome(tables: Tables, result: Result<T, Error>)

  /** The monitor's spend keys are new to the index and differ from each other. */
  ghost predicate SpksFree(env: Env, t: Tables, data: MonitorData) {
    && (forall i: nat :: InRange(data, i) ==> env.spkOf(data.accountKey, i) !in t.spkToSubaddress)
    && (forall i: nat, j: nat :: InRange(data, i) && InRange(data, j) && i < j ==>
          env.spkOf(data.accountKey, i) != env.spkOf(data.accountKey, j))
  }

  function SpksInserted(env: Env, spks: map<Spk, MonitorKey>, id: MonitorId, data: MonitorData, count: nat): map<Spk, MonitorKey>
    requires data.firstSubaddress + count < TWO64
  {
    if count == 0 then spks else
      var index := data.firstSubaddress + count - 1;
      SpksInserted(env, spks, id, data, count - 1)[env.spkOf(data.accountKey, index) := MonitorKey(id, index)]
  }

  ghost function AddMonitor(env: Env, t: Tables, data: MonitorData): Outcome<MonitorId> {
    var id := env.monitorIdOf(data);
    if id in t.monitors then
      Outcome(t, Err(MonitorIdExists))
    else if data.firstSubaddress + data.numSubaddresses >= TWO64 then
      Outcome(t, Err(Overflow))
    else if !SpksFree(env, t, data) then
      Outcome(t, Err(SubaddressSpkIdExists))
    else
      Outcome(t.(monitors := t.monitors[id := data],
                 spkToSubaddress := SpksInserted(env, t.spkToSubaddress, id, data, data.numSubaddresses)),
              Ok(id))
  }

  /** What is stored under subaddresses the monitor's own record covers. */
  function InOwnRange(t: Tables, id: MonitorId): set<KeyImage>
    requires id in t.monitors
  {
    set k | k in OwnedBy(t, id) && InRange(t.monitors[id], t.keyImageToSubaddress[k].index)
  }

  function RemoveMonitor(t: Tables, id: MonitorId): Outcome<()> {
    if id !in t.monitors then
      Outcome(t, Err(MonitorIdNotFound))
    else
      Outcome(
        Dropped(t, InOwnRange(t, id)).(
          monitors := t.monitors - {id},
          spkToSubaddress := map spk | spk in t.spkToSubaddress && t.spkToSubaddress[spk].monitorId != id :: t.spkToSubaddress[spk],
          processed := set p | p in t.processed && p.0.monitorId != id),
        Ok(()))
  }

  /** Outputs of the monitor that the block spends, including ones it has just received. */
  function SpentIn(t: Tables, id: MonitorId, spent: seq<KeyImage>): set<KeyImage> {
    set k | k in OwnedBy(t, id) && k in spent
  }

  ghost function BlockRecords(t: Tables, key: MonitorKey, discovered: seq<UnspentTxOut>, gone: set<KeyImage>)
    : set<(MonitorKey, ProcessedTxOut)>
  {
    (set u | u in discovered :: (key, ReceivedRecord(u))) + (set k | k in gone && k in t.utxos :: (key, SpentRecord(t.utxos[k])))
  }

  ghost function BlockProcessed(t: Tables, id: MonitorId, blockNum: U64, discovered: seq<UnspentTxOut>, spent: seq<KeyImage>)
    : Outcome<()>
  {
    if id !in t.monitors then
      Outcome(t, Err(MonitorIdNotFound))
    else if blockNum != t.monitors[id].nextBlock then
      Outcome(t, Err(InvalidArgument))
    else if !Fresh(t, discovered) then
      Outcome(t, Err(DuplicateUnspentTxOut))
    else if blockNum + 1 >= TWO64 then
      Outcome(t, Err(Overflow))
    else
      var mid := AppendedAll(t, id, discovered);
      var gone := SpentIn(mid, id, spent);
      Outcome(
        Dropped(mid, gone).(
          monitors := t.monitors[id := t.monitors[id].(nextBlock := blockNum + 1)],
          processed := t.processed + BlockRecords(mid, MonitorKey(id, blockNum), discovered, gone)),
        Ok(()))
  }

  /** What get_processed_block answers. */
  function ProcessedBlock(t: Tables, id: MonitorId, blockNum: U64): Result<set<ProcessedTxOut>, Error> {
    if id !in t.monitors then Err(MonitorIdNotFound)
    else if blockNum < t.monitors[id].firstBlock then Err(BlockIndexTooSmall)
    else if blockNum >= t.monitors[id].nextBlock then Err(BlockNotYetProcessed)
    else Ok(set p | p in t.processed && p.0 == MonitorKey(id, blockNum) :: p.1)
  }

  /** Refreshes the spend hint of the listed outputs that exist. */
  function Marked(t: Tables, ids: set<KeyImage>, height: U64, tombstone: U64): Tables {
    t.(utxos := map k | k in t.utxos ::
         if k in ids then t.utxos[k].(attemptedSpendHeight := height, attemptedSpendTombstone := tombstone) else t.utxos[k])
  }

  /** Spend hints never move backwards; the source asserts both comparisons. */
  predicate MayUpdate(t: Tables, ids: seq<KeyImage>, height: U64, tombstone: U64) {
    forall k :: k in ids && k in t.utxos ==> t.utxos[k].attemptedSpendHeight <= height <= tombstone
  }
}
