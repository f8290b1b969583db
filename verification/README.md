# A verified model of the MobileCoin wallet engine and its neighbours

The project models, in Dafny, the parts of MobileCoin that keep state and must keep it right:

- **mobilecoind's database** (`Keys`, `Wallet`, `UtxoStore`, `WalletDb`, `WalletInvariants`): LMDB tables become maps and
  sets, a write transaction is an `RwTransaction` object with its own copy of the tables that is published on commit and
  forgotten on error. `ChainReplay`, `ProcessedBlocks` and `History` state what the tables mean after every run of
  database calls, and `LedgerReplay` what they mean against one fixed ledger.
- **Synchronization** (`SyncBatch`, `SyncInterleaved`, `SyncScheduler`): one call of `sync_monitor` on its own; its reads,
  lookups and commits interleaved with those of other threads while the ledger grows; and the main thread and workers that schedule such calls.
- **Payments** (`Selection`, `Balance`): the selection loops and the per-token balance sheets.
- **The faucet** (`FaucetWorker`, `FaucetRebalance`, `FaucetRequest`, `FaucetHandout`): transactions in flight, the
  rebalancing rule and its requests as they are built, and the queue between the worker and its consumers.
- **LRU cache and broadcaster** (`Lru`, `Broadcaster`).
- **Two-step ECALLs** (`Ecall`, `EcallConcurrent`).
- **T3 outbox and database password** (`T3Outbox`, `DbCrypto`).

Code that changes state step by step is a class or a method with loops, proved against functions on values; what the
system promises is then proved about those functions and about all runs of them. Threads are modelled as state machines
whose steps are the source's atomic actions, in any order.

Hashes, curve arithmetic and encryption are function-valued parameters. The order in which a hash map is visited is left
open: every loop over one picks the next element arbitrarily. Balance sheets are visited in token order.

Where the code does not do what one might expect, the model follows the code and a lemma shows it:

- `sync.rs` documents that a monitor id is taken out of the queued set when a worker is done with it (lines 15-21); the error
  arms (lines 281-286) leave it there. `SyncScheduler.FailureReached` is a run that does so, `SkippedIffErred` gives the
  exact condition over all runs, `RequeuedWithoutErrors` the runs on which the documentation is right, and
  `FailedStaysStuck` the consequence.
- A monitor that is removed while a sync call for it is scanning, and added again before that call commits, can end past a
  block that pays it without the output: `SyncInterleaved.RemovedMidScan` gives the run for every account and output, and
  `LossHappens` an environment for it. `StoredIffSeen` says for every interleaving
  exactly which outputs are stored, `WholeIffHarmless` exactly when none is lost.
- A random retry id of zero is taken for "no retry": `EcallConcurrent.ZeroDrawRunsTwice`; a handler that itself reports
  out-of-memory makes the caller panic: `OutOfMemoryHandlerPanics`. `Ecall.MakeVariableLengthEcall` gives the exact condition
  for one caller, `EcallConcurrent.EveryCallAnswered` for any number, and `OneZeroDraw` says that zero is given out once.
- A total need of 2^64 or more is truncated before selection: `Balance.NeedBeyondU64` and `LateShortfall` are the two ways
  such a request fails, and `OneTokenVerdict` and `VerdictMeans` say exactly when each happens.
- Selecting inputs token by token is not complete: `Balance.GreedyRunsOutOfSlots` is a wallet with two coins that would pay
  and a request that runs out of slots; `SelectionFits` and `BuildMixedTransaction` say exactly when it succeeds.
- `re_encrypt` is documented to fail without the current password; without a stored monitor it does not:
  `DbCrypto.EmptyLockedTakesNewPassword`, with the exact condition in `DbCrypto.Database.ReEncryptAll`.
- The faucet's comments argue that rebalancing does not loop. That is so for every target value of at least 1
  (`FaucetRebalance.RebalancingSettlesAsSpent`). With a target of zero it can fire again (`ZeroTargetRepeats`): whichever
  inputs are spent, exactly if both the largest listed input and the change exceed twice the average paid out
  (`RepeatsIff`), as often as the coins pay fees (`FeesBoundRepeats`), and without a fee for ever (`ZeroFeeForever`).
- A coin that a consumer still holds, that leaves the unspent list and comes back, may be handed out twice:
  `FaucetHandout.ReturningCoinHeldTwice`, and `OrphanReturnBreaks` for every state with such a coin.

## Model

| member | source | states |
|---|---|---|
| Keys.KeyRoundTrip | mobilecoind/src/subaddress_store.rs:46-76 | the 40-byte encoding of (monitor, index) decodes to the same pair |
| Keys.KeyDecode | mobilecoind/src/processed_block_store.rs:37-71 | decoding accepts exactly the 40-byte strings and re-encodes to the same bytes |
| Keys.KeyOrder | mobilecoind/src/processed_block_store.rs:37-44 | the byte order LMDB uses is the order of (monitor id, index) pairs |
| Keys.BigEndianOrder | mobilecoind/src/subaddress_store.rs:46-52 | equal-width big-endian strings compare as the numbers do |
| Keys.NextKey | mobilecoind/src/utxo_store.rs:437-470 | a cursor step yields the least key ahead in pair order |
| UtxoStore.AppendUtxo | mobilecoind/src/utxo_store.rs:142-194 | appends to all three tables or changes nothing, with the exact error, keeping the tables in agreement |
| UtxoStore.RemoveUtxos | mobilecoind/src/utxo_store.rs:197-235 | removes exactly one subaddress' outputs from all three tables and never meets a missing entry |
| UtxoStore.DeleteSpentDups | mobilecoind/src/utxo_store.rs:240-300 | the grouped cursor pass takes exactly the monitor's spent key images off their lists, each once |
| UtxoStore.RemoveUtxosByKeyImages | mobilecoind/src/utxo_store.rs:240-323 | removes exactly the monitor's outputs among the key images, returns each of them once, and cannot fail |
| UtxoStore.UpdateAttemptedSpend | mobilecoind/src/utxo_store.rs:370-405 | marks exactly the listed outputs that exist, leaving all else |
| UtxoStore.GetUtxoIdsForMonitor | mobilecoind/src/utxo_store.rs:437-470 | the prefix scan returns exactly the monitor's outputs |
| UtxoStore.RemoveProcessedBlocks | mobilecoind/src/processed_block_store.rs:185-205 | the prefix scan deletes the history of exactly one monitor |
| UtxoStore.RecordBlock | mobilecoind/src/processed_block_store.rs:208-242 | adds exactly one received record per output found and one spent record per output spent |
| WalletDb.InsertSubaddresses | mobilecoind/src/subaddress_store.rs:113-146 | registers the whole range, or reports a taken or repeated spend key |
| WalletDb.ClearSubaddresses | mobilecoind/src/database.rs:169-188 | deletes every spend key of a live monitor and every output under it without meeting a missing entry |
| WalletDb.AppendDiscovered | mobilecoind/src/database.rs:281-291 | appends a block's outputs, or reports a duplicate exactly when one exists |
| WalletDb.ProcessBlock | mobilecoind/src/database.rs:258-334 | one block inside its transaction: append, spend, record, advance, or the exact error |
| WalletDb.Database.AddMonitor | mobilecoind/src/database.rs:153-167 | adds a monitor and its spend keys or changes nothing; keeps every table invariant |
| WalletDb.Database.RemoveMonitor | mobilecoind/src/database.rs:169-188 | fails exactly on an unknown id; otherwise removes the monitor's keys, outputs in range and history |
| WalletDb.Database.BlockProcessed | mobilecoind/src/database.rs:258-334 | commits a block or leaves the tables untouched, with the exact error |
| WalletDb.Database.UpdateAttemptedSpend | mobilecoind/src/database.rs:237-255 | marks the outputs and keeps every table invariant |
| ProcessedBlocks.BlockReplayed | mobilecoind/src/database.rs:337-361 | after any run, a block's answer is a received record per output of that block and a spent record per output unspent until then, or brought by it, that it spends, in every field; exact errors |
| ProcessedBlocks.BlockTells | mobilecoind/src/processed_block_store.rs:208-242 | the records one committed block adds, against the chain replayed so far |
| ProcessedBlocks.RecordsAbout | mobilecoind/src/processed_block_store.rs:113-132 | a record agrees with its output in subaddress, public key, key image, value and token, and in direction |
| WalletInvariants.AddMonitorKeeps | mobilecoind/src/database.rs:153-167 | the spend-key index stays the disjoint union of the live ranges; a failed add changes nothing |
| WalletInvariants.RemoveMonitorKeeps | mobilecoind/src/database.rs:169-188 | removal keeps table agreement, index exactness and confinement |
| WalletInvariants.RemoveMonitorErases | mobilecoind/src/database.rs:169-188 | every trace of the monitor is gone if and only if its outputs lay in its own range |
| WalletInvariants.RemoveMonitorFrames | mobilecoind/src/database.rs:169-188 | the data of every other monitor are unchanged |
| WalletInvariants.BlockProcessedKeeps | mobilecoind/src/database.rs:258-334 | a block keeps all invariants, and confinement when the scan reports own subaddresses only |
| WalletInvariants.UpdateKeeps | mobilecoind/src/database.rs:237-255 | marking keeps all invariants |
| WalletInvariants.AddMonitorAnswers | mobilecoind/src/database.rs:153-167 | a monitor is accepted iff its range ends below 2^64 and its id and spend keys are new, with each error as an iff; it is stored as given |
| WalletInvariants.RemoveMonitorAnswers | mobilecoind/src/database.rs:169-188 | removal fails iff the id is unknown, and takes exactly that monitor out |
| WalletInvariants.BlockAnswers | mobilecoind/src/database.rs:258-334 | a block is accepted iff the monitor expects it and none of its outputs is stored or repeated, with each error as an iff; only that cursor moves |
| ChainReplay.RunKeeps | mobilecoind/src/database.rs:153-334 | consistency, confinement and replay hold after every run of database calls |
| ChainReplay.ChainReplayed | mobilecoind/src/database.rs:258-334 | after any run a monitor's outputs are exactly those found in a block of [first_block, next_block) that neither that block nor a later one spends |
| ChainReplay.HintsReplayed | mobilecoind/src/utxo_store.rs:370-405 | after any run a stored output carries the height and tombstone of the last accepted mark that lists it since it was stored |
| LedgerReplay.MatchIsOwn | mobilecoind/src/sync.rs:402-484 | a scan that trips no assertion finds the outputs to the monitor's own subaddresses, whatever else is registered |
| LedgerReplay.OwnListed | mobilecoind/src/sync.rs:402-484 | the outputs of a block for a monitor are those that pay one of its subaddresses, with key image, value, token, public key and memo as the account sees them |
| LedgerReplay.SyncWorldTables | mobilecoind/src/sync.rs:301-399 | the runs below sync as sync_monitor does |
| LedgerReplay.RunFollowsLedger | mobilecoind/src/sync.rs:301-399 | in every run of adding, syncing, marking and removing, the blocks a monitor has processed are the ledger's |
| LedgerReplay.LedgerReplayed | mobilecoind/src/database.rs:258-334 | against one ledger, a monitor stores exactly the outputs that blocks [first_block, next_block) pay to its subaddresses, in every field but the spend hints, whose key image is in no ledger block from there on |
| History.BlockBalances | mobilecoind/src/database.rs:281-308 | a committed block keeps received minus spent equal to the value in store, on every line |
| History.HistoryConserved | mobilecoind/src/processed_block_store.rs:208-242 | after any run, per monitor, subaddress and token, received minus spent over the history is the value in store |
| SyncBatch.MatchConfined | mobilecoind/src/sync.rs:402-484 | what a scan reports lies in the scanned monitor's own range |
| SyncBatch.RecognisedAre | mobilecoind/src/sync.rs:411-443 | the positions a scan recognises are exactly those whose recovered spend key is registered, in order |
| SyncBatch.ScanReads | mobilecoind/src/sync.rs:445-480 | a scan reports one output per recognised position, in order, each with the fields the account sees under the subaddress found and both spend hints 0 |
| SyncBatch.CommitResults | mobilecoind/src/sync.rs:372-392 | the commit loop commits in order and stops at the first error |
| SyncBatch.SyncMonitor | mobilecoind/src/sync.rs:301-399 | one whole call: unknown monitor, batch size, scan, ordered commit and answer |
| SyncBatch.SyncAnswers | mobilecoind/src/sync.rs:308-398 | an unknown monitor is an error that changes nothing; a call that succeeds has moved the cursor by the workers or to the end, and answers NoMoreBlocks iff it is at the end |
| SyncBatch.BatchIsSequence | mobilecoind/src/sync.rs:331-392 | parallel scan with ordered commit equals scanning and committing block by block |
| SyncBatch.SyncIsSequence | mobilecoind/src/sync.rs:301-399 | a whole call has the tables and error of the sequential one |
| SyncBatch.ErrorLeavesPrefix | mobilecoind/src/sync.rs:372-392 | on error exactly the blocks before the failing one are committed |
| SyncBatch.SyncKeeps | mobilecoind/src/sync.rs:301-399 | a call keeps every table invariant, with what it scans confined by its own matching |
| SyncBatch.CallsNeeded | mobilecoind/src/sync.rs:394-399 | on a fixed ledger a monitor r >= 1 blocks behind hears NoMoreBlocks in call ceil(r / workers) and not before |
| SyncInterleaved.IdentifiesSome | mobilecoind/src/monitor_store.rs:86-150 | an id function that gives no two of the registrations of a run the same id tells them apart by account, range and first block |
| SyncInterleaved.LookupRight | mobilecoind/src/sync.rs:415-443 | a lookup that trips no assertion gives the monitor's own answer while it is registered, and none while it is not |
| SyncInterleaved.SeenListed | mobilecoind/src/sync.rs:402-484 | what a scan with missed lookups finds is what the block pays to the monitor at the other positions, field by field |
| SyncInterleaved.ReachedKeeps | mobilecoind/src/sync.rs:301-399 | in every interleaving of ledger growth, lookups, commits and other calls, each committed block is the ledger's without the outputs missed |
| SyncInterleaved.StoredIffSeen | mobilecoind/src/sync.rs:301-484 | in every interleaving, against the ledger as it has grown, a live monitor stores exactly its outputs of processed blocks that were looked up while it was registered and that neither their block nor a later processed one spends |
| SyncInterleaved.WholeIffHarmless | mobilecoind/src/sync.rs:402-484 | the blocks processed for a monitor are the ledger's iff none of its outputs was looked up while it was not registered |
| SyncInterleaved.WatchedReplaysLedger | mobilecoind/src/sync.rs:301-484 | if every lookup is made for a registered monitor, a live monitor stores exactly what the ledger leaves unspent |
| SyncInterleaved.UndisturbedIsSync | mobilecoind/src/sync.rs:372-392 | with one index for all lookups and the blocks stored in a row, the tables are those of one call |
| SyncInterleaved.RemovedMidScan | mobilecoind/src/sync.rs:426-440 | for every account and output that pays it, a run with removal and re-adding during a scan that ends past the block without the output |
| SyncInterleaved.LossHappens | mobilecoind/src/sync.rs:426-440 | an environment in which that run loses the output |
| SyncScheduler.StepExcludes | mobilecoind/src/sync.rs:134-181 | every step of the main thread or a worker keeps the exclusion invariant |
| SyncScheduler.MutualExclusion | mobilecoind/src/sync.rs:134-181 | in every interleaving a monitor is in at most one message or worker, and in the queued set while it is |
| SyncScheduler.BlockCheckNeverFails | mobilecoind/src/database.rs:270-279 | without monitor removal the expected-block check never refuses a commit |
| SyncScheduler.MismatchIff | mobilecoind/src/database.rs:270-279 | the check counts as failed iff some commit met a block other than the expected one |
| SyncScheduler.ReadSizes | mobilecoind/src/sync.rs:308-321 | a worker takes as many blocks as there are workers, or all up to the height it read |
| SyncScheduler.RunTellsRight | mobilecoind/src/sync.rs:394-398 | without removal, a worker done without error says NoMoreBlocks iff the cursor has reached the height it read |
| SyncScheduler.LiveIffRegistered | mobilecoind/src/database.rs:153-188 | a monitor has a cursor iff it was added and not removed since |
| SyncScheduler.StopsCounted | mobilecoind/src/sync.rs:183-200 | every stop message sent is still waiting or has stopped a worker |
| SyncScheduler.SkippedIffHeldOrFailed | mobilecoind/src/sync.rs:245-293 | an id in the queued set is being worked on or was given up, and conversely |
| SyncScheduler.GivenUpIffErred | mobilecoind/src/sync.rs:281-286 | a monitor is given up exactly when some step found it gone, its cursor elsewhere, or a block refused |
| SyncScheduler.SkippedIffErred | mobilecoind/src/sync.rs:154-170 | once nobody holds a monitor, the main thread skips it iff such a step happened |
| SyncScheduler.RequeuedWithoutErrors | mobilecoind/src/sync.rs:256-264 | if nothing is removed, live ids are queued and blocks are stored, an id is in the set exactly while somebody holds it |
| SyncScheduler.FailureReached | mobilecoind/src/sync.rs:281-286 | a run that ends with a monitor behind the ledger, held by nobody and still in the set |
| SyncScheduler.FailedStaysStuck | mobilecoind/src/sync.rs:281-286 | an id whose sync failed is never claimed again in any continuation |
| SyncScheduler.FailedCursorFrozen | mobilecoind/src/sync.rs:281-286 | no step moves the cursor of such an id |
| Selection.PopUntil | mobilecoind/src/payments.rs:898-915 | the pop loop never runs dry and ends at the first sufficient window |
| Selection.SelectUtxosForValue | mobilecoind/src/payments.rs:868-923 | succeeds iff some choice within the cap suffices; then no sufficient choice has a smaller largest coin; the errors split on whether all coins together suffice |
| Selection.WindowIsBest | mobilecoind/src/payments.rs:868-923 | no choice within the cap among the first k coins is worth more than the window |
| Selection.ReachableIffTop | mobilecoind/src/payments.rs:882-896 | the up-front test on the largest coins decides reachability exactly |
| Selection.FirstWindowIsMinMax | mobilecoind/src/payments.rs:898-915 | the first sufficient window has the smallest possible largest coin |
| Selection.SumsFit | mobilecoind/src/payments.rs:883-915 | every sum selection computes fits a u64 when all coins together do |
| Selection.PickedGood | mobilecoind/src/payments.rs:898-922 | whenever the value can be reached within the cap, the coins picked reach it within the cap |
| Selection.SlotsLeft | mobilecoind/src/payments.rs:898-915 | slots are left over iff the fewest smallest coins that reach the value are fewer than the cap, and they are then what is picked |
| Selection.PickedPrefix | mobilecoind/src/payments.rs:900-915 | below the cap the coins picked are the smallest ones |
| Selection.MergeLoop | mobilecoind/src/payments.rs:975-1010 | finds the lowest run of coins that exceeds the fee, or none does |
| Selection.SelectUtxosForOptimization | mobilecoind/src/payments.rs:938-1011 | succeeds iff some max_inputs - 1 of the non-largest coins not pending exceed the fee; returns the lowest such run and the largest coin, none of them pending; the merged value exceeds the largest |
| Selection.PayingIffTop | mobilecoind/src/payments.rs:975-1010 | some run-sized choice exceeds the fee iff the largest ones do |
| Selection.SpendableAre | mobilecoind/src/payments.rs:960-963 | the coins considered for merging are exactly those whose tombstone has been reached |
| Balance.FillWithinOutput | util/u64-ratio/src/lib.rs:48-52 | a fraction of at most one, rounded up, never exceeds the full output |
| Balance.RoundedUpLeast | util/u64-ratio/src/lib.rs:48-52 | the rounded share is the least whole number not below the exact one |
| Balance.SciMeans | transaction/extra/src/signed_contingent_input.rs:191-233 | a foreign input is refused iff its fill does not fit; otherwise its postings come, for every token, to the required amounts, the rest of the change and the rounded shares, less the input |
| Balance.AllScisMean | mobilecoind/src/payments.rs:383-397 | the same for all foreign inputs of a request |
| Balance.PostAll | mobilecoind/src/payments.rs:375-397 | posting entries one by one leaves the per-token totals of all postings |
| Balance.WriteChange | mobilecoind/src/payments.rs:1311-1341 | succeeds iff no token is short and no surplus exceeds u64; one change output exactly per token in surplus; the least offending token decides the error |
| Balance.BuildTxProposal | mobilecoind/src/payments.rs:1106-1341 | succeeds iff every fill fits and the inputs cover the request; inputs = outlays + fee + what foreign inputs take less what they bring + change for every token; exact errors |
| Balance.SelectForToken | mobilecoind/src/payments.rs:399-418 | succeeds iff a slot is left, the need does not truncate to zero, and some choice within the slots reaches what is left of it; each error as an iff |
| Balance.SelectInputs | mobilecoind/src/payments.rs:399-418 | the selection in token order, each token with the slots the earlier ones leave; every need is supplied from the wallet and the cap holds |
| Balance.SelectionFits | mobilecoind/src/payments.rs:399-418 | for needs below 2^64 selection succeeds iff every token but the last has enough coins whose fewest smallest leave a slot, and the last can be paid within the slots then left |
| Balance.SelectionGood | mobilecoind/src/payments.rs:399-418 | a selection is within the wallet and the cap and supplies every need below 2^64 |
| Balance.BuildMixedTransaction | mobilecoind/src/payments.rs:347-488 | Ok iff the request is well formed, its needs and surpluses fit u64 and the needs fit the slots token by token; with one token in need, iff some choice within the free slots reaches it; conservation and the cap; exact errors |
| Balance.VerdictMeans | mobilecoind/src/payments.rs:1311-1321 | a build succeeds iff the selection does and nothing leaves u64; after a selection the shortfall check fires iff some need is 2^64 or more |
| Balance.VerdictAvoids | mobilecoind/src/payments.rs:399-418 | no slot underflow when foreign inputs fit, no shortfall and no empty selection when needs fit u64 |
| Balance.OneTokenVerdict | mobilecoind/src/payments.rs:399-418 | the exact outcome with one token in need |
| Balance.NeedBeyondU64 | mobilecoind/src/payments.rs:411-416 | two outlays of 2^63 end in the empty-selection assertion, whatever the wallet holds |
| Balance.LateShortfall | mobilecoind/src/payments.rs:1311-1321 | a need of 2^64 + v selects one coin of v and ends in the late shortfall |
| Balance.GreedyRunsOutOfSlots | mobilecoind/src/payments.rs:402-409 | sixteen small coins of the first token take all slots although two coins would pay for both tokens |
| Balance.WholeValueBalances | mobilecoind/src/payments.rs:733-824 | paying out the whole value less the fee leaves no change for any token |
| Balance.GenerateTxFromTxList | mobilecoind/src/payments.rs:733-824 | succeeds iff one token and the fee is covered; sends everything less the fee with no change |
| Balance.GenerateOptimizationTx | mobilecoind/src/payments.rs:601-719 | Ok iff some 15 of the coins not pending below the largest exceed the fee; spends no pending coin; one output without change that exceeds every coin not pending |
| FaucetRebalance.OutputsConserve | mobilecoind-dev-faucet/src/worker.rs:851-875 | the outputs and the fee are worth the inputs |
| FaucetRebalance.AverageAboveRest | mobilecoind-dev-faucet/src/worker.rs:813-826 | every coin left out is at most the average paid out |
| FaucetRebalance.OutputsEven | mobilecoind-dev-faucet/src/worker.rs:813-826 | the largest output is at most twice the smallest and none has the target value |
| FaucetRebalance.OutputsLead | mobilecoind-dev-faucet/src/worker.rs:813-826 | after landing, the outputs are the largest coins in descending order |
| FaucetRebalance.RebalancingSettles | mobilecoind-dev-faucet/src/worker.rs:784-889 | with target >= 1 the test is false on the coins after a rebalancing transaction has landed |
| FaucetRebalance.OneUnspent | mobilecoind-dev-faucet/src/worker.rs:866-875 | selection leaves at most the largest listed input unspent, and then it lies between the average and the change |
| FaucetRebalance.RebalancingSettlesAsSpent | mobilecoind-dev-faucet/src/worker.rs:784-889 | with target >= 1, whichever inputs selection spends, the test is false after landing |
| FaucetRebalance.RepeatsIff | mobilecoind-dev-faucet/src/worker.rs:784-889 | whichever inputs selection spends, the test holds again after landing iff the target is 0 and both the largest listed input and the change exceed twice the average |
| FaucetRebalance.ZeroTargetRepeats | mobilecoind-dev-faucet/src/worker.rs:784-889 | one coin of 32 at fee 1 and target 0 is rebalanced twice in a row |
| FaucetRebalance.ZeroFeeForever | mobilecoind-dev-faucet/src/worker.rs:784-889 | at fee 0 and target 0 a rebalancing transaction can restore the very coins that trigger it |
| FaucetRebalance.FeesBoundRepeats | mobilecoind-dev-faucet/src/worker.rs:813-826 | rebalancing transactions in a row cost their fees out of the coins |
| FaucetRebalance.LargestNeeded | mobilecoind-dev-faucet/src/worker.rs:866-875 | the largest listed input is needed iff it exceeds the change |
| FaucetRebalance.LargestNeededUnlessDust | mobilecoind-dev-faucet/src/worker.rs:866-875 | it is needed whenever average + 2 * fee is at least 435 |
| FaucetRequest.PickedSuffix | mobilecoind/src/payments.rs:898-922 | of inputs listed in descending order selection spends those from some position on |
| FaucetRequest.RebalancingRequestBuilds | mobilecoind-dev-faucet/src/worker.rs:851-875 | the rebalancing request is always built, and spends its inputs that way |
| FaucetWorker.WorkerTokenState.CheckOnInFlightTxs | mobilecoind-dev-faucet/src/worker.rs:723-749 | forgets exactly the resolved transactions and their key images |
| FaucetWorker.WorkerTokenState.SplitOne | mobilecoind-dev-faucet/src/worker.rs:913-952 | a coin that is too small or in flight is left alone; any other is split and tracked under the id the network answered, or the network refused exactly this request |
| FaucetWorker.WorkerTokenState.SendSplits | mobilecoind-dev-faucet/src/worker.rs:912-956 | the splits in flight are those before and the network's answer to each request sent, disjoint from what was in flight; on success every splittable coin is in flight; an error only if the split of a coin neither in flight nor sent was refused |
| FaucetWorker.WorkerTokenState.MaybeSendSplitTxs | mobilecoind-dev-faucet/src/worker.rs:768-960 | waits, reports depletion, rebalances, backs off, splits or does nothing, each in exactly its case, with the exact result, requests and tracked answers; keeps in-flight sets disjoint; an error only for a refused request that was due in that case |
| FaucetWorker.WorkerTokenState.MaybeSendDefragmentationTx | mobilecoind-dev-faucet/src/worker.rs:975-1059 | merges the idle coins iff all but the largest are worth more than the fee, and tracks the network's answer to exactly that request; an error only if the network refused that merge |
| FaucetWorker.WorkerTokenState.UpdateTrackers | mobilecoind-dev-faucet/src/worker.rs:592-637 | trackers are exactly the listed coins of the target value |
| FaucetWorker.TargetImagesAre | mobilecoind-dev-faucet/src/worker.rs:592-637 | the coins to hand out are the listed ones of the token and exactly the target value |
| FaucetWorker.WorkerTokenState.Poll | mobilecoind-dev-faucet/src/worker.rs:529-719 | one poll keeps the three kinds of in-flight transaction pairwise disjoint and off the queued coins; all it sends is tracked under the network's answers and all else kept or resolved; funds are depleted iff nothing is rebalancing or merging and the top coins cannot pay the fee or wanted splits are not to be had; uneven coins are rebalanced unless one is busy, wanted splits made; it sends nothing but the rebalancing, the splits or, when funds are short, the one merge that are due, and fails only if there is no list or the network refused such a request |
| FaucetWorker.CandidatesAre | mobilecoind-dev-faucet/src/worker.rs:645-651 | the coins considered are exactly the listed ones of the token and of another than the target value, descending |
| FaucetWorker.TargetCount | mobilecoind-dev-faucet/src/worker.rs:924-928 | the largest count below MAX_OUTPUTS that value and fee allow |
| FaucetWorker.SplitRequest | mobilecoind-dev-faucet/src/worker.rs:913-945 | a split spends the one coin, pays out only coins of the target value, and as many as fit |
| FaucetWorker.DefragmentRequest | mobilecoind-dev-faucet/src/worker.rs:1019-1045 | a merge spends the selected coins, pays out only coins of the target value, and as many as fit |
| FaucetWorker.RebalanceRequest | mobilecoind-dev-faucet/src/worker.rs:851-875 | fifteen outlays of the average value, within the inputs |
| FaucetWorker.IdleTakes | mobilecoind-dev-faucet/src/worker.rs:989-1003 | the coins to merge are all idle ones up to some place of the list: sixteen, or all there are |
| FaucetWorker.AfterLargestIs | mobilecoind-dev-faucet/src/worker.rs:1005-1009 | what is compared with the fee is the value of the idle coins without the largest |
| FaucetHandout.RunKeeps | mobilecoind-dev-faucet/src/worker.rs:539-637 | every interleaving keeps channel, depth, trackers and live records in agreement |
| FaucetHandout.HandoutSafe | mobilecoind-dev-faucet/src/worker.rs:116-147 | if no list brings back a coin some consumer holds untracked, no two consumers hold one coin, and the queue depth is never below the channel length and never underflows |
| FaucetHandout.NeverReturnsSuffices | mobilecoind-dev-faucet/src/worker.rs:631-637 | that is so in particular if no coin that left the list returns |
| FaucetHandout.OrphanReturnBreaks | mobilecoind-dev-faucet/src/worker.rs:610-637 | from every state with such a held coin, listing it again leads to two consumers holding it |
| FaucetHandout.ReturningCoinHeldTwice | mobilecoind-dev-faucet/src/worker.rs:610-637 | a run in which a coin is lost and listed again hands it out twice |
| FaucetHandout.ResolveExact | mobilecoind-dev-faucet/src/worker.rs:539-564 | a tracker is forgotten iff its consumer gave the coin up or reported a settled transaction |
| FaucetHandout.GivenUpIsRequeued | mobilecoind-dev-faucet/src/worker.rs:586-629 | a listed coin that its consumer gave up goes back to the end of the queue |
| Lru.RunBounded | common/src/lru.rs:84-155 | every run of operations is a list of distinct keys within capacity |
| Lru.PutStores | common/src/lru.rs:84-135 | a put stores its value in front; other keys keep value and order, except the oldest of a full cache when the key is new |
| Lru.TouchUpdates | common/src/lru.rs:145-158 | a touched key comes to the front with its value updated; nothing else changes |
| Lru.StoredIsLatest | common/src/lru.rs:84-186 | in every run a stored key has the value last put, changed by the updates since |
| Lru.LruCache.constructor | common/src/lru.rs:32-47 | an empty list over all-free slots |
| Lru.LruCache.Len | common/src/lru.rs:49-53 | the length of the recency list |
| Lru.LruCache.IsFull | common/src/lru.rs:60-63 | whether the list has reached capacity |
| Lru.LruCache.Contains | common/src/lru.rs:65-68 | whether the list has the key |
| Lru.LruCache.SearchUsed | common/src/lru.rs:206-222 | the position of the key in recency order, if it is stored |
| Lru.LruCache.Peek | common/src/lru.rs:161-168 | the stored value, without a change of order |
| Lru.LruCache.Iterate | common/src/lru.rs:225-251 | the entries from most to least recently used |
| Lru.LruCache.Clear | common/src/lru.rs:70-81 | the empty list, all slots free |
| Lru.LruCache.GetMut | common/src/lru.rs:145-158 | the value, with its entry moved to the front and rewritten by the caller |
| Lru.LruCache.Get | common/src/lru.rs:138-142 | the value, with its entry moved to the front |
| Lru.LruCache.Pop | common/src/lru.rs:171-186 | the value, with its entry taken out and its slot freed |
| Lru.LruCache.Put | common/src/lru.rs:84-135 | the entry at the front, the previous value returned, the oldest dropped when full; no internal check fails |
| Broadcaster.SeenKeepsWindow | peers/src/threaded_broadcaster.rs:189-205 | a cache that holds the last distinct hashes does so after one more |
| Broadcaster.RecentRank | peers/src/threaded_broadcaster.rs:189-205 | a hash stands behind exactly the distinct hashes handed in since |
| Broadcaster.WindowMeaning | peers/src/threaded_broadcaster.rs:189-205 | a hash is remembered iff it was handed in and fewer than capacity distinct others came since |
| Broadcaster.RecipientsExact | peers/src/threaded_broadcaster.rs:207-229 | recipients are the peers other than issuer and sender |
| Broadcaster.ThreadedBroadcaster.CheckAndRemember | peers/src/threaded_broadcaster.rs:189-205 | reports a hash as new iff it is outside the window, and remembers it |
| Broadcaster.ThreadedBroadcaster.BroadcastConsensusMsg | peers/src/threaded_broadcaster.rs:189-230 | forwards exactly the new messages, to exactly the recipients |
| Broadcaster.ThreadedBroadcaster.BroadcastProposeTxMsg | peers/src/threaded_broadcaster.rs:118-163 | the same for proposed transactions |
| Ecall.RetryBuffer.Call | enclave-boundary/src/trusted.rs:28-91 | a first call runs the handler once and parks a long answer under the drawn id; a retry takes the parked answer iff it fits; every reply in full |
| Ecall.MakeVariableLengthEcall | enclave-boundary/src/untrusted.rs:19-71 | returns the handler's answer; one run and an unchanged map unless the answer is long and the drawn id is zero |
| EcallConcurrent.RunKeeps | enclave-boundary/src/trusted.rs:28-91 | every interleaving, with any draws and results, keeps each parked answer matched to the one caller that drew its id |
| EcallConcurrent.EveryCallAnswered | enclave-boundary/src/untrusted.rs:24-70 | a finished call ran its handler once and got that answer iff its own first result was not out-of-memory and, if long, got an id other than zero; otherwise it ran twice, with the exact answer or panic |
| EcallConcurrent.TameCallAnswered | enclave-boundary/src/untrusted.rs:24-70 | whatever other callers draw or report, a caller with nonzero draws and no out-of-memory runs once, gets that answer and never panics |
| EcallConcurrent.LeftBehind | enclave-boundary/src/trusted.rs:40-60 | when all calls are done the retry map holds exactly the ids drawn by callers that ran their handler twice |
| EcallConcurrent.NothingLeftBehind | enclave-boundary/src/trusted.rs:40-60 | without zero draws and out-of-memory it is then empty |
| EcallConcurrent.OneZeroDraw | enclave-boundary/src/trusted.rs:75-80 | in a whole run at most one caller is given the id zero, and its entry stays |
| EcallConcurrent.ZeroDrawRunsTwice | enclave-boundary/src/trusted.rs:75-80 | a zero draw runs the handler again and leaves an entry behind |
| EcallConcurrent.OutOfMemoryHandlerPanics | enclave-boundary/src/untrusted.rs:24-70 | a handler that reports out-of-memory leads to the panic |
| T3Outbox.AppendQueues | mobilecoind/src/t3_store.rs:176-208 | append takes a fresh index and fails only when indexes run out |
| T3Outbox.DequeueIsFront | mobilecoind/src/t3_store.rs:212-234 | dequeue returns the oldest transaction not removed, or none |
| T3Outbox.RemoveFrontQueues | mobilecoind/src/t3_store.rs:237-251 | removing the front leaves exactly the rest |
| T3Outbox.FirstInByteOrder | mobilecoind/src/t3_store.rs:216-226 | the first dup value in byte order is the least index |
| T3Outbox.T3Store.AppendTransparentTx | mobilecoind/src/t3_store.rs:176-208 | the three tables change together or not at all |
| T3Outbox.T3Store.DequeueTransparentTx | mobilecoind/src/t3_store.rs:212-234 | the entry of the least queued index |
| T3Outbox.T3Store.RemoveTransparentTx | mobilecoind/src/t3_store.rs:237-251 | removes an index from both tables or changes nothing |
| T3Outbox.DeliverNext | mobilecoind/src/t3_sync.rs:91-126 | one turn: the front is sent iff accepted, removed iff that succeeds, and the poll goes on iff both do |
| T3Outbox.Poll | mobilecoind/src/t3_sync.rs:85-133 | one poll acknowledges, in order, exactly as many waiting transactions as are accepted with the earlier ones removed, ten at most, and removes all of them but perhaps the last |
| T3Outbox.TurnDelivers | mobilecoind/src/t3_sync.rs:91-126 | an undisturbed turn acknowledges the front and removes it iff the removal succeeds; a refusal leaves it queued |
| T3Outbox.AckedIffAccepted | mobilecoind/src/t3_sync.rs:96-122 | in every run exactly the accepted submissions count as acknowledged |
| T3Outbox.NothingLost | mobilecoind/src/t3_sync.rs:96-122 | in every run a transaction leaves the queue only after a submission of it was accepted |
| T3Outbox.RunKeeps | mobilecoind/src/t3_sync.rs:85-133 | every run of appends and delivery steps with failures keeps the queue and the acknowledgements in step |
| T3Outbox.DeliveredInOrder | mobilecoind/src/t3_sync.rs:85-133 | acknowledged transactions, repeats collapsed, are a prefix of append order that includes everything removed |
| DbCrypto.EncryptionRoundTrip | mobilecoind/src/db_crypto.rs:240-291 | what an accepted password encrypted it decrypts |
| DbCrypto.FaithfulExists | mobilecoind/src/db_crypto.rs:240-291 | the demands on the cipher can be met |
| DbCrypto.Database.Open | mobilecoind/src/db_crypto.rs:93-124 | reopening reads the flag off the marker and forgets the key |
| DbCrypto.Database.CheckAndStore | mobilecoind/src/db_crypto.rs:134-158 | accepts exactly the current password, with the exact error otherwise |
| DbCrypto.Database.IsUnlocked | mobilecoind/src/db_crypto.rs:163-173 | whether data can be read; its assertion holds |
| DbCrypto.Database.ChangePassword | mobilecoind/src/db_crypto.rs:178-214 | marker, table and key change together, or nothing on a bad length |
| DbCrypto.Database.Encrypt | mobilecoind/src/db_crypto.rs:217-232 | encrypts under the current password, or asks for it when locked |
| DbCrypto.Database.Decrypt | mobilecoind/src/db_crypto.rs:261-291 | decrypts under the current password, or asks for it when locked; the invalid-state panic is unreachable |
| DbCrypto.Database.ReEncryptMonitors | mobilecoind/src/monitor_store.rs:311-327 | the cursor loop yields every value under the new password, or the exact error |
| DbCrypto.Database.ReEncryptAll | mobilecoind/src/database.rs:141-151 | succeeds iff the length is right and the database is unlocked or has no monitor; plaintexts survive; a failure changes nothing |
| DbCrypto.Database.AddMonitor | mobilecoind/src/monitor_store.rs:189-213 | stores the value under the current password, with the exact errors |
| DbCrypto.Database.SetMonitor | mobilecoind/src/monitor_store.rs:282-305 | replaces an existing value under the current password |
| DbCrypto.Database.RemoveMonitor | mobilecoind/src/monitor_store.rs:216-223 | removal needs no password |
| DbCrypto.Database.GetMonitor | mobilecoind/src/monitor_store.rs:226-240 | the plain value, or the exact error |
| DbCrypto.Database.ExecuteAll | mobilecoind/src/db_crypto.rs:92-291 | over every run the encrypted database answers as a plain table behind a password |
| DbCrypto.PlaintextSurvives | mobilecoind/src/database.rs:141-151 | no run of reopening, unlocking and password changes alters a monitor's data |
| DbCrypto.AnswersExact | mobilecoind/src/monitor_store.rs:189-305 | when each call succeeds and the error when not; removal needs no password |
| DbCrypto.ReadsBack | mobilecoind/src/monitor_store.rs:226-305 | what was added or set is read back, whatever is done to the password and to other monitors in between |
| DbCrypto.HoldsGiven | mobilecoind/src/monitor_store.rs:189-305 | after every run a monitor's data are what it was last given and not deprived of |
| DbCrypto.PasswordUnlocks | mobilecoind/src/db_crypto.rs:134-158 | exactly the right password unlocks, and changes nothing else |
| DbCrypto.NewPasswordOpens | mobilecoind/src/db_crypto.rs:178-214 | a password that was set is the one that opens the database in the next process, with its data |
| DbCrypto.LockedUntilPassword | mobilecoind/src/db_crypto.rs:134-158 | a locked vault with a monitor keeps its password and adds nothing until that password is given |
| DbCrypto.EmptyLockedTakesNewPassword | mobilecoind/src/database.rs:137-151 | a locked database without monitors takes a new password unasked |

## Left out

- LMDB itself, cursors' error returns and serialization: tables are maps, sets and ordered scans with atomic commit or abort.
- Curve arithmetic, key images, hashes and AES-GCM: parameters, with only the stated assumptions (for the cipher: round trip, and no two presented passwords share a marker).
- TransactionBuilder, memo building, fog resolution, membership proofs and `get_rings`: library code and random sampling around the balanced sheets.
- `build_swap_proposal` and `build_sci`: no balance sheet of their own.
- gRPC services, attestation, connection retry, configuration, JSON and protobuf conversions, logging and thread start and join.
- T3 processing of outputs inside `block_processed`: the outbox is modelled on its own.
- Overflow of u64 arithmetic in a build without overflow checks: `next_block + 1`, the end of a subaddress range and the outbox counter are modelled as failing; the faucet's sums are taken as unbounded.
- The same-monitor assertion in `match_tx_outs_into_utxos` is the predicate `OnlyOwn`, required of the blocks a call scans.
- LedgerReplay.LedgerReplayed: the ledger is fixed, sync calls are atomic, and one whose scan trips the assertion commits nothing; `SyncInterleaved` takes calls apart. The panic itself is not modelled.
- SyncInterleaved.StoredIffSeen: assumes that, among the registrations of the run, the monitor id determines account, range and first block and nothing else enters it; `IdentifiesSome` shows that it can be met. A block that the ledger fails to return fails every time.
- SyncBatch.MatchConfined: assumes `OnlyOwn`; two monitors on one account with disjoint ranges can break it, and the source then panics.
- Selection.SelectUtxosForValue: assumes value > 0, as `build_mixed_transaction` guarantees, and that the token's coins together fit u64.
- Lru.LruCache.Put: assumes capacity > 0; on capacity zero the source panics.
- Lru.LruCache.GetMut: what the caller writes through the returned reference is the parameter `update`.
- WalletDb.Database.UpdateAttemptedSpend: the source's assertions that heights never move back are its precondition.
- FaucetWorker.WorkerTokenState.Poll: assumes target >= 1 (the source divides by it) and that a key image always belongs to a coin of the same value; a submission whose response is lost counts as not sent.
- FaucetRebalance.RebalancingSettles: takes the rebalancing transaction to spend all listed inputs; `RebalancingSettlesAsSpent` takes those that selection spends. Both take the worker's fee to be the fee paid.
- FaucetHandout.HandoutSafe: assumes that no list brings back a coin that a consumer holds untracked; `OrphanReturnBreaks` shows that it must.
- Failures of the enclave transition itself are not modelled.
- DbCrypto.Database.ExecuteAll: calls are atomic; a reader whose snapshot overlaps a password change is not modelled.
- Broadcaster: the peer threads, their queues and retries; only duplicate suppression and the choice of recipients are modelled.
- `iter_mut` of the LRU cache, and reading UTXOs for one subaddress.
