# Flashblocks pending state, verified

A Dafny model of the part of an Ethereum execution client that serves `pending` from flashblocks:
partial blocks a producer sends while it is still building. One processor consumes canonical
blocks and flashblocks from a queue and keeps one published snapshot, or none. Around it stand the
cache of early flashblocks, the block assembler, the reader that layers the snapshot over canonical
state, the subscription back-pressure protocol, `eth_getLogs` up to `pending`, and two pieces of
the payload simulator: the Safe `multiSend` parser and the inclusion-list builder.

`dafny verify dfyconfig.toml` checks everything.

## How it is laid out

| module | what it models |
|---|---|
| `Types` | wire payloads, headers, errors, and foreign code (codecs, hashing, chain rules) as function values |
| `Validation` | `validation.rs`: sequence, reorg and reconciliation decisions |
| `Assembler` | `block_assembler.rs` |
| `Overlay` | `pending_provider.rs`: layered reads, and the materialised state they stand for |
| `PendingBlocks` | `pending_blocks.rs`: snapshot, builder, readers |
| `Rebuild` | `build_pending_state`: a plan of what a build does, its run, and the imperative code proved equal to it |
| `Refinement`, `Ordering`, `Incremental` | an incremental build equals plain re-execution |
| `Story`, `Served` | what a finished build says about itself, and where each thing it serves comes from |
| `Sequence`, `Shape` | gap-free lists, snapshots and runs |
| `Streaming` | exactly-once broadcasts over every run |
| `Execution` | a snapshot's bundle reads as the executed world |
| `Cache`, `CacheRuns` | `cache.rs`, the cache over whole runs, and replay |
| `Processor` | `processor.rs`: each step as a function, and the processor as an object that takes those steps |
| `TipSafety`, `Gate`, `Runs` | invariants over every run |
| `Outcomes` | what each flashblock and canonical block does, case by case |
| `Race`, `Concurrent` | the receiving task of `state.rs` against the processor, access by access, and why sequential runs are enough |
| `Slots`, `Backpressure` | `rpc/pubsub.rs` |
| `MultiSend` | `payment.rs` |
| `Inclusion` | `inclusion_producer.rs` |
| `Logs` | `get_logs` of `rpc/eth.rs` |

## What the code relies on

Each theorem names the hypotheses it needs.

- `Shape.Numbered`: base and metadata of a flashblock name the same block. Gap freedom, one
  story, what is served and exactly-once streaming need this and `SoundNode`, and no more.
- `Runs.HonestProducer`: that, and inside one block no hash gets two receipts. Needed for the
  snapshot to equal plain re-execution.
- `Runs.SystemReserved`: system calls (EIP-2935, EIP-4788) write only the storage of the system
  contracts, and transactions never write that storage, create or destroy those contracts. Needed
  for the same.
- `Runs.StableAnchor`: while a snapshot is published, the node reports its anchor under its number.
  Needed for the same.
- `Rebuild.SoundNode`: a header found under a number carries that number.
- `CacheRuns.Steady`: for the cache theorem alone, tip reads succeed, notified blocks are ones the
  node has, and neither the tip nor a found header moves back. Notified heights may.
- `Overlay.CleanCreations`: for the layered reads, no account is created over a slot that holds a
  value (EIP-7610). It is exactly the condition: see `Overlay.OverlayRefines` and
  `Execution.RunReadsExactly`.

`Incremental.StatusesKept` is a result rather than a hypothesis. A cached transaction is not run
again, so an incremental build does not notice when a later flashblock changes the success flag
reported for it, where a full build fails with a status mismatch
(`Incremental.FlippedOutcomeSlipsThrough`). An incremental build that succeeds is what the full
build gives exactly when no reported outcome changed.

`CacheRuns.Harmless` is one too. The cache window breaks when a notification lowers the height
below the reach of a cached block, and only then.

A run is any sequence of updates. Each update carries what the processor meets meanwhile: the
node's answers, the last notified height, and whether the receiving task cleared the snapshot
before each of the update's loads. `Concurrent.ConcurrentIsSequential` shows that clearing before
loads is all that concurrency can do.

`State.since` marks where a snapshot's stream began. A canonical block that rebuilds from nothing
ends the stream, because the replacement is not broadcast; the exactly-once theorem speaks of
snapshots whose stream did not end.

## Model

| member | source | states |
|---|---|---|
| `Validation.Validate` | `crates/execution/flashblocks/src/validation.rs:51-89` | Each of the six verdicts holds exactly for its own case of block, index and payload, so the order of the tests does not matter; a gap names the index expected and the one that came. |
| `Validation.Detect` | `crates/execution/flashblocks/src/validation.rs:146-167` | A rebuild is required exactly when the hash lists differ; a reorg is reported exactly when the tracked list is not a prefix of the canonical one. |
| `Validation.Reconcile` | `crates/execution/flashblocks/src/validation.rs:255-286` | Each of the five strategies holds exactly for its own heights and verdict; an exceeded depth is reported as the distance from the earliest block. |
| `Assembler.AssemblesExactly` | `crates/execution/flashblocks/src/block_assembler.rs:62-181` | Assembly succeeds exactly when there is a base above block 0 that converts, a slot from Amsterdam on, transactions that all decode and, where deposits must be scanned, a receipt for each of them and deposits that parse. |
| `Assembler.AssembledFields` | `crates/execution/flashblocks/src/block_assembler.rs:69-181` | Withdrawals, roots, bloom, gas and blob fields come from the last flashblock, the fields fixed at opening from the first one's base; a requests hash is there exactly after Prague, of the producer's requests when sent and otherwise of the deposits as the one request of type 0, or of none; a slot exactly from Amsterdam on. |
| `Assembler.Assemble` | `crates/execution/flashblocks/src/block_assembler.rs:74-112` | An assembled block holds every encoded transaction of the list, decoded in order, under the base's number and timestamp. |
| `Assembler.OrderedReceipts` | `crates/execution/flashblocks/src/block_assembler.rs:158-170` | The receipts the requests hash is taken from follow the block's transactions one by one; it fails exactly when some transaction has none. |
| `Assembler.ChunkingIndependence` | `crates/execution/flashblocks/src/block_assembler.rs:62-181` | Assembling any non-empty list gives the same block, requests hash or error as the one flashblock that merges it. |
| `Assembler.CutsAgree` | `crates/execution/flashblocks/src/block_assembler.rs:62-181` | Two cuts of the same block (same base, same last cumulative fields, same transactions end to end, same merged receipts) assemble alike. |
| `Assembler.StrayReceiptIgnored` | `crates/execution/flashblocks/src/block_assembler.rs:142-181` | A receipt for a transaction outside the block changes nothing, in whichever flashblock it travels: the requests hash included. |
| `Overlay.CommitAgrees` | `crates/execution/runner/src/pending_provider.rs:57-110` | After one more commit the layered reads are exact if and only if that commit creates no account over a slot that holds a value. |
| `Overlay.OverlayRefines` | `crates/execution/runner/src/pending_provider.rs:57-110` | Over any sequence of changes, creations, destructions and re-creations, account, slot and code reads equal the materialised state throughout if and only if every creation was clean. |
| `Overlay.OverlayReadsMaterialised` | `crates/execution/runner/src/pending_provider.rs:82-110` | With clean creations, every single read through bundle-then-anchor equals the read of the materialised state; slots missing from a destroyed account's entry read zero. |
| `Overlay.DirtyCreationShows` | `crates/execution/runner/src/pending_provider.rs:97-108` | The failing family is real: an account created over a live anchor slot still shows that slot. |
| `PendingBlocks.Builder.AddTransaction` | `crates/execution/flashblocks/src/pending_blocks.rs:133-142` | A new hash is listed and indexed; a repeated one is remembered as the error, first repeat first, and changes nothing else. |
| `PendingBlocks.Builder.Build` | `crates/execution/flashblocks/src/pending_blocks.rs:187-214` | A remembered repeat, a missing header or a missing flashblock fails the build, in that order; otherwise the snapshot is everything that was added. |
| `Rebuild.GroupByBlock` | `crates/execution/flashblocks/src/processor.rs:620-626` | The map holds, for exactly the block numbers that occur, the flashblocks of that number in arrival order. |
| `Rebuild.BuildPendingState` | `crates/execution/flashblocks/src/processor.rs:615-899` | The grouping, the anchor lookup and the nested loops over the database, gas, log index and builder amount to the specification `Build`, errors included. |
| `Rebuild.BuildGroups` | `crates/execution/flashblocks/src/processor.rs:654-899` | Popping the groups in ascending order and running each on the header before it equals the plan's run. |
| `Rebuild.ExecuteGroup` | `crates/execution/flashblocks/src/processor.rs:664-736` | One block: assembling, announcing its parent hash, the system calls, sender recovery and its transactions equal that block's part of the plan. |
| `Rebuild.ExecuteTransactions` | `crates/execution/flashblocks/src/processor.rs:734-890` | The transaction loop, with its running gas and log index, equals the plan of the block's transactions, and stops at the same error. |
| `Rebuild.ExecuteTransaction` | `crates/execution/flashblocks/src/processor.rs:831-878` | A transaction the previous snapshot executed is listed with its cached changes and not run; any other is run, checked against the reported status and committed. |
| `Rebuild.RecoverSenders` | `crates/execution/flashblocks/src/processor.rs:602-613` | Senders come back in transaction order, a known one without recovery; it fails exactly when some recovery does. |
| `Refinement.ReplayChangesNothing` | `crates/execution/flashblocks/src/processor.rs:718-730` | Making system writes again over a bundle that already holds their last values leaves it as it is. |
| `Refinement.WritesAreAbsorbed` | `crates/execution/flashblocks/src/processor.rs:718-730` | Making the writes is what makes a bundle hold them. |
| `Refinement.CommitKeepsAbsorbed` | `crates/execution/flashblocks/src/processor.rs:874-878` | Committing a transaction that leaves the reserved storage alone keeps the system writes held. |
| `Refinement.RepeatNeverDone` | `crates/execution/flashblocks/src/pending_blocks.rs:133-142` | A run that lists a hash twice never finishes as a snapshot. |
| `Refinement.Simulate` | `crates/execution/flashblocks/src/processor.rs:831-878` | Running a longer plan over the earlier run's bundle and cached states tracks running it from nothing, step by step, to the same end. |
| `Incremental.MatchPlans` | `crates/execution/flashblocks/src/processor.rs:672-899` | The plan of a list starts with the plan of any prefix of it, block by block, also when the last block of the prefix grows. |
| `Incremental.IncrementalRefinesFull` | `crates/execution/flashblocks/src/processor.rs:654-661` | With the previous snapshot built on the same anchor from a prefix of the list, the full build succeeds exactly when the incremental one does and no reported outcome of the prefix changed, and then both yield the same snapshot: bundle, transactions, receipts, states, senders and headers. |
| `Incremental.FlippedOutcomeSlipsThrough` | `crates/execution/flashblocks/src/processor.rs:831-878` | The failing input: one block, one transaction reported successful, then a flashblock that reports it failed. Continuing from the first snapshot builds; the full build ends in a status mismatch. |
| `Incremental.ContinueChangesNothing` | `crates/execution/flashblocks/src/processor.rs:448-461` | Rebuilding the same list from its own snapshot gives that snapshot. |
| `Incremental.AgreementKeepsStatuses` | `crates/execution/flashblocks/src/processor.rs:679-686` | When no hash gets two receipts inside one block, every reported outcome of a prefix is kept in the longer list. |
| `Ordering.PrefixGroups` | `crates/execution/flashblocks/src/processor.rs:620-626` | Grouping by number cuts an ordered list and a prefix of it at the same places; only the prefix's last group can differ, by being shorter. |
| `Story.BuildTellsOneStory` | `crates/execution/flashblocks/src/processor.rs:672-899` | Any successful build: hash map, receipts, senders and states have the transaction list's domain, no hash twice; in each block a transaction's index is its position, gas adds up to the last cumulative gas and log indices run 0..n-1 in order. |
| `Story.LatestHashesExact` | `crates/execution/flashblocks/src/pending_blocks.rs:441-449` | Skipping the previous count leaves exactly the latest flashblock's transactions, because a repeated hash fails the build. |
| `Served.BuildServes` | `crates/execution/flashblocks/src/processor.rs:672-885` | Any successful build: each listed transaction is served with the receipt last sent for it in its block (status, cumulative gas, logs in order), its recovered sender, and the price and time of its block's base; each header is its block's assembled one; each balance is the last one sent. |
| `Served.BuildRunsInContext` | `crates/execution/flashblocks/src/processor.rs:694-735` | Every transaction a build executes runs on the header of the block before, or the anchor, under its own block's base and slot, with its block's parent hash announced. |
| `Served.ListIsWellPlanned` | `crates/execution/flashblocks/src/processor.rs:664-887` | The plan of a gap-free list, block by block: its own flashblocks and header listed, its parent's hash announced, its system calls made in its context before its transactions, its balances merged at the end. |
| `Served.WithdrawalsMatchHeader` | `crates/execution/flashblocks/src/pending_blocks.rs:344-357` | The withdrawals served with the latest block are the list whose root its header carries. |
| `Served.MergedIsLast` | `crates/execution/flashblocks/src/processor.rs:674-681` | The merged receipts of a block hold for each hash the receipt last sent for it. |
| `Sequence.ValidatedFollows` | `crates/execution/flashblocks/src/processor.rs:526-566` | Against a gap-free snapshot, validation appends exactly the flashblocks that follow its last one. |
| `Sequence.RetainIsSequential` | `crates/execution/flashblocks/src/processor.rs:434-437` | Keeping the flashblocks above a height leaves a gap-free list that still ends the same, whenever the last one is above it. |
| `Sequence.SequentialShape` | `crates/execution/flashblocks/src/processor.rs:620-640` | A gap-free list is its own regrouping, covers consecutive block numbers, and each block's indices are exactly 0..k. |
| `Sequence.BuildIsGapFree` | `crates/execution/flashblocks/src/processor.rs:620-640` | Building a gap-free list, with or without a previous snapshot, gives a gap-free snapshot of exactly that list: one header per block, the anchor just below, latest index plus one the latest block's count. |
| `Shape.MissingHeaderIsTheAnchor` | `crates/execution/flashblocks/src/processor.rs:628-638` | A build reports a missing canonical header exactly when the node lacks the block below the first flashblock. |
| `Shape.BuildsOnAnchor` | `crates/execution/flashblocks/src/processor.rs:628-649` | Below block 0 there is no anchor; a header that is missing, a lookup that fails and a state that does not open each give their own error; otherwise the build is the one on the header below the first flashblock. |
| `Shape.ReachableIsGapFree` | `crates/execution/flashblocks/src/processor.rs:112-157` | In every reachable state the published snapshot is gap-free, from block 1 or higher; only the numbering hypothesis is needed. |
| `Cache.FlashblockCache.Insert` | `crates/execution/flashblocks/src/cache.rs:54-64` | Cached exactly when within reach; entries too far behind are evicted and the last flashblock under an index wins. |
| `Cache.FlashblockCache.Drain` | `crates/execution/flashblocks/src/cache.rs:67-74` | Returns the block's flashblocks by ascending index and removes that block alone. |
| `Cache.FlashblockCache.UpdateCanonical` | `crates/execution/flashblocks/src/cache.rs:78-81` | Records the height and evicts everything at or below it. |
| `Cache.InsertedExactly` | `crates/execution/flashblocks/src/cache.rs:43-64` | More than six above the height nothing changes; otherwise the inserted flashblock is the one held under its number and index, the other indices of its block stay, and of the other blocks exactly those at or below its number minus five go. |
| `Cache.AdvancedExactly` | `crates/execution/flashblocks/src/cache.rs:78-81` | A canonical block keeps exactly the blocks above it, untouched. |
| `Cache.DrainReturnsLast` | `crates/execution/flashblocks/src/cache.rs:54-74` | After any sequence of insertions at one height a drain returns, under each index, the flashblock last accepted since its block was last evicted, ascending, and nothing else. |
| `Cache.AcceptedIsHeld` | `crates/execution/flashblocks/src/cache.rs:54-64` | An accepted flashblock is held as long as no later accepted one has its number and index or evicts its block. |
| `Cache.SortByIndex` | `crates/execution/flashblocks/src/cache.rs:67-74` | The in-place sort gives the index order of the block's map. |
| `Cache.DrainIsSorted` | `crates/execution/flashblocks/src/cache.rs:67-74` | Draining returns one flashblock per cached index, the one held there, strictly ascending, and nothing else. |
| `Cache.DrainIsContiguous` | `crates/execution/flashblocks/src/cache.rs:67-74` | With cached indices 0..k, the j-th flashblock drained has index j. |
| `Cache.AtMostSixBlocks` | `crates/execution/flashblocks/src/cache.rs:43-64` | Block numbers inside the window mean at most six cached blocks. |
| `CacheRuns.CacheIsKeptExactly` | `crates/execution/flashblocks/src/cache.rs:43-81` | Through every run whose tip is known and never moves back: after every update cached numbers lie in (canonical, canonical+6] and each block's index set is exactly 0..k, if and only if no canonical block moved the height below the reach of a cached block; then at most six blocks are cached. |
| `CacheRuns.RisingIsHarmless` | `crates/execution/flashblocks/src/cache.rs:78-81` | Notified heights that never go down, from where the processor started, never do that. |
| `CacheRuns.StepStrands` | `crates/execution/flashblocks/src/cache.rs:54-81` | A canonical block that lowers the height below a cached block's reach leaves it cached outside the window, whatever it replays. |
| `CacheRuns.ApplyKeepsCache` | `crates/execution/flashblocks/src/processor.rs:313-334` | Only an index-0 flashblock or the successor of a cached one is ever inserted, because an append cannot find the header of a held anchor missing. |
| `CacheRuns.LoweredHeightKeeps` | `crates/execution/flashblocks/src/cache.rs:78-81` | Whatever height a notification sets, the window survives exactly when no cached block lies beyond it. |
| `CacheRuns.LateNotificationLeavesWindow` | `crates/execution/flashblocks/src/cache.rs:78-81` | A run that breaks the window with a tip that never moves: started at 10, flashblock 0 of block 16 cached, then told of block 9. |
| `CacheRuns.DrainedRunsOn` | `crates/execution/flashblocks/src/cache.rs:67-74` | Draining a cache whose blocks have index sets 0..k gives flashblocks 0, 1, 2, ... of that one block, wherever its window is. |
| `CacheRuns.ReplayGrows` | `crates/execution/flashblocks/src/processor.rs:125-139` | Replay onto no snapshot, as long as each build succeeds, is one index-0 build followed only by next-in-sequence appends; every one is broadcast and none goes back to the cache. |
| `CacheRuns.CanonicalReplayGrows` | `crates/execution/flashblocks/src/processor.rs:116-139` | A canonical block that leaves nothing published, because nothing was or because it caught up, ends with what growing the cached flashblocks of the next block gives, each of them broadcast. |
| `CacheRuns.GrowIsOneBuild` | `crates/execution/flashblocks/src/processor.rs:125-139` | Growing a block one flashblock at a time gives the plain build of the whole list. |
| `Processor.StateProcessor.constructor` | `crates/execution/flashblocks/src/processor.rs:85-109` | Starts with nothing published and an empty cache at the node's tip, or at 0 when the tip cannot be read. |
| `Processor.StateProcessor.LoadPendingOrDropStale` | `crates/execution/flashblocks/src/processor.rs:249-269` | Unless it was cleared meanwhile, the snapshot is dropped exactly when the tip is known and above its earliest block plus the depth. |
| `TipSafety.LoadDropsExactly` | `crates/execution/flashblocks/src/processor.rs:200-202` | The same of the specification, with everything but the snapshot and its stream untouched. |
| `Processor.StateProcessor.Consider` | `crates/execution/flashblocks/src/processor.rs:511-597` | Each validation verdict leads to its build, keep, clear or error. |
| `Processor.StateProcessor.Settle` | `crates/execution/flashblocks/src/processor.rs:298-311` | Publishes through the gate, broadcasts unless the snapshot is the one already published, and clears otherwise. |
| `Processor.StateProcessor.Apply` | `crates/execution/flashblocks/src/processor.rs:271-346` | One flashblock: skipped when superseded, published when it builds, cached when it came too early. |
| `Processor.StateProcessor.Rebase` | `crates/execution/flashblocks/src/processor.rs:348-471` | One canonical block: tracked hashes against canonical ones, reconciliation at the effective height, and the rebuild that follows. |
| `Processor.StateProcessor.ReplaceWith` | `crates/execution/flashblocks/src/processor.rs:116-139` | Replaces the snapshot through the gate without broadcasting, advances the cache and replays the next block's flashblocks. |
| `Processor.StateProcessor.Start` | `crates/execution/flashblocks/src/processor.rs:112-157` | Consumes the queue in order; the whole state afterwards is the fold of the steps. |
| `Outcomes.AppendPublishes` | `crates/execution/flashblocks/src/processor.rs:540-554` | The next index of the latest block, or index 0 of the block after it: what the list grown by it builds on the snapshot is published and broadcast, unless the tip is too far ahead; a failed build changes nothing, but for caching when the header is missing. |
| `Outcomes.NewPayloadRestarts` | `crates/execution/flashblocks/src/processor.rs:555-563` | Index 0 of the latest block under another payload: what it builds alone replaces the snapshot and is broadcast, and a new stream begins. |
| `Outcomes.DuplicateKeeps` | `crates/execution/flashblocks/src/processor.rs:564-573` | The latest index again: the same allocation stays published and nothing is broadcast. |
| `Outcomes.StrayClears` | `crates/execution/flashblocks/src/processor.rs:574-595` | Every other block or index clears the snapshot. |
| `Outcomes.FirstStarts` | `crates/execution/flashblocks/src/processor.rs:516-525` | With nothing published index 0 starts a snapshot, and another index is cached exactly when the one before it is. |
| `Outcomes.StaleChangesNothing` | `crates/execution/flashblocks/src/processor.rs:191-195` | A flashblock at or below the last notified block or a known tip changes nothing at all. |
| `Outcomes.CanonicalRebuilds` | `crates/execution/flashblocks/src/processor.rs:380-461` | A canonical block leaves no snapshot exactly when the greater of its number and the tip has reached the latest block; otherwise the same list rebuilt on the snapshot while the hashes and the depth agree, and else exactly the flashblocks above that height rebuilt from nothing. |
| `Outcomes.NothingToRebuild` | `crates/execution/flashblocks/src/processor.rs:353-359` | With nothing published a canonical block publishes nothing. |
| `Outcomes.CanonicalSettles` | `crates/execution/flashblocks/src/processor.rs:116-152` | The whole canonical step: a failed rebuild changes nothing; otherwise the rebuilt snapshot is published without a broadcast, the cache keeps what lies above but for the next block, and that block's flashblocks are replayed in index order. |
| `TipSafety.StepIsSafe` | `crates/execution/flashblocks/src/processor.rs:112-157` | With a known tip, after any update from any state the snapshot is absent or the tip is at most its earliest block plus the depth; after a canonical update, failed rebuilds included, and after any swap, a duplicate's included, its latest block is also strictly above the tip. |
| `TipSafety.RunIsSafe` | `crates/execution/flashblocks/src/processor.rs:112-157` | All of that after the last update of every run, whatever tips, reorgs and notifications came before. |
| `TipSafety.FailedRebuildExtends` | `crates/execution/flashblocks/src/processor.rs:380-447` | When a canonical block's rebuild fails, the snapshot left published still reaches past the tip. |
| `Gate.ReconcilerAgreesWithGate` | `crates/execution/flashblocks/src/validation.rs:255-286` | Every outcome that keeps or rebuilds pending leaves a non-empty list whose snapshot, if it builds, is gap-free and passes both publish checks at that tip. |
| `Gate.ContinueMeansExact` | `crates/execution/flashblocks/src/validation.rs:255-286` | `Continue` exactly when pending tracked the notified block's transactions as they are, and the effective height is below the latest block and within the depth of the earliest. |
| `Runs.FreshIsFaithful` | `crates/execution/flashblocks/src/processor.rs:615-640` | A build from nothing is the plain re-execution of a gap-free list, on an anchor the node reports. |
| `Runs.GrownIsFaithful` | `crates/execution/flashblocks/src/processor.rs:654-661` | Growing a faithful snapshot by further flashblocks, or by none, is faithful again. |
| `Runs.RebuiltIsFaithful` | `crates/execution/flashblocks/src/processor.rs:434-461` | What a canonical block leaves published is faithful, and under `Continue` it is the very same snapshot. |
| `Runs.SentIffReplaced` | `crates/execution/flashblocks/src/processor.rs:298-311` | A flashblock broadcasts something exactly when it publishes another allocation: duplicates, drops and errors broadcast nothing. |
| `Runs.CanonicalSendsReplays` | `crates/execution/flashblocks/src/processor.rs:116-139` | A canonical block broadcasts nothing itself, and each replayed flashblock at most one snapshot. |
| `Runs.ReachableIsFaithful` | `crates/execution/flashblocks/src/processor.rs:112-157` | In every reachable state the snapshot equals the from-nothing build of its own flashblocks on its anchor. |
| `Streaming.ReachableTellsOneStory` | `crates/execution/flashblocks/src/processor.rs:112-157` | In every reachable state the snapshot tells one story; only the numbering hypothesis is needed. |
| `Streaming.ReachableServesItsList` | `crates/execution/flashblocks/src/processor.rs:112-157` | In every reachable state what is served is the snapshot's flashblocks' own last word; only the numbering hypothesis is needed. |
| `Streaming.ReachableIsStreamedOnce` | `crates/execution/flashblocks/src/processor.rs:291-305` | In every reachable state whose stream began with an index-0 build and did not end, the broadcasts since then add up to the published transaction list, with no hash twice; only the numbering hypothesis is needed, so reorged anchors and resent receipts are covered. |
| `Streaming.RebuiltIsTold` | `crates/execution/flashblocks/src/processor.rs:434-461` | What a canonical block leaves published lists what its flashblocks encode; under `Continue` the same transactions as before, even when the anchor has changed. |
| `Execution.RunReadsExactly` | `crates/execution/flashblocks/src/processor.rs:694-890` | All along a run, system writes and transactions included, the bundle reads as the executed world if and only if every account is created over empty storage. |
| `Execution.StepCommits` | `crates/execution/flashblocks/src/processor.rs:846-878` | A transaction that is run commits exactly the changes of its execution, and these are the state kept for its hash. |
| `Execution.BundleReadsExecuted` | `crates/execution/runner/src/pending_provider.rs:57-110` | Reading accounts, slots and code through a built snapshot's bundle over its anchor gives the world its flashblocks execute to. |
| `Execution.ReachableReadsExecuted` | `crates/execution/runner/src/pending_provider.rs:57-110` | The same in every reachable state, however many appends, rebases and replays built the bundle. |
| `Race.InterleavingsAreAtomic` | `crates/execution/flashblocks/src/state.rs:132-177` | In every interleaving, between updates the cell is the outcome of the processor's own load-compute-swap cycles taken as atomic steps, in order, with some of the removals between them, each of a published and stale snapshot. |
| `Race.ReceiverOnlyRemovesJudged` | `crates/execution/flashblocks/src/state.rs:132-160` | A receiver action changes the cell only by removing the very snapshot it judged to be beyond the depth; it never publishes. |
| `Race.RemovalRestsOnLoad` | `crates/execution/flashblocks/src/state.rs:132-160` | Every removal takes a snapshot that was in the cell at an earlier load for the notification it trails too far, so never one allocated after that load. |
| `Race.NotificationRemovesStale` | `crates/execution/flashblocks/src/state.rs:132-160` | Undisturbed, a notification empties the cell exactly when the snapshot in it trails the block by more than the depth. |
| `Race.SwapComparesPointers` | `crates/execution/flashblocks/src/state.rs:146-153` | The compare-and-swap empties the cell exactly when it still holds the judged pointer. |
| `Concurrent.ConcurrentIsSequential` | `crates/execution/flashblocks/src/processor.rs:112-157` | Every interleaving of the processor's accesses with the receiver's is a sequential run over the same updates, nodes and heights with some choice of cleared loads, and the cell then holds that run's snapshot unless a removal has emptied it since. |
| `Concurrent.DriveIsStep` | `crates/execution/flashblocks/src/processor.rs:112-157` | One update is its cycles of load, work and swap: the canonical block and each replayed flashblock, or the one flashblock. |
| `Concurrent.WorkStaysCoupled` | `crates/execution/flashblocks/src/processor.rs:249-269` | At every access the cell holds what the processor last published or nothing, and what it is about to swap in is what the sequential step publishes. |
| `Concurrent.MachineRunsRace` | `crates/execution/flashblocks/src/state.rs:132-177` | The accesses of every such run are a run of the receiver protocol, so its guarantees hold here. |
| `Slots.SubscriptionCounts.Take` | `crates/execution/flashblocks/src/rpc/pubsub.rs:144-154` | Refuses exactly when the connection's live slots of that kind are at the cap; otherwise adds one live slot; the table stays balanced. |
| `Slots.SubscriptionCounts.Drop` | `crates/execution/flashblocks/src/rpc/pubsub.rs:157-167` | Gives one live slot back; the count never underflows and the entry stays exactly while a slot is live. |
| `Slots.TakenStaysBalanced` | `crates/execution/flashblocks/src/rpc/pubsub.rs:144-154` | Counting a slot below the cap keeps counts equal to live slots, within the caps, with one counter per connection. |
| `Slots.DroppedStaysBalanced` | `crates/execution/flashblocks/src/rpc/pubsub.rs:157-167` | Lowering a live slot's count, and removing the entry when empty, keeps the balance; the count was above 0. |
| `Slots.EntryIffLive` | `crates/execution/flashblocks/src/rpc/pubsub.rs:157-167` | A connection has an entry exactly while one of its slots is live. |
| `Backpressure.LeftIsNeverHeldBack` | `crates/execution/flashblocks/src/rpc/pubsub.rs:574-603` | In every interleaving: a previous message that had left at the reading bounds the length read by the messages counted later plus those that overtook it; with none in flight when it was queued, it is never judged still queued. |
| `Backpressure.LeftMeansOvertaken` | `crates/execution/flashblocks/src/rpc/pubsub.rs:598-603` | Once a message has left, every lower-counted message still buffered was in flight when it was queued. |
| `Backpressure.AdmitsExactly` | `crates/execution/flashblocks/src/rpc/pubsub.rs:560-569` | A per-item subscription goes on exactly when at most `max_queued` messages are unwritten. |
| `Backpressure.JudgesExactly` | `crates/execution/flashblocks/src/rpc/pubsub.rs:674-696` | A skipping subscription skips exactly when the length it read exceeds what was counted after its previous message. |
| `Backpressure.ConnectionSteps` | `crates/execution/flashblocks/src/rpc/pubsub.rs:144-167` | The socket writes the front message; a subscription opens exactly below the cap of its kind, and closing one takes nothing else away. |
| `Backpressure.SendsOne` | `crates/execution/flashblocks/src/rpc/pubsub.rs:591-595` | Sending counts one message and then queues it last, under its own count. |
| `Backpressure.SoleSenderHoldsOne` | `crates/execution/flashblocks/src/rpc/pubsub.rs:662-702` | A connection's only subscription, of the skipping kind, never has two messages in the buffer. |
| `Backpressure.PerItemBufferIsBounded` | `crates/execution/flashblocks/src/rpc/pubsub.rs:560-569` | A connection with only per-item subscriptions never buffers more than the room limit plus the per-item cap. |
| `Backpressure.ActKeepsBounded` | `crates/execution/flashblocks/src/rpc/pubsub.rs:611-642` | Each step keeps buffered messages plus admitted senders within that bound. |
| `MultiSend.RoundTrip` | `crates/execution/simulator/src/payment.rs:67-87` | Parsing the packed encoding of any entry list, with any data bytes, gives its recipients and values in order. |
| `MultiSend.ParsesWholePrefix` | `crates/execution/simulator/src/payment.rs:67-87` | Any byte string is the encoding of the entries parsed followed by bytes that start no whole entry. |
| `MultiSend.ParsesLongestPrefix` | `crates/execution/simulator/src/payment.rs:67-87` | However a prefix is read as entries, these are a prefix of what is parsed, and all of it exactly when what follows starts no whole entry. |
| `MultiSend.WholeIsPacked` | `crates/execution/simulator/src/payment.rs:71-86` | What is accepted as a whole entry is the packing of some entry. |
| `MultiSend.PackedEntries.Next` | `crates/execution/simulator/src/payment.rs:71-86` | Yields an entry exactly when a whole one starts at the read position, and then moves right behind it; every read is in bounds. |
| `MultiSend.MultisendPaidAmount` | `crates/execution/simulator/src/payment.rs:51-61` | Zero unless it is a delegatecall to a batch; otherwise the recipient's sum modulo 2^256, which is the true sum exactly when that fits. |
| `Inclusion.InclusionProducer.HandleEvent` | `crates/execution/simulator/src/inclusion/inclusion_producer.rs:61-89` | A pending non-blob transaction is recorded and scored unless its score is taken; leaving the pool removes it from the pending map alone. |
| `Inclusion.InclusionProducer.BuildInclusionList` | `crates/execution/simulator/src/inclusion/inclusion_producer.rs:91-116` | The pop loop publishes the greedy choice in score order, and puts back exactly the entries still pending. |
| `Inclusion.ListIsGreedyAndMaximal` | `crates/execution/simulator/src/inclusion/inclusion_producer.rs:91-116` | Scores strictly descend, the size is at most 8192 bytes, a live entry is listed exactly when it fits after the listed ones that outrank it, and every live entry left out would overflow the final list. |
| `Inclusion.RankedIsRanking` | `crates/execution/simulator/src/inclusion/inclusion_producer.rs:118-145` | The scored set's own order is strictly descending and holds exactly its entries. |
| `Inclusion.ListEncodes` | `crates/execution/simulator/src/inclusion/inclusion_producer.rs:100-112` | The published list holds the chosen entries' own encodings, one by one, and is as long as they are together. |
| `Logs.GetPendingLogs` | `crates/execution/flashblocks/src/pending_blocks.rs:413-427` | The nested loops return exactly the matching logs of the listed transactions, in order. |
| `Logs.LogIndexCounts` | `crates/execution/flashblocks/src/processor.rs:805-829` | In a snapshot that tells one story each log's index counts the logs of its block before it, so no two logs share block and index. |
| `Logs.GetLogs` | `crates/execution/flashblocks/src/rpc/eth.rs:462-523` | Anything but a range up to `pending` with something pending is the node's own answer; a range from `pending` is the pending logs; otherwise the node's answer from the same block up to latest, for the same logs, is merged with them, and its error is returned. |
| `Logs.MergedAnswer` | `crates/execution/flashblocks/src/rpc/eth.rs:486-522` | Given unique historical keys: no key twice, the historical answer first and untouched, then exactly the matching pending logs with a new key, in order. |

## Left out

- EVM execution, signature recovery, RLP and 2718 decoding, hashing, trie roots and the deposit parser are arbitrary deterministic functions.
- A transaction's hash identifies it, so two transactions with one hash are one transaction.
- Node answers are fixed while one update is handled; between updates they change freely.
- Heights, indices, gas and message counts are unbounded: 64-bit overflow at 2^64-1 is not modelled.
- The bundle keeps present values only, not the original values and revert lists that reth keeps for unwinding.
- `state.rs` is a state machine over its atomic accesses, not a class: a heap object cannot be shared by two interleaved tasks here. Its syncing and superseded filters and the inclusion fee it holds are left out.
- The subscription loops are steps of a state machine for the same reason. Timeouts, polling, closed sinks as such and uncounted messages from other subscriptions are not decided by this code.
- CacheRuns.CacheIsKeptExactly: says nothing of runs with failed tip reads, a tip that moves back or a found header that goes missing.
- A connection's message counter starts anew after its last subscription closes; the model's count goes on. Only differences of counts taken while a subscription lives are ever compared.
- Incremental.IncrementalRefinesFull: compares snapshots, not which error is reported when both builds fail.
- Inclusion.ListIsGreedyAndMaximal: hashes may repeat under different scores, and equal scores hide a transaction; scores are places in a total order, not floating-point arithmetic.
- MultiSend.MultisendPaidAmount: the two ABI decoders are parameters.
- Not all flashblocks of a block share a payload id: only index 0 compares it, and nothing here claims more.
- Canonical comparison diagnostics, metrics, logging, the WebSocket subscriber, the other `eth_` overrides, block rendering, the fee endpoint, the validation pipeline and the node wiring would add only easy members.
