# Verified model of the serving scheduler

This project models how an LLM inference server decides what to compute next and which memory blocks to use for it, and proves what every run of that machinery keeps. The model is one state machine in four layers, each with the imperative code it stands for:

- `RadixTrie`, `RadixCacheModule`, `CacheHistory`, `CacheRecency`: the prefix cache. The class `RadixCache` is a linked tree of `RadixNode` objects with child maps, updated in place. Its specification is a flat map from paths (child keys) to entries, with `Walk` (lookup), `Touched` (access times), `Slot` and `Inserted` (insertion), `EvictChoice`, `Evictable`, `Remaining` and `Freed` (eviction).
- `BlockAccounting`, `BlockSafety`, `BlockRefusal`, `AllocationOutcome`, `AllocationReuse`, `BlockIsolation`, `BlockRuns`, `BlockCoverage`, `BlockManagerModule`, `BlockExamples`, `RefusalExamples`: reference counts, free list, block and prompt tables. The class `BlockManager` is proved against the functions on `Mem`. `Held` counts listings in tables and tree, `Debt` is count minus holders, `Stranded` are blocks neither free nor counted.
- `SchedulerModel`, `SchedulerPlan`, `SchedulerWork`, `SchedulerCommit`, `SchedulerModule`, `WorkerModule`: queues, chunked prefill, batch building and commit. The classes `Scheduler` and `Worker` are proved against `Schedule`, `Batch` and `Commit`.
- `ServingSystem`, `ServingMemory`, `ServingSteps`, `ServingRuns`, `ServingStops`, `ServingOrder`, `ServingIsolation`, `ServingProgress`, `ServingRefusals`, `ServingDrain`, `ServingWakeup`, `ServingLostWakeup`, `ServingPrefill`, `ServingEarly`, `ServingAmong`, `ServingExamples`, `ServingOne`, `ServingRepeat`: whole runs, with requests arriving at any point, also between the worker's two critical sections.

Beside it stand three arithmetic cores: `NibbleCodec`, `Int4` and `Int4Matrix` (four-bit group quantization), `Sampler` (top-k and nucleus sampling over exact reals) and `Pipeline` (splitting layers over ranks).

## Assumptions

- The clock is a strictly increasing counter; a fresh instant is later than every access time handed out before. `find_oldest_leaf` compares strictly and needs this.
- Hash-map iteration order is arbitrary. Class methods pick an arbitrary key; specifications take the evicted paths as an argument (`ps`, `pss`, `Evictions`), and `Permitted…` and `EvictRun` say which choices are possible. Results hold for all of them.
- Request ids are fresh in the serving system (`Enabled`), `blockSize`, `maxTokensPerIter` and `maxPrefillChunkSize` are at least one there. The block manager's own results do not need fresh ids: reusing one adds the overwritten table to what is leaked.
- Sampled tokens, deadlines, arrivals and the random draw are arguments. The exponential is any positive function. The order in which top-k selection leaves its survivors is an argument constrained by `IsTopK`.
- The two sections the worker runs under the scheduler's lock are atomic steps, and so is going to sleep after an empty plan. Queueing a request and notifying the worker are two steps. `System` lets `schedule` be called in every idle state, so what is proved of its runs holds of more runs than the code has; `Loop` adds the sleeping worker, the stored notification and those under way, and its runs are runs of `System` (`LoopIsRun`).

## Where the code does less than it seems to promise

- `insert` descends without comparing tokens. A diverging prompt ends up under another prompt's path (`DivergingInsertMisfiles`); lookup after insert covers the tokens if and only if the insertion agrees with the tree (`InsertThenMatch`).
- `insert` drops what it evicts, and stores nothing when there is no vacant slot, although `free` has counted the cache's references already. `FreeLeaksIff` says exactly when that happens, `ServingTwiceLeaks` is a run, `RunSafety` keeps the exact account.
- The rollback of a failed allocation does not return pinned blocks that were evicted meanwhile. For each possible eviction, blocks are stranded if and only if the evicted node is the one that was hit and some block of it has no other reference (`RollbackStrandsIff`); known before the call, a call can strand blocks exactly when it must evict, the hit is the only leaf the search for a victim can come to, and the node is such a sole holder (`CanStrandIff`). `RollbackStrands` is a run.
- One allocation evicts at most one node, so it can be refused although the cache still holds blocks that could be given back; a comment calls this out of memory even after eviction. `RefusedIff` is the condition for each possible eviction. Known before the call, it can be refused exactly when it must evict and there is no node, or some admissible victim does not release enough (`CanBeRefusedIff`); with the whole cache sufficing, such a refusal is needless (`NeedlessRefusalIff`), and `RefusedNeedlessly` is a run. With nothing running, each refusal costs the cache one node (`RefusalsShrinkCache`); once it is empty, a refusal changes nothing (`RefusalShrinks`).
- The wake-up is lost on a refused request. After an empty `schedule` call the worker sleeps until the next arrival notifies it, although the call has just released blocks and another one could admit the request. An idle, woken worker with nothing running and no stored notification may go to sleep on a waiting request if and only if the front unexpired one must evict and some admissible victim does not release enough (`SleepsWaitingIff`). In the run of `LostWakeup` it sleeps for good on a request that one more call would start. Without arrivals the loop halts within a bounded number of steps (`QuietRunEnds`), with at most two more plans than commits (`QuietBounds`), and then nothing is running, but requests may wait (`HaltedIff`).
- Eviction removes the oldest among leaf siblings, not the globally oldest leaf. It is globally least recently used after any lookups if and only if all leaves of the tree hang off one node (`GloballyOldestIff`); `YoungerLeafEvicted` is a run where the youngest leaf is the only possible victim.
- The worker appends a token after every prefill chunk, so a request can finish before its prompt is processed, and the cache then files the whole prompt (`FinishesBeforePrefill`). A request waiting alone can do so if and only if its cached tokens plus the chunks of its fewest batches, the smaller of its limit and its shortest stop sequence, fall short of the prompt (`FinishesEarlyIff`). The same holds of a request admitted among any others (`FinishesEarlyAmongIff`). Beyond that bound completion is guaranteed in every run (`PrefillGuaranteed`); without stop sequences the bound is exact for every finished request (`PrefillCompleteIff`).
- A request whose whole prompt is cached goes straight to decoding. A first decode feeds token 0 if and only if the whole prompt was cached at admission (`DecodeInputIff`); `SecondServingFeedsZero` is a run. The worker's branch for fully cached prefills is never taken (`BatchExact`).
- Four-bit quantization restores a group within half a step if and only if its range stays within 15.5 steps of zero (`GroupCloseIff`); groups far from zero saturate, as `FarGroupSaturates` shows. Matrices with an odd number of columns can be quantized only with at most one row (`ShapeMatchesIff`).
- `top_k` of zero leaves no candidate: token 0, or an index out of range when `top_p` is below one (`SampleToken`).
- A comment reserves 30 percent of the blocks for the cache; the code takes a third, and so does the model.

## Model

| member | source | states |
|---|---|---|
| RadixTrie.WalkIsLongestMatch | src/scheduler/radix_cache.rs:48-83 | A path is the answer of the node-by-node lookup if and only if it is the longest root-to-node label that is a prefix of the query, as a flat search over all nodes defines it |
| RadixTrie.TouchedKeepsContents | src/scheduler/radix_cache.rs:66-73 | A lookup changes access times only: labels, path blocks and the multiset of cached blocks stay, and the new times are below the advanced clock |
| RadixTrie.RecentPath | src/scheduler/radix_cache.rs:66-73 | After a lookup the nodes along the hit are newer than all others, each newer than the one above it, and the others keep their access times |
| RadixTrie.InsertedAnswers | src/scheduler/radix_cache.rs:86-108 | After an insertion, queries extending the new node's label answer with it and all others as before, diverging insertions included |
| RadixTrie.InsertedSpells | src/scheduler/radix_cache.rs:86-108 | A stored node spells the inserted tokens if and only if the insertion agrees with the tree |
| RadixTrie.InsertThenMatch | src/scheduler/radix_cache.rs:86-108 | Round trip: looking up what was just inserted covers all its tokens if and only if the insertion agrees with the tree |
| RadixTrie.InsertedFacts | src/scheduler/radix_cache.rs:90-108 | An insertion that finds a vacant slot adds one childless node holding the whole block list, keeps every other node's label and blocks, and adds exactly these blocks to the cache |
| RadixTrie.SlotIff | src/scheduler/radix_cache.rs:87-108 | Where an insertion files its node, without the descent: the one absent path whose keys are the prompt's tokens at the places where the labels above it end; nothing is stored if there is none |
| RadixTrie.PathBlocksHeld | src/scheduler/radix_cache.rs:68-69 | The blocks a lookup returns are all held by the cache, with multiplicity |
| RadixTrie.EvictChoiceExists | src/scheduler/radix_cache.rs:133-165 | Eviction finds a leaf whenever there is a node besides the root |
| RadixTrie.RemoveLeafFacts | src/scheduler/radix_cache.rs:148-151 | Removing a leaf takes exactly its blocks out of the cache and leaves every other label and path untouched |
| RadixTrie.EvictedAnswers | src/scheduler/radix_cache.rs:133-165 | After one eviction every query answers as before, or with the old answer minus its last node when that node was removed |
| RadixTrie.HitOutlivesSibling | src/scheduler/radix_cache.rs:66-146 | A leaf that was just hit is not evicted while it has another leaf sibling |
| RadixTrie.DepositOutlivesSibling | src/scheduler/radix_cache.rs:93-146 | A prompt that was just deposited is not evicted while its node has another leaf sibling |
| RadixTrie.EvictionFacts | src/scheduler/radix_cache.rs:115-131 | A whole eviction run conserves blocks: what was cached equals what is left plus the returned list, as multisets, and survivors are unchanged |
| RadixTrie.EvictRunFits | src/scheduler/radix_cache.rs:115-131 | After an eviction run the cache holds at most its capacity |
| RadixTrie.EvictionNeeded | src/scheduler/radix_cache.rs:115-131 | In an overfull cache every removal was needed: before each one the cache was still over capacity, so what is left and the last node's blocks exceed it; if the first leaf's blocks make up for the excess, only that leaf goes |
| RadixTrie.FreedInOrder | src/scheduler/radix_cache.rs:116-124 | The returned list holds each removed node's blocks in one piece, in the order of removal |
| RadixTrie.EvictRunExists | src/scheduler/radix_cache.rs:115-131 | A whole eviction can be carried out on every tree, so the specification never blocks the code |
| CacheHistory.HitIsDeposit | src/scheduler/radix_cache.rs:48-131 | Over every history of agreeing insertions, lookups and evictions, a hit is a whole deposited prompt with the very blocks deposited with it at its node, and no second node spells that prompt |
| CacheHistory.HistorySpelled | src/scheduler/radix_cache.rs:86-131 | On such histories every node spells one deposited prompt and carries its blocks |
| CacheHistory.LabelNamesNode | src/scheduler/radix_cache.rs:48-83 | Looking up a node's label leads back to that node, so labels are unique |
| CacheHistory.DivergingInsertMisfiles | src/scheduler/radix_cache.rs:93-107 | Counterexample family: after `[a, b]`, inserting `[a, c, d]` makes the cache answer `[a, b, d]` and miss `[a, c, d]` |
| CacheRecency.GloballyOldestIff | src/scheduler/radix_cache.rs:48-161 | Whatever is looked up, every leaf the cache can evict afterwards is the oldest of all leaves, if and only if all leaves of the tree hang off one node |
| CacheRecency.WrongVictim | src/scheduler/radix_cache.rs:48-158 | If two leaves hang off different nodes, queries are given after whose lookups a leaf that is not the oldest can be evicted |
| CacheRecency.YoungerLeafEvicted | src/scheduler/radix_cache.rs:138-158 | A run of three agreeing deposits after which the only possible eviction is the youngest leaf |
| RadixCacheModule.CommonPrefix | src/scheduler/radix_cache.rs:59-64 | The number of leading tokens on which two sequences agree, maximal, and equal to the first one's length exactly when it is a prefix |
| RadixCacheModule.RadixCache.constructor | src/scheduler/radix_cache.rs:38-44 | A new cache is an empty root with valid links |
| RadixCacheModule.RadixCache.MatchPrefix | src/scheduler/radix_cache.rs:48-83 | The linked tree answers as the specification walk: its blocks and length are those of the walk's node, and only access times along it change |
| RadixCacheModule.RadixCache.Attach | src/scheduler/radix_cache.rs:93-98 | Hooking a new node in updates the tree at one path and keeps the linked structure consistent |
| RadixCacheModule.RadixCache.Deposit | src/scheduler/radix_cache.rs:86-108 | The descending loop leaves exactly the specified insertion, and the block counter equals the total of all node lists |
| RadixCacheModule.RadixCache.OldestLeafChild | src/scheduler/radix_cache.rs:138-146 | The sibling scan finds the oldest childless child, and none only if there is none |
| RadixCacheModule.RadixCache.FindOldestLeaf | src/scheduler/radix_cache.rs:133-161 | Removes exactly one admissible leaf below the node and returns its path and blocks; returns none exactly for a childless node, changing nothing |
| RadixCacheModule.RadixCache.RemoveOldestLeaf | src/scheduler/radix_cache.rs:163-165 | Removes one admissible leaf and returns its blocks; none only if the tree is its root |
| RadixCacheModule.RadixCache.EvictLru | src/scheduler/radix_cache.rs:115-131 | Terminates; evicts at least one node if there is one, and from an overfull cache none more than needed: what is left together with the last node's blocks exceeds the capacity; returns exactly the removed nodes' blocks and ends within capacity with the counter exact |
| RadixCacheModule.RadixCache.Insert | src/scheduler/radix_cache.rs:86-113 | Insertion, followed by an eviction run if and only if the cache outgrew its capacity, which removes no node more than needed: what is left together with the last node's blocks exceeds the capacity; ends within capacity with the counter exact |
| BlockAccounting.InitialSound | src/scheduler/block_manager.rs:33-49 | A new manager satisfies the invariant, owes nothing and has stranded nothing; all blocks are free in order and uncounted, a third of them is the cache's capacity |
| BlockSafety.ReleaseFacts | src/scheduler/block_manager.rs:74-79 | Releasing evicted blocks lowers each count by its multiplicity and frees exactly those that reach zero, without a duplicate in the free list |
| BlockSafety.PinSound | src/scheduler/block_manager.rs:59-64 | Pinning a hit keeps counts equal to holders plus debt plus the pins in hand |
| BlockSafety.ReclaimSound | src/scheduler/block_manager.rs:72-80 | Evicting and releasing keeps the account exact and strands nothing; pinned blocks are not freed |
| BlockSafety.UnpinSound | src/scheduler/block_manager.rs:83-88 | Giving pins back strands exactly the pinned blocks that nobody else holds |
| BlockSafety.AllocateWithPrefixSound | src/scheduler/block_manager.rs:53-105 | Allocation keeps the invariant and the account for every permitted eviction; new blocks are distinct; a failure leaves the tables alone and strands exactly `LostByRollback`. What is answered is said by AllocationAnswers, when it fails by RefusedIff, when that set is nonempty by RollbackStrandsIff |
| AllocationOutcome.AllocationAnswers | src/scheduler/block_manager.rs:53-104 | Every successful allocation answers with the length of the longest stored label that is a prefix of the prompt, and with the blocks along that label followed by the least number that holds the remaining tokens |
| AllocationOutcome.HitIsLongest | src/scheduler/block_manager.rs:58-67 | The pinned blocks are those along the longest stored label that is a prefix of the prompt, the cached length is that label's, and the blocks needed are the least number for the rest |
| AllocationOutcome.AnswerUnique | src/scheduler/block_manager.rs:58-59 | The longest stored prefix is a single node, so that answer is determined |
| AllocationOutcome.AllocationEvicts | src/scheduler/block_manager.rs:66-104 | If the free blocks hold the uncached tokens, nothing is evicted and the call succeeds with the last free blocks, from the end; otherwise exactly one leaf goes, or none if there is no node |
| AllocationReuse.AllocationRecords | src/scheduler/block_manager.rs:82-104 | A success records its blocks and the prompt for the id and touches no other entry; a refusal changes neither table |
| AllocationReuse.ServedAgain | src/scheduler/block_manager.rs:53-153 | Round trip over two requests: after freeing one whose blocks fit into the cache, an allocation for the same prompt succeeds with every token cached if and only if no child was filed under the token at which the longest stored prefix ended; it is then given the blocks stored along that prefix and, unless the whole prompt was stored before, all blocks of the freed request |
| BlockSafety.NewBlocksUnshared | src/scheduler/block_manager.rs:92-99 | No new block was held by any request, nor is it held by any cache node after the allocation |
| BlockIsolation.AllocationOwnsNew | src/scheduler/block_manager.rs:90-104 | A new request holds the blocks for the uncached rest of its prompt alone |
| BlockIsolation.AllocationOwns | src/scheduler/block_manager.rs:53-105 | Blocks a request holds alone stay so while others are admitted or refused, evictions included |
| BlockIsolation.FreeOwns | src/scheduler/block_manager.rs:129-153 | Blocks a request holds alone stay so while others are freed into the cache |
| BlockSafety.AllocateSound | src/scheduler/block_manager.rs:109-125 | The plain allocator keeps the invariant and strands nothing; only overwriting an id's table adds debt |
| AllocationOutcome.PlainAllocation | src/scheduler/block_manager.rs:109-125 | The plain allocator succeeds if and only if the free blocks hold the tokens, takes the least number of them from the end, counts each once, records them and leaves everything else alone |
| BlockSafety.DepositedFacts | src/scheduler/block_manager.rs:137-143 | A deposit either adds exactly the request's blocks to the cache or changes nothing |
| BlockSafety.FreeSound | src/scheduler/block_manager.rs:129-153 | `free` keeps the invariant, strands nothing, and raises the debt by exactly the references that `insert` does not store or silently evicts |
| AllocationOutcome.FreedTables | src/scheduler/block_manager.rs:129-131 | `free` takes the id out of both tables and touches no other entry; an unknown id changes nothing |
| AllocationOutcome.FreedList | src/scheduler/block_manager.rs:137-151 | A request with a recorded prompt puts nothing on the free list; without one, its blocks go there in order if it was their only holder |
| BlockSafety.UnheldBlock | src/scheduler/block_manager.rs:129-153 | A free block is in no request's table and no cache node |
| BlockSafety.BlocksConserved | src/scheduler/block_manager.rs:21-29 | Free, counted and stranded blocks partition the physical blocks |
| BlockRefusal.FittingEvictsOnce | src/scheduler/radix_cache.rs:115-131 | In a cache within capacity one eviction call removes exactly one node, or none if there is none |
| BlockRefusal.RefusedIff | src/scheduler/block_manager.rs:66-88 | An allocation is refused if and only if the free blocks and those the one evicted leaf releases, counted on the state before the call, are fewer than the uncached rest of the prompt needs |
| BlockRefusal.CanBeRefusedIff | src/scheduler/block_manager.rs:53-88 | Some permitted eviction leads to a refusal if and only if, before the call, the free blocks are short and the cache is empty or some admissible victim does not release enough |
| BlockRefusal.NeedlessRefusalIff | src/scheduler/block_manager.rs:53-88 | A refusal is possible although giving up the whole cache would suffice if and only if the free blocks are short, the whole cache suffices and some admissible victim does not |
| BlockRefusal.WholeCacheReleased | src/scheduler/block_manager.rs:72-80 | Evicting down to the root after pinning would free exactly the blocks counted as the whole cache's |
| BlockRefusal.RollbackStrandsIff | src/scheduler/block_manager.rs:72-88 | For each permitted eviction, an allocation strands blocks if and only if it evicts the node the lookup ended at and some block of that node has no reference besides; such a call is always refused |
| BlockRefusal.CanStrandIff | src/scheduler/block_manager.rs:53-88 | Some permitted eviction strands blocks if and only if, before the call, the free blocks are short, the hit is the only leaf the search for a victim can reach, and it is the sole holder of a block |
| BlockRefusal.HitEvictableIff | src/scheduler/radix_cache.rs:66-158 | A node that was just hit can be evicted if and only if it is the only leaf the search can reach |
| BlockRefusal.RefusalShrinks | src/scheduler/block_manager.rs:72-88 | A refusal removes exactly one node from the cache; with no node left it leaves the whole state as it was |
| BlockRuns.ApplySound | src/scheduler/block_manager.rs:53-153 | Each operation moves debt and stranded blocks by exactly its stated amounts |
| BlockRuns.RunAccounting | src/scheduler/block_manager.rs:53-153 | Over every run from any sound state, the final debt and stranded set are the initial ones plus the sums of the per-operation amounts |
| BlockRuns.RunSafety | src/scheduler/block_manager.rs:53-153 | Over every run from a new manager: count = table listings + tree listings + leaked so far for each block; the free list is duplicate-free and disjoint from all tables and the cache; free + in use + lost = all blocks |
| BlockRuns.NeverFreeAgain | src/scheduler/block_manager.rs:82-88 | A leaked or stranded block is never free again, whatever follows |
| BlockCoverage.HitCovered | src/scheduler/block_manager.rs:59-64 | A hit returns enough distinct blocks for the tokens it covers |
| BlockCoverage.AllocationCovers | src/scheduler/block_manager.rs:66-104 | Every successful allocation returns enough distinct blocks for the whole prompt, hit or miss, although blocks can be listed twice |
| BlockCoverage.FreeCovers | src/scheduler/block_manager.rs:129-143 | `free` keeps the coverage of tree and tables by distinct blocks, on diverging deposits and evictions too |
| BlockCoverage.RunCovers | src/scheduler/block_manager.rs:53-153 | Coverage by distinct blocks holds in every state of every run in which the plain allocator is not called on an id with a recorded prompt |
| BlockExamples.FreeLeaksIff | src/scheduler/block_manager.rs:129-153 | `free` leaks nothing if and only if the id is unknown, has no blocks or no recorded prompt, or there is a vacant slot and the cache stays within capacity |
| BlockExamples.ServingTwiceLeaks | src/scheduler/block_manager.rs:129-143 | A concrete run: one prompt served twice leaves its block with a reference nobody holds |
| BlockExamples.RollbackStrands | src/scheduler/block_manager.rs:82-88 | A concrete run from a new manager: a failed allocation evicts the node it pinned and strands its block |
| RefusalExamples.RefusedNeedlessly | src/scheduler/block_manager.rs:70-88 | A concrete run from a new manager: a six-token prompt is refused with five free blocks, while a cached block held by nobody else remains |
| BlockManagerModule.BlockManager.constructor | src/scheduler/block_manager.rs:33-49 | A new manager has the specified initial value |
| BlockManagerModule.BlockManager.Retain | src/scheduler/block_manager.rs:62-64 | The counting loop adds each block's multiplicity |
| BlockManagerModule.BlockManager.Drop | src/scheduler/block_manager.rs:84-86 | The decrementing loop subtracts each block's multiplicity and never underflows |
| BlockManagerModule.BlockManager.ReleaseEvicted | src/scheduler/block_manager.rs:74-79 | The release loop refines `Release` and never underflows |
| BlockManagerModule.BlockManager.PopFree | src/scheduler/block_manager.rs:92-99 | The popping loop takes blocks from the end of the free list, in order, each with count one |
| BlockManagerModule.BlockManager.Prepare | src/scheduler/block_manager.rs:58-80 | Lookup, pinning and eviction lead to the state in which the specification decides; the blocks and the length are those of the longest match (HitIsLongest) |
| BlockManagerModule.BlockManager.AllocateWithPrefix | src/scheduler/block_manager.rs:53-105 | The method's new state and result are those of the specification, for the evictions the cache chose; a success answers with the length of the longest stored label that is a prefix of the prompt, the blocks along it, and the least number of further blocks for the rest |
| BlockManagerModule.BlockManager.Allocate | src/scheduler/block_manager.rs:109-125 | As specified; refuses without a change when blocks are short |
| BlockManagerModule.BlockManager.Free | src/scheduler/block_manager.rs:129-153 | The method's new state is that of the specification; unknown ids change nothing |
| SchedulerPlan.PlanRunningFacts | src/scheduler/continuous_batching.rs:82-126 | After expiry and the two passes, all requests past prefill are decoded, the prefills are an initial part of the rest, and the total counts exactly this work |
| SchedulerPlan.AdmissionsFacts | src/scheduler/continuous_batching.rs:129-160 | Admissions move requests from the front of the waiting queue to the end of the running one and keep the plan exact |
| SchedulerPlan.ScheduleFacts | src/scheduler/continuous_batching.rs:77-163 | One call: the batch is exact for the running queue; running followed by waiting ids are the unexpired ones of before, in order; the total is at most max(decodes at the start, max_tokens_per_iter - 1 + max_prefill_chunk_size) |
| SchedulerPlan.ScheduleProgress | src/scheduler/continuous_batching.rs:102-163 | The batch is empty if and only if nothing is left running; if requests still wait then, nobody was admitted and the front one needs more blocks than are free or released by the one eviction |
| SchedulerWork.ExpiryExact | src/scheduler/continuous_batching.rs:82-100 | After a call precisely those ids run or wait whose request ran or waited before with no deadline or one later than now |
| SchedulerWork.ScheduleConservesWork | src/scheduler/continuous_batching.rs:128-160 | Whatever else runs: if a request waits after a call, the call has spent the token budget, or the front request needs more blocks than are free or released by the one eviction, in the state the admissions left |
| SchedulerWork.AdmittedStarts | src/scheduler/continuous_batching.rs:133-148 | Each admitted request starts with its cursor and cached length at the length of the longest stored label that is a prefix of its prompt, in the cache as the admissions before left it |
| SchedulerWork.ScheduleFlags | src/scheduler/continuous_batching.rs:102-156 | After a call the prefill flag is down for every running request past prefill and up for those scheduled to prefill |
| SchedulerCommit.BatchExact | src/worker.rs:53-122 | One work item per planned id, in order; each prefill item is the chunk between the cursor and where the scheduler will move it, each decode item the request's last output token or 0; inputs add up to the scheduled total; so the fully-cached branch is never taken |
| SchedulerCommit.BatchIdsDistinct | src/scheduler/continuous_batching.rs:102-162 | Prefill and decode ids are disjoint, duplicate-free and all running |
| SchedulerCommit.PushTokensFacts | src/worker.rs:210-216 | Each batched request gets exactly its token, every other request none |
| SchedulerCommit.AdvanceCursorsFacts | src/worker.rs:233-235 | Exactly the planned prefills move their cursors, by one chunk |
| SchedulerCommit.FinishEachFacts | src/worker.rs:256-259 | Finishing the collected ids one by one removes just those requests, keeps the order of the rest, and frees them in order |
| SchedulerCommit.CommitFacts | src/worker.rs:207-260 | The whole commit: every request is updated as its batch item says, the unfinished ones stay in order, and exactly the finished ones are freed |
| SchedulerModule.Scheduler.AddRequest | src/scheduler/continuous_batching.rs:73-75 | Appends to the waiting queue and changes nothing else |
| SchedulerModule.Scheduler.ExpireRunning | src/scheduler/continuous_batching.rs:83-92 | Frees exactly the expired requests, in order, and keeps the others in order |
| SchedulerModule.Scheduler.ScheduleDecodes | src/scheduler/continuous_batching.rs:103-109 | The decode loop refines the decode pass |
| SchedulerModule.Scheduler.SchedulePrefills | src/scheduler/continuous_batching.rs:113-126 | The prefill loop, with its early exit, refines the prefill pass |
| SchedulerModule.Scheduler.AdmitWaiting | src/scheduler/continuous_batching.rs:129-160 | The admission loop refines a series of admissions that ends exactly when nothing waits, the budget is spent, or blocks are refused; what this owes the waiting requests is said by ScheduleConservesWork |
| SchedulerModule.Scheduler.Schedule | src/scheduler/continuous_batching.rs:77-163 | The whole call leaves the state and returns the ids of the specification, of which ScheduleFacts, ExpiryExact, ScheduleConservesWork and ScheduleFlags hold |
| SchedulerModule.Scheduler.AdvancePrefillCursor | src/scheduler/continuous_batching.rs:165-171 | Moves one request's cursor a chunk on, at most to the prompt's end; unknown ids change nothing |
| SchedulerModule.Scheduler.FinishRequest | src/scheduler/continuous_batching.rs:173-178 | Removes the first request with the id and frees its blocks; unknown ids change nothing |
| WorkerModule.Worker.BuildBatch | src/worker.rs:53-122 | The two batch loops produce exactly the specified work items |
| WorkerModule.Worker.PlanBatch | src/worker.rs:43-125 | The first critical section is `Schedule` followed by `Batch` |
| WorkerModule.Worker.PushResults | src/worker.rs:210-230 | The result loop refines `PushTokens`; results for requests no longer running are skipped |
| WorkerModule.Worker.CollectFinished | src/worker.rs:237-254 | Collects the ids of the finished requests, in order; CommitLetsGo says in terms of output, limit and stop sequences which these are |
| WorkerModule.Worker.CommitBatch | src/worker.rs:207-260 | The second critical section is `Commit`, of which CommitLetsGo and CommitOutputs hold |
| ServingSteps.ArriveKeepsInv | src/scheduler/continuous_batching.rs:73-75 | An arrival keeps the serving invariant, also while a batch is being computed |
| ServingSteps.PlanKeepsInv | src/worker.rs:43-125 | Planning keeps the serving invariant |
| ServingSteps.CommittedRequest | src/worker.rs:207-254 | For every running request a commit keeps the cursor equal to batches times chunk size, the fed tokens equal to the prompt up to the cursor, and the output within its limit |
| ServingSteps.CommitKeepsInv | src/worker.rs:207-260 | Committing keeps the serving invariant |
| ServingStops.CommitLetsGo | src/worker.rs:237-259 | A commit lets go exactly those requests whose output has reached the limit or whose last tokens are one of their stop sequences |
| ServingStops.CommitOutputs | src/worker.rs:210-216 | Every running request comes out of a commit with its output grown by the token sampled for its work item, or unchanged if it had none |
| ServingRuns.BootInv | src/scheduler/continuous_batching.rs:64-71 | A new engine satisfies the serving invariant |
| ServingRuns.RunSafety | src/worker.rs:40-262 | In every reachable state: each arrived request is in exactly one of waiting, running and gone; block and prompt tables are keyed by exactly the running ids and hold enough distinct blocks; the model was fed exactly prompt[cached_prefix_len..prefill_cursor]; output is at most max(1, max_tokens); where outputs stop is said by StopsExactly |
| ServingStops.StopsExactly | src/worker.rs:40-262 | Over all runs of a new engine: a request without a deadline leaves only at its limit or when its last tokens are one of its stop sequences; no output goes on past a stop sequence; running requests with output are below their limit and contain no stop sequence |
| ServingOrder.RunKeepsOrder | src/scheduler/continuous_batching.rs:73-178 | Over every run, running followed by waiting ids stay the arrived ids in order of arrival without those that left |
| ServingOrder.ArrivalOrder | src/scheduler/continuous_batching.rs:73-178 | FIFO over all runs of a new engine: no request overtakes an earlier one |
| ServingIsolation.WriteIsolation | src/scheduler/block_manager.rs:90-104 | In every state of every run of a new engine, the last ceil(uncached prompt / block size) blocks of a running request are in no other running request's table and in no cache node |
| ServingProgress.PlanRoom | src/scheduler/continuous_batching.rs:77-163 | Planning never adds room for output |
| ServingProgress.CommitRoom | src/worker.rs:207-260 | A commit uses one unit of room per batched request, and a batch has at least one |
| ServingProgress.DrainBound | src/worker.rs:40-262 | Over every run the nonempty iterations and the generated tokens are bounded by the initial sum of max(1, max_tokens) minus generated length plus what arrivals bring |
| ServingRefusals.RefusalsShrinkCache | src/worker.rs:43-52 | Over every run with nothing running, each refused `schedule` call shrinks the cache by exactly one node, so after as many refusals as nodes the cache is empty |
| ServingDrain.NodesFit | src/scheduler/radix_cache.rs:96-112 | Every node but the root holds a block, so the cache has at most as many of them as its capacity |
| ServingDrain.PlanPotential | src/scheduler/continuous_batching.rs:77-163 | A plan never adds to the potential, room for output weighted by the cache capacity plus cached nodes, and one that starts no batch drains the engine or uses some up |
| ServingDrain.CommitPotential | src/worker.rs:207-260 | A commit uses up potential, whatever it files in the cache |
| ServingDrain.DrainReached | src/scheduler/continuous_batching.rs:77-178 | If `schedule` is called that often: a run without arrivals that plans more often than its first state's potential comes through a state where nothing runs and either nothing waits or the cache is empty and the front request needs more blocks than are free; the worker itself does not call it again unless notified |
| ServingDrain.DrainPossible | src/scheduler/continuous_batching.rs:77-178 | Calling `schedule` again whenever nothing runs, and committing, gets to such a state from every state that satisfies the invariant; the worker makes these calls only when notified |
| ServingWakeup.StepKeepsInv | src/worker.rs:41-52 | Every step of the loop keeps the serving invariant; while the worker sleeps nothing runs and no notification is stored |
| ServingWakeup.LoopIsRun | src/worker.rs:41-262 | Every run of the loop with its wake-ups is a run of the serving system, so all safety results hold of it |
| ServingWakeup.QuietRunEnds | src/worker.rs:41-262 | Every step without arrivals uses up a measure, so such runs are bounded in length; plans are at most commits plus the calls the loop has credit for |
| ServingWakeup.QuietBounds | src/worker.rs:41-262 | With no notification under way, a run without arrivals has at most the initial room in commits and two more plans than commits |
| ServingWakeup.HaltedIff | src/worker.rs:47-51 | Only an arrival can go on if and only if the worker sleeps and no notification is under way, and then nothing is running |
| ServingWakeup.HaltPossible | src/worker.rs:41-262 | From every state some run without arrivals gets there |
| ServingWakeup.SleepsWaitingIff | src/worker.rs:45-51 | An idle, woken worker with nothing running and no stored notification may go to sleep with a request waiting if and only if the front unexpired one must evict and some admissible victim does not release enough |
| ServingLostWakeup.LostWakeup | src/worker.rs:45-51 | A concrete run of a new engine: the worker sleeps for good on a request which any further `schedule` call would start, and one is possible |
| ServingPrefill.PrefillCompleteIff | src/worker.rs:210-254 | Without stop sequences, a finished request's prompt was processed completely if and only if cached tokens plus limit times chunk size reach its length |
| ServingPrefill.PrefillGuaranteed | src/worker.rs:210-254 | With stop sequences, it was processed if cached tokens plus the smaller of limit and shortest stop sequence times chunk size reach its length |
| ServingEarly.FinishesEarly | src/worker.rs:40-262 | The guarantee is tight: below the bound a run and its sampled tokens are given in which a request waiting alone finishes with part of its prompt unprocessed |
| ServingEarly.FinishesEarlyIff | src/worker.rs:40-262 | A request waiting alone can finish before its prompt is processed if and only if its cached tokens plus the chunks of its fewest batches fall short of the prompt |
| ServingAmong.LeavesAmong | src/worker.rs:40-262 | Below the bound, whatever else runs or waits, a run without arrivals is given in which the request leaves with part of its prompt unprocessed |
| ServingAmong.FinishesEarlyAmongIff | src/worker.rs:40-262 | A request just admitted among any others can finish before its prompt is processed if and only if its cached tokens plus the chunks of its fewest batches fall short of the prompt |
| ServingPrefill.DecodeInputIff | src/worker.rs:103-106 | In every reachable state with a batch under way, each running request past prefill is decoded and fed its own last output token, except that its first decode feeds token 0 if and only if its whole prompt was cached at admission |
| ServingRepeat.SecondServingFeedsZero | src/worker.rs:103-106 | A concrete run: serving `[k]` twice, the second answer is computed from token 0 alone |
| ServingExamples.FinishesBeforePrefill | src/worker.rs:210-259 | A concrete run: a request leaves with half its prompt processed and the cache files the whole prompt |
| NibbleCodec.PackI4 | src/model/quantization/mod.rs:30-40 | The packing loop produces two values per byte, odd lengths included |
| NibbleCodec.UnpackI4 | src/model/quantization/mod.rs:44-54 | Push and truncate yield the first num_values nibbles, low nibbles first |
| NibbleCodec.UnpackPack | src/model/quantization/mod.rs:30-54 | Unpacking a packed sequence gives every value masked to four bits, for every length |
| NibbleCodec.PackUnpack | src/model/quantization/mod.rs:30-54 | Packing a fully unpacked byte string is the identity |
| NibbleCodec.WordIsBytes | src/model/quantization/awq.rs:42-54 | The digits of a word are the nibbles of its four little-endian bytes |
| NibbleCodec.BytesRebuildWord | src/model/quantization/awq.rs:42-54 | The four bytes rebuild the word, the lowest first |
| NibbleCodec.DigitsRebuildWord | src/model/quantization/awq.rs:42-54 | The eight digits are below sixteen and rebuild the word |
| Int4.CloseIff | src/model/quantization/int4.rs:72-76 | One value is restored within half a step if and only if its scaled position is within half a step of the code range |
| Int4.GroupCloseIff | src/model/quantization/int4.rs:54-77 | Every value of a group is restored within half a step if and only if the group's range stays within 15.5 steps of zero |
| Int4.RangeCloseIff | src/model/quantization/int4.rs:54-77 | The same in terms of the group's extremes: for a range above 1e-10 every value comes back within (max - min) / 30 if and only if min and max stay within 15.5 fifteenths of the range from zero; for a smaller range, within one half if and only if they stay within 15.5 |
| Int4.RoundHalves | src/model/quantization/int4.rs:68-76 | Halves are rounded away from zero |
| Int4.SpanningZeroIsNear | src/model/quantization/int4.rs:54-67 | Groups with min <= 0 <= max meet that condition |
| Int4.FarGroupSaturates | src/model/quantization/int4.rs:63-76 | The group of 100 and 101 fails: 100 comes back as 1 |
| Int4Matrix.GroupInRow | src/model/quantization/int4.rs:48-53 | The groups partition a row's columns: nonempty consecutive ranges, the last ending at the row's end |
| Int4Matrix.ShapeMatchesIff | src/model/quantization/int4.rs:81-87 | Building the packed tensor succeeds if and only if the width is even or there is at most one row |
| Int4Matrix.Range | src/model/quantization/int4.rs:54-61 | The folding loop finds the group's minimum and maximum |
| Int4Matrix.QuantizeGroup | src/model/quantization/int4.rs:51-77 | Writes the codes of exactly its group's columns and leaves the rest of the buffer alone |
| Int4Matrix.Quantize | src/model/quantization/int4.rs:33-99 | The nested loops produce the specified codes, scales and zero points, or the shape error |
| Int4Matrix.UnpackWeights | src/model/quantization/int4.rs:113-146 | The nested loops restore every element from its code and its group's scale and zero point, 8 when none are stored; columns beyond the stored groups stay zero |
| Int4Matrix.UnpackGroup | src/model/quantization/int4.rs:133-144 | Restores exactly its group's columns of the row, also when the group is cut off by the row's end |
| Int4Matrix.RestoredElement | src/model/quantization/int4.rs:33-149 | For every matrix that can be quantized, unpacking restores each element as quantization within its own group leaves it: packing and group indexing lose nothing |
| Int4Matrix.MatrixCloseIff | src/model/quantization/int4.rs:33-149 | For every matrix that can be quantized, every element comes back within half its group's scale if and only if every group's range stays near zero |
| Int4Matrix.ElementsCloseIff | src/model/quantization/int4.rs:33-149 | That bound on the whole round trip, for the matrix's own elements in one row and one group of columns and their extremes |
| Int4Matrix.NoZerosMeansEight | src/model/quantization/int4.rs:126-142 | A layer that stores no zero points is restored as if every zero point were 8 |
| Sampler.Softmax | src/worker.rs:313-323 | Weights are positive, add up to one and are proportional to the exponentials |
| Sampler.SortFacts | src/worker.rs:326-327 | Sorting permutes the candidates into descending order |
| Sampler.SortStable | src/worker.rs:326-327 | Candidates of equal weight keep their order, so the sorted list is determined |
| Sampler.NucleusCut | src/worker.rs:329-338 | The cut keeps the shortest prefix whose mass exceeds top_p, or everything |
| Sampler.ArrangedLogits | src/worker.rs:304-311 | Top-k leaves k distinct token ids, each with the logit at its own index, none smaller than that of a token left out |
| Sampler.Walk | src/worker.rs:344-349 | The walk returns the position whose cumulative interval contains the draw, and runs off the end only for draws beyond the total mass |
| Sampler.SelectionUnique | src/worker.rs:344-349 | The cumulative intervals are disjoint |
| Sampler.DrawsOfPosition | src/worker.rs:340-361 | The draws selecting a candidate are exactly its interval of [0, 1), whose width is its share of the kept mass |
| Sampler.SampleNucleus | src/worker.rs:325-350 | Nucleus sampling returns the kept candidate whose interval contains the scaled draw; the fallback after the loop is dead |
| Sampler.SampleWeights | src/worker.rs:325-361 | The same with and without a nucleus; with no candidate left, token 0 or an index out of range |
| Sampler.KeptFacts | src/worker.rs:325-361 | Without a nucleus all candidates are drawn from; with one the heaviest, in descending order, as few as have a mass above top_p, or all |
| Sampler.KeptWeighs | src/worker.rs:313-339 | The kept weights stand in the proportions of the exponentials of the tokens' own logits |
| Sampler.TokenShare | src/worker.rs:313-361 | The share of the draws that select a kept token is the exponential of the logit at its own index over the sum of those of all kept tokens |
| Sampler.SampleToken | src/worker.rs:303-361 | From logits to token: the candidates are the k tokens with the largest logits, or all; their ids are distinct and below the number of logits, and their weights stand in the proportions of the exponentials of the logits at those ids relative to the largest; with top_k not zero a kept candidate is returned, the one whose interval contains the draw |
| Pipeline.Boundaries | src/model/pipeline.rs:9-20 | Ranks cover consecutive ranges from layer 0 to the last layer; a start past the end means an empty range |
| Pipeline.StageSize | src/model/pipeline.rs:9-20 | With k the least layer count for which the ranks suffice, no rank has more than k layers, and every rank with a nonempty successor has exactly k |
| Pipeline.NoSplitIsFlatter | src/model/pipeline.rs:9-20 | Whatever the split of the layers over the ranks, its largest part has at least k layers |
| Pipeline.LayerHasOneRank | src/model/pipeline.rs:9-33 | Every layer is processed by exactly one rank, for every layer count and number of ranks |
| Pipeline.NewStage | src/model/llama.rs:240-288 | The building loop holds exactly the rank's layers; embedding on the first rank, norm and head on the last |
| Pipeline.Forward | src/model/llama.rs:291-315 | The forward loop computes the stage's meaning |
| Pipeline.PipelineMeansModel | src/model/pipeline.rs:9-33 | Running all stages in rank order is embedding, all layers in order, norm and head |
| Pipeline.PipelineTrace | src/model/pipeline.rs:9-33 | A model that records what happens, run through all ranks, records the embedding, every layer exactly once and in order from 0, the norm and the head |

## Left out

- HTTP and streaming handlers, tokenizer, metrics, command line, device detection and model loading: input, output and library calls.
- Tensor mathematics inside a layer, attention kernels, and the paged key-value store: a layer is an uninterpreted function, sampled tokens are arguments.
- `KVCacheManager` registration and the `is_stop` flag of a result: nothing in the scheduler depends on them.
- Speculative decoding, beam search, INT8, FP8 and GPTQ loops, the AWQ tensor loop, grammar masks, penalties and logit bias.
- `num_cpu_blocks`, the CPU free list and `PhysicalBlock`: never used by the operations.
- Requests are values owned by the queue that holds them; sampling parameters, seed, grammar and the token channel are not part of the model's `Request`.
- Machine integers: counters are unbounded, so overflow of `usize` sums is not captured.
- Rounding of f32 and f16: arithmetic is over exact reals, with `round` going half away from zero and the minimum search starting from the largest f32.
- Cancellation, spurious wake-ups and model errors that end the worker's loop.
- Several source functions are split: `schedule` into the methods for its phases, `run_loop` into `PlanBatch` and `CommitBatch`, `insert` into `Deposit`, `FileAt`, `Attach`, `Hook` and `Adopt`, `match_prefix` into `MatchPrefix`, `Enter` and `Stamp`, `allocate_with_prefix` into `Prepare` and the rest, `unpack_weights` into `UnpackWeights` and `UnpackGroup`.
- The sampler's argmax path for temperature zero, the division by the temperature, and the random answers for empty tensors.
- Softmax: the exponential is an arbitrary positive function, so nothing about its monotonicity is used.
- UnpackWeights: zero points are whole numbers, as `quantize` stores them; the saturating cast of other stored values is not modelled.
- MatrixCloseIff: says nothing about the one column by which an unpacked matrix of odd width is wider than the original.
- FinishesEarlyAmongIff: speaks of a request in the batch under way; whether and when a waiting request among others is admitted depends on the blocks the others hold.
- RunCovers: excludes calling the plain allocator on an id with a recorded prompt, because that replaces the id's blocks and keeps the old prompt; the engine never calls it.
- DrainReached: a statement about repeated `schedule` calls, not about the worker, which sleeps after an empty one and without arrivals soon makes no more of them (`QuietBounds`).
- DrainPossible: the run it builds calls `schedule` again after an empty call without a notification, which the worker does not do.
- HitIsDeposit: says whose prompt a hit stands for and which blocks end its list; whether the model had filled those blocks is false in general, as `FinishesBeforePrefill` shows.
