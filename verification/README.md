# A verified model of the fastarena allocator

This project models the bump-pointer arena of the fastarena crate together with the layers whose
guarantees rest on it, and proves what those layers promise.

- **Arena and blocks.** An ordered list of blocks, a cursor cached in four fields, a fast path that
  bumps it, a slow path that scans retained blocks first-fit or opens a block by the growth rule,
  and `checkpoint`, `rewind` and `reset`. `ArenaModel` states every step as a function on a `State`
  value; `Arenas.Arena` is the object with the source's own fields and loops, and each of its methods
  is proved to move its ghost `model` by exactly that step. `ArenaInvariants`, `Rewinding`, `Growth`,
  `Accounting`, `Replay`, `Runs` and `Limits` prove properties of all steps, runs and pairs of runs.
- **Destructor log.** `Drops.DropRegistry`, stored in an `InlineVecs.InlineVec` as in the source. Which
  destructors panic is an argument (`bad`), so every statement holds for every choice of panics.
- **Transactions.** `TransactionTree` gives whole trees of nested scopes a semantics; `Transactions`
  has the guard as a class and runs such trees on a real arena, proved to end where the semantics says.
  A tree returns, unwinds, or aborts the process: a destructor that panics while a scope rolls back
  during unwinding is a second panic.
- **ArenaVec.** `VecModel` is the vector as a machine on values; `ArenaVecs.ArenaVec` keeps its elements
  as bytes in the arena's memory. Every method is the machine's step and leaves the bytes of all
  other live regions as they were.

Positions are (block index, offset). The model keeps the live regions in allocation order: granting
appends, rewinding truncates, resetting clears. A checkpoint is valid for the states reached without
going below the state it was taken in (`Rewinding.Since`). The system allocator is the argument `os`
of each request: the base address of the new block, or none; what it may answer is `ArenaModel.OsOk`.

## What the code does where its documentation says otherwise

- `src/arena/stats.rs:12` says reserved bytes are always at least the allocated ones. Entering a block
  counts the entering request twice, and a refused request counts the current block again, so this
  fails: `Accounting.ReservedCanBeLess` reaches 320 reported and 192 reserved bytes with two requests.
  `Accounting.ReportedWithinReserved` says before any request exactly when the claim holds after it.
- `src/arena/allocator.rs:1173` says blocks grow by half. The growth setting does, but rounding to a power
  of two makes opened blocks double (`Growth.NextBlockModest`).
- The scan cache is not always the largest free space: after a rewind in an arena with a block above
  16 MiB it may name a smaller block, and a retry then opens one (`Limits.RetryBeyondLimitOpensBlock`).
  `Limits.RewindCacheExactIff` says when a rewind keeps it exact, and `Limits.OpensNeedlesslyIff` when a
  request opens a block that it does not need.
- A fallible request of an alignment above 64 whose size plus alignment overflows a word panics instead of
  failing (`Limits.FallibleCanPanic`; `ArenaInvariants.AllocMeaning` says exactly which requests panic).
- `src/vec/arena_vec.rs:44-46` says a finished vector's elements are dropped by rewind or reset. `finish`
  registers nothing, so they are not (`ArenaVecs.ArenaVec.Finish`, `VecModel.RunKeepsOutside`).
- `src/vec/arena_vec.rs:770-771` says leftovers of the owning iterator are dropped newest first. The loop runs
  front to back (`ArenaVecs.ArenaVecIntoIter.DropRest`).
- `src/util/transaction.rs:163-166` says the remaining budget ignores `arena_mut`; `bytes_used` includes it
  (`TransactionTree.BytesUsedCoversPayload`). A budget is on payload: `bytes_used` itself may pass the limit
  (`TransactionTree.LimitCanBeExceeded`), exactly when its value before the request plus what the request
  costs does (`TransactionTree.LimitKeptExactly`).
- The in-place test of a growing vector (`src/vec/arena_vec.rs:494-498`, `:689-694`) computes the new end modulo the
  word. `VecModel.TestIsSoundIff` says for which capacities it is right; the vector results are about those.

## Model

| member | source | states |
|---|---|---|
| `Replay.RetryExactly` | src/arena/allocator.rs:760-834 | retry, for any list of requests (alignment up to 64, worst case up to 16 MiB), granted or refused, after a rewind, or after a reset to the start of block 0: the second run gives every outcome again, block and offset included, and opens nothing, if and only if each refused request was turned away at its address, or the system allocator refuses again and no block of the first run's final arena after the cursor then could take it |
| `Replay.OutcomesDecide` | src/arena/allocator.rs:760-834 | the outcomes alone are the same under exactly the same condition: a second run with the same outcomes opens nothing |
| `Replay.RetryAfterRewind` | src/arena/allocator.rs:760-783 | corollary without a condition: a list granted throughout, served again after a rewind, gets the same blocks and offsets and opens nothing, whatever the system allocator would answer |
| `Replay.RetryAfterReset` | src/arena/allocator.rs:803-834 | the same corollary after a reset, when the first run started at the beginning of block 0 |
| `Limits.RefusalIsNotReplayed` | src/arena/allocator.rs:1089-1112 | concrete list outside that condition: a request refused in the first run is granted in the second, although the system allocator refuses both times |
| `Limits.RetryBeyondLimitOpensBlock` | src/arena/allocator.rs:1163-1166 | counterexample beyond 16 MiB: after a rewind the request is sent to a new block although the block that served it is empty |
| `Limits.RewindCacheExactIff` | src/arena/allocator.rs:1161-1170 | an exact cached bound stays exact across a rewind if and only if no block given back is larger than the block it names |
| `Limits.OpensNeedlesslyIff` | src/arena/allocator.rs:1062-1085 | a request is sent to a new block although a retained one could take it if and only if the cursor's block cannot, the block named by the cache is too small, and some later block is not |
| `Limits.FallibleCanPanic` | src/arena/allocator.rs:1174-1191 | a fallible request of alignment 128 that panics in a new arena |
| `Limits.ModestRuns` | src/arena/allocator.rs:1174-1191 | in every state reached with capacity and requests up to 16 MiB: the cache is exact, capacities are nondecreasing, and there are at most 18 blocks plus one per 16 MiB reserved |
| `Growth.TargetIsFirstFit` | src/arena/allocator.rs:1062-1085 | with an exact cache the whole allocation path picks the block a naive first-fit search from the cursor on would pick |
| `Growth.CacheIsExact` | src/arena/allocator.rs:1196-1208 | the cached bound equals the recomputed maximum of the free space after the cursor |
| `Growth.NextBlockModest` | src/arena/allocator.rs:1174-1191 | up to 16 MiB the rule yields powers of two, at most 16 MiB, that cover the setting, and each next promise is at least the double |
| `Growth.NextBlockLeast` | src/arena/allocator.rs:1174-1191 | the opened size is the smallest power of two that covers the setting, size + align - 1 and twice the alignment; the next setting is half as much again, which promises exactly the double |
| `Growth.NextBlockLarge` | src/arena/allocator.rs:1174-1191 | beyond 16 MiB the opened size is exactly the larger of size + align - 1 and twice the alignment, and the next setting is 16 MiB |
| `Growth.FirstBlock` | src/arena/allocator.rs:206-230 | a new arena reserves its capacity, at least 64 bytes, and opens exactly the doubled, rounded capacity for a request that fits there |
| `Growth.AllocatedKeepsGrown` | src/arena/allocator.rs:1123-1147 | every request, granted or refused, keeps the doubling law and the exactness of the cache |
| `Growth.BlockCountBound` | src/arena/allocator.rs:971-978 | block count is at most 18 plus reserved bytes over 2^24 |
| `ArenaInvariants.NextBlockCovers` | src/arena/allocator.rs:1174-1191 | the computed size is at least size + align - 1 and twice the alignment; it is undefined exactly when size + align - 1 overflows |
| `ArenaInvariants.FreshBlockFits` | src/arena/allocator.rs:1123-1134 | a fresh block always takes the request, at its base: the `expect` cannot fail |
| `ArenaInvariants.FitExactly` | src/arena/block.rs:62-73 | a block takes a request if and only if some aligned address from its offset on leaves room, and places it at the least such address |
| `ArenaInvariants.CursorServesExactly` | src/arena/allocator.rs:1026-1037 | the cursor's block serves exactly the requests, of alignment up to 64, that fit there, at the least aligned address |
| `ArenaInvariants.TurnedAwayExactly` | src/arena/allocator.rs:1041-1058 | a fallible request is turned away at once if and only if no aligned address from the cursor on leaves a word for its end |
| `ArenaInvariants.AllocMeaning` | src/arena/allocator.rs:1020-1112 | which requests are granted, where exactly, what the step changes, what a refusal changes (the growth setting always advances once computed), and exactly when a request panics |
| `ArenaInvariants.AllocatedKeepsInv` | src/arena/allocator.rs:1020-1171 | every request, granted or refused, keeps the whole invariant: blocks apart, cursor at the newest region's end, later blocks empty, cache sound, live regions ordered, exact counters, log in order |
| `ArenaInvariants.ScanNeverWasted` | src/arena/allocator.rs:1070-1082 | whenever the cached bound admits a request, of any size, the scan finds a block, the first that fits, and places at its base |
| `ArenaInvariants.BumpIsTryAlloc` | src/arena/allocator.rs:1026-1037 | the cursor fast path fits and places exactly where `Block::try_alloc` would |
| `ArenaInvariants.SetCurrentCache` | src/arena/allocator.rs:1151-1171 | switching blocks yields a sound cache: none after the cursor and 0, or a block after it and its free bytes |
| `ArenaInvariants.LargestInMeaning` | src/arena/allocator.rs:1196-1208 | the search returns the first maximum after the start, and the start itself when there is no free space |
| `ArenaInvariants.GrowKeepsInv` | src/vec/arena_vec.rs:689-698 | moving the cursor to extend the newest region in place keeps the invariant |
| `ArenaInvariants.WithCapacityInv` | src/arena/allocator.rs:206-230 | a new arena satisfies the invariant |
| `Rewinding.RewindRestores` | src/arena/allocator.rs:760-783 | a rewind restores cursor, live set, log and reported bytes of the checkpoint, keeps every block opened since, empty, and never changes which block the cache names |
| `Rewinding.RewindMeaning` | src/arena/allocator.rs:760-783 | every rewind to a valid checkpoint leaves a sound arena with the checkpoint valid again, runs exactly the slots past it, and puts everything back unless a destructor panics |
| `Rewinding.PanickedRewindKeepsInv` | src/arena/allocator.rs:774-775 | a rewind cut short by a panicking destructor runs and cuts the log, reclaims nothing, and keeps the invariant |
| `Rewinding.RewindToNow` | src/arena/allocator.rs:727-783 | rewinding to a checkpoint just taken changes nothing, the scan cache included |
| `Rewinding.RewindTwice` | src/arena/allocator.rs:760-783 | rewinding to a later and then an earlier checkpoint is rewinding to the earlier one |
| `Rewinding.RefusalIsUndone` | src/arena/allocator.rs:1089-1119 | a refused request moves no cursor and no region; a later rewind restores the checkpointed byte count exactly |
| `Rewinding.ResetEmpties` | src/arena/allocator.rs:803-834 | zeroing blocks up to the high-water mark empties every block, and the destructors run are all those pending |
| `Rewinding.ResetMeaning` | src/arena/allocator.rs:803-834 | every reset drains the whole log; it empties every block unless a destructor panics, and then cursor, blocks and counters stay and the live regions owe no destructor |
| `Rewinding.ResetKeepsInv` | src/arena/allocator.rs:803-834 | a reset, panicking or not, keeps the invariant |
| `Runs.ExecuteKeeps` | src/arena/allocator.rs:727-1171 | any run of requests, writes, in-place growth, checkpoints, rewinds and resets keeps the arena sound, held checkpoints usable and the destructor log exact |
| `Runs.LiveRegionsAreSafe` | src/arena/block.rs:62-73 | in every reachable state every live region is inside its block and aligned, and any two share no address and are ordered by block and offset |
| `Runs.RunKeepsBytes` | src/arena/allocator.rs:727-1171 | over any run, a region that stays live keeps its place, and its bytes unless written through its own handle |
| `Runs.RunReadsBack` | src/arena/allocator.rs:727-1171 | over any run, every byte of a region that stays live reads as the last write through the region's own handle left it |
| `Runs.GrantReadsBack` | src/arena/allocator.rs:338-352 | a granted region reads as the payload it was filled with, and a refused request changes no byte |
| `Replay.GrantRegisters` | src/util/drop_registry.rs:50-82 | a granted request adds to the log no slot, one for a single value, or one for all elements of a nonempty slice; a refused one adds none |
| `Replay.RewindCallsRegistered` | src/arena/allocator.rs:774-775 | rewinding right after a grant calls no destructor, one, or that of each of the slice's elements |
| `Runs.RewindRunsDeparted` | src/arena/allocator.rs:774-775 | a rewind runs exactly the destructors of the regions leaving the live set, newest first |
| `Runs.RunAtMostOnce` | src/util/drop_registry.rs:87-97 | every slot ever registered is pending or was run exactly once, never both |
| `Runs.DrainRunsOnce` | src/util/drop_registry.rs:87-97 | a drain runs each slot it removes exactly once |
| `Accounting.ReportedBounds` | src/arena/allocator.rs:971-978 | without refused requests in-use bytes <= reported <= twice the in-use bytes; with them the recounted bytes are added |
| `Accounting.GrantCounts` | src/arena/allocator.rs:1076-1077 | a grant adds its bytes once in the current block and twice when it enters another |
| `Accounting.RequestCounts` | src/arena/allocator.rs:1020-1147 | both counters after any request, granted or refused, from what is known before it: padding and size in the cursor's block, twice the size on entering another, the current block once more on a refusal, and the block opened |
| `Accounting.ReportedWithinReserved` | src/arena/stats.rs:11-12 | after any request reported stays within reserved if and only if the report before it plus the request's cost is within the reserve before it plus the block it opens |
| `Accounting.ReserveLaw` | src/arena/stats.rs:11-12 | in any sound state the claim holds exactly when the double-counted bytes fit in the idle space; it always does while the arena has neither left block 0 nor refused |
| `Accounting.ReservedCanBeLess` | src/arena/stats.rs:11-12 | counterexample to "always at least the allocated bytes" |
| `Accounting.InUseWithinReserved` | src/arena/stats.rs:6-17 | bytes in use never exceed bytes reserved |
| `Accounting.ReservedIsWord` | src/arena/allocator.rs:1129 | the reserved-bytes counter never overflows a machine word |
| `Accounting.PayloadIsInUse` | src/arena/allocator.rs:971-978 | live payload never exceeds the bytes in use |
| `TransactionTree.ExecIsLawful` | src/util/transaction.rs:102-142 | any tree of scopes, whatever destructors panic, leaves a sound arena, keeps earlier checkpoints valid, and restores the depth unless the process aborts, so the depth subtraction never wraps or saturates |
| `TransactionTree.SurvivorsAreRead` | src/util/transaction.rs:439-513 | the live regions after any tree, and its ending, are those of a reading of the tree that knows no arena: the regions its requests were granted on paths where every scope commits, and those of rollbacks cut short |
| `TransactionTree.CommittedScopeKeeps` | src/util/transaction.rs:470-513 | a committed scope whose body returns leaves exactly the body's state at the opening's depth; so does an infallible one, even when its body panics, and the panic goes on |
| `TransactionTree.UncommittedScopeLeavesNoTrace` | src/util/transaction.rs:439-450 | a scope that does not commit, or whose body panics, restores cursor, live set, log, reported bytes and depth of its opening exactly when no destructor logged since then panics; otherwise log and depth are restored, the regions stay without destructors, and the panic leaves the scope |
| `TransactionTree.RollbackIsLawful` | src/util/transaction.rs:439-450 | the same for the rollback of any body that did not abort: earlier checkpoints stay valid and a second panic aborts |
| `TransactionTree.CommitIsLawful` | src/util/transaction.rs:125-129 | a committed scope keeps its body's regions and its opening depth |
| `TransactionTree.DepthIsScopeCount` | src/util/transaction.rs:102-142 | wherever a node of any tree is executed, the depth counter is the starting depth plus the number of scopes open around that node |
| `TransactionTree.BytesUsedCoversPayload` | src/util/transaction.rs:203-206 | `bytes_used` never saturates and covers the payload of everything live since the opening |
| `TransactionTree.GrantWithinLimit` | src/util/transaction.rs:173-178 | after a granted request all payload live since the opening is within the limit |
| `TransactionTree.DeniedExactly` | src/util/transaction.rs:173-178 | a limit denies a request if and only if the bytes reported since the opening plus its size pass it and it is not the greatest word; a denied request changes nothing, and panics or fails |
| `TransactionTree.NoLimitNoCheck` | src/util/transaction.rs:173-178 | without a limit a budgeted request is the unbudgeted one |
| `TransactionTree.UnbudgetedIsServe` | src/util/transaction.rs:268-437 | a request that is not denied is the arena's own request, with its grant, failure or panic |
| `TransactionTree.BudgetGuarantee` | src/util/transaction.rs:268-437 | the same at every budgeted grant anywhere in any tree |
| `TransactionTree.LimitKeptExactly` | src/util/transaction.rs:173-178 | after a grant `bytes_used` is within a limit if and only if `bytes_used` before it plus the true cost is: padding and size in the cursor's block, twice the size on entering another |
| `TransactionTree.OvershootIsBounded` | src/util/transaction.rs:173-178 | hence a granted budgeted request passes its limit by at most max(align - 1, size) |
| `TransactionTree.LimitCanBeExceeded` | src/util/transaction.rs:173-178 | concrete run in which `bytes_used` is 16 under a limit of 9 |
| `TransactionTree.TouchedBlocks` | src/util/transaction.rs:251-256 | the blocks counted as touched are those from the opening's to the current one, and every region live since lies in one of them |
| `VecModel.TailIsNewest` | src/vec/arena_vec.rs:689-692 | the end address of a live region equals the cursor if and only if it is the newest live region |
| `VecModel.GrowToKeeps` | src/vec/arena_vec.rs:679-710 | growth extends in place when the block has room and otherwise moves to a strictly later block; refused growth changes neither elements nor regions; all other regions stay in place |
| `VecModel.GrowthAnswer` | src/vec/arena_vec.rs:679-710 | the exact answer to a growth request: success if and only if the block has room or the arena grants a word-sized byte count, otherwise a panic or the error of the `try_` variants with its reason |
| `VecModel.TestIsSoundIff` | src/vec/arena_vec.rs:689-694 | the wrapping in-place test is right about a capacity if and only if the extra bytes fit behind the cursor, or their count modulo the word neither fits nor reaches past the last address; it always passes when they fit |
| `VecModel.RunRefines` | src/vec/arena_vec.rs:134-306 | any run of operations, with any mix of in-place growth, relocation and refusal, acts as on a plain sequence with a capacity and a log of destroyed elements: the elements, their destructors' order, the capacity after each operation, and no refusal unless more capacity is needed |
| `VecModel.RunConserves` | src/vec/arena_vec.rs:211-218 | over any run every element that entered is in exactly one place: still held, moved out, or dropped once |
| `VecModel.CountIsMultiplicity` | src/vec/arena_vec.rs:211-218 | the occurrence count used for conservation is multiset multiplicity |
| `VecModel.GrowthIsAmortised` | src/vec/arena_vec.rs:655-664 | for pushes and pops from empty, all copies together are fewer than the final capacity, which is at most max(4, twice the peak length) |
| `VecModel.RunKeepsOutside` | src/vec/arena_vec.rs:648-651 | checkpoints older than the vector survive any run of it, and it never registers a destructor |
| `VecModel.ElementAligned` | src/vec/arena_vec.rs:138 | every element of an aligned region is aligned |
| `Arenas.Block.TryAlloc` | src/arena/block.rs:62-73 | bumps the block to the aligned end exactly when the request fits, and returns start and delta |
| `Arenas.Arena.WithCapacity` | src/arena/allocator.rs:206-230 | the first block, the growth setting and the cursor of a new arena |
| `Arenas.Arena.AllocRaw` | src/arena/allocator.rs:1020-1058 | the imperative allocation is the model's step, appends only new blocks, and changes no byte of memory |
| `Arenas.Arena.AllocSlow` | src/arena/allocator.rs:1062-1112 | the slow path: flush, first-fit scan if the cache admits it, else a new block |
| `Arenas.Arena.ScanRetained` | src/arena/allocator.rs:1071-1082 | the loop over retained blocks finds the first that fits and enters it, or changes nothing |
| `Arenas.Arena.FinishSlowPath` | src/arena/allocator.rs:1116-1119 | writes the cursor back to the block and the counter |
| `Arenas.Arena.AllocNewBlock` | src/arena/allocator.rs:1123-1147 | opens, pushes and enters a block, or refuses with the growth setting changed |
| `Arenas.Arena.NextBlockSize` | src/arena/allocator.rs:1174-1191 | the growth rule with its checked and saturating steps |
| `Arenas.Arena.SetCurrentBlock` | src/arena/allocator.rs:1151-1171 | moves cursor, mark and cache as the model says |
| `Arenas.Arena.ComputeLargestRemaining` | src/arena/allocator.rs:1196-1208 | the loop computes the first maximum of the free space after a block |
| `Arenas.Arena.Serve` | src/arena/allocator.rs:270-282 | placement followed by registration of the destructor |
| `Arenas.Arena.AllocBytes` | src/arena/allocator.rs:300-353 | a slice is placed, holds the given bytes, is registered, and no other byte of memory changes |
| `Arenas.Arena.PlaceAndFill` | src/arena/allocator.rs:1004-1013 | placement and filling by themselves: an iterator that stops early leaves the region live, its prefix written, and no destructor registered |
| `Arenas.Arena.AllocStr` | src/arena/allocator.rs:367-391 | the byte-aligned fast path is the general allocation; empty strings change nothing; the bytes are the string's |
| `Arenas.Arena.PlaceStr` | src/arena/allocator.rs:576-606 | fallible and infallible string placement are the model's step with alignment 1 |
| `Arenas.Arena.TakeCheckpoint` | src/arena/allocator.rs:727-736 | records block, offset, reported bytes and log length |
| `Arenas.Arena.GetStats` | src/arena/allocator.rs:971-978 | reported bytes, the sum of block capacities, and the block count |
| `Arenas.Arena.Rewind` | src/arena/allocator.rs:760-783 | rewind is the model's step; it panics exactly on a foreign block index or a panicking destructor |
| `Arenas.Arena.ZeroBlocks` | src/arena/allocator.rs:777-779 | the loop zeroes exactly the offsets of the given blocks |
| `Arenas.Arena.ReclaimSpace` | src/arena/allocator.rs:777-782 | the reclaiming part of rewind |
| `Arenas.Arena.LargestCapacity` | src/arena/allocator.rs:821-829 | the loop of reset finds the first largest block after block 0 |
| `Arenas.Arena.Reset` | src/arena/allocator.rs:803-834 | reset is the model's step; it panics exactly when a destructor does |
| `Arenas.Arena.ExtendNewest` | src/vec/arena_vec.rs:689-698 | the vector's in-place move of the cursor is the model's step |
| `Bits.AlignUp` | src/arena/block.rs:92-94 | the bit trick equals counting up multiples, for every power of two and non-overflowing address |
| `Bits.RoundUpLeast` | src/arena/block.rs:91-94 | the result is the least multiple at or above the address |
| `Bits.RoundUpAligned` | src/arena/block.rs:91-94 | the result is a multiple, and a multiple is its own result |
| `Bits.RoundUpShift` | src/arena/block.rs:63-65 | rounding commutes with subtracting an aligned base |
| `Bits.AlignedIsMod` | src/arena/block.rs:92-94 | being a multiple is having remainder 0 |
| `Bits.NextPow2Least` | src/arena/allocator.rs:1183 | no smaller power of two covers the argument |
| `Drops.DropRegistry.RunDropsUntil` | src/util/drop_registry.rs:87-97 | whatever panics, every slot past the target is invoked once, newest first, the rest is kept, and the panic is re-raised if and only if some destructor panicked |
| `Drops.DropRegistry.DrainRemaining` | src/util/drop_registry.rs:113-118 | runs all remaining slots and ignores panics |
| `Drops.DropRegistry.RunSlot` | src/util/drop_registry.rs:101-110 | runs one slot up to its first panicking element and reports the panic |
| `Drops.DropRegistry.Register` | src/util/drop_registry.rs:50-60 | appends a slot exactly when the type needs dropping |
| `Drops.DropRegistry.RegisterSlice` | src/util/drop_registry.rs:65-82 | appends one slot for a nonempty slice that needs dropping |
| `Drops.DropRegistry.RunAllDrops` | src/util/drop_registry.rs:123-125 | runs and removes every slot |
| `Drops.DrainReachesElement` | src/util/drop_registry.rs:70-75 | an element's destructor is called exactly when its slot has that element (one, or the slice's count) and no earlier element of the slot panics; slots do not affect each other |
| `Drops.DrainPanicsIff` | src/util/drop_registry.rs:87-97 | a drain re-raises a panic exactly when one of the destructors it calls panics |
| `Drops.DrainSplits` | src/util/drop_registry.rs:87-97 | draining to a target is draining to a higher one and then on |
| `Transactions.Transaction.constructor` | src/util/transaction.rs:102-117 | a guard holds the checkpoint of its opening and raises the depth |
| `Transactions.Transaction.Commit` | src/util/transaction.rs:125-129 | only the depth changes |
| `Transactions.Transaction.RollBack` | src/util/transaction.rs:439-450 | lowers the depth and rewinds to the opening; it panics exactly when a destructor logged since then does |
| `Transactions.Transaction.BudgetOk` | src/util/transaction.rs:173-178 | the saturating budget test |
| `Transactions.Transaction.BudgetRemaining` | src/util/transaction.rs:168-170 | the saturating remainder |
| `Transactions.Transaction.BytesUsed` | src/util/transaction.rs:203-206 | difference of reported bytes since the opening |
| `Transactions.Transaction.GetDiff` | src/util/transaction.rs:251-256 | bytes used and blocks touched since the opening |
| `Transactions.RunDo` | src/util/transaction.rs:268-437 | a budget-checked request on a real arena does what the tree semantics says |
| `Transactions.RunScope` | src/util/transaction.rs:470-482 | runs a scope on a real arena: commit on success, rollback on error or panic, abort when the rollback panics too |
| `Transactions.RunInfallible` | src/util/transaction.rs:502-513 | commits in any case and re-raises the panic of the body |
| `Transactions.Run` | src/util/transaction.rs:102-142 | running a tree on a real arena, whatever destructors panic, ends in the state and the way the tree semantics says |
| `ArenaVecs.ArenaVec.TryInPlace` | src/vec/arena_vec.rs:686-698 | the wrapping address test succeeds exactly when the current block has room, and then only the cursor and the capacity change |
| `ArenaVecs.ArenaVec.Relocate` | src/vec/arena_vec.rs:700-709 | allocates, copies to a region in another block, adopts it; every other live region keeps its bytes |
| `ArenaVecs.ArenaVec.GrowTo` | src/vec/arena_vec.rs:484-519 | fallible and infallible growth are the machine's step |
| `ArenaVecs.ArenaVec.Grow` | src/vec/arena_vec.rs:655-676 | capacity 4, then doubling with the overflow check |
| `ArenaVecs.WithCapacity` | src/vec/arena_vec.rs:109-117 | a vector with its capacity allocated at once |
| `ArenaVecs.ArenaVec.Push` | src/vec/arena_vec.rs:134-168 | appends, growing first when full; a refused `try_push` leaves the elements |
| `ArenaVecs.ArenaVec.Pop` | src/vec/arena_vec.rs:186-192 | removes and returns the last element |
| `ArenaVecs.ArenaVec.Extend` | src/vec/arena_vec.rs:240-306 | appends all elements after at most one growth |
| `ArenaVecs.ArenaVec.Reserve` | src/vec/arena_vec.rs:387-482 | the four reserve variants: saturating or checked sum, panic or error |
| `ArenaVecs.ArenaVec.Truncate` | src/vec/arena_vec.rs:578-587 | keeps a prefix and drops the rest front to back |
| `ArenaVecs.ArenaVec.Clear` | src/vec/arena_vec.rs:211-218 | drops every element front to back and keeps the capacity |
| `ArenaVecs.ArenaVec.Resize` | src/vec/arena_vec.rs:612-629 | fills with copies or truncates |
| `ArenaVecs.ArenaVec.Get` | src/vec/arena_vec.rs:713-719 | returns the element, or panics exactly when out of bounds |
| `ArenaVecs.ArenaVec.Put` | src/vec/arena_vec.rs:721-726 | overwrites one element, dropping the old one, or panics exactly when out of bounds |
| `ArenaVecs.ArenaVec.Finish` | src/vec/arena_vec.rs:648-651 | hands out the elements' bytes, inside the newest region, which owes no destructor |
| `ArenaVecs.ArenaVec.DropVec` | src/vec/arena_vec.rs:728-736 | runs every element's destructor front to back |
| `ArenaVecs.ArenaVec.RunEvents` | src/vec/arena_vec.rs:134-306 | a run of operations on a real arena does what the machine says and leaves the bytes of all other live regions alone |
| `ArenaVecs.KeptByWrite` | src/vec/arena_vec.rs:138 | writes inside the newest region change no byte of any other live region |
| `ArenaVecs.FlatInjective` | src/vec/arena_vec.rs:537-539 | the bytes determine the elements |
| `ArenaVecs.CopyBytes` | src/vec/arena_vec.rs:705-706 | a non-overlapping copy |
| `ArenaVecs.ArenaVecIntoIter.Next` | src/vec/arena_vec.rs:779-786 | yields the elements front to back |
| `ArenaVecs.ArenaVecIntoIter.SizeHint` | src/vec/arena_vec.rs:787-790 | the hint is the exact number left |
| `ArenaVecs.ArenaVecIntoIter.DropRest` | src/vec/arena_vec.rs:795-804 | drops exactly the elements not yielded, front to back, and empties the vector |
| `InlineVecs.RunOps` | src/util/inline_vec.rs:64-133 | any run of push, pop, get and set leaves the contents and gives the answers of a plain sequence, across promotion and every heap doubling |
| `InlineVecs.InlineVec.StorageLaw` | src/util/inline_vec.rs:163-198 | inline means at most N elements; heap capacity is N * 2^k with k >= 1 and covers the length; all copies are fewer than the capacity |
| `InlineVecs.InlineVec.Push` | src/util/inline_vec.rs:64-84 | appends; capacity doubles exactly when full |
| `InlineVecs.InlineVec.PromoteAndPush` | src/util/inline_vec.rs:163-176 | moves the N inline elements to a heap buffer of 2N |
| `InlineVecs.InlineVec.HeapGrow` | src/util/inline_vec.rs:180-198 | doubles the buffer and keeps the contents |
| `InlineVecs.InlineVec.Pop` | src/util/inline_vec.rs:89-99 | removes and returns the last element |
| `InlineVecs.InlineVec.Get` | src/util/inline_vec.rs:103-110 | the element at an index |
| `InlineVecs.InlineVec.AsSlice` | src/util/inline_vec.rs:125-133 | the contents |

## Left out

- The system allocator, `Layout` and deallocation: each request carries the allocator's answer, required to be
  an aligned block apart from the arena's own and below the top of the address space.
- Replay.RetryExactly: for requests of alignment up to 64 and worst case up to 16 MiB; beyond that a retry can open
  blocks (`Limits.RetryBeyondLimitOpensBlock`, `Limits.OpensNeedlesslyIff`).
- Runs.ExecuteKeeps: misuse is outside the runs: checkpoints of another arena or already rewound past, resetting or
  rewinding below an open transaction, and manual `register_drop` are not steps of them.
- VecModel.GrowToKeeps: capacities for which the wrapping in-place test passes without room are not requested. They
  are exactly those `VecModel.TestIsSoundIff` excludes, and the source gives the vector a capacity it does not have.
- ArenaVecs.ArenaVec.TryInPlace: the same exclusion; it carries over to `GrowTo`, `Reserve` and `Resize`.
- TransactionTree.OvershootIsBounded: for limits below the largest machine word, where the saturating sum is exact.
- Alignments of 2^63 and above, for which `align * 2` overflows.
- Zero-sized values, empty slices and vectors of a zero-sized type, which return before touching the arena. Empty
  strings, empty extends and zero-size requests in transactions are modelled.
- Nonempty slices of a zero-sized type: they place 0 bytes at an aligned address, which can move the cursor or open a
  block, and register the slice.
- Values are their bytes: types, lifetimes, `ArenaBox`, `Send`, `Sync` and the borrow rules appear only as
  preconditions. A slice is filled from a sequence; an iterator that ends early or panics is the shorter sequence
  of `Arenas.Arena.PlaceAndFill`.
- Destructors of vector elements do not panic, and `Clone` in `resize` yields equal bytes.
- Counters other than the reserved bytes are unbounded: repeated refusals raise `bytes_allocated` each time.
- The arena's block list is a sequence of `Block` objects; `InlineVecs.InlineVec` is proved on its own and used by
  the destructor log. Its heap exhaustion and capacity overflow panics are not modelled.
- `alloc_zeroed`, `alloc_uninit`, the cache-aligned variants, `TxnStatus`, the `arenavec!` macro, `Debug`,
  `Display` and `utilization`: thin wrappers over the operations above.
- In a new block the first `try_alloc` happens before the block is pushed; here it is pushed first, with the same
  resulting fields.
- The fallible and infallible variants of an operation are one member with a `fallible` argument.
