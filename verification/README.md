# Verified models of vLLM components

Dafny models of the parts of this vLLM tree whose correctness is hard to see from the code, and proofs of what those parts are for. `dafny verify dfyconfig.toml` checks everything.

- **Block store** (`BlockStore`, `BlockStoreSafety`, `BlockStoreLeftovers`, `BlockStoreOutcomes`, `BlockStoreCalls`). Stores and loads that share a directory through temp files, `O_EXCL` and `rename`. Each call is a program of system calls; a run is any interleaving of any number of calls, each system call may fail at any time, the kernel may move bytes piecemeal, and a call may die anywhere. A run begins in any state of the directory that keeps the invariant, with files and calls from before. `open`, `rename` and `unlink` follow the System Interfaces volume of POSIX.1-2017. `BlockStoreCalls` is the C++ code as written, statement by statement, against that machine.
- **Sleeping allocator** (`CumemChunks`, `CumemWorld`, `CumemConservation`, `CumemDevice`, `CumemAllocator`). The ROCm branch of the virtual-memory allocator: chunked physical memory in a reserved range, roll-back on failure, and the range held as a placeholder while asleep. Every operation may be called on an allocation in any condition, asleep twice or awake twice included. The driver is a state machine that may refuse any call; other code may use it between any two operations.
- **Selective scan** (`ScanChunks`, `SelectiveScan`, `SelectiveScanRuns`, `SelectiveScanLaunch`, `SelectiveScanInterleaved`, `SelectiveScanBatch`, `SelectiveScanService`, `SelectiveScanCell`, `SelectiveScanUnrolled`). The kernel that scans each row in place, chunk by chunk, leaving block states in cache slots, together with the metadata its scheduler computes. A launch is any order of whole programs, or any interleaving of their steps; a batch goes from the scheduler's metadata to the outputs and cache blocks of every request; a service is any number of batches over one cache, with requests coming, going and starting from blocks that others filled. The per-token arithmetic is a parameter; `SelectiveScanCell` gives the kernel's own, and `SelectiveScanUnrolled` writes its states and outputs out as sums over the tokens.
- **Integer quantiser** (`Int8Quant`), over exact reals.
- **Graph partitions** (`GraphPartition`, `GraphMeaning`, `GraphLiveness`, `GraphFreeing`). The reverse pass that gives each partition its inputs and outputs, and what running the partitions as closed functions means, and exactly when it means the same.
- **Build-time sweep** (`BuildTime`, `BuildTimeSweep`), **module printer** (`IndexRanges`, `ModuleTree`, `ModuleFormat`), **flat log-probabilities** (`Logprobs`, `LogprobsContainer`), **bad-word mask** (`BadWords`), **client queue** (`ClientQueue`). `Sorting` stands for Python's `sorted` and `list.sort`; `Prelude` holds what several models share.

Integers are unbounded; where the 64-bit range matters (chunk sizes) it is a stated condition. Floating-point numbers are reals, except logits, which are reals or minus infinity.

## Where a promise does not hold as stated

Each has a lemma or contract with the exact condition.

- A block whose store returned 0 can disappear: a load of the same path that failed earlier unlinks whatever is there when its clean-up runs (`PublishedBlockCanVanish`). It stays through a continuation of the run exactly when no event of it renames a newer block over it or is such a clean-up (`BlockStaysUnless`, `BlockStaysThrough`). The comment at `csrc/fs_io.cpp:80-82` speaks of a partially read block only.
- The temp file is removed on failure, as the comment at `csrc/fs_io.cpp:36-39` says, if and only if the clean-up `unlink` succeeds and the process does not die after opening it (`LeftoverExactly`; both happen: `StuckLeavesFile`, `DyingLeavesFile`). A file left behind stays for good and makes every later store with that temp name fail (`LeftoverBlocksName`).
- `my_free` passes the caller's size to the driver while `my_malloc` reserved the aligned one, so freeing gives everything back exactly when the size is a multiple of the granularity (`MallocThenFree`).
- `error_code` is never cleared by `create_and_map`: entered with a stale error, it maps nothing, reports failure, and leaves one handle behind exactly when the driver grants its first create (`CreateAndMap`, `Wake`).
- `FlatLogprobs` slices with a negative step can be read back exactly when they pick one position or only empty ones (`NegativeStep`, `ReversedCannotBeRead`).
- The quantiser's final cast keeps every code exactly when the width is at most eight bits (`CastLossless`), and zero survives the asymmetric mode under a condition wider than lying in the row's range (`ZeroReproduced`, `ZeroOutOfRange`).
- Under the scheduler's other guarantees, the caller stays in step with the unpartitioned graph, for every semantics and all inputs, if and only if every partition that mutates a buffer still needed also uses or outputs it under its own name (`InStepExactly`; `MutationMustBeDeclared` is a smallest failure). The graph's outputs alone are right, for every semantics and all inputs, if and only if that holds of the mutations that can still reach an output (`OutputsExactly`).
- `sleep` and `wake_up` go through the allocations without looking at `is_asleep`, so calling either again, after all of it or after it stopped half way, repeats the C call on allocations already handled. A wake of an awake allocation always fails and puts other handles into its cells; the range stays mapped, but a later free loses the old handles (`Wake`, `Free`, `WakeAgainThenFree`). A sleep of one already asleep always fails and releases whatever has the old handle numbers by then (`Sleep`).
- A sleep entered with an error set reports failure although the memory is released and the range stays held (`Sleep`). After a sleep that failed to hold the range again, the Python side counts the allocation as asleep, and `my_free` frees whatever range of that size lies at its address (`Free`).

## Model

| member | source | states |
|---|---|---|
| BlockStore.EventKeepsInv | upstream/csrc/fs_io.cpp:40-108 | every system call of every store and load keeps the invariant that ties names, inodes and program counters together |
| BlockStore.RunKeepsInv | upstream/csrc/fs_io.cpp:40-108 | the invariant holds in every state of every interleaving that begins in a state with it |
| BlockStoreSafety.DestinationIsWholeBlock | upstream/csrc/fs_io.cpp:50-77 | whatever a destination names is the entire buffer of one completed store to it |
| BlockStoreSafety.PartialDataOnlyUnderTemps | upstream/csrc/fs_io.cpp:51-75 | data that is no store's whole buffer is reachable under temp names only |
| BlockStoreSafety.LoadReadsOneWholeBlock | upstream/csrc/fs_io.cpp:83-107 | a load that returned 0 read the bytes of one completed store to its path, whatever was renamed or unlinked meanwhile |
| BlockStoreSafety.LoadReadsNamedBlock | upstream/csrc/fs_io.cpp:83-107 | and that store is the one whose block the path named at the moment the load opened it |
| BlockStoreSafety.NoWriterBehindDestination | upstream/csrc/fs_io.cpp:57-75 | no inode that a destination names or a load has a descriptor of, up to its close, has a store with a descriptor open for writing, up to its close |
| BlockStoreSafety.OnlyCreatorTouchesTemp | upstream/csrc/fs_io.cpp:51-75 | a temp name is linked, renamed or unlinked only by the live call that created the file, and no other live call holds one under it |
| BlockStoreSafety.BlockStaysUnless | upstream/csrc/fs_io.cpp:71-105 | a published block stays through an event if and only if the event neither renames onto it nor is the clean-up of a failed load of it |
| BlockStoreSafety.BlockStaysThrough | upstream/csrc/fs_io.cpp:71-105 | it stays through every event of a continuation, of any length, if and only if none of them is such a rename or clean-up |
| BlockStoreSafety.BlockNeverChanges | upstream/csrc/fs_io.cpp:57-77 | once whole, a block's bytes never change in any continuation of the run |
| BlockStoreSafety.PublishedBlockCanVanish | upstream/csrc/fs_io.cpp:87-105 | for every block, a run in which its store returned 0, nothing replaced it, and it is gone |
| BlockStoreLeftovers.LeftoverExactly | upstream/csrc/fs_io.cpp:50-77 | in every run, a store begun and ended in it left its temp file behind if and only if it died after opening it or its clean-up unlink failed |
| BlockStoreLeftovers.TempFileHasCause | upstream/csrc/fs_io.cpp:50-77 | every file under a temp name is that of a live call, such a leftover, or that of a call from before the run |
| BlockStoreLeftovers.LeftoverBlocksName | upstream/csrc/fs_io.cpp:50-56 | in every continuation, a store given the temp name of a leftover fails at `open` |
| BlockStoreLeftovers.StuckLeavesFile | upstream/csrc/fs_io.cpp:57-75 | for every block, a run in which the store returns an error and its temp file is still there |
| BlockStoreLeftovers.DyingLeavesFile | upstream/csrc/fs_io.cpp:51-57 | and one in which it dies and leaves the file |
| BlockStoreOutcomes.LoadOutcome | upstream/csrc/fs_io.cpp:83-107 | in every run, the answers a load has got so far determine which system calls it has made, in order, and what it returned: the errno of the first step that failed, or EIO for a short read, after one unlink of its source |
| BlockStoreOutcomes.StoreOutcome | upstream/csrc/fs_io.cpp:40-77 | the same of a store: the errno of the first step that failed, or EIO for a short write, after one unlink of its temp file if it had opened one |
| BlockStoreOutcomes.LoadedExactly | upstream/csrc/fs_io.cpp:83-107 | a load that has ended returned 0 if and only if it did not die, every system call it made succeeded, and the kernel moved exactly the buffer's size |
| BlockStoreOutcomes.StoredExactly | upstream/csrc/fs_io.cpp:40-77 | a store that has ended found its block there if and only if `access` said so, and renamed it into place if and only if it did not, nothing failed, and the kernel moved the whole buffer |
| BlockStoreOutcomes.StoreThenLoad | upstream/csrc/fs_io.cpp:40-107 | from any state with the invariant, a store and then a load that meet no obstacle give the block back and leave it in place |
| BlockStoreCalls.Machine.StoreBlock | upstream/csrc/fs_io.cpp:40-78 | the store as coded, with other threads running between its system calls, ends as one of the outcomes of the machine with the errno of the step that failed, and returns 0 if and only if the block was there or no system call failed and the whole buffer was moved |
| BlockStoreCalls.Machine.LoadBlock | upstream/csrc/fs_io.cpp:83-108 | the load as coded: 0 means the buffer holds one completed store's bytes, an error means the call failed with that errno; and it is 0 if and only if no system call failed and the whole buffer was moved |
| BlockStoreCalls.Machine.BatchStoreBlock | upstream/csrc/fs_io.cpp:198-257 | blocks before the failing one are stored, the failing one returned the reported errno, later ones were never started; a length mismatch starts nothing |
| BlockStoreCalls.Machine.BatchLoadBlock | upstream/csrc/fs_io.cpp:267-320 | the same for loads, each block loaded being one completed store's |
| CumemChunks.MemcreateChunkSize | upstream/csrc/cumem_allocator.cpp:22-43 | a setting is honoured, in megabytes, exactly when it is positive and fits in 64 bits; an absent, zero or overflowing one gives the default |
| CumemChunks.AlignUpIsLeastMultiple | upstream/csrc/cumem_allocator.cpp:366-366 | the aligned size is the least multiple of the granularity at least the size, and equal to it exactly for multiples |
| CumemChunks.ChunkSizes | upstream/csrc/cumem_allocator.cpp:391-416 | chunks are positive granularity multiples that add up to the aligned size, all full but the last |
| CumemChunks.ChunksTile | upstream/csrc/cumem_allocator.cpp:185-203 | every byte of the reservation lies in exactly one chunk at its running offset |
| CumemWorld.StepKeepsInv | upstream/csrc/cumem_allocator.cpp:346-809 | malloc, sleep, wake, free, their failures, their repetition on an allocation already asleep or awake, and other code's calls each keep the invariant between table and driver |
| CumemWorld.LiveAllocations | upstream/csrc/cumem_allocator.cpp:704-796 | in every run a live allocation holds its range: awake, even after another wake that failed, every byte is backed by a live handle; asleep, nothing in it is mapped; live ranges never meet |
| CumemConservation.RunConserves | upstream/csrc/cumem_allocator.cpp:346-809 | in every run, whatever else happens in it, a successful operation changes nothing that belongs to no allocation |
| CumemConservation.OwnStepsConserve | upstream/csrc/cumem_allocator.cpp:346-809 | so over a run whose other steps leave it alone, what belongs to no allocation is the same at every moment |
| CumemConservation.TableDeterminesDriver | upstream/csrc/cumem_allocator.cpp:346-809 | the live allocations and the foreign part together determine the driver state |
| CumemConservation.FreeGivesBackMalloc | upstream/csrc/cumem_allocator.cpp:477-594 | whatever a run does, with other code using the driver in between: once the live allocations are what they were, the driver state is what it was if and only if so is the part that belongs to no allocation |
| CumemDevice.Device.ReserveRocmAddress | upstream/csrc/cumem_allocator.cpp:50-71 | success means a free, aligned range, and is reported if and only if the driver granted one with the alignment, or denied that and granted one without it that happens to be aligned; failure leaves the driver as it was unless it refuses to take a misaligned range back |
| CumemDevice.Device.CreateAndMap | upstream/csrc/cumem_allocator.cpp:119-240 | from any state of the range: it completes if and only if it is entered without an error and the driver denies nothing, and then every chunk is mapped through a fresh handle and the range made accessible and cleared, in this order; a failure names the call that was denied; after a clean entry a failed create or map leaves the driver as it was if and only if no clean-up call is refused; after a stale entry the driver is as it was if and only if it granted no handle, and else has exactly one more, in the first cell |
| CumemDevice.Device.UnmapAndRelease | upstream/csrc/cumem_allocator.cpp:242-286 | from any state: success is reported exactly when no error was set, every chunk was mapped, the cells name distinct live handles and nothing was refused; if nothing was refused, exactly the chunks that were mapped and the handles that the cells name are gone, after an error too |
| CumemAllocator.Allocator.Malloc | upstream/csrc/cumem_allocator.cpp:346-474 | it succeeds if and only if no error is set, the range is granted and nothing else denied, and then it is one malloc step of the aligned size at an aligned address, cut into chunks of the configured size, mapped and cleared; failure disturbs no allocation, and leaves the driver as it was if and only if no clean-up was refused and neither setting access nor clearing the memory failed; a stale error fails at once and changes nothing |
| CumemAllocator.Allocator.Free | upstream/csrc/cumem_allocator.cpp:477-594 | of an awake or asleep allocation everything is given back if and only if the size passed is the one reserved and nothing is refused, and with another size the range stays reserved; after a repeated wake the range and the mappings go, and exactly the handles that its cells name; after a failed sleep it says exactly which range is freed |
| CumemAllocator.Allocator.Sleep | upstream/csrc/cumem_allocator.cpp:622-741 | of any listed allocation: reported success means the range is held with nothing mapped, whatever other code reserved in between; of an awake one it succeeds if and only if no error is set, nothing is refused, and the driver offers the same range again; with an error set it fails, but an awake allocation of which nothing is refused is asleep all the same and its range never let go; of one already asleep it always fails, changes no table entry, and releases exactly the live handles that the old numbers name |
| CumemAllocator.Allocator.HoldPlace | upstream/csrc/cumem_allocator.cpp:704-728 | freeing and re-reserving either holds the old range again or reports an error, and disturbs no other allocation; it holds the range if nothing is refused or denied and the driver offers it again |
| CumemAllocator.Allocator.Wake | upstream/csrc/cumem_allocator.cpp:743-809 | of any listed allocation: it succeeds if and only if no error is set and the driver denies nothing, and success maps the range again and clears it; a failure leaves the driver as it was if and only if no clean-up was refused, neither setting access nor clearing the memory failed, and no handle was granted after a stale entry; of one already awake it always fails |
| CumemAllocator.Allocator.WakeAgainThenFree | upstream/csrc/cumem_allocator.cpp:743-809 | an awake allocation woken again and then freed: if chunks were created and nothing was refused, its range and mappings are gone and every one of its handles is left behind |
| CumemAllocator.Allocator.MallocThenFree | upstream/csrc/cumem_allocator.cpp:561-583 | the driver is back to what it was before malloc if and only if the size is a multiple of the granularity |
| CumemAllocator.Allocator.Lifetime | upstream/csrc/cumem_allocator.cpp:346-809 | malloc, sleep, wake and free of one allocation, with other code using the driver around every call, make a run; at its end the driver is what it was if and only if what belongs to no allocation is |
| ScanChunks.ChunkRequest | upstream/vllm/v1/attention/backends/mamba_attn.py:291-325 | the boundaries of one request: a partial first chunk up to the block end, full chunks, a short last one |
| ScanChunks.BoundariesGiveGoodChunks | upstream/vllm/v1/attention/backends/mamba_attn.py:265-325 | such boundaries give exactly the chunk lengths the kernel relies on |
| ScanChunks.ComputeChunkMetadata | upstream/vllm/v1/attention/backends/mamba_attn.py:265-325 | for a whole batch, every request finds its own boundaries between the previous request's last chunk and its own |
| SelectiveScan.RunResumes | upstream/vllm/_xpu_ops.py:712-724 | going on from where a prefix left off is the same as never having stopped |
| SelectiveScan.BlockDone | upstream/vllm/_xpu_ops.py:847-870 | the block the kernel computes from its position is the block just finished |
| SelectiveScan.StartPosition | upstream/vllm/_xpu_ops.py:756-776 | with several chunks the computed starting position is the number of tokens already computed |
| SelectiveScan.ScanChunk | upstream/vllm/_xpu_ops.py:779-842 | the token loop, reading `delta` and `z` where it writes the outputs, leaves the plain recurrence's outputs and state |
| SelectiveScan.ScanBlocks | upstream/vllm/_xpu_ops.py:756-870 | the chunk loop leaves in the slot of every block touched, and in no other, the state at the block's last token |
| SelectiveScan.ScanRow | upstream/vllm/_xpu_ops.py:661-881 | one program: skipped on the null block, else outputs, gated outputs and slots of the plain recurrence started from the loaded state |
| SelectiveScanRuns.BlockIndices | upstream/vllm/v1/attention/backends/mamba_attn.py:375-417 | the three block indices are those of the last computed, first scheduled and last scheduled token |
| SelectiveScanRuns.ScheduledCall | upstream/vllm/_xpu_ops.py:674-724 | one scheduled call resumed from its cached block gives the plain recurrence's outputs for its tokens, and fills its blocks; of the table only the block it loads must not be null and the blocks it writes must differ, earlier entries may be null or stale |
| SelectiveScanRuns.ScheduledScan | upstream/vllm/_xpu_ops.py:661-881 | any split of a sequence into calls, from the start or from a cached prefix, gives the outputs of one plain recurrence, and every block still held has the state at its last token; blocks may be given up on the way and used again |
| SelectiveScanLaunch.Launch | upstream/vllm/_xpu_ops.py:726-754 | all programs of a launch, in any order over shared in-place buffers, leave what each would leave from the inputs before the launch, and nothing else changes |
| SelectiveScanLaunch.LaunchIsDetermined | upstream/vllm/_xpu_ops.py:1071-1133 | that fixes the memory cell by cell, so every order gives the same |
| SelectiveScanInterleaved.AnyInterleaving | upstream/vllm/_xpu_ops.py:661-881 | programs running at the same time, any one taking the next token or store: once all have exited, the memory is the one every order of whole programs gives |
| SelectiveScanInterleaved.StepKeeps | upstream/vllm/_xpu_ops.py:779-870 | every token and every store of every program keeps every program's progress, its own and the others' |
| SelectiveScanInterleaved.EveryRunEnds | upstream/vllm/_xpu_ops.py:661-881 | no run is longer than the grid's work, some program can go on until all have exited, and all have exited exactly when the work is used up |
| SelectiveScanBatch.BatchGridOk | upstream/vllm/_xpu_ops.py:1077-1133 | the grid built from a batch's metadata has programs that keep apart: rows, written blocks, and the blocks they load from; tables may share every other block, and hold null or stale ones |
| SelectiveScanBatch.BatchAdvances | upstream/vllm/_xpu_ops.py:661-881 | after any launch of it, every request has, in every dim, the outputs of the plain recurrence over its whole sequence for its scheduled tokens, and every block it wrote holds the state at the block's last token |
| SelectiveScanBatch.InterleavedBatchAdvances | upstream/vllm/_xpu_ops.py:661-881 | the same of any interleaving |
| SelectiveScanBatch.MakeGrid | upstream/vllm/v1/attention/backends/mamba_attn.py:265-417 | chunk metadata of the batch gives every (request, dim) its program, with a sound plan and a row of its own |
| SelectiveScanBatch.ScanBatch | upstream/vllm/_xpu_ops.py:1031-1196 | metadata, grid and launch together advance every request of the batch, given only the block each goes on from |
| SelectiveScanService.IndexStays | upstream/vllm/v1/core/single_type_kv_cache_manager.py:1346-1352 | through a batch, the index of cached blocks stays right: a block under a prefix holds, in every dim, the state after that prefix, and the blocks a batch fills may join it and those it overwrites leave it |
| SelectiveScanService.ServiceIsPlain | upstream/vllm/_xpu_ops.py:661-881 | in every batch of every service, each request, whether it goes on from its own block or hits a block that another filled, gets the outputs of one plain recurrence over its whole sequence |
| SelectiveScanCell.PaddingStaysZero | upstream/vllm/_xpu_ops.py:699-724 | scanning on padded lanes is scanning on the real ones with zeros behind, and a masked store and load give the state back |
| SelectiveScanCell.PaddingNeverShows | upstream/vllm/_xpu_ops.py:806-832 | padding lanes never change an output |
| SelectiveScanUnrolled.StateIsSum | upstream/vllm/_xpu_ops.py:792-826 | the state after any number of tokens, lane by lane: the start state times the product of exp(delta * A) over all tokens, plus the sum over the tokens of delta * u * B times the product over the later ones |
| SelectiveScanUnrolled.OutputIsSum | upstream/vllm/_xpu_ops.py:796-832 | the output at a token is the sum over the lanes of that state, the token's own step included, times C, plus D * u, on any number of padded lanes |
| SelectiveScanUnrolled.GatedOutputIs | upstream/vllm/_xpu_ops.py:834-836 | the gated output is the output times z / (1 + exp(-z)) |
| Int8Quant.HalfStepError | upstream/vllm/_xpu_ops.py:894-916 | codes are in range and dequantising is off by at most half a step, in both modes, clamp or not |
| Int8Quant.ScaleExactly | upstream/vllm/_xpu_ops.py:899-909 | the scale times the largest code is the row's span, its greatest distance from zero or between two elements, unless that makes the scale less than 0.00001, which it then is |
| Int8Quant.ErrorFromRow | upstream/vllm/_xpu_ops.py:899-916 | so dequantising is off by at most half of span / qmax, or half of 0.00001 if that is more |
| Int8Quant.NearestCode | upstream/vllm/_xpu_ops.py:912-916 | of any number at all, in the row or not, no code stands for a nearer value |
| Int8Quant.ClampActs | upstream/vllm/_xpu_ops.py:912-916 | a row on which the clamp does act |
| Int8Quant.ZeroReproduced | upstream/vllm/_xpu_ops.py:903-916 | zero comes back as zero if and only if the mode is symmetric or the row's minimum is within stated bounds |
| Int8Quant.ZeroInRange | upstream/vllm/_xpu_ops.py:903-916 | in particular whenever zero lies in the row's range |
| Int8Quant.ZeroOutOfRange | upstream/vllm/_xpu_ops.py:903-916 | and for some rows where it does not |
| Int8Quant.CastLossless | upstream/vllm/_xpu_ops.py:899-916 | the cast to eight bits keeps every code of every row if and only if the width is at most eight |
| GraphPartition.Signatures | upstream/vllm/env_override.py:212-336 | the reverse loop computes every partition's signature, which SignatureExactly describes, and fails if and only if some returned name has no node |
| GraphPartition.UnmetCovers | upstream/vllm/env_override.py:332-334 | whatever a later partition or the graph needs is unmet at every earlier point, or returned in between |
| GraphPartition.UnmetIsNeeded | upstream/vllm/env_override.py:332-334 | and nothing else is unmet |
| GraphMeaning.BodyAgrees | upstream/vllm/env_override.py:256-275 | a partition's body, given its inputs only, computes what the whole graph computes there, mutation names included |
| GraphMeaning.HeldAgrees | upstream/vllm/env_override.py:240-334 | after any number of calls the caller holds the whole graph's value for every name still needed |
| GraphMeaning.PartitionsPreserveMeaning | upstream/vllm/env_override.py:212-336 | running the partitions as closed functions gives the graph outputs of the unpartitioned program |
| GraphMeaning.OutputsAreKnown | upstream/vllm/env_override.py:309-313 | under the scheduler's guarantees the pass does not fail |
| GraphMeaning.InStepExactly | upstream/vllm/env_override.py:240-334 | the caller stays in step for every semantics and all inputs if and only if every partition declares its mutations of needed buffers |
| GraphMeaning.MutationMustBeDeclared | upstream/vllm/env_override.py:261-275 | a two-partition graph in which only that fails and an output differs |
| GraphLiveness.DeclaredGivesOutputs | upstream/vllm/env_override.py:240-334 | the graph's outputs come out right already if every partition declares its mutations of buffers that can still reach an output |
| GraphLiveness.OutputsExactly | upstream/vllm/env_override.py:240-334 | and that is the exact condition: they come out right for every semantics and all inputs if and only if it holds |
| GraphFreeing.SignatureExactly | upstream/vllm/env_override.py:240-327 | exactly which names a signature takes, takes as constants, deallocates and returns, in terms of what the partition's nodes produce, use and free, and of what is unmet after it |
| GraphFreeing.LostExactly | upstream/vllm/env_override.py:269-291 | in any run of the partitions, a buffer the caller holds is gone after a call if and only if the partition frees it and it is the caller's |
| GraphFreeing.FreedStaysGone | upstream/vllm/env_override.py:269-291 | such a buffer is not held after that call, nor after any later one, until some partition produces that name again |
| BuildTime.SharesAddUp | upstream/tools/report_build_time_ninja.py:238-253 | the shares of all targets add up to the time during which at least one runs |
| BuildTime.BusyIsLengthWithoutGap | upstream/tools/report_build_time_ninja.py:220-259 | that time is at most the time from first to last stamp, and equal if and only if there is no idle gap |
| BuildTime.ShareWithinDuration | upstream/tools/report_build_time_ninja.py:74-89 | a share lies between zero and the duration |
| BuildTimeSweep.RunningCovers | upstream/tools/report_build_time_ninja.py:224-255 | through a stretch of positive length the targets started and not stopped are those whose interval covers it |
| BuildTimeSweep.Sweep | upstream/tools/report_build_time_ninja.py:230-255 | the event loop fails if and only if some target ends before it starts; else each weighted duration is the independent sum over segments, the total is the busy time |
| BuildTimeSweep.SweepEnds | upstream/tools/report_build_time_ninja.py:256-256 | the running set ends empty, every weighted duration is its target's share, and the total is the busy time |
| BuildTimeSweep.Summarize | upstream/tools/report_build_time_ninja.py:198-256 | from entries to totals: errors exactly for no entries or an end before its start, else every share and the busy time; when no start is negative, the total is at most the length, and equal if and only if there is no gap |
| IndexRanges.FormatRanges | upstream/vllm/model_inspection.py:44-58 | the ranges expand to exactly the sorted indices, begin and end at given indices, and for distinct indices no two touch |
| IndexRanges.FewestRanges | upstream/vllm/model_inspection.py:44-58 | no shorter list of ranges denotes the same indices |
| ModuleTree.SignatureDetermines | upstream/vllm/model_inspection.py:36-41 | equal signatures only come from equal trees |
| ModuleFormat.GroupBySignature | upstream/vllm/model_inspection.py:98-105 | the groups hold every numbered child once, members alike and in the order of the children, groups unlike |
| ModuleFormat.Format | upstream/vllm/model_inspection.py:61-131 | unfolding the collapsed print gives the module back, every child under its own name; every number is printed exactly once; there is one printed group per signature, in order of first index, with its size and ranges that do not touch; members of a group and the named children are in the order of the children |
| Logprobs.CutDenotes | upstream/vllm/logprobs.py:121-133 | a slice in rising order stands for the picked positions |
| Logprobs.PicksExactly | upstream/vllm/logprobs.py:122-123 | the k-th position a slice picks is k steps from its first, as long as that is a position before its stop, for steps of either sign, missing ends and ends counted from the back |
| Logprobs.DictExactly | upstream/vllm/logprobs.py:113-120 | the dictionary of some rows has exactly their tokens, each with the value of its last row |
| Logprobs.RunAgrees | upstream/vllm/logprobs.py:63-133 | through every run of appends, fast appends, extends and positive slices the columns stand for the plain list |
| Logprobs.RunExists | upstream/vllm/logprobs.py:63-133 | and every run of the list has such a run of the columns |
| Logprobs.NegativeStep | upstream/vllm/logprobs.py:121-133 | a negative-step slice reads back right if and only if it picks one position or only empty ones |
| Logprobs.ReversedCannotBeRead | upstream/vllm/logprobs.py:121-133 | reversing two one-item positions gives columns that cannot be read |
| LogprobsContainer.FlatLogprobs.Append | upstream/vllm/logprobs.py:63-72 | the list it stands for grows by the dictionary, None counting as the empty one |
| LogprobsContainer.FlatLogprobs.AppendFast | upstream/vllm/logprobs.py:74-93 | it grows by the dictionary of the zipped columns, last of equal keys winning |
| LogprobsContainer.FlatLogprobs.Extend | upstream/vllm/logprobs.py:95-98 | it grows by every dictionary in turn |
| LogprobsContainer.FlatLogprobs.GetItem | upstream/vllm/logprobs.py:110-120 | the dictionary at the position, negative ones from the end, IndexError outside |
| LogprobsContainer.FlatLogprobs.GetSlice | upstream/vllm/logprobs.py:121-133 | a new container that stands for the list's slice; IndexError exactly for an empty selection |
| LogprobsContainer.AppendBoth | upstream/vllm/logprobs.py:175-206 | both branches of the append helper append the dictionary of the zipped columns, and keep container and list in agreement |
| LogprobsContainer.RowsExactly | upstream/vllm/logprobs.py:185-204 | the rows of the zipped columns: one per token that has a log-probability, a text and a rank, the first with the given rank, the others with their place |
| BadWords.NoBadWords.Call | upstream/vllm/logits_process.py:56-87 | a logit becomes minus infinity exactly if its token would complete a bad word, and is unchanged otherwise; ValueError and IndexError exactly when |
| BadWords.NoBadWords.InitWordBias | upstream/vllm/logits_process.py:89-104 | the lazily set bias masks exactly the one-token words, or fails exactly on a token outside the vocabulary |
| BadWords.NoBadWords.CheckBounds | upstream/vllm/logits_process.py:106-121 | accepted exactly when all tokens are in the vocabulary |
| BadWords.UnmaskedIsClean | upstream/vllm/logits_process.py:65-83 | a run picks only unmasked tokens if and only if no bad word occurs in it |
| BadWords.Generate | upstream/vllm/logits_process.py:56-87 | generation through the processor never contains a bad word, picks only tokens its row allows, and stops early only when every token is excluded by its row or would complete a bad word |
| ClientQueue.FillQueue | upstream/benchmarks/benchmark_hidden_state_extraction.py:238-244 | the queue holds the prompts in order, then one sentinel per client, and as many entries count as unfinished |
| ClientQueue.MoveKeepsInv | upstream/benchmarks/benchmark_hidden_state_extraction.py:142-176 | every step of every client keeps the invariant and leaves one step fewer to come |
| ClientQueue.EveryMoment | upstream/benchmarks/benchmark_hidden_state_extraction.py:142-176 | in every interleaving: sentinels left equal clients not exited, no such client is stuck, no prompt is taken or recorded twice |
| ClientQueue.RunEnds | upstream/benchmarks/benchmark_hidden_state_extraction.py:238-256 | every run is finite; one that can go no further has all clients exited, the queue drained and one result per prompt |

## Left out

- `O_DIRECT`, what `ensure_parent_dirs` does beyond succeeding or failing, `fsync` and power loss, `batch_lookup`.
- The CUDA branch of the allocator, Python callbacks and the GIL; a create that is refused is taken not to write its cell; 64-bit overflow outside the stated conditions.
- Floating-point rounding and dtype casts throughout; `exp` and `log` are parameters of the scan; the zero point's int32 range.
- SelectiveScanInterleaved.AnyInterleaving: the loads and stores of one token are one step.
- SelectiveScanBatch.ScanBatch: decode requests in the same batch are not modelled; that a block being written is no other request's written block, nor the block another goes on from, is taken from the block manager, which hands out free blocks and keeps the block of the last computed token.
- SelectiveScanService.ServiceIsPlain: hash collisions are not modelled; a prefix stands for its hash.
- CumemAllocator.Allocator.Free: freeing an address whose `my_malloc` failed is not modelled; no caller is given it.
- SelectiveScan.ScanRow: strides and address arithmetic are not modelled; a row is a stretch of unit stride.
- GraphMeaning.PartitionsPreserveMeaning: the order of inputs within a signature, symbol inputs and cudagraph handling are not modelled; graph outputs and freed names are taken to be names of buffers, as the scheduler makes them.
- `memory_plan_reuse_patched` and the other patches in `env_override.py`.
- `ReadTargets`, grouping by extension and printing in `report_build_time_ninja.py`.
- ModuleFormat.Format: indentation and punctuation are not modelled, numeric names are their numbers, and a module shared between two parents counts as two.
- LogprobsContainer.FlatLogprobs.Extend: extending a container by itself is not modelled.
- BadWords.NoBadWords.Call: a later call with another vocabulary size is not modelled.
- ClientQueue.RunEnds: requests that raise are not modelled.
