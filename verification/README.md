# Verified cores of an inference server

Ten self-contained cores of a large-language-model inference server, modelled in Dafny and proved correct
over all inputs, all runs or all interleavings:

- **The selective-scan kernel** (`Arithmetic`, `ScanRecurrence`, `ScanChunks`, `SelectiveScan`, `ChunkPlan`,
  `ScanCheckpoints`, `ScanServing`, `ScanGrid`, `ScanLaunch`, `ScanAlone`, `ScanResume`, `ScanUnrolled`, `ChunkEnds`). A
  state-space recurrence is scanned in chunks, checkpointed into cache blocks and resumed from them, with
  outputs written over inputs. The model has the recurrence as a plain definition, the kernel as loops over
  arrays that may alias, the planner that cuts requests into chunks, and the grid of programs as a machine whose
  programs read and write shared cells one at a time, in any order. Resuming at any block boundary is exact,
  also for a request served by any number of launches, each interleaved in any order (`RequestAsOne`); planner
  and kernel agree on every position and column when the planner cuts at the kernel's block size; all
  interleavings have one outcome. Numbers are exact reals, the exponential is any positive function.
- **The sleeping memory allocator** (`MemoryChunks`, `DeviceMemory`, `DeviceDriver`, `SleepFleet`,
  `SleepAccount`, `SleepRuns`, `SleepAllocator`; the ROCm path). The driver is an object whose every call may
  fail, where a failed call changes nothing and a call against the rules always fails and is counted. `bad`
  counts calls against the rules, `slips` counts failures after which something stays behind, `refused` calls
  within the rules that fail.
- **Block files** (`BlockFiles`, `BlockProtocol`, `BlockTemps`, `BlockJobs`, `BlockStore`). Stores and loads of
  any number of processes as a machine of single system calls with arbitrary outcomes and deaths at any point;
  the batch operations as methods that other processes interfere with. It rests on exclusive `open` and atomic
  `rename` as POSIX.1-2017 defines them.
- **The build-time report** (`NinjaSweep`, `NinjaLoad`, `BuildReport`). A sweep over start and stop events
  against a reference definition of each task's share.
- **Flat log-probabilities** (`LogprobRows`, `FlatLogprobs`). Six parallel lists against a list of
  dictionaries.
- **The monitor-and-wait loop** (`SpinLoop`), **the sentinel work queue** (`WorkQueue`), **the paged gather**
  (`PagedGather`), **the bounded fetch with retries** (`MediaFetch`), **per-token quantisation**
  (`TokenQuant`).

Where the code falls short of what it promises, the exact condition is proved:

- A store reports success for any file it finds, so its promise holds if and only if no file is too short
  to begin with (`SticksIffNoneShort`).
- A slice with a negative step agrees with the list only for at most one position, or for positions without
  entries (`BackwardSliceIff`).
- Quantised rows all come back exactly in the symmetric mode with widths up to 8, the result being stored in 8
  bits (`RoundTripIff`). A single row comes back exactly when it is in reach of its zero point, which is stored
  in 32 bits (`StoredRowIff`); [30000.0] is not (`TooFar`).
- The report fails, by a missing key, if and only if some step ends before it starts, and by a division by zero
  if and only if no step ends after a start that counts; for non-negative times, if and only if all steps start
  and end at one instant. A negative start makes the search for the earliest one begin anew, so the reported
  length is the span of the log if and only if no time is negative or the last entry makes up for it
  (`SummarizeEntries`, `LengthIff`, `StartForgotten`).
- The chunk arithmetic of an allocation holds if and only if none of its 64-bit sums wraps (`AlignUpIff`,
  `CountIff`, `SplitChunks`); for a large configured chunk size the number of chunks can become zero.
- A mapping attempt is all-or-nothing if and only if the clean-up calls, whose results are ignored, succeed;
  an access failure leaves everything mapped (`CreateAndMap`). An allocation that fails leaves an entry
  registered that is no longer reserved (`Malloc`). Freeing gives the range back only if the caller's size
  is the aligned one (`Free`). Waking an allocation whose sleep lost its reservation can map it into another
  sleeping allocation's range (`StrayMapping`, `Wake`).
- Without clients the queue is never drained (`CompleteIff`); output rows are where the totals say only if
  the totals never fall (`RowsAreTotals`).

`dafny verify dfyconfig.toml` checks everything.

## Model

| member | source | states |
|---|---|---|
| ScanRecurrence.StateAfterConcat | vllm/_xpu_ops.py:805-922 | scanning `a` and then `b` from the state reached is scanning `a + b` |
| ScanRecurrence.ResumedOutput | vllm/_xpu_ops.py:808-927 | a position of the resumed part gets the output it has in an uninterrupted scan |
| ScanRecurrence.ResumedOutputs | vllm/_xpu_ops.py:808-927 | all outputs of a resumed scan are the tail of the uninterrupted one's |
| ScanRecurrence.DotOfPadded | vllm/_xpu_ops.py:907-925 | the inner product over padded lanes is the inner product |
| ScanRecurrence.PaddingInvisible | vllm/_xpu_ops.py:797-803 | a step on lanes padded with zeros is the padded step, and its readout is the plain readout, for every number of lanes |
| ScanRecurrence.ScanNext | vllm/_xpu_ops.py:886-927 | state and output at a position follow by one step from the state before it |
| ScanUnrolled.StateUnrolled | vllm/_xpu_ops.py:886-922 | every state in closed form: what is left of the initial state after the decay exp(d * A) of every step, plus what is left of d * u * B of every token after the decay of the steps behind it; d is the raw step size with the bias, and with softplus log(exp(x) + 1) up to 20 and x above |
| ScanUnrolled.OutputUnrolled | vllm/_xpu_ops.py:886-927 | every output in closed form: the sum over the lanes of C times the state written out, plus D times u |
| ScanUnrolled.StepSizesExist | vllm/_xpu_ops.py:894-900 | every row has step sizes as that form describes them |
| ScanUnrolled.GateUnrolled | vllm/_xpu_ops.py:931-934 | the gated output times 1 + exp(-z) is the output times z |
| ScanUnrolled.ScansItsRow | vllm/_xpu_ops.py:822-845 | program (b, d) reads u and the step sizes of its own sequence and channel, in packed and in padded batches |
| ScanUnrolled.ScansItsGains | vllm/_xpu_ops.py:759-845 | and B and C of its own sequence and its channel's group, lane by lane |
| ScanUnrolled.ScansItsChannel | vllm/_xpu_ops.py:784-803 | and the rates, D and bias of its own channel |
| ScanUnrolled.SkipsNull | vllm/_xpu_ops.py:770-782 | a program returns at once if and only if the slot its metadata name is the null block |
| ScanUnrolled.StartsFrom | vllm/_xpu_ops.py:805-820 | it starts from the state in that slot if its sequence is flagged to have one, else from zeros |
| ScanChunks.TokenStep | vllm/_xpu_ops.py:888-927 | one loop body on padded lanes computes the recurrence's next state and readout for that token |
| ScanChunks.PositionStep | vllm/_xpu_ops.py:886-927 | position `p` takes the padded state before `p` to the one after it and yields output `p` of the plain scan |
| ScanChunks.Emit | vllm/_xpu_ops.py:929-938 | storing position `p` (also when the outputs overwrite `delta` and `z`) leaves outputs below `p + 1`, untouched inputs above |
| ScanChunks.ScanPosition | vllm/_xpu_ops.py:886-938 | reading, stepping and storing one position, with `out` = `delta` and `out_z` = `z` allowed, keeps the buffers as a plain scan of the original contents |
| ScanChunks.ScanChunk | vllm/_xpu_ops.py:886-938 | a chunk's loop leaves the state and outputs of the plain scan at its end, in place or not |
| SelectiveScan.SaveState | vllm/_xpu_ops.py:958-965 | only the true lanes of one (slot, channel) are written, with the unpadded state |
| SelectiveScan.StartPosition | vllm/_xpu_ops.py:853-869 | the number of chunks and the position inferred for the first one |
| SelectiveScan.ChunkTarget | vllm/_xpu_ops.py:876-956 | a chunk's length and the slot for its state: the last block for the last chunk, else the block its last token lies in |
| SelectiveScan.SavedNext | vllm/_xpu_ops.py:942-966 | the state saved after chunk `n` is the scan state at that chunk's end |
| SelectiveScan.RunChunk | vllm/_xpu_ops.py:876-966 | one chunk scanned and its state saved |
| SelectiveScan.RunChunks | vllm/_xpu_ops.py:874-966 | all outputs are those of one scan without chunks; exactly the checkpoint states are saved, in order |
| SelectiveScan.RunAll | vllm/_xpu_ops.py:874-977 | the same with and without the prefix cache |
| SelectiveScan.LoadState | vllm/_xpu_ops.py:805-820 | the initial state is the loaded slot's, or zero, on padded lanes |
| SelectiveScan.ScanProgram | vllm/_xpu_ops.py:757-977 | a whole (sequence, channel) program: nothing happens for a null block; otherwise outputs of the plain scan of the original row and a saved state after every chunk, nothing else changed |
| ChunkPlan.PlanAligned | vllm/v1/attention/backends/mamba_attn.py:297-304 | chunks of a stretch that starts on a boundary |
| ChunkPlan.PlanStretch | vllm/v1/attention/backends/mamba_attn.py:282-305 | chunks of a stretch that starts inside a block: the first one fills up the block |
| ChunkPlan.PlanRequest | vllm/v1/attention/backends/mamba_attn.py:267-309 | a request's chunks with the extra cut at its checkpoint, and the index of the checkpoint's chunk |
| ChunkPlan.PlanChunks | vllm/v1/attention/backends/mamba_attn.py:237-313 | the whole batch: cumulative lengths, owner of every chunk, last chunk of every request, total tokens conserved |
| ChunkEnds.CheckpointEnds | vllm/v1/attention/backends/mamba_attn.py:256-309 | the chunk reported for a checkpoint is one of its request's and ends exactly on the checkpoint; -1 if there is none |
| ChunkEnds.RequestEnds | vllm/v1/attention/backends/mamba_attn.py:308-311 | the last chunk of a request ends where the request's query ends |
| ChunkEnds.BoundaryEnds | vllm/v1/attention/backends/mamba_attn.py:246-254 | a chunk ends on every block boundary that a request crosses, whatever its checkpoint |
| ChunkPlan.AlignedTotal | vllm/v1/attention/backends/mamba_attn.py:297-304 | aligned chunks add up to the stretch |
| ChunkPlan.AlignedChunk | vllm/v1/attention/backends/mamba_attn.py:297-304 | aligned chunk `i` is not empty and starts `i` whole blocks in |
| ChunkPlan.StretchTotal | vllm/v1/attention/backends/mamba_attn.py:282-305 | the chunks of a stretch add up to it |
| ChunkPlan.StretchChunk | vllm/v1/attention/backends/mamba_attn.py:282-305 | no chunk is empty or longer than a block, and all but the first start where a block starts |
| ScanCheckpoints.ChunkInBlock | vllm/v1/attention/backends/mamba_attn.py:282-305 | every planned chunk lies inside one block and all but the last end with the block |
| ScanCheckpoints.PlannedPosition | vllm/_xpu_ops.py:862-869 | for planned chunks the position the kernel infers is the number of tokens computed before |
| ScanCheckpoints.PlannedColumn | vllm/_xpu_ops.py:943-956 | planned chunk `i` is saved in column `block_idx_first + i`, so no two share one, and all but the last in the block whose last token they end with |
| ScanCheckpoints.EveryBoundary | vllm/v1/attention/backends/mamba_attn.py:246-254 | a chunk ends on every block boundary that the request crosses: chunk by chunk, boundary by boundary |
| ScanCheckpoints.PlanSuitsKernel | vllm/v1/attention/backends/mamba_attn.py:267-313 | the kernel reads back, for every request of the batch, exactly the chunks planned for it |
| ScanCheckpoints.ReadsBackChunks | vllm/_xpu_ops.py:853-861 | reading the cumulative lengths back gives the planned lengths |
| ScanCheckpoints.CheckpointAt | vllm/_xpu_ops.py:942-966 | after the scan, each chunk's slot holds the plain recurrence's state after that chunk's last token, unless a later chunk was saved there |
| ScanCheckpoints.ProgramCheckpoint | vllm/_xpu_ops.py:942-966 | the same for the state cache left by a program |
| ScanCheckpoints.ServedRow | vllm/_xpu_ops.py:886-938 | a program started from the state after a prefix leaves the outputs, and with a gate the gated outputs, of the whole scan |
| ScanCheckpoints.ContinuesAfter | vllm/_xpu_ops.py:771-966 | such a program also saves the state of the whole scan |
| ScanCheckpoints.ServeFromCache | vllm/_xpu_ops.py:771-966 | resuming is exact: one request is scanned, a second one loads its checkpoint at any chunk end and scans only its own tokens, and gets outputs, gated outputs and final state of an uninterrupted scan |
| ScanServing.ScansThePlan | vllm/_xpu_ops.py:853-884 | with metadata planned for its block size, the kernel scans the planned chunks |
| ScanServing.PlannedSlot | vllm/_xpu_ops.py:943-956 | planned chunk `i` is saved in the slot of block `block_idx_first + i`, the last one in that of `block_idx_last` |
| ScanServing.PlannedDistinct | vllm/_xpu_ops.py:943-956 | no two chunks of a planned request are saved in one slot |
| ScanServing.BoundaryChunk | vllm/_xpu_ops.py:943-956 | the chunk that ends on a boundary is saved in the slot of the block that the boundary completes |
| ScanServing.BoundaryState | vllm/_xpu_ops.py:942-966 | for every block boundary crossed, that slot holds the plain state after exactly the tokens before the boundary |
| ScanServing.ServeAtBoundary | vllm/_xpu_ops.py:771-966 | resuming is exact at every block boundary: a second request that loads the state saved for the completed block gets outputs, gated outputs and final state of an uninterrupted scan |
| ScanGrid.StepFrame | vllm/_xpu_ops.py:886-977 | a step of a program writes only that program's cells |
| ScanGrid.Unaffected | vllm/_xpu_ops.py:886-977 | what a program has done so far does not depend on cells it does not touch |
| ScanGrid.OwnStep | vllm/_xpu_ops.py:886-977 | every step (one lane loaded, one token, one output, one gate, one gated output, one lane saved) keeps a program on the track of its plain scan |
| ScanGrid.NextSound | vllm/_xpu_ops.py:757-977 | a step of any program keeps every program on track |
| ScanGrid.Run | vllm/_xpu_ops.py:757-760 | every state of every interleaving is sound |
| ScanGrid.FinalMemory | vllm/_xpu_ops.py:757-977 | in every finished interleaving each cell holds what its writer's plain scan of the initial memory puts there, all others are untouched |
| ScanGrid.OneOutcome | vllm/_xpu_ops.py:757-760 | all complete interleavings of the grid end in the same memory, aliased buffers included |
| ScanGrid.StepCloser | vllm/_xpu_ops.py:874-977 | every step of an unfinished program brings it one step closer to its end |
| ScanGrid.EnoughTurns | vllm/_xpu_ops.py:757-760 | a launch in which every program gets enough turns finishes, whatever the order |
| ScanLaunch.RowsApart | vllm/_xpu_ops.py:822-850 | rows of different programs do not overlap, in packed and in padded batches |
| ScanLaunch.EveryProgram | vllm/_xpu_ops.py:757-782 | there is a program for every channel of every sequence that is not skipped, and no other |
| ScanLaunch.LaunchIndependent | vllm/_xpu_ops.py:757-850 | disjoint sequences and disjoint slots give programs that do not interfere |
| ScanAlone.AsAlone | vllm/_xpu_ops.py:757-977 | a program of the interleaved grid has the outputs, gated outputs and saved states of the sequential program that runs alone, in place, on the same buffers and states |
| ScanResume.CutChunk | vllm/_xpu_ops.py:943-966 | where a request is resumed, at the end of a launch or at a boundary it crossed, the slot loaded is that of a chunk which ends there, and no later chunk is saved in it |
| ScanResume.StateKept | vllm/_xpu_ops.py:757-977 | in every finished interleaving of a launch that slot holds the plain state after exactly the tokens before that point |
| ScanResume.StartsThere | vllm/_xpu_ops.py:805-815 | so the request's next launch starts from that state |
| ScanResume.FinalRow | vllm/_xpu_ops.py:886-938 | in every finished interleaving the row of each program holds the outputs, and with a gate the gated outputs, of its plain scan |
| ScanResume.JoinedState | vllm/_xpu_ops.py:805-922 | if each part of a request starts from the state the part before reaches, the last starts from the state a scan of all tokens before it reaches |
| ScanResume.RequestAsOne | vllm/_xpu_ops.py:757-977 | a request served by any number of launches, each interleaved in any order and each resuming at the end of the one before or at a block boundary it crossed, gets in every launch the outputs, gated outputs and states of one uninterrupted scan |
| TokenQuant.RoundIsNear | vllm/_xpu_ops.py:1006-1009 | rounding moves a number by at most one half, and halves to the even integer |
| TokenQuant.AllLevels | vllm/_xpu_ops.py:995-996 | the levels are all numbers of the width: as many below zero as not, or none |
| TokenQuant.ScaleReaches | vllm/_xpu_ops.py:999-1005 | the top level times the scale reaches over the whole row, clamped scale included |
| TokenQuant.ScaleIsLeast | vllm/_xpu_ops.py:999-1005 | the scale is the least one from 0.00001 up whose top level reaches over the whole row |
| TokenQuant.NearIff | vllm/_xpu_ops.py:1006-1012 | a level gives an element back within half the scale exactly when it is within one half of its place |
| TokenQuant.LevelNearIff | vllm/_xpu_ops.py:1008-1012 | before the store an element comes back exactly when its place is on the scale, give or take one half, the clamp included |
| TokenQuant.RowIff | vllm/_xpu_ops.py:995-1012 | a row comes back before the store exactly when its smallest and largest value are in reach, for every row, width and zero point |
| TokenQuant.ExactReaches | vllm/_xpu_ops.py:999-1006 | with an unbounded zero point every row is in reach |
| TokenQuant.StoredIsExact | vllm/_xpu_ops.py:1006-1006 | the stored zero point is the exact one if the rounded quotient and its negative fit 32 bits |
| TokenQuant.LevelRoundTrip | vllm/_xpu_ops.py:995-1012 | so every element comes back within half the scale, in both modes, for every width from 2 up, whenever the zero point fits |
| TokenQuant.StoredRowIff | vllm/_xpu_ops.py:995-1012 | from 8-bit storage, for widths up to 8, a row comes back if and only if it is in reach of the zero point as stored in 32 bits |
| TokenQuant.StoredError | vllm/_xpu_ops.py:995-1012 | the error in terms of the row itself: at most half of its extent divided by the top level, or half the least scale, whenever the zero point fits |
| TokenQuant.TooWide | vllm/_xpu_ops.py:1008-1012 | for a width above 8 a row exists whose largest element does not come back |
| TokenQuant.TooFar | vllm/_xpu_ops.py:1005-1012 | the asymmetric row [30000.0] does not come back at any width up to 8: its zero point is beyond 32 bits |
| TokenQuant.AtTheEdge | vllm/_xpu_ops.py:1005-1012 | nor does [-21474.83648], whose rounded quotient fits 32 bits but whose negative does not |
| TokenQuant.RoundTripIff | vllm/_xpu_ops.py:995-1012 | all elements of all rows come back from storage within half the scale if and only if the mode is symmetric and the width at most 8 |
| MemoryChunks.BaseChunk | csrc/cumem_allocator.cpp:25-43 | the configured number of megabytes when it is a positive number whose bytes fit 64 bits, else 256 MB; always a positive multiple of 1 MB |
| MemoryChunks.AlignUpIff | csrc/cumem_allocator.cpp:357-357 | 64-bit rounding gives a multiple, and rounds up if and only if its sum does not wrap; if it wraps the result is 0 |
| MemoryChunks.CountIff | csrc/cumem_allocator.cpp:385-386 | the chunk count is the least that covers the allocation, or zero if its sum wraps |
| MemoryChunks.SplitChunks | csrc/cumem_allocator.cpp:385-407 | chunks are positive multiples of the granularity, only the last may be short, and they sum to the aligned size, if and only if the count does not wrap |
| MemoryChunks.EveryByteOnce | csrc/cumem_allocator.cpp:184-203 | mapping at prefix sums tiles: every byte lies in exactly one chunk |
| DeviceMemory.ChunksApart | csrc/cumem_allocator.cpp:184-203 | a chunk ends before a later one begins |
| DeviceMemory.NextFits | csrc/cumem_allocator.cpp:185-187 | in an empty reservation the next chunk can always be mapped: inside, and over nothing |
| DeviceMemory.RemovedBack | csrc/cumem_allocator.cpp:188-201 | removing what was added restores the state before if and only if all of it goes |
| DeviceMemory.RolledBack | csrc/cumem_allocator.cpp:188-201 | a rollback leaves no trace if and only if every unmap and release succeeds, and in any case touches nothing else |
| DeviceMemory.RoundTrip | csrc/cumem_allocator.cpp:174-275 | mapping and then unmapping and releasing restores the driver state exactly, if and only if nothing of the allocation is left |
| DeviceMemory.SaneReserve | csrc/cumem_allocator.cpp:50-71 | a new reservation overlaps none and holds no mapping |
| DeviceMemory.SaneMap | csrc/cumem_allocator.cpp:185-187 | a permitted mapping keeps reservations apart, mappings inside them, and mappings apart |
| DeviceDriver.Device.UnmapAll | csrc/cumem_allocator.cpp:254-264 | every chunk is unmapped once, failures do not stop the loop: as many mappings are left as calls were refused, and an error is reported if and only if there are any |
| DeviceDriver.Device.ReleaseAll | csrc/cumem_allocator.cpp:266-271 | every handle is released once: as many are left as calls were refused, and an error is reported if and only if there are any |
| DeviceDriver.Device.CreateAll | csrc/cumem_allocator.cpp:174-183 | all handles if and only if no call is refused; otherwise none if and only if every clean-up release succeeds |
| DeviceDriver.Device.MapAll | csrc/cumem_allocator.cpp:184-203 | all chunks mapped at their prefix sums if and only if no call is refused or against the rules; otherwise the state before the handles existed if and only if every clean-up call succeeds |
| DeviceDriver.Device.MapRollback | csrc/cumem_allocator.cpp:188-201 | undoing the first `i` mappings and all handles |
| DeviceDriver.Device.CreateAndMap | csrc/cumem_allocator.cpp:119-231 | it succeeds if and only if no call is refused or against the rules; all-or-nothing at any failing handle or mapping if and only if clean-up succeeds; an access failure leaves everything mapped; whatever the range holds, new mappings stay inside it; in an empty reservation no call breaks the driver's rules |
| DeviceDriver.Device.UnmapAndRelease | csrc/cumem_allocator.cpp:233-277 | an error is reported if and only if a mapping or handle of the allocation is left, as many as calls were refused; nothing else changes |
| DeviceDriver.Device.ReserveAligned | csrc/cumem_allocator.cpp:50-71 | an aligned new range, unless both calls are refused or the second grants a range that is not aligned; then no change if that one can be given back |
| SleepFleet.AddsUnaffected | csrc/cumem_allocator.cpp:174-203 | what is mapped in one range does not concern an allocation whose range is apart from it |
| SleepFleet.AwakeUnaffected | csrc/cumem_allocator.cpp:174-203 | nor an awake allocation, wherever it is |
| SleepFleet.ApartUnaffected | csrc/cumem_allocator.cpp:254-271 | however far taking one allocation apart gets, no other allocation can tell |
| SleepFleet.MappedIsBacked | csrc/cumem_allocator.cpp:184-203 | a mapped allocation is awake: its range fully backed by its own live handles |
| SleepFleet.ApartIsClear | csrc/cumem_allocator.cpp:254-264 | an allocation taken apart has nothing mapped in its range |
| SleepFleet.FleetAdds | csrc/cumem_allocator.cpp:174-203 | whatever is mapped in a range, only sleeping allocations whose range meets it can suffer |
| SleepFleet.FleetOwnRange | csrc/cumem_allocator.cpp:174-203 | inside an allocation's own reservation no other allocation suffers |
| SleepFleet.StrayMapping | csrc/cumem_allocator.cpp:185-187 | the driver lets a stray mapping into the range of a sleeping allocation, which is then asleep no more |
| SleepFleet.FleetApart | csrc/cumem_allocator.cpp:254-275 | all other allocations stay healthy while one is taken apart, even halfway |
| SleepFleet.NotRegistered | csrc/cumem_allocator.cpp:366-370 | a newly reserved address is not that of a healthy allocation |
| SleepAllocator.Allocator.ChunkSizes | csrc/cumem_allocator.cpp:357-407 | there are chunks, and they tile the aligned size, if and only if none of the three 64-bit sums wraps |
| SleepAllocator.Allocator.Malloc | csrc/cumem_allocator.cpp:337-465 | a returned address holds a new awake allocation of the aligned size; one is returned only if no sum wraps, and then unless a call is refused; a failed call leaves the driver as it was (unless clean-up fails) but leaves a stale entry registered; a chunk size that wraps to 0 crashes; sound allocations stay sound |
| SleepAllocator.Allocator.Enter | csrc/cumem_allocator.cpp:428-464 | registered before it is backed; if backing fails, which it does if and only if a call is refused, the reservation goes, the entry stays |
| SleepAllocator.Allocator.Back | csrc/cumem_allocator.cpp:441-464 | a registered range is backed, or its reservation is given back |
| SleepAllocator.Allocator.Sleep | csrc/cumem_allocator.cpp:695-731 | a sleep raises if and only if a call is refused or the range is granted at another address; a successful one leaves no mapping and no handle of the allocation and keeps its address reserved; one that raises harms only its own allocation; marked asleep either way |
| SleepAllocator.Allocator.Hold | csrc/cumem_allocator.cpp:698-719 | the range is given up and the same range reserved, unless a call is refused or another range granted, which is given back |
| SleepAllocator.Allocator.Wake | csrc/cumem_allocator.cpp:761-800 | it raises if and only if a call is refused or against the rules; a sound allocation is awake again at the old address, or still asleep with the driver unchanged if a handle or mapping failed; waking one that is not sound can only harm sleeping allocations whose ranges meet its own, and none if its address is still reserved for it |
| SleepAllocator.Allocator.WakeSound | csrc/cumem_allocator.cpp:761-800 | the case of a sound allocation: it raises if and only if a call is refused |
| SleepAllocator.Allocator.WakeHurt | csrc/cumem_allocator.cpp:761-800 | the case of one whose sleep raised or whose wake left something behind; success makes it sound again if its address is still reserved for it |
| SleepAllocator.Allocator.Free | csrc/cumem_allocator.cpp:468-585 | a sound allocation freed with its own size is gone unless a call is refused; nothing of it is left unless an error is reported; a size that is not the aligned size leaves the reservation behind; one that is not sound may be freed too, and all others stay sound |
| SleepAllocator.Allocator.Step | csrc/cumem_allocator.cpp:337-800 | one operation of any kind (`StepOk`) keeps every sound allocation it does not free or harm; allocating and freeing (with any size) harm none, a sleep harms its own allocation if and only if it raises, a wake of a sound allocation harms that one if and only if something is left behind, only a wake of one that was not sound can harm others, whose ranges meet it; and with all allocations sound, no call refused, no range granted elsewhere and the right size, the operation does what it is for |
| SleepAllocator.Allocator.Perform | csrc/cumem_allocator.cpp:337-800 | over every sequence of operations (`RunOk`): every allocation, old or made on the way, that is not freed or harmed keeps its address and is awake or asleep there; reservations never overlap; unless some operation is on an allocation no longer sound, only allocations put to sleep or woken are harmed, at most one for each sleep that raises and each failure that leaves something behind; if there are none of those, nothing leaks and no handle is released twice; and if no call is refused, no range granted elsewhere and all sizes are right, all operations are performed and exactly the allocations made and not freed exist, asleep or awake as last asked |
| SleepRuns.RunNext | csrc/cumem_allocator.cpp:337-800 | a run of operations and one more are a run: what is kept, harmed, leaked and achieved composes |
| SleepAccount.AccountBack | csrc/cumem_allocator.cpp:174-203 | backing an allocation leaks nothing: every reservation, mapping and handle still has its owner |
| SleepAccount.AccountApart | csrc/cumem_allocator.cpp:254-275 | nor does taking one apart when nothing of it is left |
| BlockProtocol.NextSafe | csrc/fs_io.cpp:40-113 | any call of any process with any outcome, and any death, keeps all files and processes safe |
| BlockProtocol.CreateSafe | csrc/fs_io.cpp:50-55 | exclusive creation makes the caller the only owner of the temporary file |
| BlockProtocol.WriteSafe | csrc/fs_io.cpp:57-63 | a short or failed write never reaches a block file |
| BlockProtocol.RenameSafe | csrc/fs_io.cpp:71-77 | renaming makes the block visible whole and at once |
| BlockProtocol.UnlinkSafe | csrc/fs_io.cpp:58-75 | removing a temporary file removes the caller's own |
| BlockProtocol.ReadSafe | csrc/fs_io.cpp:95-112 | an open block file is never short |
| BlockProtocol.DeathSafe | csrc/fs_io.cpp:40-113 | a process may die at any point, also halfway through a write |
| BlockProtocol.RunSafe | csrc/fs_io.cpp:40-113 | every reachable state is safe, for every number of processes and every interleaving |
| BlockProtocol.BlocksAreWhole | csrc/fs_io.cpp:40-113 | a block file is absent, as it was at the start, or exactly what one store was given for it |
| BlockProtocol.OneOwner | csrc/fs_io.cpp:50-75 | no two live stores ever own the same temporary file |
| BlockProtocol.TempIsGone | csrc/fs_io.cpp:57-77 | each step of a store that created its temporary file: it goes on owning that file, or ends with the file under the block's name if it succeeded and removed if it failed (unless the removal fails), or dies and leaves it |
| BlockTemps.OneTemp | csrc/fs_io.cpp:50-77 | a step creates a temporary name only where there was none, and removes or drops only the one its process owns |
| BlockTemps.TempsAccounted | csrc/fs_io.cpp:50-77 | in every interleaving the temporary files there are exactly those there at the start, those of stores at work, and those whose store died or failed to remove them: any other finished store leaves none |
| BlockProtocol.RunKeeps | csrc/fs_io.cpp:87-113 | a block file that is there stays there |
| BlockProtocol.StoredIsVisible | csrc/fs_io.cpp:42-113 | once a store has returned 0 its block is found by every later lookup, opened by every later load whose call succeeds, and returned whole with result 0 by every load whose read succeeds |
| BlockProtocol.LoadsAreWhole | csrc/fs_io.cpp:87-113 | no load finds a short file or removes one, and what it returns is the whole of a known block |
| BlockProtocol.SeenIsAsked | csrc/fs_io.cpp:40-48 | every known block was there at the start or was given to some store |
| BlockProtocol.StoreBelieves | csrc/fs_io.cpp:42-44 | a store reports success for any file it finds, short or not |
| BlockProtocol.LoadRemoves | csrc/fs_io.cpp:102-107 | a load of a short file removes it |
| BlockProtocol.SticksIffNoneShort | csrc/fs_io.cpp:42-107 | stores keep their promise in every run if and only if no block file is too short at the start |
| BlockJobs.ErrorIsKept | csrc/fs_io.cpp:36-39 | the error of a call that fails is the one it fails with |
| BlockJobs.StoreNext | csrc/fs_io.cpp:40-78 | one call of a store: where its calls so far, with their outcomes and the states they met, bring it |
| BlockJobs.RunTracked | csrc/fs_io.cpp:40-113 | in every interleaving a process is where its own calls have brought it |
| BlockJobs.StoreSucceedsIff | csrc/fs_io.cpp:36-78 | in every interleaving a store returns 0 if and only if its first call found the file or all its other calls went well and its temporary name was free; in the second case the block's name referred at the rename to a file that holds exactly the block; otherwise it returns the error of the first call that went wrong, whatever the clean-up does; after 7 calls at most |
| BlockJobs.LoadSucceedsIff | csrc/fs_io.cpp:80-113 | in every interleaving a load returns 0 if and only if the file was there when opened and neither call failed, with the bytes the read found in the file opened; after 2 calls at most |
| BlockStore.CallProgress | csrc/fs_io.cpp:40-113 | every call brings a job closer to its end, so every job ends |
| BlockStore.Volume.StoreBlock | csrc/fs_io.cpp:36-78 | with any interference, the result is 0 if and only if the first call found the file or all other calls went well and the temporary name was free; then the block file is there, and the rename gave it exactly the block; otherwise the result is the error of the first call that went wrong |
| BlockStore.Volume.LoadBlock | csrc/fs_io.cpp:80-113 | with any interference, the result is 0 if and only if the file was there when opened and neither call failed; it comes with the bytes of a whole block |
| BlockStore.Volume.BatchLookup | csrc/fs_io.cpp:115-120 | a flag is set if the file was there before the call, and only if it is there after it |
| BlockStore.Volume.BatchStore | csrc/fs_io.cpp:234-262 | up to the first failure, and without one to the end, all blocks are there; the store that failed did so because of one of its calls, whose error is reported |
| BlockStore.Volume.BatchLoad | csrc/fs_io.cpp:297-338 | the blocks before the reported index were loaded whole; buffers after it are untouched; the load that failed did so because its file was absent or a call failed |
| NinjaSweep.StopAfterStart | tools/report_build_time_ninja.py:217-227 | a stop event comes after its start event if and only if the build step does not end before it starts |
| NinjaSweep.LiveIff | tools/report_build_time_ninja.py:237-254 | the running set at an event is the tasks started and not yet stopped |
| NinjaSweep.LiveIsCovering | tools/report_build_time_ninja.py:237-254 | across a gap the tasks counted are those whose interval covers the gap |
| NinjaSweep.ShareIsGrowth | tools/report_build_time_ninja.py:237-254 | the difference of accumulator values is the sum over the gaps in its interval of gap length over number of running tasks |
| NinjaSweep.ShareBounds | tools/report_build_time_ninja.py:74-89 | a weighted duration lies between 0 and the duration |
| NinjaSweep.GapConserved | tools/report_build_time_ninja.py:239-243 | the shares of a gap add up to the gap if anything runs in it |
| NinjaSweep.Conservation | tools/report_build_time_ninja.py:206-255 | the weighted durations add up to the time during which at least one task runs |
| NinjaSweep.Extremes | tools/report_build_time_ninja.py:211-219 | first and last event are the earliest start and the latest end |
| NinjaSweep.SpanIffNeverIdle | tools/report_build_time_ninja.py:206-258 | they add up to latest minus earliest if and only if some task is always running |
| BuildReport.SortEventsSorts | tools/report_build_time_ninja.py:222-227 | sorting the events orders them and loses none |
| BuildReport.SortedTimeline | tools/report_build_time_ninja.py:211-227 | the sorted events hold one start and one stop of every task |
| BuildReport.Accumulate | tools/report_build_time_ninja.py:239-243 | the accumulator after an event |
| BuildReport.Record | tools/report_build_time_ninja.py:247-253 | a stopped task gets the growth of the accumulator since its start |
| BuildReport.Sweep | tools/report_build_time_ninja.py:229-255 | the sweep succeeds, finding a start for every stop and ending with nothing running, if and only if no task ends before it starts |
| BuildReport.TotalPermuted | tools/report_build_time_ninja.py:250-252 | the order in which tasks stop does not matter to the total |
| BuildReport.TotalIsBusy | tools/report_build_time_ninja.py:236-255 | the running total is the busy time |
| BuildReport.RecordedShares | tools/report_build_time_ninja.py:247-253 | every task is left with its share |
| BuildReport.Collect | tools/report_build_time_ninja.py:206-219 | earliest start, latest end, total time and events of the entries |
| NinjaLoad.CpuTimeIsLoad | tools/report_build_time_ninja.py:66-68 | the durations add up to the sum over the gaps between events of gap length times number of steps running |
| BuildReport.LengthIff | tools/report_build_time_ninja.py:206-220 | the length is the time from the earliest start to the latest end if and only if no time is negative or the last entry makes up for it |
| BuildReport.StartForgotten | tools/report_build_time_ninja.py:211-214 | a log with a start at -5 and then one at 0 is given the length from 0 on |
| BuildReport.NoLengthIff | tools/report_build_time_ninja.py:206-220 | the length is zero if and only if no step ends after a start that counts, those after the last negative one |
| BuildReport.NoTimeIff | tools/report_build_time_ninja.py:206-220 | for non-negative times that means that all steps start and end at one instant |
| BuildReport.SummarizeEntries | tools/report_build_time_ninja.py:198-291 | it fails with no events if and only if the log is empty, with a missing key if and only if some step ends before it starts, and with a division by zero if and only if no step ends after a start that counts, for non-negative times: all steps start and end at one instant; otherwise every step has its share, the total of the shares is the busy time, the total of the elapsed times is that of every moment counted once for every step running then, the former equal to the span of the log if and only if the build is never idle, and the length reported is that span if and only if no time is negative or the last entry makes up for it |
| LogprobRows.ReadRangeInside | vllm/logprobs.py:111-119 | reading a range of rows index by index builds its dictionary |
| LogprobRows.GetIsIndex | vllm/logprobs.py:109-119 | reading a container is reading the list, for every index, errors and negative indices included |
| LogprobRows.TwoIndices | vllm/logprobs.py:109-119 | every element has two indices, `i` and `i - n`, and no other index has an element |
| LogprobRows.AppendView | vllm/logprobs.py:63-92 | appending rows appends their dictionary |
| LogprobRows.PicksAre | vllm/logprobs.py:120-122 | which positions a slice picks: every step-th one on the way from its start to before its stop, a negative bound counting from the end and bounds outside cut to the list, for positive and negative steps |
| LogprobRows.PicksPlain | vllm/logprobs.py:120-122 | `[:]` picks everything, `[a:b]` the positions from `a` to before `b`, `[-k:]` the last `k` |
| LogprobRows.PicksBackward | vllm/logprobs.py:120-122 | `[::-1]` picks everything backwards |
| LogprobRows.ForwardSlice | vllm/logprobs.py:120-137 | slicing with a positive step gives a container for the sliced list |
| LogprobRows.BackwardSliceIff | vllm/logprobs.py:120-137 | with a negative step it agrees with the list if and only if at most one position is picked or no picked position has an entry |
| LogprobRows.HistoryView | vllm/logprobs.py:63-137 | after any sequence of appends and nested forward slices the container stands for the list that the same operations make |
| FlatLogprobs.LastWins | vllm/logprobs.py:111-119 | of rows with one id the last counts |
| FlatLogprobs.OnlyIds | vllm/logprobs.py:111-119 | a position's keys are exactly the ids of its rows |
| FlatLogprobs.Container.Append | vllm/logprobs.py:63-72 | one more dictionary in the list; a missing one reads as empty |
| FlatLogprobs.Container.AppendFast | vllm/logprobs.py:74-92 | one more dictionary, that of the zipped lists up to the shortest |
| FlatLogprobs.Container.Extend | vllm/logprobs.py:94-97 | the list grows by all the given dictionaries, in order |
| FlatLogprobs.Container.Length | vllm/logprobs.py:99-101 | the length of the list |
| FlatLogprobs.Container.GetItem | vllm/logprobs.py:109-119 | the list's element, or its index error |
| FlatLogprobs.Container.GetSlice | vllm/logprobs.py:120-137 | a new container for the sliced list; an error for step 0 |
| FlatLogprobs.Container.Iterate | vllm/logprobs.py:150-155 | all elements of the list in order |
| FlatLogprobs.RanksFor | vllm/logprobs.py:187-193 | the sampled token's rank, then 1 to the number requested, or to the number of log-probabilities for -1 |
| FlatLogprobs.AppendNextFlat | vllm/logprobs.py:187-196 | the flat branch appends the next position's dictionary |
| FlatLogprobs.AppendNextList | vllm/logprobs.py:187-209 | the list branch appends the same dictionary |
| SpinLoop.RunInv | csrc/spinloop.cpp:93-152 | a condition that came true after the second check has triggered the armed monitor |
| SpinLoop.NoLostWakeUp | csrc/spinloop.cpp:126-152 | a waiter asleep while the condition holds has been triggered, in every interleaving, and its next steps return true |
| SpinLoop.PassIsRun | csrc/spinloop.cpp:93-168 | one pass of the loop is one run of the machine over the events of that pass |
| SpinLoop.Spin | csrc/spinloop.cpp:93-168 | the loop ends in the first pass that is not quiet, for that pass's reason, and as the machine ends on the same events; the clock is looked at in every 16th pass across the 32-bit wrap |
| SpinLoop.TimeUpIsNoticed | csrc/spinloop.cpp:107-124 | once the time is up no 16 passes in a row let the loop go on, wherever the counter stands |
| WorkQueue.TurnInv | benchmarks/benchmark_hidden_state_extraction.py:141-175 | prompts queued, in hand and done together are all prompts; sentinels left and clients stopped together are the clients |
| WorkQueue.RunInv | benchmarks/benchmark_hidden_state_extraction.py:141-175 | the same in every state of every interleaving |
| WorkQueue.EveryPromptOnce | benchmarks/benchmark_hidden_state_extraction.py:141-256 | when all clients have stopped the queue is empty and the results hold every prompt exactly once |
| WorkQueue.CompleteIff | benchmarks/benchmark_hidden_state_extraction.py:237-256 | a stopped run is complete in every interleaving if and only if there is a client or nothing to do |
| WorkQueue.NeverStuck | benchmarks/benchmark_hidden_state_extraction.py:141-147 | a client that has not stopped always finds an item, and its turn brings the run one turn closer to its end |
| WorkQueue.EveryRunEnds | benchmarks/benchmark_hidden_state_extraction.py:141-256 | no schedule has more than two useful turns for each prompt and one for each client, and all clients have stopped if and only if it has had them all |
| WorkQueue.ResultsGrow | benchmarks/benchmark_hidden_state_extraction.py:168-174 | results are recorded in the order in which prompts are finished: what is recorded stays in front |
| WorkQueue.InOrder | benchmarks/benchmark_hidden_state_extraction.py:141-256 | a single client does the prompts in order: done, in hand and queued always make up the list |
| PagedGather.OneOwner | vllm/_custom_ops.py:174-183 | no output row is written twice |
| PagedGather.EveryRow | vllm/_custom_ops.py:174-183 | every row up to the end belongs to a token |
| PagedGather.RowsAreTotals | vllm/_custom_ops.py:171-183 | request `r` starts at row `cu[r] - cu[0]`, for all `r`, if and only if the totals never fall |
| PagedGather.FlatSlot | vllm/_custom_ops.py:169-180 | slot `block * page_size + offset` of the flat view is that place of that page |
| PagedGather.CopyRequest | vllm/_custom_ops.py:177-183 | one request's rows are its tokens, through its block table; other rows are untouched |
| PagedGather.GatherAll | vllm/_custom_ops.py:161-183 | every token of every request, one for each pair of a start and a length, lands in its row, for every page size, empty requests skipped, rows beyond the end untouched |
| MediaFetch.Limit | vllm/connections.py:63-76 | the smaller of the two limits, if any, and whether it is the configured one |
| MediaFetch.BodyIff | vllm/connections.py:87-134 | the exact concatenation comes back if and only if the body ends well and neither it nor the announced length (Content-Length, section 8.6 of RFC 9110) exceeds the limit |
| MediaFetch.ReadBody | vllm/connections.py:102-134 | chunk by chunk, stopping as soon as the limit is exceeded |
| MediaFetch.Retry | vllm/connections.py:232-275 | at most max(retries, 1) calls; the first timeout is the base and each later one four times the one before; a call is retried after a time-out, a lost connection or a status from 500 up, while attempts are left, and after nothing else; the last outcome is returned |
| MediaFetch.TotalSleep | vllm/connections.py:260-271 | `k` retries sleep (4^k - 1) / 3 in all |
| MediaFetch.GetBytes | vllm/connections.py:402-419 | the whole fetch: retried only after time-outs, lost connections, 5xx replies or a body that breaks off that way; a good reply within the limits comes back whole and only that does; a 4xx reply, and a body too large, end it at once |

## Left out

- Floating-point rounding, data types and the values of exp and log: reals and uninterpreted functions; tokens of a row are one element apart, as in the kernel.
- The rest of the kernel wrappers, and everything that only forwards to compiled kernels.
- The CUDA path of the allocator, contexts, C-heap failures inside it, and the Python side's tags, CPU backups and offloading.
- Operations on a stale entry, whose handle cells the C code has freed, or on an allocation that was mapped outside its reservation: not modelled.
- A stale error code on entry to an allocator call: the calls are modelled from a clean error code, as their callers leave it, and a sequence of operations ends with the first allocation or free that reports an error.
- The values of the driver's error codes: a call fails or not, and which code is reported when several fail is not modelled.
- File-system durability across a power failure, O_DIRECT, directories as objects, and reads of a regular file that return fewer bytes than it has.
- Reading and grouping the build log (which makes the entries distinct objects, as the report assumes), file extensions and the printed tables of the report.
- Python and C bindings: reference counts, the interpreter lock, argument parsing, buffers.
- Asynchronous variants of the fetch, sessions, headers other than Content-Length, logging.
- The engine's work on a prompt, and failures of a client.
- Waiting times of the monitor instruction: a sleeping waiter may wake at any moment.
- TokenQuant.LevelRoundTrip: the conversion of the scale to the input's type is the identity here.
- FlatLogprobs.Container.GetSlice: slicing again a container that came from a slice with a negative step is not covered.
- FlatLogprobs.Container.Append: a dictionary is given by its items in order; the order in which a position's keys iterate is not modelled.
