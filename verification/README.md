# A verified model of the wcp copy engine

wcp copies files with io_uring. One thread walks directories and plans copy jobs, a second thread
(the submit thread) feeds read and write requests for fixed-size chunks into a ring and processes
their completions, and the kernel does the work in between. Three resources are rationed: buffers from
a slab heap, file descriptors, and ring entries. This project models that engine in Dafny and proves
that it copies the right bytes and loses nothing, and says exactly when it can get stuck and how soon it
ends otherwise.

`dafny verify dfyconfig.toml` checks everything.

## The model

`Engine.dfy` is one transition system for the adding thread, the submit thread and the kernel. A run is
any interleaving of their steps (`Engine.IsRun`), so a theorem about reachable states covers every
schedule, every short read and short write, every cancelled write and every failing call. Files hold
real bytes, heap blocks hold real bytes, and a read or a write moves bytes between them.

| Step | Source |
|---|---|
| `NewFile`, `LowOpen`, `CountPart`, `PushPart`, `FileAdded` | `addCopyJob` and `addCopyJobPart`, src/CopyQueue.cpp:736-813; the opens in the descriptor constructors, src/QueueFileDescriptor.cpp:7-15 |
| `Join`, `AdderError` | src/CopyQueue.cpp:550-556 and the error reports of the adding thread |
| `Look`, `PickFront` | choosing a runner, src/CopyQueue.cpp:82-129 |
| `EnsureOpen` | src/QueueFileDescriptor.cpp:22-38, called from src/CopyQueue.cpp:137 and src/CopyRunner.cpp:96-101 |
| `IssueBatch` | src/CopyRunner.cpp:115-196 |
| `FlushBatch`, `Consume`, `Submitted` | src/CopyQueue.cpp:165-174 |
| `ReapOne`, `DropRunner`, `StopReaping` | src/CopyQueue.cpp:177-210 with src/CopyRunner.cpp:241-341 and src/CopyRunner.cpp:30-47 |
| `CheckDone` | src/CopyQueue.cpp:33-36 and src/CopyQueue.cpp:212-224 |
| `RunRead`, `RunWrite`, `PostCancel` | the kernel, as liburing/man/io_uring.7:67-72 and liburing/man/io_uring_enter.2:779-795 describe it |

The invariant (`Invariant.Inv`) has eight groups: layout of files and parts, places of runners, rings,
data, heap, descriptors, counters and outcome. `AdderSteps`, `SubmitSteps`, `OpenSteps`, `RingSteps`,
`KernelSteps` and `ReapSteps` prove that each kind of step keeps each group; `Theorems`, `Progress`,
`WorkBound`, `Faultless`, `Errors` and `Termination` draw the conclusions. `Adding` and `Choices` say
that the runs are as many as they should be: every file the planner accepts can be added, and no answer
of the kernel or the system is shut out.

The parts that the source writes as objects and loops are modelled in that form and proved against
the same functions: `CopyRunner` (the runner's methods), `SubmitLoop` (the nested loops of the submit
thread, whose every path is a run of the engine), `ChunkPlan` (the planner's loop), `SubmissionRing`
and `CompletionRing` (liburing's wrapping counters and masked indices), `Heap`, `Descriptors`,
`RollingBitset` and `Traversal`. `HeapSharing` and the first half of `Descriptors` are small
protocols at the grain of single atomic loads and swaps.

## What is taken for granted

- Entries are consumed in ring order, each yields exactly one completion, and a linked write runs only after a read of its full length and is cancelled otherwise.
- A submit that takes only a part of the ring ends between two chains: the kernel never takes a read and leaves its linked write in the ring, or if it does, the link holds across the two submissions. `Theorems.CopyIsRight` and `Theorems.NeverAWrongByte` rest on this, for nothing else keeps a write that is taken later behind its read.
- A read returns at most the bytes the file holds there, and the source keeps the size it had at `stat`; different jobs name different destination files, and no destination is a source.
- Atomics are sequentially consistent; a reservation of a descriptor is one step of the engine, which `Descriptors.ReservationIsAtomic` justifies.
- The heap's block size is a multiple of its alignment, which is a power of two, and less than 2^32 bytes; the ring has fewer than 2^32 entries; the descriptor cap is at least the minimum the constructor asserts. The two conditions on the block size are not checked by the source: `ChunkPlan.ReadsNeedWholeBlocks` and `ChunkPlan.AssertsNeedWholeBlocks` say exactly when reads stay in their block and when the asserts hold, `WideChunk.ExactRequests` and `WideChunk.CanFinish` exactly which chunks the 32-bit counts can serve, and `WideChunk.WideChunkStalls` where the others end.
- A file is planned only if the planner accepts it: usable chunk size, and at most 2^31 - 1 chunks (`Adding.Accepted`; `ChunkPlan.ChunkSizeUsable` and `ChunkPlan.CountedMeaning` say what the code does with the others).

## Where the code does less than one might expect

- The engine can get stuck: when the kernel has nothing to do and the next pass is held up, it stays so for ever. `Progress.HeldUp` is the guard, `Progress.NoDeadlock` and `Progress.StuckForever` are its two halves, and `Termination.RunLength` bounds every other run.
- One way there is that a failed open keeps its reservation: `Examples.OneFailedOpenStarves` is such a run. Another is a partial submit: what it leaves in the ring is handed over only after another runner has been added, and that runner may be waiting for what the left entries hold. `LeftoverExamples.LeftoversStarve` is such a run, without any error. In a run without errors whose submits empty the ring neither happens.
- So the loop ends under conditions, which `Termination.Fair` lists: additions are complete, reads and lone writes move forward, something is done between two passes that wait for the kernel, every submit empties the ring, none has left anything in it before, and the ring has two entries and the heap a block. `Termination.LoopEnds` says that a run of this kind without errors is bounded and can always be continued until the return; `Termination.LoopReturns` that, unless a call has failed, it can be continued to a return with every byte right.
- A multi-part file with errors, or an empty file whose destination cannot be opened, may be left open: `Theorems.LastPartCloses` says exactly when, `LeftoverExamples.BothLeftOpen` and `Examples.SourceLeftOpen` are such runs.
- A short read inside a chunk that delivers less than an alignment unit makes no progress: `Runner.ShortReadStandsStill`.
- A directory whose listing fails after it has delivered something is retried, and reported, each time; if it never stops failing the walk never ends. `Traversal.ListingEnds` says exactly which answers end the loop, `Traversal.FailureIsRetried` what is reported.
- The planner reckons with blocks that start anywhere, although they start at multiples of the heap's alignment; what that gives away is in `ChunkPlan.UnitGivenAway` and `ChunkPlan.UnitRefused`.

## Model

| member | source | states |
|---|---|---|
| Theorems.StepKeepsInv | src/CopyQueue.cpp:67-226 | Every step of the adding thread, the submit thread and the kernel keeps the engine's invariant. |
| Theorems.RunKeepsInv | src/CopyQueue.cpp:67-226 | The invariant holds at every state of every run. |
| Theorems.CopyIsRight | src/CopyQueue.cpp:67-226 | When the loop has returned and no error was reported, every destination equals its source byte for byte, for every interleaving, short transfer and cancellation. |
| Adding.GivenIsCopied | src/CopyQueue.cpp:67-226 | In a run that returns without an error the destinations are, one for one and in order, the sources that the adding thread was given. |
| Adding.Accepted | src/CopyQueue.cpp:736-769 | A file can be added if and only if it is empty, or its alignment is a power of two whose largest chunk that fits wherever a block may start is not empty and cuts it into at most 2^31 - 1 parts. |
| Adding.CanBeAdded | src/CopyQueue.cpp:736-813 | From any idle state steps of the adding thread alone lead to an idle state with that file, the parts of `AddCopyJob` as new runners at the end of the start queue, and the shared counter at their number. |
| Choices.AnySizes | src/CopyQueue.cpp:15-31 | Runs start from exactly the heaps, rings and caps that are taken for granted below, with two descriptors counted. |
| Choices.AnyRead | src/CopyRunner.cpp:267-295 | A read handed over may fail in any way or deliver any number of bytes up to what was asked and what the file holds, and nothing else. |
| Choices.AnyWrite | src/CopyRunner.cpp:301-325 | A write that may run may fail in any way or take any number of bytes up to its length; exactly a cancelled one is posted as such. |
| Choices.AnyOpen | src/QueueFileDescriptor.cpp:22-38 | Every open that is called for may succeed or fail; one of an open file succeeds. |
| Choices.AnyClose | src/CopyRunner.cpp:210-234 | A close may fail exactly where it is due: when the last part of a file goes without an error and one of its files is open. |
| Choices.AnyAddition | src/CopyQueue.cpp:736-813 | The adding thread may report an error until it joins, join or add between files, and try an early open with any outcome exactly as long as two descriptors stay free. |
| Choices.SubmitTakes | src/CopyQueue.cpp:165-174 | A submit takes at least one entry off the ring before it returns. |
| Choices.NobodyOvertakes | src/CopyQueue.cpp:97-125 | A runner that waits at some place of either queue has been taken up later on, or waits at no later place. |
| Theorems.WrittenFileIsRight | src/CopyRunner.cpp:241-341 | At any moment of any run, with errors elsewhere, a file all of whose parts are written equals its source. |
| Theorems.NeverAWrongByte | src/CopyRunner.cpp:157-194 | At every moment, with errors or without, an opened destination holds only source bytes or holes. |
| Theorems.OnePlaceEach | src/CopyQueue.cpp:71-206 | A live runner is in exactly one of start queue, continue queue, hands of the submit thread, or flight; a deleted one is nowhere. |
| Theorems.CountersAreExact | src/CopyRunner.cpp:64-74 | keepAliveCount counts the live runners; submissionsRunning is the number of outstanding jobs and the sum of the runners' jobsRunning, never above the ring size; every entry in a ring names a live runner. |
| Theorems.NothingLeftAtExit | src/CopyQueue.cpp:558-559 | When the loop has returned, nothing is outstanding, both queues and rings are empty and every heap block is free, also after errors. |
| Theorems.BlocksHaveOneOwner | src/CopyQueue.cpp:93-120 | Two live runners never share a heap block, nor does a runner share one with the spare buffer. |
| Theorems.BytesAreConserved | src/CopyRunner.cpp:317-321 | totalBytesCopied is the sum of what all runners ever created have written, never exceeds totalBytesToCopy, and meets it at the end of an error-free run. |
| Theorems.ReadsAreDirect | src/CopyRunner.cpp:126-155 | Every read handed to the kernel is aligned in file offset, buffer address and length, and stays inside the runner's own block. |
| Theorems.WritesAreRead | src/CopyRunner.cpp:157-194 | Every write the kernel may run sends bytes that are already in the buffer and are the source's bytes for that place. |
| Theorems.BetweenBatches | src/CopyRunner.cpp:115-196 | Buffer and source agree up to readOffset, destination and source agree up to writeOffset, both offsets stay in the chunk, and nothing is written before all of it has been read. |
| Theorems.RingHasRoom | src/CopyRunner.cpp:70-72 | When a batch is issued, both of its entries fit: the busy loop exits at once. |
| Theorems.CompletionsFit | src/CopyQueue.cpp:87-91 | Neither ring ever holds more than ringSize entries. |
| Theorems.DescriptorCap | src/QueueFileDescriptor.cpp:52-63 | fileDescriptorsUsed stays between the reserve and the cap, and a low-priority reservation leaves two descriptors. |
| Theorems.HighPriorityNeverWaits | src/CopyQueue.cpp:113-126 | Past its check the submit thread finds a descriptor for each open it still needs, and never wants a closed file. |
| Theorems.KernelWorksOnOpenFiles | src/CopyRunner.cpp:144-171 | Requests with the kernel are on two open files whose shared objects still exist. |
| Theorems.ChunkCounterIsExact | src/CopyRunner.cpp:39-46 | The shared counter is parts not yet added plus live runners, so it reaches zero exactly when the last part of a fully added file goes. |
| Theorems.LastPartCloses | src/CopyRunner.cpp:210-234 | When the last part goes, its files are closed if and only if it saved its error while it was the only part left, or saved none and either has bytes or ended without an error, or nothing was open. |
| Theorems.DescriptorsReturn | src/QueueFileDescriptor.cpp:40-44 | After an error-free run every file is closed and only the reserve and the reservations of failed early opens are still counted. |
| Progress.PassTakesUp | src/CopyQueue.cpp:82-129 | In any reachable state the pass that begins takes up the first continued runner or else the front if and only if additions are complete or fewer bytes have been copied than an eighth of those to copy, rounded down, two entries fit, and a runner is to be continued or the front has a buffer and its descriptors. |
| Progress.SpareIsClaimed | src/CopyQueue.cpp:92-95 | A pass that may take runners up claims the lowest free block as spare buffer if there is one, even where it continues a runner; any other pass changes nothing. |
| Progress.NoDeadlock | src/CopyQueue.cpp:82-163 | Once additions are complete and the kernel has nothing to do, queued entries or not, the pass takes a runner up if and only if the engine is not held up, and if it is, it is stuck. With nothing outstanding and no error it always takes one up. |
| Progress.StuckForever | src/CopyQueue.cpp:74-225 | A stuck engine stays stuck under any continuation, keeps its queued entries, and never exits. |
| Progress.StarvedForever | src/QueueFileDescriptor.cpp:28-34 | Starved of descriptors with nothing outstanding, the engine is stuck for ever. |
| Progress.StartedFileIsFront | src/CopyQueue.cpp:105-125 | A started, unfinished file with nothing in flight is the front's own: the start queue keeps a file's parts together. |
| Progress.NotStarved | src/CopyQueue.hpp:85-87 | Without errors, either the front's files are open already or two descriptors are free. |
| Progress.LeftBehindForever | src/CopyQueue.cpp:165-174 | Entries left in the ring with nobody left to add stay there for ever, and the loop does not exit. |
| Progress.StuckHasLeftovers | src/CopyQueue.cpp:165-174 | Without errors, and with a ring and heap that allow a start, the engine is stuck only over entries left in the ring. |
| Progress.TooSmallToStart | src/CopyQueue.cpp:86-105 | With fewer than two ring entries or no heap block, no runner ever leaves the start queue. |
| WorkBound.BoundedWork | src/CopyRunner.cpp:286-340 | After additions, a run does at most as many pieces of work as the measure of its first state, if reads and lone writes move forward. |
| WorkBound.ReadPays | src/CopyRunner.cpp:286-295 | Under the forward assumption a processed read never lowers readOffset, and raises it unless it saves an error. |
| WorkBound.WritePays | src/CopyRunner.cpp:317-337 | A reschedule follows either a linked batch or a write that brought bytes. |
| WorkBound.WorkStep | src/CopyRunner.cpp:286-340 | Every piece of work strictly lowers the measure, which charges twice the bytes still to move plus the runner's position. |
| WorkBound.KernelOwes | src/CopyQueue.cpp:177-184 | If jobs are outstanding and both rings are empty, the kernel has a step to take. |
| Termination.RunLength | src/CopyQueue.cpp:74-225 | A run after additions, with errors or without, is stuck at its end or has at most as many steps as the work left pays for plus six for each pass that ends while the kernel has been handed a job. |
| Termination.PromptRunLength | src/CopyQueue.cpp:74-225 | If something is done between two such passes, the work left alone bounds the run, unless it gets stuck. |
| Termination.LoopEnds | src/CopyQueue.cpp:74-225 | A run after additions with forward answers, submits that empty the ring, a kernel that keeps up, two ring entries and a block, and no error, is never stuck and is bounded; until the loop has returned some step in which no call fails extends it to a run of the same kind. |
| Termination.LoopReturns | src/CopyQueue.cpp:67-226 | Any such run with no error reported or under way extends, within the same bound, to one in which the loop has returned without an error and every destination equals its source. |
| Termination.StepAvailable | src/CopyQueue.cpp:67-226 | In every reachable state before the return the submit thread itself has a step, in which no call fails and no submit ends before the ring is empty. |
| Faultless.NoFailureNoError | src/CopyQueue.cpp:137-206 | A run from the start in which no call fails and no read comes back empty, with any short transfers, cancellations and failed early opens, reports no error and has none under way. |
| Errors.JoinTellsFailures | src/CopyQueue.cpp:191-193 | When the loop has returned, an error has been reported if and only if a call failed in the run: one of the adding thread, an open that was needed, a close, or a read or write. |
| Errors.FailureIsReported | src/CopyRunner.cpp:82-89 | From a failing call on, at every moment an error has been reported, or the runner that made the call is alive and on its way to report it. |
| Faultless.CanAnswer | src/CopyRunner.cpp:267-325 | Whatever job the kernel has been handed and not answered, it can answer without a failure and moving the copy forward. |
| Examples.OneFailedOpenStarves | src/QueueFileDescriptor.cpp:28-34 | A reachable state in which one failed open starves the next file. |
| LeftoverExamples.LeftoversStarve | src/CopyQueue.cpp:165-174 | A reachable stuck state in an error-free run: a partial submit left entries whose file holds the descriptors the next file waits for. |
| LeftoverExamples.FullSubmitReturns | src/CopyQueue.cpp:165-174 | From the state just before that partial submit ends, a run whose submits empty the ring leads to the return without an error and with every destination right: the conditions of `LoopReturns` can be met. |
| LeftoverExamples.BothLeftOpen | src/CopyRunner.cpp:82-88 | A reachable state in which a two-part file is given up with both files open, because the other part finished between the two completions of the failing one. |
| Examples.SourceLeftOpen | src/CopyQueue.cpp:137-144 | A reachable state in which an empty file's source stays open after the file is given up. |
| ChunkInvariant.RequestsAreExact | src/CopyRunner.cpp:118-169 | For chunks of valid geometry the 32-bit request lengths are the exact remainders, rounded up for reads. |
| ChunkInvariant.ReadStaysInChunk | src/CopyRunner.cpp:288-295 | What a read of an unfinished chunk returns never carries readOffset past the chunk's end. |
| ChunkInvariant.ReadOk | src/CopyRunner.cpp:126-155 | A completed read keeps the runner's invariant: the buffer then holds the source's bytes as far as the result says. |
| ChunkInvariant.WriteOk | src/CopyRunner.cpp:157-194 | A completed write keeps the runner's invariant: the destination then agrees with the source as far as the result says. |
| ChunkInvariant.ReapReadOk | src/CopyRunner.cpp:267-299 | Processing a read's result, short, empty or failed, keeps the runner's invariant. |
| ChunkInvariant.ReapWriteOk | src/CopyRunner.cpp:301-325 | Processing a write's result, short, cancelled or failed, keeps the runner's invariant. |
| Runner.WideChunkSkipsRead | src/CopyRunner.cpp:118-126 | A fresh chunk's first batch has no read if and only if its length is a multiple of 2^32; then an empty write brings it back unchanged. |
| WideChunk.ExactRequests | src/CopyRunner.cpp:118-169 | All requests of a chunk are exact in every state between batches if and only if its size, rounded up to the alignment, fits 32 bits. |
| WideChunk.CanFinish | src/CopyRunner.cpp:118-340 | Some answers of the kernel let a fresh chunk finish if and only if its rounded-up size fits 32 bits. |
| WideChunk.EmptyBatch | src/CopyRunner.cpp:118-169 | A batch is an empty write alone exactly if what is left to read and to write are multiples of 2^32; its completion then brings back the same runner. |
| WideChunk.WideChunkStalls | src/CopyRunner.cpp:286-340 | Every forward run of a chunk of 2^32 bytes or more, in whole alignment units, comes to such a batch within the bytes the counts still see. |
| Runner.FailuresAreSaved | src/CopyRunner.cpp:267-325 | An answer saves an error exactly if it is a failed or empty read or a write that fails otherwise than by being cancelled; after an error answers are only counted. |
| Runner.ShortReadStandsStill | src/CopyRunner.cpp:288-295 | A read that stops inside the chunk moves readOffset on if and only if it delivered an alignment unit. |
| CopyRunner.CopyRunner.constructor | src/CopyRunner.cpp:10-28 | A new runner starts at its part's offset without a buffer, and is counted alive. |
| CopyRunner.CopyRunner.GiveBuffer | src/CopyRunner.cpp:49-62 | Both release asserts hold: the address is aligned and the chunk, rounded up, fits in the block behind it. |
| CopyRunner.CopyRunner.SubmitReadWriteCommands | src/CopyRunner.cpp:91-197 | With both files open or opened, the requests are those of the engine and exactly they are counted; otherwise nothing is requested, the chunk counts as failed, and the last chunk closes what is open. |
| CopyRunner.CopyRunner.HandleFileClose | src/CopyRunner.cpp:210-234 | Both files are closed and uncounted if this is the last remaining chunk, otherwise nothing changes; an error is returned exactly if a close that was due failed. |
| CopyRunner.CopyRunner.SaveError | src/CopyRunner.cpp:82-89 | Only the first error is saved, and it closes the files if the chunk is the last. |
| CopyRunner.CopyRunner.OnCompletionEvent | src/CopyRunner.cpp:241-341 | The object's new fields, verdict, byte count and closing are those the engine's transition prescribes, on which all theorems rest. |
| CopyRunner.CopyRunner.Delete | src/CopyRunner.cpp:30-47 | The buffer is handed back, the counters fall by one, and the shared objects go with the last chunk. |
| SubmitLoop.SubmitLoop | src/CopyQueue.cpp:67-226 | Every path through the nested loops is a run of the engine; if the loop returns, additions are complete and no runner is alive, and without errors every destination equals its source. |
| SubmitLoop.SubmitPhase | src/CopyQueue.cpp:79-163 | The submit phase ends under any interference, and reports additions exactly when the ring got entries. |
| SubmitLoop.Choose | src/CopyQueue.cpp:84-129 | The runner chosen is the one the engine takes up, a file's opens come next, and the waiting runners shrink by one. |
| SubmitLoop.AddToBatch | src/CopyRunner.cpp:91-197 | Either both files are open and the batch is in the ring, or the runner is on its way to closing, deletion and the end of the pass. |
| SubmitLoop.CompletePhase | src/CopyQueue.cpp:177-210 | The completion phase ends under any interference, and only when nothing is outstanding or no completion waits. |
| SubmitLoop.Machine.EnsureOpened | src/QueueFileDescriptor.cpp:22-38 | The engine's open is always possible where the loop asks for it, and its outcome decides where the loop goes. |
| ChunkPlan.AddCopyJob | src/CopyQueue.cpp:736-787 | The planner aborts exactly on a chunk size of zero; a file whose alignment allows one unit wherever a block may start is cut into stretches of the largest size that fits so; and the shared counter starts at the number of parts if and only if that fits 32 bits. |
| ChunkPlan.ChunkSizeLargest | src/CopyQueue.cpp:757-765 | A usable chunk size is the largest multiple of the alignment that fits wherever a block may start, and there is one if and only if one unit fits so. |
| ChunkPlan.CutIsOne | src/CopyQueue.cpp:775-784 | A file is cut into stretches of a size in one way only. |
| ChunkPlan.UnitGivenAway | src/CopyQueue.cpp:760-764 | Since blocks start at multiples of the heap's alignment, one more unit would fit if and only if that is above a byte and the block falls short of a multiple of the file's alignment by just it; two never would. |
| ChunkPlan.UnitRefused | src/CopyQueue.cpp:760-767 | The planner refuses a file whose chunks could hold one unit exactly if the block is two units less the heap's alignment, and that is above a byte. |
| ChunkPlan.PadIsGap | src/CopyRunner.cpp:49-62 | The padding `giveBuffer` leaves is the distance to the next multiple of the alignment. |
| ChunkPlan.AddParts | src/CopyQueue.cpp:775-784 | The loop ends and yields exactly the planned parts in order. |
| ChunkPlan.PartShape | src/CopyQueue.cpp:775-784 | Parts are contiguous, not empty, all but the last of chunk size, and the last ends at the end of the file. |
| ChunkPlan.PartHolding | src/CopyQueue.cpp:775-784 | Every byte of the file lies in a part. |
| ChunkPlan.PartsDisjoint | src/CopyQueue.cpp:775-784 | Different parts do not overlap. |
| ChunkPlan.CountedMeaning | src/CopyQueue.cpp:769-773 | The precomputed count is right if and only if the number of chunks fits an int32. |
| ChunkPlan.ChunkSizeUsable | src/CopyQueue.cpp:757-767 | For an alignment above the heap's, the chunk size is usable if and only if one aligned unit fits wherever a block starts. |
| ChunkPlan.ChunkSizeAligned | src/CopyQueue.cpp:757-765 | A planned chunk size is a positive multiple of the alignment and at most a block. |
| ChunkPlan.PadFits | src/CopyRunner.cpp:58-61 | Alignment padding and the chunk rounded up fit into every block. |
| ChunkPlan.GiveBufferNeverAsserts | src/CopyRunner.cpp:60-61 | For every part of every planned file and every block, the release asserts hold. |
| ChunkPlan.ReadsNeedWholeBlocks | src/CopyRunner.cpp:138-144 | Reads of full chunks stay in every block if and only if the block size is a multiple of the alignment. |
| ChunkPlan.AssertsNeedWholeBlocks | src/CopyRunner.cpp:60-61 | Full chunks pass the asserts in every block if and only if the block size is a multiple of the alignment. |
| Arithmetic.AlignAddressMeaning | src/CopyRunner.cpp:58 | The add-and-mask expression on 64-bit words yields the least aligned address not below the block. |
| SubmissionRing.SubmissionRing.GetSqe | liburing/src/queue.c:374-399 | Null exactly if no space is left, across wrap-around; otherwise a slot that is not outstanding, appended to those handed out. |
| SubmissionRing.SubmissionRing.FlushSq | liburing/src/queue.c:200-240 | Everything handed out becomes visible to the kernel in order, nothing else changes, and the count returned is exact. |
| SubmissionRing.SubmissionRing.Consume | liburing/man/io_uring.7:60-64 | The kernel, reading through the index array, gets the oldest outstanding entry. |
| SubmissionRing.SubmissionRing.Submit | liburing/src/queue.c:328-362 | What the kernel takes is a prefix of the queue in order, and the rest stays queued. |
| SubmissionRing.SubmissionRing.Put | src/CopyRunner.cpp:64-74 | Obtaining and filling an entry appends it to a FIFO queue and disturbs no other entry. |
| SubmissionRing.SubmissionRing.NoSlotTwice | liburing/src/queue.c:374-385 | Outstanding slots are pairwise different. |
| RingCounters.RoomTest | liburing/src/include/liburing.h:511-530 | The test in get_sqe on wrapped words agrees with sq_space_left. |
| RingCounters.MaskedIndex | liburing/src/queue.c:381 | The masked counter is the counter modulo the ring size, also after wrap-around. |
| RingCounters.SlotsDiffer | liburing/src/queue.c:374-385 | A ring that is not overfull never uses a slot twice. |
| CompletionRing.CompletionRing.PeekCqe | liburing/src/queue.c:42-76 | The loop yields and leaves what the recursive reading of the queue says. |
| CompletionRing.PeekMeaning | liburing/src/queue.c:42-76 | Peeking loses no completion of the program and yields the oldest one that is no timeout, unless a failed timeout stands before it. |
| CompletionRing.PeekExactly | liburing/src/queue.c:42-76 | A peek drops the timeouts that went off in front, and yields the completion behind them or reports a failed timeout and drops it. |
| CompletionRing.PeekWithoutTimeouts | liburing/src/queue.c:42-76 | Without timeouts, as in wcp, a peek yields the oldest completion and consumes nothing. |
| CompletionRing.CompletionRing.PeekBatch | liburing/src/queue.c:160-194 | The first min(count, ready) completions, in order, across wrap-around; an empty ring is refilled once from what the kernel kept back, losing nothing. |
| CompletionRing.CompletionRing.Advance | liburing/src/include/liburing.h:166-178 | Consumes exactly the n oldest completions. |
| CompletionRing.CompletionRing.Post | liburing/man/io_uring.7:67-72 | A posted completion is appended to the queue and overwrites none that waits. |
| Heap.Heap.GetBlock | src/Heap.cpp:64-71 | The first free block is taken; null exactly if none is free. |
| Heap.Heap.ReturnBlock | src/Heap.cpp:83-88 | The division finds the block the address came from, and exactly its flag falls. |
| Heap.Heap.GetFreeBlocksCount | src/Heap.cpp:91-104 | The loop counts the free blocks. |
| Heap.Heap.AddressesAreBlocks | src/Heap.cpp:67-86 | Address and index are inverse, and different blocks are disjoint ranges inside the heap. |
| Heap.NoneFree | src/Heap.cpp:91-104 | The count is zero exactly if every block is used, and the block count exactly if none is. |
| HeapUse.SameBlock | src/Heap.cpp:64-71 | The block the engine takes is the one the scan finds. |
| HeapUse.AllFree | src/CopyQueue.cpp:559 | The free count equals the block count exactly if no owner is left. |
| HeapSharing.OneHolderEach | src/Heap.cpp:64-71 | With any interleaving of swaps by any number of threads no block has two holders, and free plus held blocks are the heap. |
| HeapSharing.NullMeansFull | src/Heap.cpp:64-71 | A scan that ends in null without a return in between ends with every block held. |
| HeapSharing.NullWithoutReturns | src/Heap.cpp:64-71 | A call that ends in null, with no block returned since it began, ends with every block held. |
| HeapSharing.FullGivesNothing | src/Heap.cpp:64-71 | While every block is held and none returns, nobody gets one. |
| Descriptors.SpinIsBounded | src/QueueFileDescriptor.cpp:22-63 | With loads and swaps interleaved: the cap holds, low reservations leave two, a high one never finds the counter at the cap and fails no more often than there was low-priority room. |
| Descriptors.UndisturbedSucceeds | src/QueueFileDescriptor.cpp:28-32 | A high-priority attempt without interference succeeds. |
| Descriptors.UndisturbedTakes | src/QueueFileDescriptor.cpp:52-63 | Undisturbed, a low attempt reserves if and only if it leaves two descriptors, and the submit thread goes ahead if and only if two are free. |
| Descriptors.ReservationIsAtomic | src/QueueFileDescriptor.cpp:52-63 | Every run of interleaved loads and swaps leads where a run of one-step reservations leads. |
| DescriptorUse.EngineMoves | src/QueueFileDescriptor.cpp:22-63 | Every step of the engine is, for the counter and what the submit thread is promised, a sequence of those one-step moves. |
| DescriptorUse.SameGuards | src/QueueFileDescriptor.cpp:52-63 | The engine allows an open exactly where the one-step reservation is allowed. |
| Descriptors.QueueFileDescriptor.constructor | src/QueueFileDescriptor.cpp:7-15 | One low attempt; a failed open keeps its reservation and leaves the file unopened. |
| Descriptors.QueueFileDescriptor.Reserve | src/QueueFileDescriptor.cpp:52-63 | Succeeds if and only if the loaded count is below the limit and nobody came in between. |
| Descriptors.QueueFileDescriptor.EnsureOpened | src/QueueFileDescriptor.cpp:22-38 | The spin ends within the room for low reservations plus one attempt, takes exactly one reservation, and is skipped for an open file. |
| Descriptors.QueueFileDescriptor.NotifyClosed | src/QueueFileDescriptor.cpp:40-44 | The file is marked closed and its descriptor uncounted. |
| RollingBitset.AddRefinesPush | src/ETACalculator.cpp:99-117 | The shifted and masked word stands for the history with the value pushed in front: count min(n, 56), bit i the i-th most recent. |
| RollingBitset.HistoryHeld | src/ETACalculator.cpp:99-117 | The word holds the last 56 values and their number. |
| RollingBitset.RollingBitset.AddToBuff | src/ETACalculator.cpp:99-117 | Under rival additions the swap loop pushes its value exactly once, on top of what the others had pushed by then. |
| RollingBitset.RollingBitset.GetBitsOnCount | src/ETACalculator.cpp:119-129 | The shifting loop returns the number of set bits under the mask. |
| RollingBitset.LastEight | src/ETACalculator.cpp:12-13 | The masked bit count is the number of trues among the last eight, hence at most eight. |
| RollingBitset.CountIsTopByte | src/ETACalculator.hpp:19 | The masked and shifted count is the word's top byte. |
| RollingBitset.RollingBitset.Bucket | src/ETACalculator.cpp:8-13 | A bucket is picked exactly once eight copies are on record, and it is one of the nine. |
| Traversal.AddRecursiveCopy | src/CopyQueue.cpp:577-716 | The walk ends; what it does is exactly what is due for the tree: each regular file, link and directory once, at the same relative path, and as many reports as things go wrong; every directory is made before anything is put into it. |
| Traversal.Walk.Run | src/CopyQueue.cpp:595-715 | The stack loop ends and emits, each as often, what the recursive reading of the tree expects. |
| Traversal.Walk.VisitDirectory | src/CopyQueue.cpp:597-714 | One directory off the stack, readable or not, emits or defers exactly what it stands for. |
| Traversal.Walk.VisitAnswers | src/CopyQueue.cpp:610-714 | The listing loop, with failing calls, ends where the answers do and emits or defers exactly what they stand for. |
| Traversal.Walk.VisitEntry | src/CopyQueue.cpp:630-711 | One entry of any type emits or defers exactly what it stands for. |
| Traversal.JobsAreFiles | src/CopyQueue.cpp:663-688 | A copy job is expected if and only if following its path leads to a readable regular file, and with the size that statx gives for it. |
| Traversal.LinksAreLinks | src/CopyQueue.cpp:690-703 | A link is made if and only if following its path leads to a link that can be read, listed as such or without a type and found so, and with its target. |
| Traversal.DirsAreDirs | src/CopyQueue.cpp:654-662 | A directory is made if and only if following its path leads to one, the two dots aside. |
| Traversal.EventsAreDue | src/CopyQueue.cpp:610-714 | Something is done or reported if and only if it is due for an entry that can be reached, or the root cannot be read. |
| Traversal.ReportsIn | src/CopyQueue.cpp:597-714 | The number of reports is the number of things that go wrong: directories that cannot be opened, failing listings, needed lookups that fail, links that cannot be read or made, other types. |
| Traversal.OnceEach | src/CopyQueue.cpp:654-703 | Nothing is made or copied twice. |
| Traversal.ListingEnds | src/CopyQueue.cpp:610-714 | The loop over a directory's answers ends if and only if the first call fails or some call delivers nothing. |
| Traversal.ListingNeedNotEnd | src/CopyQueue.cpp:610-622 | With one entry delivered and every later call failing, no number of turns ends the loop, and n calls report n - 1 failures. |
| Traversal.FailureIsRetried | src/CopyQueue.cpp:610-622 | A listing that fails at once is reported once; one that fails after delivering is retried and reported at each failure. |

## Left out

- Progress display, terminal formatting, the floating-point estimate and the speed averaging: user interface; only the history and its bucket index are modelled.
- System calls and their wrappers: replaced by the kernel contract above; opens, closes, `statx`, `getdents` and `readlink` answer as the environment likes.
- `io_uring_prep_*` fields beyond operation, offset, length, link flag and user data; polling modes and waiting for completions, which wcp does not use.
- `VALGRIND_MODE` and the `DEBUG_FORCE_PARTIAL_*` modes: the kernel's short transfers cover the latter.
- Memory ordering weaker than sequential consistency.
- A source that grows while it is copied: its reads could carry readOffset past the chunk's end.
- Completion ring overflow inside the engine: `Theorems.CompletionsFit` shows it cannot arise.
- `ExitProcessNoCleanup`, which ends the process instead of returning from the loop, and argument parsing.
- totalBytesFailed, which only the progress display reads: the model keeps it and proves nothing about it.
- Reuse of a queue after `join`: the model is one run from start to join.
- SubmitLoop.SubmitLoop: its outer loop runs for a given number of passes, because the source's loop spins while it waits, for ever if it is stuck; `Termination.RunLength` says when and how soon it ends.
- RollingBitset.RollingBitset.AddToBuff: rivals interfere for finitely many rounds, because with rivals for ever the source's loop need not end.
- Traversal.AddRecursiveCopy: the tree does not change during the walk, every directory's loop ends in the sense of `Traversal.ListingEnds`, and following links where the file system gives no types never leads round in a circle.
