# Verification of the archive reader's coordination code

The decoders of a 7z reader are other people's work; what is its own is the
coordination around them. This project models that coordination in Dafny and
proves what it promises, for every input, every schedule and every run.

| part | modules |
|---|---|
| Ordered fan-out: workers claim folder jobs inside a sliding window, each fills its own byte-capped queue, the caller drains the queues in job order | `FanOutMonitor`, `FanOut`, `FanOutInvariant`, `FanOutWakeups`, `FanOutTheorems`, `FanOutTermination`, `FanOutRuns` |
| Coder pipeline: stages on threads of their own joined by bounded pipes, fed and drained by the caller's thread | `PipeState`, `Pipeline`, `PipelineInvariant`, `PipelineSteps`, `PipelineTheorems`, `PipelineBytes`, `PipelineEndings`, `PipelineReads`, `PipelineUpkeep` |
| Coder graphs: validation by an explicit-stack walk, the plan of threads, the recursive and the linear decoder builder, compact storage | `CoderGraph`, `GraphValidation`, `GraphTree`, `OffloadPlan`, `StackBuilder`, `StackOnce`, `StackOutcome`, `CoderStorage`, `BlockStorage`, `CoderOrder` |
| Header maps: sub-stream sizes and digests, files and their blocks | `Sums`, `SubStreams`, `StreamMap`, `FilesInfo`, `HeaderFolders` |
| Folder delivery: the walk over a block's files, the worker and its replay, checksums that arrive late, direct writes, the plan of parallel folders | `FolderFiles`, `FolderVouching`, `BlockChain`, `FolderReplay`, `FolderWalk`, `FolderDelivery`, `FolderFanOut`, `FoldedChecks`, `ReaderStack`, `PushCopy`, `FolderPlan` |
| Byte framing: LZ4 in announced frames, bit vectors | `Lz4Framing`, `Lz4Reading`, `BitVector` |
| Shared by several parts: values that may be missing, bytes, counting | `Common`, `Counting` |

Threads are modelled as steps. A section of code that holds a lock is one step;
each condition variable has its sleepers, each of them woken or not, and a
notification that has not yet been sent is part of the state of the thread that
owes it. Objects whose methods update fields are classes whose methods are
proved against functions on values, and the theorems are about those functions.
Decoders, checksums and the LZ4 frame codec are parameters: arbitrary functions,
arbitrary scripts of output and failures, or answers chosen freely at each call.
Reads may stop short anywhere: wherever a reader is free to return fewer bytes
than asked for, the model chooses freely.

Three places where the code does not do what its description suggests, all
followed as the code has them:

- When a header lists no sub-stream sizes although a block has several
  sub-streams, the sizes of later blocks are put in the places of earlier ones.
  The blocks' sub-streams then add up exactly when no block with bytes follows
  one with several sub-streams (`SubStreams.UnlistedSumsRightExactlyWhen`, with
  a concrete failure in `SubStreams.UnlistedSumsCanBeWrong`).
- With sizes misplaced like that, or in a block built by hand, a file can
  straddle the end its checked block declares. Such a file comes out whole when
  one read brings it past that end to its own, and fails when a read stops at or
  past that end before (`BlockChain.TwoReaders`, `FolderFiles.ThirtyInTwenty`),
  so a folder walked directly and the same folder decoded by a worker, whose
  reads are larger, can end differently. For given sizes and flags there is one
  outcome, whatever the bytes and the checksums, exactly when no file straddles
  (`FolderFiles.OneWayExactlyWhen`), and none does when sizes are listed, when
  every block is one stream, or when no block with bytes follows one with
  several sub-streams (`HeaderFolders.ReadFolder`).
- The framed LZ4 writer writes nothing for no data, and the reader refuses
  nothing as too short; every other input comes back
  (`Lz4Reading.RoundTrip` states both).

## Model

| member | source | states |
|---|---|---|
| FanOutMonitor.Monitor.SlotIndex | src/ordered.rs:94-100 | reaching for a job's queue creates it and those before it, and finds none for a job the caller has passed |
| FanOutMonitor.Monitor.Send | src/ordered.rs:117-142 | one pass of a send: rejected when cancelled or passed, accepted into an empty queue whatever it weighs, and otherwise only within the cap |
| FanOutMonitor.Monitor.Close | src/ordered.rs:145-158 | a worker done with its job leaves the count of busy jobs and closes its queue |
| FanOutMonitor.Monitor.Receive | src/ordered.rs:170-196 | the front message and its weight leave the queue; over when the queue is closed, or unclaimed with no worker left |
| FanOutMonitor.Monitor.Claim | src/ordered.rs:236-262 | the next job is claimed only inside the window and the pace |
| FanOutMonitor.Monitor.Advance | src/ordered.rs:437-445 | the caller moves past a job, read or not, and a failure cancels |
| FanOutInvariant.SendEffect | src/ordered.rs:117-142 | what a send pass changes and, when it finds no room, that the queue is full for that message |
| FanOutInvariant.ClaimEffect | src/ordered.rs:236-262 | what a claim changes: exactly one more slot claimed, inside the window, or a reason to wait |
| FanOutInvariant.RecvEffect | src/ordered.rs:170-196 | what a receive changes, and that the caller is told the job is over only when nothing more can come |
| FanOutInvariant.WakeIsOnlyWoken | src/ordered.rs:139-141 | a wake-up changes nothing but who sleeps |
| FanOutWakeups.ProducersAfterCaller | src/ordered.rs:176-186 | skipping the wake-up when nobody counts as sending strands no producer |
| FanOutWakeups.ProducersAfterWorker | src/ordered.rs:128-141 | a producer goes to sleep only on a queue that is full for it, and no other worker unfills it silently |
| FanOutWakeups.CallerAfterWorker | src/ordered.rs:131-135 | a sleeping caller is woken by every change to the queue it waits on |
| FanOutWakeups.AdmissionAfterCaller | src/ordered.rs:440-453 | waking one worker per job consumed covers every place that opens in the window |
| FanOutWakeups.AdmissionAfterClaim | src/ordered.rs:236-262 | while a worker sleeps un-woken on admission, the open places are covered by woken workers |
| FanOutWakeups.AdmissionAfterWorker | src/ordered.rs:146-157 | a worker's own steps keep sleepers on admission covered, with a pace and without one |
| FanOutTheorems.InvKept | src/ordered.rs:229-267 | every step keeps the whole invariant |
| FanOutTheorems.NeverDeadlocks | src/ordered.rs:427-458 | in every reachable state short of the end some thread can step, spurious wake-ups not counted |
| FanOutTheorems.ReceivedIsPrefixOfSent | src/ordered.rs:170-196 | for every schedule the caller has a prefix of what each job sent, in order, nothing of a later job, and all of it once told the job is over |
| FanOutTheorems.SlotBelongsToItsJob | src/ordered.rs:94-100 | the queue at position x is the queue of job current + x and holds exactly what that job sent and the caller has not taken |
| FanOutTheorems.StagingIsBounded | src/ordered.rs:117-137 | at most window queues, each within the cap or holding one message |
| FanOutTheorems.PaceIsKept | src/ordered.rs:243-256 | jobs in hand are counted exactly and never exceed the widest pace answered, taken as at least one |
| FanOutTheorems.NoClaimPastFailure | src/ordered.rs:442-457 | after the consumer fails at a job, no job at or past it plus the window is ever claimed |
| FanOutTermination.RunsAreFinite | src/ordered.rs:369-461 | a run is no longer than its configuration, its sends and its receives allow |
| FanOutTermination.FinishedWhenNothingMoves | src/ordered.rs:369-461 | a run that cannot go on has returned, with every worker gone |
| FanOutRuns.EveryJobIsConsumed | src/ordered.rs:431-458 | the consumer is handed the jobs 0, 1, 2, … one after the other; once the caller is done, with a worker started and a consumer that never failed, it has been handed every job |
| FanOutRuns.EverythingProducedArrives | src/ordered.rs:117-196 | what the caller is given of a job is a prefix of what its producer sent, and all of it once the caller is told the job is over: nothing is lost, repeated or reordered on the way |
| FanOutRuns.ToldOverHasAll | src/ordered.rs:170-196 | over steps: a receive that was answered with no more messages means that all the producer sent has come, and, where no worker fails, that a worker claimed the job |
| FanOutRuns.WithinThePace | src/ordered.rs:243-256 | jobs in hand never exceed the widest pace any claim was answered with, taken as at least one |
| FanOutRuns.OverMeansClaimed | src/ordered.rs:187-189 | where no worker fails, a job is over only when a worker claimed it: none is passed over |
| FanOutRuns.WorkersAsAsked | src/ordered.rs:405 | as many workers as asked for, at least one, no more than there are jobs |
| FanOutRuns.AllAreStarted | src/ordered.rs:404-423 | every one of them is started before the first job is consumed, unless a thread is refused |
| FanOutRuns.PanickedWorkerIsDone | src/ordered.rs:411-416 | a worker that panicked, building its state or producing, never claims again |
| FanOutRuns.NoClaimPastTheFailure | src/ordered.rs:442-457 | over any run, once the consumer has returned a failure at a job, nothing at or past that job plus the window is claimed |
| FanOutRuns.FewAreWoken | src/ordered.rs:447-453 | without a pace, all sleepers on admission are woken together only after a failure or by a farewell |
| PipeState.PipeCell.Room | src/pipeline.rs:292-294 | a pipe has room while fewer than its depth of pieces wait in it |
| PipeState.PipeCell.Spare | src/pipeline.rs:296-300 | the last recycled piece is reused before a new one is made |
| PipeState.PipeCell.Send | src/pipeline.rs:303-314 | a filled piece is queued, an empty one recycled, and the end or the fault recorded |
| PipeState.PipeCell.Take | src/pipeline.rs:320-348 | pieces come first; a clean end repeats, a fault is handed over once and then replaced |
| PipelineSteps.AfterReadPass | src/pipeline.rs:451-475 | a stage's read keeps the invariant whether it is served, starved or abandoned |
| PipelineSteps.AfterLook | src/pipeline.rs:492-514 | the pump leaves every feed it has passed full or done |
| PipelineSteps.InvKept | src/pipeline.rs:417-440 | every step of every thread keeps the invariant |
| PipelineTheorems.SleepingCallerIsFed | src/pipeline.rs:539-569 | below a sleeping caller there is a stage that can run |
| PipelineTheorems.NoChangeSleptThrough | src/pipeline.rs:539-569 | a caller asleep un-woken saw the present generation, its pipe is still empty, and every feed is full or done |
| PipelineTheorems.NeverDeadlocks | src/pipeline.rs:417-570 | in every reachable state before the last join something can step |
| PipelineTheorems.ReadsTellTheWholeStream | src/pipeline.rs:284-349 | one pipe's reads, until the block is abandoned, are told a prefix of what was written; all of it before a clean end, which repeats, or before the fault, which comes once and never turns into a clean end |
| PipelineTheorems.TopReadsTheComposition | src/pipeline.rs:386-475 | through any number of stages and any interleaving, the top is told a prefix of the composition of the stages applied to the bottom's bytes, all of it before a clean end; and through stages that hand their input's end on, the bottom's own end or fault |
| PipelineTheorems.BuffersAreBounded | src/pipeline.rs:50-53 | never more than the pipe's depth and one buffer more alive |
| PipelineTheorems.AbandonedStepSpends | src/pipeline.rs:517-528 | after abandonment every step of a stage uses up one of those it has left |
| PipelineTheorems.AbandonedRunsAreFinite | src/pipeline.rs:517-528 | and a run from there takes no more steps than the stages had left, twice the reads of their coders, and one |
| PipelineTheorems.AbandonedRunsReturn | src/pipeline.rs:517-528 | so whatever the schedule, a run that has gone on that long has every stage exited and the joins returned |
| PipelineTheorems.OverWhenNothingMoves | src/pipeline.rs:517-528 | and a run that can go no further has every stage exited and the joins returned |
| PipelineBytes.ProducedIsWhatWasYielded | src/pipeline.rs:389-405 | what a pipe carries is exactly what its coder yielded, piece by piece, unless the coder panicked |
| PipelineEndings.EndsAsItsWriterDid | src/pipeline.rs:730-739 | over any run, a clean end is told only when the writer stopped cleanly, and a fault only when it stopped with that fault or its coder panicked; a panic is never told as an end, and as no other fault |
| PipelineEndings.TheEndIsLeft | src/pipeline.rs:303-314 | a writer that is done has left what it ended with in its pipe, or its reader has been told |
| PipelineEndings.ReadsAreWhatWasYielded | src/pipeline.rs:386-475 | what a reader is told is a prefix of what the coder or the source yielded even when the coder panics, and all of it before a clean end or the coder's own fault |
| PipelineReads.EveryReadIsAnswered | src/pipeline.rs:451-475 | until the block is abandoned the reads of a pipe are answered one for one, in order: with data, at least a byte and no more than was asked for, with the end, or with an error |
| PipelineUpkeep.PiecesAreUsedAgain | src/pipeline.rs:296-348 | however long it runs a pipe makes no more pieces than its depth and one, which is the memory the plan charges for it |
| PipelineUpkeep.EveryTakeTopsUp | src/pipeline.rs:488-570 | between taking from its pipe and having its answer, or sleeping, the caller goes past every pack stream's pipe and leaves each full or at its end as it passes |
| CoderGraph.FindIn | src/block.rs:411-413 | the first bind pair that names an input stream |
| CoderGraph.WalkGraph | src/reader.rs:2431-2465 | the explicit-stack walk ends, and accepts exactly when no walk from the output meets a coder twice |
| CoderGraph.WalkDescends | src/reader.rs:2431-2465 | finished coders come after everything that feeds them |
| GraphValidation.MarkBinds | src/reader.rs:2377-2387 | the streams that bind pairs use, refused exactly when one is used twice |
| GraphValidation.MarkPacked | src/reader.rs:2389-2402 | packed streams in range, free and distinct, or the reason they are not |
| GraphValidation.UnboundOutputs | src/reader.rs:2409-2414 | whether exactly one output is left over, and which |
| GraphValidation.Validate | src/reader.rs:2360-2468 | accepts exactly the well-bound graphs whose output reaches no cycle, and every refusal is for the first thing that is wrong |
| GraphTree.WellBoundHasNoCycle | src/reader.rs:2431-2465 | with distinct bind pairs the walk can find no cycle at all |
| GraphTree.ParsedHasOneOutput | src/reader.rs:2284-2303 | one bind pair fewer than coders leaves exactly one output |
| GraphTree.ParsedCoversInputs | src/reader.rs:2305-2332 | as many packed streams as are left over cover every input |
| GraphTree.AcceptedExactlyWhenDistinct | src/reader.rs:2360-2468 | a block as it is read is accepted exactly when nothing is bound or packed twice or out of range |
| GraphTree.OneWalkToEachCoder | src/reader.rs:2360-2468 | the coders the output reaches form a tree |
| GraphTree.DetachedCycleIsAccepted | src/reader.rs:2431-2465 | a cycle the output does not reach is accepted |
| OffloadPlan.ParallelLzma2Coder | src/pipeline.rs:139-151 | the LZMA2 coder with the most to decode, the first of several that tie |
| OffloadPlan.PickLargest | src/pipeline.rs:179-245 | the largest coder that may be taken next |
| OffloadPlan.PlanOffload | src/pipeline.rs:179-245 | a greedy choice that leaves no eligible coder over, closed below, and at most one coder for each thread beyond the caller's |
| OffloadPlan.PlanIsClosed | src/pipeline.rs:179-245 | every coder a greedy choice takes is heavy and large, is not the top one, and reads a pack stream or a chosen coder |
| OffloadPlan.PlanSize | src/pipeline.rs:179-245 | no coder is taken twice |
| OffloadPlan.PlanIsSpelledOut | src/pipeline.rs:179-245 | the plan in the block's fields: nothing without a spare thread and two costly coders, of which the parallel LZMA2 coder is never one; each coder taken is the largest that could be taken then; none that could be taken is left while a thread is |
| OffloadPlan.PlanChain | src/pipeline.rs:810-855 | the caller, the stages and the BZip2 worker together stay within the threads, and the pipes within the memory limit |
| OffloadPlan.CountPipes | src/pipeline.rs:250-261 | a pipe for each coder on a thread, and one more for the pack stream it reads |
| OffloadPlan.RoomForBzip2Worker | src/pipeline.rs:865-880 | the second thread is taken exactly when it fits, and charged only under a limit |
| StackBuilder.AddKeeps | src/pipeline.rs:883-959 | adding a coder keeps the plan as planned or ended, keeps the count of threads granted, and puts a coder that is still planned on a thread |
| StackBuilder.PlacedAsGranted | src/pipeline.rs:922-937 | a coder that can be built goes on its own thread exactly when the plan gives it one and the request is granted, and on the caller's otherwise; a refusal, and nothing else, ends the plan |
| StackBuilder.CopyForwards | src/pipeline.rs:893-913 | COPY under a memory limit forwards its input, whatever the plan says of it, and asks for no thread |
| StackBuilder.ThreadsAsGranted | src/pipeline.rs:922-937 | over a whole block, threads go to the planned coders in the order they are built, up to the first request refused, and to none after it |
| StackOnce.AllGranted | src/reader.rs:3531-3675 | with none refused the plan stands and exactly the planned coders that the output reaches are on threads, each once |
| StackBuilder.NoStructuralError | src/reader.rs:3531-3675 | building a validated block never meets the depth guard, a missing bind pair, an index out of range or a stage over the caller's thread, whichever threads are refused |
| StackOnce.CoderOnce | src/reader.rs:3592-3675 | the recursion at a coder builds what that coder's walks reach, each once |
| StackOnce.BuiltOnce | src/reader.rs:3531-3675 | a block that builds has exactly the coders its output reaches built, each once, and exactly the pack streams that feed them opened, each once |
| StackOutcome.BuildsExactlyWhen | src/reader.rs:3531-3675 | a validated block builds exactly when each coder its output reaches can be built, whichever threads are planned and refused |
| CoderStorage.Coder.Promote | src/block.rs:549-570 | moving a record to the heap changes none of its fields |
| CoderStorage.Coder.Compact | src/block.rs:572-587 | moving it back changes none of them, and happens whenever it fits |
| CoderStorage.Coder.SetStreamCounts | src/block.rs:589-598 | counts written without touching the identifier or the properties |
| CoderStorage.Coder.SetIdSize | src/block.rs:600-606 | the identifier's length changes, its bytes stay |
| CoderStorage.Coder.SetId | src/block.rs:658-663 | the identifier's bytes change, its length and what lies past it stay |
| CoderStorage.Coder.SetProperties | src/block.rs:608-623 | properties of any length, in whichever form, and nothing else |
| CoderStorage.DescriptorHolds | src/block.rs:488-492 | the packed descriptor gives back its three parts |
| BlockStorage.Streams.SetStreams | src/block.rs:293-342 | whichever form is picked shows the streams it was given |
| BlockStorage.Streams.PrepareUnpackSizes | src/block.rs:405-409 | one size for each output, in every form |
| BlockStorage.Streams.GetUnpackSize | src/block.rs:420-427 | the size at the highest output no bind pair takes |
| BlockStorage.Streams.Read | src/reader.rs:2059-2066 | after reading a header no observer tells a compact form from the full graph |
| CoderOrder.OrderedCoderIter.Next | src/block.rs:696-718 | the iterator yields the order, one coder at a time |
| CoderOrder.OrderIsTheChain | src/block.rs:682-719 | a validated chain is yielded from its packed stream along the bind pairs to its output, each coder once, and the count never cuts it short |
| CoderOrder.LastSizeIsUnpackSize | src/block.rs:420-427 | the last coder yielded is the one whose size is the block's |
| CoderOrder.LoopBuildsTheGraph | src/reader.rs:3247-3258 | the loop over a chain builds exactly what the recursion from its output builds |
| StreamMap.FromCounts | src/archive.rs:626-651 | both representations are the same running sums |
| StreamMap.FirstPackStreams | src/reader.rs:1861-1878 | each block's first pack stream, refused when there are too few |
| StreamMap.PackOffsets | src/reader.rs:1891-1899 | each pack stream's offset, refused when they overflow |
| StreamMap.SkipEmpty | src/reader.rs:1910-1921 | blocks without sub-streams start where the next full one does |
| StreamMap.CalculateFiles | src/reader.rs:1901-1977 | a file maps to a block exactly when the block holds it; every block starts at its first streamed file, or past the last file |
| StreamMap.InsideMeansBetween | src/archive.rs:602-608 | a file without a stream is in a block exactly when streamed files of that block lie on both sides |
| StreamMap.BlockFileRange | src/reader.rs:4182-4211 | exactly the files mapped to the block, and inside the files whatever the map says |
| StreamMap.RangesInOrder | src/reader.rs:4182-4211 | blocks' ranges come in block order and do not meet |
| FilesInfo.Finish | src/reader.rs:1795-1852 | a file has a stream exactly when its bit is absent or clear; the streamed file with number n takes sub-stream n with its size and checksum, the others are directories or anti-items by their own numbering; accepted exactly when there are as many streams as sub-streams |
| FilesInfo.MapAccepted | src/reader.rs:1841-1852 | an accepted header's map is always built and holds every sub-stream's file |
| FilesInfo.EveryStreamMapped | src/reader.rs:1901-1977 | the streamed file with number n is in the block whose sub-streams include n |
| HeaderFolders.StartIsSum | src/reader.rs:1841-1852 | a file starts in its block where the sub-streams before it end |
| HeaderFolders.RightSumsNoneStraddle | src/reader.rs:2088-2153 | a block whose sub-streams add up to it has no file across its declared end |
| HeaderFolders.ReadFolder | src/reader.rs:2088-2153 | a block's folder exactly when the header is accepted, with exactly the block's files, each as its header lists it; none straddles when sizes are listed, when each block is one stream, or when no block with bytes follows one with several sub-streams |
| HeaderFolders.UnlistedCanStraddle | src/reader.rs:2121-2146 | an accepted header without listed sizes whose second block is given a file longer than the block |
| SubStreams.ReadCounts | src/reader.rs:2093-2110 | one sub-stream each unless counted, within the limit |
| SubStreams.ReadBlockSizes | src/reader.rs:2126-2144 | all sizes but the last as listed, the last what they leave; refused when they exceed the block |
| SubStreams.ReadListedSizes | src/reader.rs:2121-2146 | every block's sizes in their own places, refused exactly when a list is short or too large |
| SubStreams.ListedSumsRight | src/reader.rs:2121-2146 | with sizes listed, every block's sub-streams add up to it |
| SubStreams.PlaceSizes | src/reader.rs:2121-2146 | without, one place for each block however many sub-streams it has |
| SubStreams.UnlistedSumsRightExactlyWhen | src/reader.rs:2121-2146 | without, they add up exactly when no block with bytes follows one with several sub-streams |
| SubStreams.UnlistedSumsCanBeWrong | src/reader.rs:2121-2146 | a header where they do not |
| SubStreams.DigestsFit | src/reader.rs:2150-2158 | the digest count never exceeds the sub-streams |
| SubStreams.ReadMissing | src/reader.rs:2161-2167 | a value for each set flag, zero for the others |
| SubStreams.AssignDigests | src/reader.rs:2168-2186 | streams take the listed digests in order, those whose block carries one excepted |
| SubStreams.Inherit | src/reader.rs:2194-2204 | a stream alone in a block with a checksum takes it |
| SubStreams.ReadSubStreamsInfo | src/reader.rs:2088-2208 | the whole section, and exactly when it is refused; sums right exactly when they can be; a stream alone in a block with a checksum has that checksum, and every other the next listed digest, or none |
| FolderFiles.DeliveredOneWay | src/reader.rs:5148-5152 | however reads fall, a folder with no file across its block's declared end is delivered in one way: files, bytes, completions, ending |
| FolderFiles.OneWayExactlyWhen | src/reader.rs:518-531 | for given sizes and flags there is one way, whatever bytes and checksums, exactly when no file straddles the declared end of a checked block |
| FolderVouching.DeliveredIsVouched | src/reader.rs:4583-4682 | whatever is delivered, with verification on a file given whole has the sum of exactly its bytes equal to its own checksum and is heard of next, at its place; nothing else is heard of; empty files have the checksum of nothing; a block read in full has its own sum, or nothing after it |
| FolderVouching.DeclaredIsComplete | src/reader.rs:4583-4682 | and a folder whose bytes are as declared is delivered complete: with verification off nothing is held against it |
| FolderFiles.ThirtyInTwenty | src/reader.rs:518-531 | a file of thirty bytes in a checked block of twenty is delivered whole or fails, by where reads fall |
| BlockChain.Chain.ReadBlock | src/reader.rs:148-160 | a block read gets what the decoder gives, and fails at an early end or a wrong checksum and at nothing else |
| BlockChain.Chain.ReadFile | src/reader.rs:518-531 | a file read to its end came out whole; a failure means that it cannot, or that it straddles the declared end |
| BlockChain.Chain.ReadGiven | src/reader.rs:518-531 | a file that can come out whole does when read at once; nothing is read past the declared end of a checked block |
| BlockChain.TwoReaders | src/reader.rs:518-531 | the same straddling file read at once is whole and read up to the declared end first fails |
| BlockChain.Chain.ReadToStreamEnd | src/reader.rs:4276-4302 | the read past the declared size succeeds exactly when nothing is there |
| FolderReplay.Entry.NextChunk | src/reader.rs:5434-5474 | chunks are taken from the queue only when the last one is used up |
| FolderReplay.Entry.Read | src/reader.rs:5401-5412 | reads of any size hand out the file's bytes in order, and nothing once it has ended or failed |
| FolderReplay.ReplayFolder | src/reader.rs:5153-5335 | for any messages at all, the replay delivers what they mean |
| FolderReplay.ReplayChecksEmpties | src/reader.rs:5153-5335 | whatever the messages, a file without bytes is not given when its checksum is to be verified and is not that of nothing |
| FolderReplay.HowItEnds | src/reader.rs:5153-5335 | a worker's own failure ends the folder; one stopped in a file ends it with the failure the callback kept to itself |
| FolderWalk.Listener.ReadOut | src/reader.rs:4583-4613 | a callback that reads to the end or the failure has all of the file, or a part of one that can fail |
| FolderWalk.Listener.SendFile | src/reader.rs:5085-5135 | a worker's messages for a file mean what a caller reading it would see |
| FolderWalk.Listener.Flush | src/reader.rs:5077-5084 | completions are sent before the next file, in order |
| FolderWalk.Listener.SendDone | src/reader.rs:5136-5145 | the last message makes the replay end as the walk did |
| FolderWalk.Listener.FillChunk | src/reader.rs:5098-5114 | a chunk is the next bytes of the file, a mebibyte of them or all that are left unless the file fails |
| FolderDelivery.Conclude | src/reader.rs:4614-4682 | a fault fails the block even when the callback goes on; otherwise the hook hears the file once |
| FolderDelivery.WalkEntries | src/reader.rs:4478-4772 | the sequential walk delivers the folder, for any header, and every file it gives whole was held against its checksum; a folder as declared comes out complete |
| FolderDelivery.Decode | src/reader.rs:5050-5145 | a worker's messages deliver it too, whatever the callback does with a failure |
| FolderDelivery.EitherWay | src/reader.rs:5148-5152 | walked or decoded and replayed: never a lost worker, and unless a file straddles the declared end of a checked block the same files, bytes, completions and ending; both held against every checksum the header has |
| FolderFanOut.ReplayDelivers | src/reader.rs:3896-3926 | in every state of the fan-out, a replay of what has come of a folder that has ended has delivered it, and once its job is over a worker that was not cancelled is never lost |
| FolderFanOut.WalkedOrFannedOut | src/reader.rs:5148-5152 | and unless a file straddles it agrees with the direct walk, in whichever schedule |
| FoldedChecks.OwedCompletions.SettleFront | src/reader.rs:4133-4163 | the front of the queue is compared, completed, or left for later |
| FoldedChecks.OwedCompletions.Settle | src/reader.rs:4133-4163 | no file with a checksum leaves the queue uncompared |
| FoldedChecks.FileEnded | src/reader.rs:4638-4682 | a file handed over in full is compared now and heard of, or queued; any other is heard of, queued or left by what the coder answers |
| FoldedChecks.EndStream | src/reader.rs:4685-4727 | at the end of the stream nothing is owed any more |
| FoldedChecks.CheckBlock | src/reader.rs:4748-4770 | a block read in full is compared too, or the walk fails |
| FoldedChecks.WalkFiles | src/reader.rs:4685-4695 | once the last byte of the stream is out nothing waits, not even for a file without bytes |
| FoldedChecks.WalkEntries | src/reader.rs:4564-4772 | whenever checksums become known: success means every file with one, handed over in full, was compared equal; completions once each, in file order, for exactly the files whose checksum the coder had when last asked, and for every one with a checksum that was handed over in full; what a callback that goes on leaves is read for it; the two failures mean what they say, and a checksum is missed only of what was to be compared |
| ReaderStack.Reader.ReadDeclared | src/reader.rs:148-160 | an end before the declared length is a failure |
| ReaderStack.Reader.ReadBlock | src/reader.rs:3266-3281 | the block's own checksum speaks with its last byte, and nothing is read after it |
| ReaderStack.Reader.ReadBounded | src/reader.rs:67-80 | an entry never reads past its size, and the stream's end inside it is a failure |
| ReaderStack.Reader.ReadChecked | src/reader.rs:518-531 | the checksum is compared on the read that brings the last byte |
| ReaderStack.Reader.Read | src/reader.rs:319-323 | a read through every layer is one step of the entry |
| ReaderStack.Reader.Lend | src/reader.rs:538-556 | a lent span is counted, checked, and only then delivered |
| ReaderStack.Reader.Borrow | src/reader.rs:325-337 | lending through every layer is the same step of the entry |
| PushCopy.CopyRest | src/reader.rs:375-388 | the plain copy follows the account of what reaches the sink |
| PushCopy.CopyOnce | src/reader.rs:392-405 | one read across a boundary stays on that account |
| PushCopy.PushOnce | src/reader.rs:420-466 | one turn of the lending copy stays on that account, or is its end |
| PushCopy.WritePushed | src/reader.rs:420-466 | so does the lending copy, whenever the decoder declines and whenever the sink fails |
| PushCopy.EitherWay | src/reader.rs:420-466 | same writes, same total or error, same recorded fault, same checksum report |
| PushCopy.OkMeansWritten | src/reader.rs:375-388 | a copy that ends well has written exactly the entry's bytes, and they have its checksum and, where they reach the block's end, the block's |
| PushCopy.DeclaredIsCopied | src/reader.rs:375-388 | an entry that is as declared, written to a sink that takes it, is copied whole |
| PushCopy.CopyRecordsItsFailure | src/reader.rs:286-323 | the first failure of the reader is recorded and kept, a retry gives way to it, and a sink's refusal records nothing |
| PushCopy.NeverPastTheEnd | src/reader.rs:375-388 | however a copy ends, it has written the entry's first bytes, in order and never past its end |
| FolderPlan.WorkersFit | src/reader.rs:4948-4958 | two workers or more never come from a saturated sum, and all of them fit the limit with the callback's piece |
| FolderPlan.ThreadsFit | src/reader.rs:4963-4967 | workers times threads each stay within the budget |
| FolderPlan.Close | src/reader.rs:4948-4973 | a run is decoded in parallel exactly when two workers or more are allowed |
| FolderPlan.WorkersAreTheMost | src/reader.rs:4948-4958 | the workers of a run are the greatest number that threads, folders and memory allow; with no limit, the lesser of threads and folders |
| FolderPlan.PlanFolders | src/reader.rs:4939-4991 | every folder once, in order; a parallel phase is a longest run of small folders with as many workers as can be afforded and the largest equal share of threads; a small folder is alone only where two workers cannot be |
| BitVector.BitSet.Insert | src/bitset.rs:55-68 | adds the value, growing as needed, and says whether it was new |
| BitVector.BitSet.Remove | src/bitset.rs:73-82 | takes the value out and says whether it was there |
| BitVector.BitSet.Grow | src/bitset.rs:101-114 | more room, same set |
| BitVector.BitSet.ReserveLenExact | src/bitset.rs:117-129 | exact room, same set |
| BitVector.BitSet.Len | src/bitset.rs:31-36 | counting the words' bits gives the set's cardinality |
| BitVector.WordSet | src/bitset.rs:64-65 | setting a bit of a word changes that bit alone |
| BitVector.WordCleared | src/bitset.rs:78-79 | clearing a bit changes that bit alone |
| BitVector.WriteBitSet | src/bitset.rs:145-164 | the bytes are the set, highest bit first, zeros after the last |
| BitVector.ReadBits | src/reader.rs:2555-2570 | the bits read are the set, from exactly as many bytes as they need |
| BitVector.RoundTrip | src/reader.rs:2555-2570 | a written set is read back whatever follows it |
| Lz4Framing.HeaderBytes | src/codec/lz4.rs:307-309 | an announcement byte by byte: the skippable magic, the length four, the frame's length, lowest byte first |
| Lz4Framing.Encoder.WriteFrame | src/codec/lz4.rs:287-313 | a piece is written behind its announcement, an empty one not at all |
| Lz4Framing.Encoder.Take | src/codec/lz4.rs:351-371 | a full buffer is written out and nothing is lost or reordered |
| Lz4Framing.Encoder.Write | src/codec/lz4.rs:338-376 | all of the data is taken, however it falls over the frames |
| Lz4Framing.Encoder.Flush | src/codec/lz4.rs:378-397 | what is left over becomes a frame of its own |
| Lz4Framing.Encoder.Finish | src/codec/lz4.rs:315-333 | the output is the frames of the data |
| Lz4Framing.PiecesSnoc | src/codec/lz4.rs:338-376 | cutting piece by piece and appending agree |
| Lz4Framing.EncodeAll | src/codec/lz4.rs:338-376 | the output depends on the data alone, not on how it was split into writes |
| Lz4Reading.Open | src/codec/lz4.rs:23-52 | what the probe makes of the first twelve bytes |
| Lz4Reading.Decoder.InnerRead | src/codec/lz4.rs:174-196 | the frame decoder never reads past its frame |
| Lz4Reading.Decoder.NextHeader | src/codec/lz4.rs:116-152 | a whole announcement, and nothing else, is followed; a cut one, and nothing else, is a failure |
| Lz4Reading.Decoder.Read | src/codec/lz4.rs:55-79 | reads follow the frames one after another to the end of the data |
| Lz4Reading.DecodeAll | src/codec/lz4.rs:22-79 | decoding the frames of some data gives it back by reads of any size |
| Lz4Reading.RoundTrip | src/codec/lz4.rs:22-398 | the round trip, for every split into writes; no data at all is refused |

## Left out

- PushCopy.WritePushed: does not model chains that push blocks of output but do not lend spans; a pushed block reaches the sink before its checksum is compared.
- FolderDelivery.WalkEntries: callbacks read each file to its end or its failure and ask to go on; callbacks that stop early, and interrupted reads, are not modelled.
- FolderReplay.ReplayFolder: the wait for verdicts owed after a callback has asked to stop is not modelled.
- FolderWalk.Listener.SendFile: the worker is not cancelled.
- FolderFanOut.ReplayDelivers: the weight of a folder's message in its queue is any number, not tied to its bytes.
- FoldedChecks.WalkEntries: the bytes of the stream are not modelled, only how many each callback took and what the coder answered.
- StackBuilder.NoStructuralError: the recursion that builds decoders is modelled on values; the decoders themselves, memory reservations inside it and thread creation are answers given from outside.
- Pipeline: threads are all started before the first step; a generation counter that wraps around, and handing whole pieces to the caller by ownership, are not modelled.
- FanOut: byte weights are unbounded integers, and mutex poisoning is absent.
- StreamMap.CalculateFiles: the compressed size given to the first file of a block, and the refusals of that sum, are not modelled.
- BlockChain.Chain.ReadToStreamEnd: the skipping of bytes that callbacks left unread is not modelled; the walk modelled here leaves none.
- PipelineTheorems.ReadsTellTheWholeStream: a read made after the block is abandoned is answered as cancelled, and is not part of what a pipe's reads were told.
- SubStreams.ReadSubStreamsInfo: the header is taken as lists already told apart by their property identifiers; the errors are one refusal.
- FilesInfo.Finish: names, times and attributes of files are not modelled.
- BitVector.BitSet: words are numbers below two to the sixty-fourth, and the bit operations on them are written out bit by bit.
- Lz4Reading.Decoder: the frame codec is a pair of functions; plain, unannounced frames are recognised and not decoded.
- CoderStorage.Coder: the boxed and inline forms are values of one datatype; cloning is copying.
- Archive opening, positional reads and seeks, the writer, encoders and their options, encryption, password and limit reporting, unsafe-path checks: plumbing without a deep invariant.
- Error messages and their nesting: errors are a few tags, and a failure located in a block keeps no cause.
