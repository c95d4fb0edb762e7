# Verified models of the block layer, the cipher modes and the conflict analysis

This project models, in Dafny, the parts of the repository whose correctness depends on more than one
function: the Linux 2.6.16 block layer (write barriers, the dispatch queue, the deadline, anticipatory and
CFQ schedulers, request accounting, completion and scatter-gather mapping), the crypto layer's cipher modes
over scatterlists and its streaming hashes, and the conflict statistics of the SyncChar scripts.

`dafny verify dfyconfig.toml` checks everything.

How the files are organised:

| files | subject |
|---|---|
| `Barrier.dfy`, `BarrierOrder.dfy`, `BarrierDrain.dfy`, `BarrierTheorems.dfy`, `BarrierQueue.dfy` | the write-barrier protocol: state machine, what every step keeps in any mode, what it keeps when the queue is drained, the theorems over runs, the operations on the queue |
| `Elevator.dfy` | sort-insert into the dispatch queue with a moving boundary |
| `DeadlineHash.dfy`, `DeadlineSort.dfy`, `Deadline.dfy`, `DeadlineTheorems.dfy`, `DeadlineStarvation.dfy`, `DeadlineWorstCase.dfy`, `DeadlineScheduler.dfy` | the deadline scheduler: its indices, their coherence, the starvation bound, runs that reach and exceed it, the operations |
| `AsSort.dfy`, `AsBatch.dfy`, `AsTheorems.dfy`, `AsHistory.dfy`, `AsStall.dfy`, `AsScheduler.dfy` | the anticipatory scheduler: choice of the next request, batches and anticipation, the statistics about processes, runs that stall, the operations |
| `CfqPrio.dfy`, `CfqQueue.dfy`, `CfqLists.dfy`, `CfqData.dfy`, `CfqTheorems.dfy`, `CfqScheduler.dfy`, `CfqChoice.dfy` | CFQ: the priority walk; the choice of the next request; its queues and lists, their bookkeeping, the operations and forced dispatch |
| `RequestPool.dfy`, `Completion.dfy`, `ScatterGather.dfy` | request accounting, partial completion, coalescing of segments |
| `CipherModes.dfy`, `CipherProcess.dfy`, `ScatterWalk.dfy`, `Crypt.dfy` | ECB and CBC as in sections 6.1 and 6.2 of NIST SP 800-38A, and `crypt()` over fragmented buffers |
| `HashSpec.dfy`, `Sha1.dfy`, `Sha256.dfy`, `Md5.dfy` | hashing in one go, and the three ways of doing it piece by piece |
| `Bits.dfy`, `Conflict.dfy`, `ConflictStats.dfy` | bitmaps, conflicts between address sets, sampling and the histogram |
| `Sequences.dfy` | lists as sequences |

The pattern is the same throughout. A state is a value; an operation is a function on it that follows the
branches of the code; invariants are proved of every operation and lifted to all runs by induction. Beside
it stands a class whose methods update their fields in place, with the loops of the code, and whose
contracts say that the new state is what the function says. Each operation is one atomic step, as it runs
under the queue lock. Time is a natural number; allocation results, timer expiry and, up to
`AsHistory.dfy`, what the think-time statistics of the anticipatory scheduler say are parameters or
nondeterministic choices. Block ciphers and compression functions are parameters.

Where the code does not meet a property on all inputs, the exact condition is proved:

* ending a request in two parts gives the same sector counters as ending it in one exactly if the parts do
  not make up another whole sector between them (`Completion.SplitSectors`);
* scatter-gather entries respect the segment size exactly if every bvec does (`ScatterGather.MapWithin`);
* the two-word bit counter of `sha256_update` is right exactly if the update has less than 2^29 bytes or the
  low word overflows (`Sha256.CountIsRight`; `Sha256.CountGoesWrong` is the smallest failing update);
* after a read without an io_context has been dispatched, the anticipatory scheduler waits for a request
  that is at the driver exactly if there was no context to wait for or it has a request there
  (`AsTheorems.AwaitedAfterDispatch`). `AsStall.WaitsForNothing` is a family of runs from the start, with the
  statistics about processes computed as the code does and not left open, that end waiting with nothing at the
  driver exactly if the last read is out of reach, as with reads at sectors 0, 1 and 10000. What these runs
  rest on: the first process has not exited, and an allocation of an io_context fails for the second read;
* a walk comes to the bytes of a scatterlist in order exactly if every entry starts inside its page or does not
  go beyond the page that it starts in (`ScatterWalk.WalkedIff`; `ScatterWalk.GoesAstray` is an entry that does
  neither);
* writes wait for at most fifo_batch + writes_starved * max(1, fifo_batch) calls of the deadline scheduler in
  all runs exactly if not 3 * fifo_batch + 1 == 2^32 with writes_starved >= 1, nor fifo_batch == 1 with
  writes_starved >= 2^31 - 1: with these the unsigned batch counter can wrap to the start of a batch
  (`DeadlineWorstCase.BoundHoldsIff`, `DeadlineWorstCase.BoundIsExceeded`); one call more for each preferred
  read is the bound for all tunables (`DeadlineStarvation.StarvationBound`);
* the test of `sha1_update` whether a block is complete is right exactly if the number of buffered bytes plus
  the length is less than 2^32 (`Sha1.TestIsRight`);
* CFQ caches the best of the remaining requests after serving one exactly if that one is compared;
  `last_sector` is read and never written, so contrary to the comment at `cfq_choose_req` "closest to the head"
  means the lowest sector (`CfqChoice.ServingFindsBestIff`, `CfqChoice.FifoServiceMisses`);
* the assertion at the end of `compare` holds exactly if the list passed in is empty
  (`Conflict.CompareInto`).

## Model

| member | source | states |
|---|---|---|
| `Barrier.CurSeqIsLowestClearBit` | linux-2.6.16-unmod/block/ll_rw_blk.c:365-370 | the phase a barrier sequence is in is the lowest clear bit of ordseq, 0 when no sequence runs |
| `BarrierOrder.StepKeeps` | linux-2.6.16-unmod/block/ll_rw_blk.c:392-556 | in every ordering mode, submitting, dispatching, handing out, dequeuing, requeuing and completing keep: each request is in exactly one place or ended once, the proxies outstanding are those of the open phases, and the recorded error is the first one |
| `BarrierOrder.RunKeeps` | linux-2.6.16-unmod/block/ll_rw_blk.c:392-556 | the same for every run |
| `BarrierDrain.StepGood` | linux-2.6.16-unmod/block/elevator.c:280-396 | with draining, every step keeps the queue in order of barrier epochs and phases, requeued requests included, and the driver free of requests of a later epoch |
| `BarrierDrain.RunGood` | linux-2.6.16-unmod/block/elevator.c:280-396 | the same for every run |
| `BarrierTheorems.NothingPassesABarrier` | linux-2.6.16-unmod/block/ll_rw_blk.c:509-556 | in every draining run, when a file-system request is handed out, every barrier submitted before it has been ended |
| `BarrierTheorems.BarrierWaitsForEarlierRequests` | linux-2.6.16-unmod/block/ll_rw_blk.c:460-556 | in every draining run, a pre-flush, barrier or post-flush proxy is handed out only when every request submitted before the barrier has been ended, and only after the earlier phases |
| `BarrierTheorems.NoWarning` | linux-2.6.16-unmod/block/ll_rw_blk.c:509-556 | in every draining run the phase of the head of the queue is never before the current one, so the warning cannot fire, and a draining queue has a head to look at |
| `BarrierTheorems.PhaseCompletesOnce` | linux-2.6.16-unmod/block/ll_rw_blk.c:392-434 | in any mode and for any order of completions, the phase bit of a completing proxy is still clear, so the BUG_ON cannot fire |
| `BarrierTheorems.BarrierEndsWithLastPhase` | linux-2.6.16-unmod/block/ll_rw_blk.c:392-434 | the barrier is ended by a completion exactly if no phase is left, with the first recorded error as status |
| `BarrierTheorems.EndedAtMostOnce` | linux-2.6.16-unmod/block/ll_rw_blk.c:392-416 | in every run no request is ended twice, and the running barrier not before its sequence is over |
| `BarrierQueue.RequestQueue.OrderedCompleteSeq` | linux-2.6.16-unmod/block/ll_rw_blk.c:392-416 | in place, a phase is recorded, the first error kept and the barrier ended after the last phase, as the state machine does it |
| `BarrierQueue.RequestQueue.CheckDrained` | linux-2.6.16-unmod/block/elevator.c:602-628 | the drain phase is completed once nothing is in flight and the head of the queue belongs to a later phase |
| `BarrierQueue.RequestQueue.CompleteRequest` | linux-2.6.16-unmod/block/ll_rw_blk.c:418-434 | completing any request at the driver is the completion step, drain check first |
| `BarrierQueue.RequestQueue.DequeueRequest` | linux-2.6.16-unmod/block/elevator.c:526-539 | dequeuing moves a started request to the driver and counts it in flight |
| `BarrierQueue.RequestQueue.FindRequeuePos` | linux-2.6.16-unmod/block/elevator.c:359-381 | the walk finds the first request of the same or a later phase |
| `BarrierQueue.RequestQueue.RequeueRequest` | linux-2.6.16-unmod/block/elevator.c:280-297 | requeuing takes a request back from the driver to its place by phase |
| `BarrierQueue.RequestQueue.DrainElevator` | linux-2.6.16-unmod/block/elevator.c:299-311 | the scheduler is emptied by a run of dispatch steps |
| `BarrierQueue.RequestQueue.AddRequest` | linux-2.6.16-unmod/block/elevator.c:398-432 | adding a request is a run of dispatch steps, for a barrier, followed by its submission |
| `BarrierQueue.RequestQueue.Start` | linux-2.6.16-unmod/block/ll_rw_blk.c:460-507 | the head barrier is replaced by its proxies; it may go on at once exactly if nothing has to be drained |
| `BarrierQueue.RequestQueue.Pass` | linux-2.6.16-unmod/block/ll_rw_blk.c:509-556 | one look at the head of the queue is the next step of the state machine: dropped, held back or handed out |
| `BarrierQueue.RequestQueue.NextRequest` | linux-2.6.16-unmod/block/elevator.c:444-524 | every request handed to the driver ends a run of steps whose last one hands it out |
| `Elevator.SortPos` | linux-2.6.16-unmod/block/elevator.c:209-237 | the place of a sorted request is behind all barriers and started requests, and before exactly those behind it in one-way order |
| `Elevator.SortInsertOrdered` | linux-2.6.16-unmod/block/elevator.c:209-237 | the sort-insert keeps the part behind the last fence in one-way order from the boundary |
| `Elevator.BoundaryMoves` | linux-2.6.16-unmod/block/elevator.c:460-489 | when the head starts and the boundary moves to its end, what is behind it is in one-way order from there too, for disjoint requests |
| `Elevator.StepInv` | linux-2.6.16-unmod/block/elevator.c:398-489 | adding, soft barriers with their drain, dispatching, starting and dequeuing keep the order, the boundary and the count of sorted requests |
| `Elevator.AlwaysOneWay` | linux-2.6.16-unmod/block/elevator.c:209-237 | in every run the queue behind the last fence is in one-way elevator order from wherever end_sector has moved to, and nr_sorted counts what the scheduler holds |
| `Elevator.NoInsertCrossesFence` | linux-2.6.16-unmod/block/elevator.c:398-432 | in every run no submission or dispatch changes the queue up to a barrier or started request |
| `Elevator.DispatchQueue.DispatchSorted` | linux-2.6.16-unmod/block/elevator.c:209-237 | the backward scan of the list inserts at the one-way place |
| `Elevator.DispatchQueue.AddRequest` | linux-2.6.16-unmod/block/elevator.c:398-432 | a barrier drains the scheduler and becomes the boundary, any other request goes to the scheduler |
| `Elevator.DispatchQueue.DrainElevator` | linux-2.6.16-unmod/block/elevator.c:299-311 | draining dispatches all sorted requests in the order the scheduler picks |
| `Elevator.DispatchQueue.NextRequest` | linux-2.6.16-unmod/block/elevator.c:460-489 | the head is started and takes over as boundary unless a barrier further back is |
| `Elevator.DispatchQueue.DequeueRequest` | linux-2.6.16-unmod/block/elevator.c:526-539 | the started head leaves the queue |
| `ScatterGather.GlobalNotWorse` | linux-2.6.16-unmod/block/ll_rw_blk.c:1313-1361 | coalescing across all bios of a request never needs more entries than the sum of the per-bio segment counts |
| `ScatterGather.MapCovers` | linux-2.6.16-unmod/block/ll_rw_blk.c:1317-1361 | the scatterlist names exactly the bytes of the request, in order |
| `ScatterGather.MapWithin` | linux-2.6.16-unmod/block/ll_rw_blk.c:1317-1361 | every entry is within max_segment_size if and only if every bvec is |
| `ScatterGather.MapInWindow` | linux-2.6.16-unmod/block/ll_rw_blk.c:1317-1361 | if every bvec stays within a window of the boundary mask so does every entry, although only neighbours are compared |
| `ScatterGather.CountBvec` | linux-2.6.16-unmod/block/ll_rw_blk.c:1231-1264 | the branches and jumps of the loop body come to one rule: join the segment if every limit allows it, else start a segment, and a hardware segment unless virtual merging allows it |
| `ScatterGather.RecountSegments` | linux-2.6.16-unmod/block/ll_rw_blk.c:1214-1273 | the loop computes the physical and hardware segment counts and the front and back sizes of that rule over all bvecs; hardware segments are never more than physical ones, and both are 0 only for no bvecs |
| `ScatterGather.MapSg` | linux-2.6.16-unmod/block/ll_rw_blk.c:1317-1361 | an array with room for the promised number of segments suffices; it holds the coalesced list and nothing else is written |
| `ScatterGather.AddBvec` | linux-2.6.16-unmod/block/ll_rw_blk.c:1331-1352 | a bvec extends the last entry or starts a new one |
| `Completion.SplitRest` | linux-2.6.16-unmod/block/ll_rw_blk.c:3131-3237 | ending m and then n bytes leaves the same bios and bvecs as ending m + n at once |
| `Completion.SplitReports` | linux-2.6.16-unmod/block/ll_rw_blk.c:3131-3237 | and reports the same number of bytes to every bio |
| `Completion.DoneIffAllBytes` | linux-2.6.16-unmod/block/ll_rw_blk.c:3131-3237 | nothing is left exactly if all bytes have been ended |
| `Completion.ConsumeDrops` | linux-2.6.16-unmod/block/ll_rw_blk.c:3131-3237 | what is left to transfer is the old byte list without its first n bytes |
| `Completion.ReportsAreBytes` | linux-2.6.16-unmod/block/ll_rw_blk.c:3155-3204 | the bytes reported to a bio are its bytes among the first n of the request |
| `Completion.SplitSectors` | linux-2.6.16-unmod/block/ll_rw_blk.c:3102-3129 | hard_sector and hard_nr_sectors after two parts agree with those after one exactly if m % 512 + n % 512 < 512, and so do all five sector counters if nr_sectors was not below current_nr_sectors |
| `Completion.Request.EndThatRequestFirst` | linux-2.6.16-unmod/block/ll_rw_blk.c:3131-3237 | the loop over bios and bvecs updates them in place to what is left, reports every byte once, and returns 0 exactly if nothing is left |
| `RequestPool.StepKeeps` | linux-2.6.16-unmod/block/ll_rw_blk.c:1981-2115 | reserving, failing and freeing keep: at most 3/2 of nr_requests, full exactly from nr_requests on, congested only above the off threshold and not congested only below the on threshold, counts equal to the requests held |
| `RequestPool.RunKeeps` | linux-2.6.16-unmod/block/ll_rw_blk.c:1981-2115 | the same for every interleaving |
| `RequestPool.AccountsIffNonZero` | linux-2.6.16-unmod/block/ll_rw_blk.c:99-112 | every run keeps the accounts if and only if nr_requests is positive; the code itself allows no value below BLKDEV_MIN_RQ |
| `RequestPool.RequestList.GetRequest` | linux-2.6.16-unmod/block/ll_rw_blk.c:2020-2074 | a request is granted and counted, or refused, with the flags set on the way |
| `RequestPool.RequestList.FreedRequest` | linux-2.6.16-unmod/block/ll_rw_blk.c:2000-2012 | a freed request relaxes its own side, and the other one if that is starved |
| `RequestPool.RequestList.FreedSide` | linux-2.6.16-unmod/block/ll_rw_blk.c:1981-1994 | congestion ends below its threshold and the full flag below nr_requests |
| `RequestPool.RequestList.AllocationFailed` | linux-2.6.16-unmod/block/ll_rw_blk.c:2076-2100 | a failed allocation gives the reservation back, and an otherwise empty pool is marked starved |
| `DeadlineHash.DelKeeps` | linux-2.6.16-unmod/block/deadline-iosched.c:101-111 | removing the entry of a request keeps every other mergeable request on the chain of its end sector |
| `DeadlineHash.PutKeeps` | linux-2.6.16-unmod/block/deadline-iosched.c:113-122 | adding an entry keeps every entry on the chain of its end sector |
| `DeadlineHash.HotKeeps` | linux-2.6.16-unmod/block/deadline-iosched.c:127-137 | moving an entry to the front of its chain keeps the hash |
| `DeadlineHash.SearchKeeps` | linux-2.6.16-unmod/block/deadline-iosched.c:139-163 | a search finds a request exactly if a mergeable queued one ends at the sector, and dropping unmergeable entries on the way keeps the hash |
| `DeadlineSort.HeadDecides` | linux-2.6.16-unmod/block/deadline-iosched.c:455-466 | in a fifo sorted by expiry the head has expired exactly if anything has |
| `DeadlineSort.JoinOk` | linux-2.6.16-unmod/block/deadline-iosched.c:373-411 | joining two requests keeps the tree sorted, the fifo sorted by expiry and both describing the same requests |
| `DeadlineTheorems.AddKeeps` | linux-2.6.16-unmod/block/deadline-iosched.c:276-293 | adding a request, with a same-sector alias or without, keeps tree, fifo, hash and next_drq coherent |
| `DeadlineTheorems.MoveKeeps` | linux-2.6.16-unmod/block/deadline-iosched.c:416-447 | moving a request to the dispatch queue does, also while another one is being repositioned |
| `DeadlineTheorems.MergedKeeps` | linux-2.6.16-unmod/block/deadline-iosched.c:353-371 | a merged request does, whether it grew at its end or is repositioned by its new start sector |
| `DeadlineTheorems.JoinKeeps` | linux-2.6.16-unmod/block/deadline-iosched.c:373-411 | two requests that become one do |
| `DeadlineTheorems.StepKeeps` | linux-2.6.16-unmod/block/deadline-iosched.c:101-566 | every operation keeps the indices coherent |
| `DeadlineTheorems.RunKeeps` | linux-2.6.16-unmod/block/deadline-iosched.c:101-566 | every run does |
| `DeadlineTheorems.LookupFindsIffThere` | linux-2.6.16-unmod/block/deadline-iosched.c:308-351 | in every reachable state a back merge candidate is found for a sector exactly if some queued mergeable request ends there |
| `DeadlineTheorems.IndicesAgree` | linux-2.6.16-unmod/block/deadline-iosched.c:32-64 | in every reachable state the tree is sorted, the fifo holds the same requests, at most one next_drq is set and it is queued, and the fifo head decides about expiry |
| `DeadlineStarvation.NonSequentialEndsBatch` | linux-2.6.16-unmod/block/deadline-iosched.c:488-499 | a non-sequential request ends the batch exactly if the unsigned counter does not wrap |
| `DeadlineStarvation.DispatchLowers` | linux-2.6.16-unmod/block/deadline-iosched.c:472-566 | a dispatch call with writes pending always dispatches, and either a write or with less patience left, wherever the unsigned batch counter stands |
| `DeadlineStarvation.DispatchPasses` | linux-2.6.16-unmod/block/deadline-iosched.c:472-566 | a call that serves a read while a write is pending goes on with the batch, sequentially or by a wrap of the counter, or counts one more preference of reads |
| `DeadlineStarvation.StarvationBound` | linux-2.6.16-unmod/block/deadline-iosched.c:472-566 | in every run, while writes stay pending, at most fifo_batch + writes_starved * (fifo_batch + 1) calls pass without a write, whatever is added, merged and moved in between; and fifo_batch + writes_starved * max(1, fifo_batch) unless the tunables are exceptional |
| `DeadlineWorstCase.BoundIsReached` | linux-2.6.16-unmod/block/deadline-iosched.c:472-566 | for all tunables some run from the start makes a write wait for exactly fifo_batch + writes_starved * max(1, fifo_batch) calls |
| `DeadlineWorstCase.BoundIsExceeded` | linux-2.6.16-unmod/block/deadline-iosched.c:488-499 | for exceptional tunables some run from the start makes it wait longer; with 3 * fifo_batch + 1 == 2^32 for as long as the bound of all runs |
| `DeadlineWorstCase.BoundHoldsIff` | linux-2.6.16-unmod/block/deadline-iosched.c:472-566 | the tighter bound holds of all runs if and only if the tunables are not exceptional |
| `DeadlineScheduler.Scheduler.FindDrqHash` | linux-2.6.16-unmod/block/deadline-iosched.c:139-163 | the loop over a chain finds a request exactly if one is there and keeps the indices |
| `DeadlineScheduler.Scheduler.MoveRequest` | linux-2.6.16-unmod/block/deadline-iosched.c:416-447 | in place, one request leaves all indices and next_drq is its successor |
| `DeadlineScheduler.Scheduler.AddDrqRb` | linux-2.6.16-unmod/block/deadline-iosched.c:199-215 | the retry loop dispatches an alias and then links the request in |
| `DeadlineScheduler.Scheduler.AddRequest` | linux-2.6.16-unmod/block/deadline-iosched.c:276-293 | adding in place keeps the indices; the request cannot be on the hash before |
| `DeadlineScheduler.Scheduler.MergedRequest` | linux-2.6.16-unmod/block/deadline-iosched.c:353-371 | repositioning in place keeps the indices |
| `DeadlineScheduler.Scheduler.MergedRequests` | linux-2.6.16-unmod/block/deadline-iosched.c:373-411 | joining in place keeps the indices |
| `DeadlineScheduler.Scheduler.DispatchRequests` | linux-2.6.16-unmod/block/deadline-iosched.c:472-566 | dispatching in place keeps the indices, and with writes pending sends a write or lowers the patience, in every state |
| `AsSort.NoWorseIsTotalOrder` | linux-2.6.16-unmod/block/as-iosched.c:460-528 | the preference behind the choice is a total order of sectors for every head position |
| `AsSort.ChooseBetter` | linux-2.6.16-unmod/block/as-iosched.c:460-528 | of two requests the better one in that order is chosen |
| `AsSort.NeighboursAreEnough` | linux-2.6.16-unmod/block/as-iosched.c:535-561 | with the head at a request, the best of all others is among its neighbours and the first request |
| `AsSort.RemoveOk` | linux-2.6.16-unmod/block/as-iosched.c:1041-1064 | removing any request keeps next_arq the best of the whole list |
| `AsSort.SendOk` | linux-2.6.16-unmod/block/as-iosched.c:1115-1150 | so does dispatching any request, in sort order or because it expired, relative to its end |
| `AsSort.InsertOk` | linux-2.6.16-unmod/block/as-iosched.c:932-937 | so does adding one |
| `AsSort.MergeOk` | linux-2.6.16-unmod/block/as-iosched.c:1493-1538 | so does appending a request to its predecessor, with the fifo place of the one that expires first |
| `AsBatch.DispatchKeeps` | linux-2.6.16-unmod/block/as-iosched.c:1166-1323 | a dispatch sends at most one request, only among others of its direction, keeps the invariant, and serves an idle device unless a read is anticipated |
| `AsBatch.CompleteKeeps` | linux-2.6.16-unmod/block/as-iosched.c:983-1033 | completions keep it: a switch that is waited for has requests to wait for, and a new batch is one of reads |
| `AsBatch.StepKeeps` | linux-2.6.16-unmod/block/as-iosched.c:589-1362 | every operation keeps the best next request, the batch rules and the anticipation rules |
| `AsTheorems.LocalChoiceIsGlobal` | linux-2.6.16-unmod/block/as-iosched.c:535-561 | in every reachable state next_arq is a queued request and the best of its whole sort_list relative to last_sector, and NULL only if that is empty |
| `AsTheorems.BatchesDoNotMix` | linux-2.6.16-unmod/block/as-iosched.c:1166-1323 | in every reachable state all requests at the driver have one direction, changed_batch implies that there are some, of the old direction, and waiting implies an io_context |
| `AsTheorems.IdleDeviceIsServed` | linux-2.6.16-unmod/block/as-iosched.c:1166-1323 | with nothing at the driver and something pending, a dispatch sends a request or leaves a read anticipated |
| `AsTheorems.AwaitedAfterDispatch` | linux-2.6.16-unmod/block/as-iosched.c:1131-1146 | after a read has been dispatched, the context waited for, if any, has a request at the driver if and only if the read has a context, there was none before, or the one there has a request at the driver |
| `AsHistory.RealCanRun` | linux-2.6.16-unmod/block/as-iosched.c:664-891 | a run in which the statistics are those of the code is a run of the scheduler model |
| `AsHistory.UnaskedDoesNotMatter` | linux-2.6.16-unmod/block/as-iosched.c:816-891 | where the statistics are not asked their outcome does not matter |
| `AsStall.DistanceDecides` | linux-2.6.16-unmod/block/as-iosched.c:752-891 | about a process that has ended its only request the statistics say to break anticipation exactly if the request is within 4096 sectors behind and 8192 ahead |
| `AsStall.WaitsForNothing` | linux-2.6.16-unmod/block/as-iosched.c:608-617 | a read of one process, after antic_expire one without a context and one of a third process, from the start and with the statistics of the code: the run ends in ANTIC_WAIT_REQ with nothing at the driver and the last read pending, which no later call dispatches, if and only if that read is more than 4096 sectors behind or 8192 ahead of the second; otherwise it is dispatched |
| `AsTheorems.WaitsForTheDriver` | linux-2.6.16-unmod/block/as-iosched.c:608-617 | if every read has an io_context, waiting for a request means that one of that context is at the driver, in every run |
| `AsScheduler.Scheduler.AddRequest` | linux-2.6.16-unmod/block/as-iosched.c:1328-1362 | adding in place keeps the invariant and ends anticipation where it should |
| `AsScheduler.Scheduler.MergedRequests` | linux-2.6.16-unmod/block/as-iosched.c:1493-1538 | merging in place keeps the invariant |
| `AsScheduler.Scheduler.AnticWaitreq` | linux-2.6.16-unmod/block/as-iosched.c:589-617 | anticipation starts with the request or, if that has finished, with the next one; the BUG_ON conditions are preconditions that callers meet |
| `AsScheduler.Scheduler.MayAnticipate` | linux-2.6.16-unmod/block/as-iosched.c:815-925 | no anticipation without a context, after it has finished, or for a request that breaks it |
| `AsScheduler.Scheduler.FifoExpired` | linux-2.6.16-unmod/block/as-iosched.c:1074-1093 | the answer is about the fifo head and is given at most once per interval |
| `AsScheduler.Scheduler.MoveToDispatch` | linux-2.6.16-unmod/block/as-iosched.c:1115-1159 | in place, the request goes to the driver, the head moves to its end and its context is noted |
| `AsScheduler.Scheduler.DispatchRequest` | linux-2.6.16-unmod/block/as-iosched.c:1166-1323 | the whole function in place, with its BUG_ON and WARN_ON conditions proved not to hold |
| `AsScheduler.Scheduler.CompletedRequest` | linux-2.6.16-unmod/block/as-iosched.c:983-1033 | completion in place keeps the invariant |
| `AsBatch.WriteBatchTuned` | linux-2.6.16-unmod/block/as-iosched.c:954-977 | a write batch has at least one request; it grows if and only if the last one was used up before its time, shrinks if and only if it was late with work to do, and by a factor of two at most |
| `AsScheduler.Scheduler.UpdateWriteBatch` | linux-2.6.16-unmod/block/as-iosched.c:954-977 | in place, the batch size becomes that tuned size and nothing else changes |
| `CfqPrio.ServedWithin36` | linux-2.6.16-unmod/block/cfq-iosched.c:793-848 | a level that stays non-empty is chosen within 36 calls, whatever becomes busy or idle in between |
| `CfqPrio.BoundIsTight` | linux-2.6.16-unmod/block/cfq-iosched.c:793-848 | with all levels busy 35 calls from the start can miss level 7 |
| `CfqPrio.RoundRobin.GetNextPrioLevel` | linux-2.6.16-unmod/block/cfq-iosched.c:803-848 | the loops end, keep cur_prio <= cur_end_prio < 8, return -1 exactly if all lists are empty, and otherwise the first busy level of the walk, whose queues move to cur_rr |
| `CfqChoice.ChooseBetter` | linux-2.6.16-unmod/block/cfq-iosched.c:353-423 | the chosen one of two requests comes no later than either in one fixed order: synchronous, within reach, cheaper seek |
| `CfqChoice.Total` | linux-2.6.16-unmod/block/cfq-iosched.c:353-423 | that order compares any two requests, and only requests at the same sector tie |
| `CfqChoice.Transitive` | linux-2.6.16-unmod/block/cfq-iosched.c:353-423 | that order is transitive, so repeated pairwise choices are consistent |
| `CfqChoice.AddKeepsBest` | linux-2.6.16-unmod/block/cfq-iosched.c:602-605 | if next_crq is the best request of the whole tree it still is after a request has been added, although only two are compared |
| `CfqChoice.RemoveKeepsBest` | linux-2.6.16-unmod/block/cfq-iosched.c:451-457 | nor does removing another request change that |
| `CfqChoice.FoundIffLookedAt` | linux-2.6.16-unmod/block/cfq-iosched.c:428-449 | the best of the other requests is found if and only if it is one of the at most two that are compared |
| `CfqChoice.NearHeadFindsBest` | linux-2.6.16-unmod/block/cfq-iosched.c:428-449 | with the head at the served request and the others of one kind, comparing the neighbours finds the best of all the rest |
| `CfqChoice.ServingFindsBestIff` | linux-2.6.16-unmod/block/cfq-iosched.c:428-449 | with last_sector at 0, where the code leaves it, the best of the rest is found if and only if the lowest synchronous request (or the lowest, if there is none) is one of those compared |
| `CfqChoice.OneKindIff` | linux-2.6.16-unmod/block/cfq-iosched.c:428-449 | in a queue of one kind that is if and only if the served request is one of the first two or the last |
| `CfqChoice.ServingBestKeepsBest` | linux-2.6.16-unmod/block/cfq-iosched.c:908-917 | a queue of one kind that serves next_crq itself serves from the lowest sector up and keeps next_crq the best |
| `CfqChoice.FifoServiceMisses` | linux-2.6.16-unmod/block/cfq-iosched.c:908-917 | serving a request from the middle caches its lower neighbour although a better request is queued |
| `CfqLists.RrDel` | linux-2.6.16-unmod/block/cfq-iosched.c:525-534 | a queue that goes leaves exactly one list and busy_queues was not zero |
| `CfqLists.RrAdd` | linux-2.6.16-unmod/block/cfq-iosched.c:515-523 | a queue that comes is on exactly one list and counted |
| `CfqLists.RrResort` | linux-2.6.16-unmod/block/cfq-iosched.c:459-509 | refiling keeps every busy queue on exactly one list |
| `CfqTheorems.InsertKeeps` | linux-2.6.16-unmod/block/cfq-iosched.c:1649-1665 | inserting, with an alias or without, keeps the bookkeeping |
| `CfqTheorems.FrontMergeKeeps` | linux-2.6.16-unmod/block/cfq-iosched.c:691-705 | so does repositioning after a front merge, although the queue may be empty in between |
| `CfqTheorems.MergeKeeps` | linux-2.6.16-unmod/block/cfq-iosched.c:707-721 | so does removing a request that was appended to another |
| `CfqTheorems.CompleteKeeps` | linux-2.6.16-unmod/block/cfq-iosched.c:1667-1695 | so does completion, and the completed request was counted in on_dispatch |
| `CfqTheorems.StepKeeps` | linux-2.6.16-unmod/block/cfq-iosched.c:511-917 | so does every operation |
| `CfqTheorems.RunKeeps` | linux-2.6.16-unmod/block/cfq-iosched.c:511-917 | so does every run |
| `CfqTheorems.Bookkeeping` | linux-2.6.16-unmod/block/cfq-iosched.c:185-221 | in every reachable state next_crq is NULL exactly if the tree is empty, on_rr holds exactly if it is not, queued and on_dispatch count the requests and the fifo holds those of the tree |
| `CfqTheorems.BusyQueues` | linux-2.6.16-unmod/block/cfq-iosched.c:343-346 | in every run busy_queues is the number of queues with requests, each of these is on exactly one list and no other queue is on any |
| `CfqScheduler.DispatchConserves` | linux-2.6.16-unmod/block/cfq-iosched.c:908-917 | dispatching loses no request and dispatches none twice |
| `CfqScheduler.Scheduler.ResortRrList` | linux-2.6.16-unmod/block/cfq-iosched.c:459-509 | the backward scan files a queue behind the last one served before it |
| `CfqScheduler.Scheduler.DelCrqRb` | linux-2.6.16-unmod/block/cfq-iosched.c:539-555 | in place, a request leaves the tree and an emptied queue its list |
| `CfqScheduler.Scheduler.DispatchInsert` | linux-2.6.16-unmod/block/cfq-iosched.c:908-917 | in place, a request goes from its queue to the dispatch queue |
| `CfqScheduler.Scheduler.AddCrqRb` | linux-2.6.16-unmod/block/cfq-iosched.c:580-606 | the alias loop ends after one turn at most and the request is linked in |
| `CfqScheduler.Scheduler.InsertRequest` | linux-2.6.16-unmod/block/cfq-iosched.c:1649-1665 | inserting in place keeps the bookkeeping |
| `CfqScheduler.Scheduler.MergedRequest` | linux-2.6.16-unmod/block/cfq-iosched.c:608-615 | repositioning in place keeps the bookkeeping |
| `CfqScheduler.Scheduler.MergedRequests` | linux-2.6.16-unmod/block/cfq-iosched.c:707-721 | merging in place keeps the bookkeeping |
| `CfqScheduler.Scheduler.CompletedRequest` | linux-2.6.16-unmod/block/cfq-iosched.c:1667-1695 | completion in place keeps the bookkeeping |
| `CfqScheduler.Scheduler.ForcedDispatchCfqqs` | linux-2.6.16-unmod/block/cfq-iosched.c:1068-1083 | the queues of a list are emptied and leave it, the other lists stay as they are |
| `CfqScheduler.Scheduler.ForcedDispatch` | linux-2.6.16-unmod/block/cfq-iosched.c:1085-1102 | every queued request goes to the dispatch queue exactly once, the result counts them, and busy_queues is 0 at the end |
| `CipherModes.CodeSplit` | linux-2.6.16-unmod/crypto/cipher.c:182-261 | cutting a message at a block boundary and carrying the IV over changes nothing |
| `CipherModes.CodeMeetsStandard` | linux-2.6.16-unmod/crypto/cipher.c:182-261 | the block recursion is ECB and CBC as sections 6.1 and 6.2 of NIST SP 800-38A define them, at every block |
| `CipherModes.CbcLeavesLastBlock` | linux-2.6.16-unmod/crypto/cipher.c:182-241 | both directions of CBC leave the last ciphertext block as IV |
| `CipherModes.CodeRoundTrip` | linux-2.6.16-unmod/crypto/cipher.c:182-261 | decrypting what was encrypted gives the message back |
| `CipherProcess.CbcEncryptStep` | linux-2.6.16-unmod/crypto/cipher.c:182-206 | one CBC block in place or not |
| `CipherProcess.CbcDecryptInPlace` | linux-2.6.16-unmod/crypto/cipher.c:208-241 | decrypting a block over itself by way of the stack buffer |
| `CipherProcess.CbcDecryptApart` | linux-2.6.16-unmod/crypto/cipher.c:208-241 | decrypting a block elsewhere |
| `CipherProcess.EcbStep` | linux-2.6.16-unmod/crypto/cipher.c:243-261 | one ECB block |
| `CipherProcess.Process` | linux-2.6.16-unmod/crypto/cipher.c:182-261 | the do-while loops code as many whole blocks as fit and write nothing else |
| `ScatterWalk.WalkedIff` | linux-2.6.16-unmod/crypto/scatterwalk.c:39-88 | for any list of entries the addresses that a walk comes to are those of the list if and only if every entry starts inside its page or does not cross the end of the page it starts in |
| `ScatterWalk.GoesAstray` | linux-2.6.16-unmod/crypto/scatterwalk.c:50-84 | an entry with offset 5000 and length 4000 is left after 3192 bytes for an address that is not its next |
| `ScatterWalk.Walk.Start` | linux-2.6.16-unmod/crypto/scatterwalk.c:39-53 | for any non-empty entries the walk stands at the first byte of the first one, with what is left of its page |
| `ScatterWalk.Walk.Advance` | linux-2.6.16-unmod/crypto/scatterwalk.h:49-56 | exactly so many bytes are passed |
| `ScatterWalk.Walk.PageDone` | linux-2.6.16-unmod/crypto/scatterwalk.c:68-86 | the walk goes on to the next page or entry, no byte skipped |
| `ScatterWalk.Walk.Done` | linux-2.6.16-unmod/crypto/scatterwalk.c:88-93 | the page is turned exactly if it is used up or nothing is left to do |
| `Crypt.CopyIn` | linux-2.6.16-unmod/crypto/scatterwalk.c:99-114 | bytes scattered over pages are gathered in order |
| `Crypt.CopyOut` | linux-2.6.16-unmod/crypto/scatterwalk.c:99-114 | and scattered again, with no other byte of memory changed |
| `Crypt.CryptSlow` | linux-2.6.16-unmod/crypto/cipher.c:40-59 | one block through buffers advances the message by a block |
| `Crypt.CryptFast` | linux-2.6.16-unmod/crypto/cipher.c:61-86 | the rest of both pages, directly or through the bounce page, advances it by whole blocks |
| `Crypt.CryptRound` | linux-2.6.16-unmod/crypto/cipher.c:115-142 | each turn makes progress whatever the alignment and whether or not a bounce page could be allocated |
| `Crypt.Crypt` | linux-2.6.16-unmod/crypto/cipher.c:93-155 | for any fragmentation, same or disjoint buffers, the destination becomes the coded message and nothing else changes; lengths that are not whole blocks are refused |
| `Crypt.RoundTrip` | linux-2.6.16-unmod/crypto/cipher.c:93-155 | encrypting under one fragmentation and decrypting under another restores the message and leaves equal IVs |
| `HashSpec.Continue` | linux-2.6.16-unmod/crypto/sha1.c:49-79 | of what a hash has seen only the chaining value and the bytes behind the last whole block matter |
| `Sha1.Context.Update` | linux-2.6.16-unmod/crypto/sha1.c:49-79 | with its counter that starts below zero, an update takes the context of m to that of m followed by the data, for every length that with the buffered bytes fits in an unsigned int |
| `Sha1.TestIsRight` | linux-2.6.16-unmod/crypto/sha1.c:60 | the test for a complete block is right if and only if the sum of buffered bytes and length does not wrap |
| `Sha1.Context.Final` | linux-2.6.16-unmod/crypto/sha1.c:83-107 | the result is the hash of the message padded as in section 5.1.1 of FIPS 180-2 |
| `Sha1.HashPieces` | linux-2.6.16-unmod/crypto/sha1.c:37-107 | hashing in pieces is hashing in one go, for every way of cutting the message |
| `Sha256.CountIsRight` | linux-2.6.16-unmod/crypto/sha256.c:256-260 | the bit counter is right after an update if and only if it had less than 2^29 bytes or the low word overflowed |
| `Sha256.CountGoesWrong` | linux-2.6.16-unmod/crypto/sha256.c:256-260 | a first update of 2^29 bytes leaves the counter at zero |
| `Sha256.CountKeeps` | linux-2.6.16-unmod/crypto/sha256.c:256-260 | updates of less than 2^29 bytes keep the two words equal to the bits of the message |
| `Sha256.WordsAreLength` | linux-2.6.16-unmod/crypto/sha256.c:290-291 | the two words in big-endian order are the eight length bytes of the padding |
| `Sha256.Context.Update` | linux-2.6.16-unmod/crypto/sha256.c:248-278 | an update of less than 2^29 bytes takes the context of m to that of m followed by the data |
| `Sha256.Context.Final` | linux-2.6.16-unmod/crypto/sha256.c:280-307 | the result is the hash of the message padded as in section 5.1.1 of FIPS 180-2 |
| `Sha256.HashPieces` | linux-2.6.16-unmod/crypto/sha256.c:233-307 | hashing in pieces is hashing in one go |
| `Md5.LengthWords` | linux-2.6.16-unmod/crypto/md5.c:206-207 | the words stored at the end are the little-endian length bytes |
| `Md5.Context.Update` | linux-2.6.16-unmod/crypto/md5.c:161-189 | an update of any 32-bit length takes the context of m to that of m followed by the data |
| `Md5.Context.PadBlock` | linux-2.6.16-unmod/crypto/md5.c:191-210 | the padding written into the block, with a second block where needed, is that of sections 3.1 and 3.2 of RFC 1321 |
| `Md5.Context.Final` | linux-2.6.16-unmod/crypto/md5.c:191-215 | the result is the hash of the padded message |
| `Md5.HashPieces` | linux-2.6.16-unmod/crypto/md5.c:150-215 | hashing in pieces is hashing in one go |
| `Bits.DropLowest` | scripts/sync_char_post.py:97-102 | x & (x - 1) has one bit less and is smaller |
| `Bits.Population` | scripts/sync_char_post.py:97-102 | the loop counts the one bits |
| `Conflict.DependBit` | scripts/sync_char_post.py:185-194 | the masked bit operations set the bit of a byte exactly if both sets touch it and one writes it |
| `Conflict.CompareInto` | scripts/sync_char_post.py:168-218 | for any list passed in, its length afterwards is the result plus what was in it before, so the final assertion holds exactly for an empty list; a list without repetition gets each conflicting word once |
| `Conflict.Compare` | scripts/sync_char_post.py:168-218 | with an empty list the result is the number of distinct words with a conflict, plus one for input or output |
| `Conflict.DependencesSymmetric` | scripts/sync_char_post.py:168-218 | for shared ranges of equal size the result does not depend on the order of the two sets |
| `ConflictStats.NeverOne` | scripts/sync_char_post.py:349-362 | the number of conflicting samples is never one |
| `ConflictStats.CountConflicts` | scripts/sync_char_post.py:349-362 | the loops list exactly the samples that conflict with another one |
| `ConflictStats.LocalConflicts` | scripts/sync_char_post.py:366-384 | every conflicting sample has a partner among the listed ones, and each conflict is recorded |
| `ConflictStats.Density` | scripts/sync_char_post.py:364-385 | with c conflicting samples the division is defined and the density is between c / (c - 1) and c |
| `ConflictStats.BumpKeeps` | scripts/sync_char_post.py:377-382 | recording a conflict keeps every entry at most the total and their sum at least the total |
| `ConflictStats.Histogram.Record` | scripts/sync_char_post.py:377-382 | in place, each word of a conflict gets one more and the total one more |
| `ConflictStats.Sample` | scripts/sync_char_post.py:336-385 | one sample, with the histogram consistent afterwards, so over all windows |
| `ConflictStats.ColumnInRange` | scripts/sync_char_post.py:712-716 | the category index is at most 5 |
| `ConflictStats.Categories` | scripts/sync_char_post.py:697-719 | every address is counted in the category of its share, and the sum of the entries is at least the total |

## Left out

- Merging, preparation and non-fs requests inserted at the head during a barrier sequence, and changing the ordering mode while requests are queued.
- Hard barriers in `Elevator.dfy`: their start goes through blk_do_ordered, which `Barrier.dfy` models.
- Elevator order for requests that are requeued or inserted at the back without going through the scheduler: such requests can break the one-way order, so runs with them are not part of `Elevator.dfy`.
- Anticipatory scheduler runs with same-sector aliases, front merges and forced dispatch; reference counts of io_contexts. The statistics about processes are a parameter in `AsBatch.dfy`; `AsHistory.dfy` computes them for runs without merges and process exits, in natural numbers.
- CFQ's time slices, idling, preemption heuristics, request hash and reference counts; the empty_list is implicit (a queue on no other list).
- Deadline: the check whether a bio may be merged into a request, and the front merge lookup.
- AddUnsigned: only batching, starved and the tunables they are compared with are unsigned numbers; sectors, times and ids are natural numbers.
- Sha1, Sha256, Md5: writing the chaining value out as bytes and wiping the context; the compression functions are parameters.
- Sha256 updates of 2^29 bytes and more, beyond what `Sha256.CountIsRight` says about the counter, and sha1 updates whose length wraps with the buffered bytes, beyond `Sha1.TestIsRight`.
- WorkSet.population of sizes and word sizes (_size, _wsize, _size_words), log parsing and printing.
- ConflictStats.Density: floating point rounding; the numbers are real.
- Spinlocks, interrupts, page mapping, timers, work queues and memory pools; sysfs, ioctl and registration code.
- Sets whose second range is shorter than the first: the script stops with an index error.
- Red-black trees and linked lists as pointer structures: they are sorted sequences and sequences.
- The block ciphers themselves, arc4, deflate, crc32c and the test module.
