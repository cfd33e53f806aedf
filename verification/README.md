# Models of the Linux 3.2.7 block layer and two of its ciphers

This project models, in Dafny, the parts of the Linux 3.2.7 block layer that sequence, limit,
schedule, merge and complete I/O requests, and three self-contained parts of its crypto code, and
proves properties of them over all inputs and over whole runs. `dafny verify dfyconfig.toml` checks
all of it.

Code that changes state in place is a class with the source's fields, or a method with the source's
loop, proved against a specification on values; what the code promises is proved about the
specification. A function that runs under the queue lock is one step that sees one value of
`jiffies`. Time, sectors and bytes are unbounded integers.

| files | what they model |
|---|---|
| Flush*.dfy | the PREFLUSH / DATA / POSTFLUSH sequencer of `block/blk-flush.c` |
| Throttle*.dfy | slices, groups and dispatch rounds of `block/blk-throttle.c` |
| Segment*.dfy | segment counts and the scatterlist map of `block/blk-merge.c` |
| Completion*.dfy | partial completion, `blk_update_request` of `block/blk-core.c` |
| RequestPool*.dfy, RequestQueue.dfy | the request allocator of `block/blk-core.c` |
| Deadline*.dfy | `block/deadline-iosched.c` |
| Cfq*.dfy | groups, queues and forced dispatch of `block/cfq-iosched.c` |
| Merge*.dfy | bio and request merging and the merge hash of `block/elevator.c` |
| DispatchOrder.dfy | `elv_dispatch_sort` of `block/elevator.c` |
| Spawn*.dfy | `crypto_remove_spawns` of `crypto/algapi.c` |
| Aes*.dfy | `crypto/aes_generic.c` against FIPS-197 |
| Anubis*.dfy | `crypto/anubis.c` |
| Bytes.dfy, Words.dfy | what the two ciphers share |
| Common.dfy | what several models share |

In the runs of the flush, throttle, CFQ and group models a step whose function would not be defined
(a list naming a request that is gone, a slice that starts in the future) may lead anywhere; the
theorems about these runs therefore include that this does not happen.

Some statements that one might expect are not true of the code as it is. Each has a lemma with a
case in which it fails, and a theorem with the condition under which it holds.

- A POSTFLUSH is not always a flush of its own: a request without data that carries REQ_FLUSH and
  REQ_FUA, on a device with a cache and without FUA, can end although no flush was issued after its
  POSTFLUSH was queued (`FlushEmptyFua.PostFlushWithoutFlush`). The header comment of `blk-flush.c`
  says that without data only REQ_FLUSH makes sense; the code accepts such requests. For all others
  the statement holds in every run, and for these it does not (`FlushEmptyFua.ServedIff`). What the
  submitter is promised (durability, exactly-once completion, progress) holds for these requests too.
- Completing a request in two pieces can leave another `__sector`, and other contents in vectors that
  are already done, than completing it in one (`CompletionRequest.DeadVectorsDiffer`);
  `CompletionRequest.UpdateComposes` states exactly when. The memory still to be transferred is always
  the same (`CompletionRequest.AdvanceMemory`).
- The segment count of two merged requests can be too small, or -1, if the first has no data
  (`SegmentRequests.DatalessFirstMiscounts`, `SegmentRequests.DatalessMergeMiscounts`);
  `SegmentRequests.MergeFitsIff` states exactly when it is enough.
- With `writes_starved` set to 0 a read can wait for ever (`DeadlineTheorems.ReadsStarve`); the bound
  on waiting holds for exactly the other settings (`DeadlineTheorems.BoundedIff`).
- A task whose request the scheduler refuses while nothing is allocated sleeps with nothing
  outstanding that would wake it (`RequestPoolProofs.RefusedFirst`, `RequestPoolProofs.DrainIff`).
- `elv_merge` can miss a possible back merge when two requests end at the same sector
  (`MergeQueue.MissedMerge`); `MergeQueue.MissedIff` states exactly when.
- `cfq_merged_requests` puts a request on the fifo of another queue when the one merged into it
  belongs to that queue and is older (`CfqProofs.HandedAcross`), and keeps everything in order if and
  only if that is not so (`CfqProofs.MergedIff`). The requests that `elv_rb_latter_request` and
  `elv_rb_former_request` bring together are always of one queue.
- `crypto_remove_spawns` can remove an instance the replacement was built on when that instance has
  two spawns on the old algorithm (`SpawnRegistry.TwinsLost`); it keeps the right ones if and only if
  that is not so (`SpawnWalkProofs.KeptIff`).

## Model

| member | source | states |
|---|---|---|
| FlushProofs.KickOk | fc86-linux-3.2.7/block/blk-flush.c:244-273 | Deciding on a flush, and issuing one, keeps every request in its place and step, leaves what is durable alone, and leaves no pending request without a completion to come. |
| FlushProofs.CompleteSeqOk | fc86-linux-3.2.7/block/blk-flush.c:144-192 | Finishing a step of a request, with or without error, moves it to where its next step is done, or ends it with its promise kept, and keeps the invariant. |
| FlushProofs.WalkOk | fc86-linux-3.2.7/block/blk-flush.c:194-229 | The walk over the live list of a finished flush keeps the invariant, even when a flush kicked on the way turns the list into the pending one; at most one request is left on the list, and that one waits for its second flush. |
| FlushSpec.WalkShrinks | fc86-linux-3.2.7/block/blk-flush.c:207-213 | Every turn of the walk takes its request off the list, or puts it back at the end with fewer steps to do; so the walk ends. |
| FlushProofs.FlushDoneOk | fc86-linux-3.2.7/block/blk-flush.c:194-229 | The completion of a flush keeps the invariant of the sequencer. |
| FlushProofs.SequencedDataDoneOk | fc86-linux-3.2.7/block/blk-flush.c:275-285 | The completion of a data step keeps the invariant. |
| FlushProofs.SubmitOk | fc86-linux-3.2.7/block/blk-flush.c:298-347 | A new request, whatever it asks for and whatever the device can do, keeps the invariant. |
| FlushProofs.DirectDoneOk | fc86-linux-3.2.7/block/blk-flush.c:325-334 | A request that bypassed the sequencer ends with its promise kept. |
| FlushTheorems.RunInv | fc86-linux-3.2.7/block/blk-flush.c:144-347 | The invariant holds in every state of every run, for all requests and devices: any interleaving of insertions, driver fetches, flush and data completions with or without error, and writes by others. That completions are defined is proved, not assumed. |
| FlushTheorems.ExactlyOnce | fc86-linux-3.2.7/block/blk-flush.c:144-273 | In every run no BUG_ON fires, no request is ended twice, at most one flush is in flight and that exactly while the indices differ, and each request is in exactly one place: a flush queue, the data list, the ordinary path, or ended. |
| FlushTheorems.Durability | fc86-linux-3.2.7/block/blk-flush.c:9-64 | In every run a request that ended without error ran its steps once each in order; REQ_FLUSH made all writes completed before its insertion durable before its data was queued, and REQ_FUA made its own data durable. |
| FlushTheorems.NoStall | fc86-linux-3.2.7/block/blk-flush.c:191-285 | In every run a non-empty pending queue has a flush or a data step at the driver, and a non-empty running queue has a flush there, so a completion is still to come. |
| FlushTheorems.PostFlushServed | fc86-linux-3.2.7/block/blk-flush.c:144-229 | In every run a request with a POSTFLUSH that ended without error has had it: a flush was issued after the POSTFLUSH was queued, and one completed after that and before the end. Requests that flush before and after without data are the exception. |
| FlushDevice.MarkIff | fc86-linux-3.2.7/block/blk-flush.c:9-64 | What the disk has made durable says whether, in the log, a flush was issued after the POSTFLUSH of a request was queued and completed after that. |
| FlushQueue.RequestQueue.KickFlush | fc86-linux-3.2.7/block/blk-flush.c:244-273 | blk_kick_flush in place: the new state is that of the specification, and the result tells whether a flush was issued. |
| FlushQueue.RequestQueue.PlaceRequest | fc86-linux-3.2.7/block/blk-flush.c:159-189 | The switch of blk_flush_complete_seq in place; the result tells whether the dispatch queue grew. |
| FlushQueue.RequestQueue.CompleteSequence | fc86-linux-3.2.7/block/blk-flush.c:144-192 | blk_flush_complete_seq in place, against the specification. |
| FlushQueue.RequestQueue.WalkTurn | fc86-linux-3.2.7/block/blk-flush.c:208-213 | One turn of the walk over the live list: the successor is the one that the list had before the request was moved. |
| FlushQueue.RequestQueue.FlushEndIo | fc86-linux-3.2.7/block/blk-flush.c:194-229 | flush_end_io, with its cursor that is moved on before the request is, does what the specification of the walk does, ends, and keeps the invariant. |
| FlushQueue.RequestQueue.DataEndIo | fc86-linux-3.2.7/block/blk-flush.c:275-285 | flush_data_end_io in place, against the specification, keeping the invariant. |
| FlushQueue.RequestQueue.InsertFlush | fc86-linux-3.2.7/block/blk-flush.c:298-347 | blk_insert_flush in place, against the specification, keeping the invariant. |
| FlushEmptyFua.PostFlushWithoutFlush | fc86-linux-3.2.7/block/blk-flush.c:144-229 | A run of eight steps in which the walk meets two requests of that kind twice and ends them without error, with no flush issued after their POSTFLUSH was queued. |
| FlushEmptyFua.ServedIff | fc86-linux-3.2.7/block/blk-flush.c:9-17 | That a POSTFLUSH is served by a flush of its own holds in all runs for a kind of request on a kind of device if and only if it is not a request for both flushes without data on a device with a cache and without FUA. |
| ThrottleSlice.OpenSliceInv | fc86-linux-3.2.7/block/blk-throttle.c:487-523 | Starting, extending or keeping a slice keeps the accounting that ties the bytes and bios of the slice to all that was let through since the first slice. |
| ThrottleSlice.MayDispatchInv | fc86-linux-3.2.7/block/blk-throttle.c:584-735 | Asking whether a bio may go keeps the accounting and the queue; it is let go exactly when no wait is named, so a refusal names a wait of at least one jiffy. |
| ThrottleSlice.TrimInv | fc86-linux-3.2.7/block/blk-throttle.c:525-582 | Trimming a slice, with its rounding, keeps the accounting. |
| ThrottleSlice.ReleaseInv | fc86-linux-3.2.7/block/blk-throttle.c:737-800 | Charging and trimming for a bio that may go keeps the accounting and adds exactly that bio to what was let through. |
| ThrottleSlice.RunInv | fc86-linux-3.2.7/block/blk-throttle.c:487-800 | At every point of every run of one direction, at non-decreasing times, the accounting holds and the first slice start is that of the first question. That slices never start in the future is proved, not assumed. |
| ThrottleSlice.RateBound | fc86-linux-3.2.7/block/blk-throttle.c:487-800 | Over whole runs, across every start, extension, trim and restart of slices, the bytes let through from the first slice start up to any time t are at most bps * (t - start + throtl_slice) / HZ, and the bios at most iops * (t - start + throtl_slice) / HZ. |
| ThrottleData.DispatchDir | fc86-linux-3.2.7/block/blk-throttle.c:802-833 | One of the two loops of throtl_dispatch_tg: bios leave in order of arrival, at most the quota, and it stops early only when the queue is empty or the next bio is refused. |
| ThrottleData.RefusedAgain | fc86-linux-3.2.7/block/blk-throttle.c:686-735 | A bio that was refused is refused again at the same jiffy, although asking changed the slice. |
| ThrottleData.InsertTreeOk | fc86-linux-3.2.7/block/blk-throttle.c:412-453 | Inserting a group by its dispatch time keeps the service tree sorted, its leftmost cache right and its count exact. |
| ThrottleData.RemoveTreeOk | fc86-linux-3.2.7/block/blk-throttle.c:387-465 | Removing a group keeps the service tree sorted, its leftmost cache right and its count exact. |
| ThrottleRounds.PollGroup | fc86-linux-3.2.7/block/blk-throttle.c:762-780 | The next dispatch time of a group is now exactly when one of its first bios may go; if both are refused it lies in the future. |
| ThrottleRounds.ThrottleQueue.constructor | fc86-linux-3.2.7/block/blk-throttle.c:1241-1273 | A new queue satisfies the invariant. |
| ThrottleRounds.ThrottleQueue.First | fc86-linux-3.2.7/block/blk-throttle.c:372-385 | throtl_rb_first finds the first group through its cache. |
| ThrottleRounds.ThrottleQueue.Enqueue | fc86-linux-3.2.7/block/blk-throttle.c:440-453 | A group that holds bios goes on the tree; the counters stay equal to the lists. |
| ThrottleRounds.ThrottleQueue.Dequeue | fc86-linux-3.2.7/block/blk-throttle.c:455-465 | A group comes off the tree. |
| ThrottleRounds.ThrottleQueue.DispatchGroup | fc86-linux-3.2.7/block/blk-throttle.c:802-833 | A group releases at most six reads and two writes, in order; if none, both directions are stuck. |
| ThrottleRounds.ThrottleQueue.UpdateDisptime | fc86-linux-3.2.7/block/blk-throttle.c:762-780 | The group goes back on the tree at its next dispatch time, which lies in the future if it is stuck. |
| ThrottleRounds.ThrottleQueue.ServeFirst | fc86-linux-3.2.7/block/blk-throttle.c:841-857 | One turn of the round: either bios are released or one group fewer is due now. |
| ThrottleRounds.ThrottleQueue.SelectDispatch | fc86-linux-3.2.7/block/blk-throttle.c:835-864 | A round at one jiffy terminates, releases at most 39 bios in order of arrival, keeps the invariant, and stops below its quantum only when no group is due; no BUG_ON on the way can fire: those for the counters are part of the invariant, those of throtl_trim_slice and tg_may_dispatch are proved where they stand. |
| ThrottleRounds.ThrottleQueue.AddGroup | fc86-linux-3.2.7/block/blk-throttle.c:306-370 | A new group with its limits keeps the invariant. |
| ThrottleRounds.ThrottleQueue.ThrottleBio | fc86-linux-3.2.7/block/blk-throttle.c:1112-1204 | blk_throtl_bio lets a bio through exactly when nothing waits before it and its limits allow it; otherwise it waits behind all that came before. |
| ThrottleRounds.ThrottleQueue.ScheduleNext | fc86-linux-3.2.7/block/blk-throttle.c:467-485 | A next round is scheduled exactly while bios wait, for when the first group is due or at once. |
| ThrottleRounds.QueueRateBound | fc86-linux-3.2.7/block/blk-throttle.c:487-864 | For every group and direction of a queue in every state that satisfies the invariant: the rate bounds, and what was let through followed by what waits is what came, in order. |
| Segments.GreedyValid | fc86-linux-3.2.7/block/blk-merge.c:12-69 | Both greedy passes, that of the count and that of the map, cut the vectors into valid segments. |
| Segments.GreedyMinimal | fc86-linux-3.2.7/block/blk-merge.c:117-169 | The split of the scatterlist map has no more segments than any valid split of the same vectors. |
| Segments.MapFits | fc86-linux-3.2.7/block/blk-merge.c:117-169 | So the map never needs more entries than any valid count. |
| SegmentRequests.RecalcSegments | fc86-linux-3.2.7/block/blk-merge.c:12-69 | The counting loop counts the segments of the greedy split and raises the end sizes of the end bios to those of its first and last segment. |
| SegmentRequests.RecountCounts | fc86-linux-3.2.7/block/blk-merge.c:12-85 | After a recount the greedy split witnesses the count and the cached end sizes. |
| SegmentRequests.TouchingCounts | fc86-linux-3.2.7/block/blk-merge.c:277-315 | The end sizes that ll_merge_requests_fn writes before it decides keep both counts witnessed, whether or not it goes on. |
| SegmentRequests.MergeCounts | fc86-linux-3.2.7/block/blk-merge.c:277-315 | Two requests whose data touches merge into one segment fewer, with a witness. |
| SegmentRequests.MergeFitsIff | fc86-linux-3.2.7/block/blk-merge.c:87-315 | For two requests, each with data and a witnessed count or without data and a count of 0: the merged count is enough for the map if and only if it is not the case that the first ends in a bio without data that passes for contiguous while the second has no segment to spare. |
| SegmentRequests.DatalessFirstMiscounts | fc86-linux-3.2.7/block/blk-merge.c:97-98 | One failing case: a request without data before one with a single vector merges to a count of 0, and the map needs an entry. |
| SegmentRequests.PhysSegments | fc86-linux-3.2.7/block/blk-merge.c:76-85 | A bio's cached count, recounted if it is not valid, is that of the greedy split. |
| SegmentRequests.MapChain | fc86-linux-3.2.7/block/blk-merge.c:117-169 | The loop of blk_rq_map_sg builds the entries of its greedy split. |
| SegmentRequests.Request.constructor | fc86-linux-3.2.7/block/blk-merge.c:71-74 | A request from one bio satisfies the invariant. |
| SegmentRequests.Request.Recalc | fc86-linux-3.2.7/block/blk-merge.c:71-74 | blk_recalc_rq_segments in place. |
| SegmentRequests.Request.BackMerge | fc86-linux-3.2.7/block/blk-merge.c:202-250 | A back merge succeeds exactly when the sector and segment limits allow it, appends the vectors, adds the counts, and keeps the count witnessed. |
| SegmentRequests.Request.FrontMerge | fc86-linux-3.2.7/block/blk-merge.c:252-275 | A front merge, likewise. |
| SegmentRequests.Request.MergeNext | fc86-linux-3.2.7/block/blk-merge.c:277-315 | ll_merge_requests_fn with the joining of the chains goes ahead exactly when neither request is special and the sector and segment limits allow it; the stored count is the sum, one less where the requests touch; two data requests make a valid one, and a refusal leaves both as sound as they were. |
| SegmentRequests.CutChainOk | fc86-linux-3.2.7/block/blk-core.c:2185-2190 | What a partial completion leaves of a chain is a chain with data, shorter by the bytes done. |
| SegmentRequests.Request.Advance | fc86-linux-3.2.7/block/blk-core.c:2185-2215 | After a partial completion the segments of what is left are counted anew and the request is valid. |
| SegmentRequests.Request.MapSg | fc86-linux-3.2.7/block/blk-merge.c:117-200 | blk_rq_map_sg before padding and drain emits no more entries than nr_phys_segments, and their lengths add up to the request. |
| SegmentHistories.MapFitsCount | fc86-linux-3.2.7/block/blk-merge.c:12-315 | For every history of bio merges, request merges, refused merges, grown end sizes, recounts and partial completions of a data request, the map fits the count and the lengths add up. |
| SegmentRequests.DatalessMergeMiscounts | fc86-linux-3.2.7/block/blk-merge.c:97-98 | The other: two requests without data merge to a count of -1, stored as 65535. |
| Completion.AdvanceOk | fc86-linux-3.2.7/block/blk-core.c:2117-2190 | Completing n bytes leaves well-formed bios with exactly the remaining bytes, none exactly when all are done; and every bio is either ended, once and in order, or left. |
| Completion.AdvanceIff | fc86-linux-3.2.7/block/blk-core.c:2117-2190 | Two pieces leave exactly the bios that one piece leaves, vectors that are done included, if and only if the first does not stop strictly inside a vector that the second passes in a bio that it does not finish. |
| Completion.AdvanceComposes | fc86-linux-3.2.7/block/blk-core.c:2070-2218 | Completing a and then b bytes leaves the bios (indices, live offsets and lengths, sizes, sectors, flags) and ends the bios, in order and with the status, that completing a + b bytes does. |
| CompletionRequest.UpdatedOk | fc86-linux-3.2.7/block/blk-core.c:2070-2218 | The length of a request stays that of its bios, and nothing remains exactly when all bytes are done. |
| CompletionRequest.UpdateComposes | fc86-linux-3.2.7/block/blk-core.c:2070-2218 | The same for whole requests; the sectors agree if and only if it is not b that finishes a request which a had moved on, and the bios agree to the last if and only if a did not stop inside a vector that b passed in a bio it left unfinished. |
| CompletionRequest.AdvanceMemory | fc86-linux-3.2.7/block/blk-core.c:2117-2190 | What is left covers exactly the memory that the request covered, less the first n bytes. |
| CompletionRequest.DeadVectorsDiffer | fc86-linux-3.2.7/block/blk-core.c:2185-2190 | A case of that: two pieces leave another dead vector than one. |
| CompletionRequest.Request.EndBio | fc86-linux-3.2.7/block/blk-core.c:149-175 | A bio is ended, unless it belongs to a flush sequence. |
| CompletionRequest.Request.CompleteBios | fc86-linux-3.2.7/block/blk-core.c:2117-2167 | The loop ends the bios that are done and finds where the next one is cut; the branch for an index beyond the vectors is dead. |
| CompletionRequest.Request.Update | fc86-linux-3.2.7/block/blk-core.c:2070-2218 | blk_update_request in place, against the specification; it reports more exactly when bytes remain, and the request keeps its length, so the repair of a botched request is dead. |
| RequestPoolProofs.FreedLaneOk | fc86-linux-3.2.7/block/blk-core.c:681-694 | Freeing a request keeps the flags of its side right, and wakes a sleeper if the count is back within the limit. |
| RequestPoolProofs.FreedOk | fc86-linux-3.2.7/block/blk-core.c:700-713 | freed_request keeps both sides right; a starved other side is looked at too. |
| RequestPoolProofs.FreedReleases | fc86-linux-3.2.7/block/blk-core.c:700-713 | freed_request stops counting exactly the one allocation and wakes a sleeper on each side that has one which can go on. |
| RequestPoolProofs.AdmitOk | fc86-linux-3.2.7/block/blk-core.c:760-800 | get_request counts one more or nothing; when it fails, the side has requests out or is marked starved. |
| RequestPoolProofs.AdmitIff | fc86-linux-3.2.7/block/blk-core.c:760-798 | A request is granted if and only if the scheduler does not refuse, the hard limit is not reached, and the side is below its limit, the scheduler insists, or the task is a batcher. |
| RequestPoolProofs.GetOk | fc86-linux-3.2.7/block/blk-core.c:748-810 | get_request restores the invariant on a side that a woken task has just left: whether it passes or not, the sleepers have something to wait for. |
| RequestPoolProofs.StepInv | fc86-linux-3.2.7/block/blk-core.c:651-904 | Every locked stretch of allocation, failure, freeing and retry keeps the invariant. |
| RequestPoolProofs.RunInv | fc86-linux-3.2.7/block/blk-core.c:651-904 | The invariant holds at every point of every run on a live queue with a limit of at least 4. |
| RequestPoolProofs.Allocator | fc86-linux-3.2.7/block/blk-core.c:651-904 | In every run each count is the number of allocations out, at most 3 * nr_requests / 2; a side is marked full exactly when its count is at least nr_requests; and a side with sleepers has requests out, is starved, or has a woken task yet to retry. |
| RequestPoolProofs.Drain | fc86-linux-3.2.7/block/blk-core.c:681-713 | When all requests that are out come back, in any order, every side with sleepers has woken one, provided there was a request out. |
| RequestPoolProofs.DrainIff | fc86-linux-3.2.7/block/blk-core.c:681-713 | A side with sleepers has woken one, when all is back, if and only if something was out or one had been woken before. |
| RequestPoolProofs.RefusedFirst | fc86-linux-3.2.7/block/blk-core.c:824-833 | The proviso is needed: a task whose very first request the scheduler refuses sleeps on a starved side while nothing is out whose return would wake it. |
| RequestPoolProofs.WokenAdmitted | fc86-linux-3.2.7/block/blk-core.c:651-679 | A woken task with an io_context gets its request unless the scheduler refuses or the hard limit is reached, because it is made a batcher first. |
| RequestQueue.FreedSide | fc86-linux-3.2.7/block/blk-core.c:681-694 | __freed_request, for one request fewer or for a starved side, leaves the flags right, and a sleeper woken if the count is within the limit. |
| RequestQueue.FreedBoth | fc86-linux-3.2.7/block/blk-core.c:700-713 | freed_request on the two sides, against the specification. |
| RequestQueue.Decide | fc86-linux-3.2.7/block/blk-core.c:760-800 | The decision of get_request: passes exactly when the scheduler and the two limits allow it, counts one more or none, keeps the flags right, and leaves a refused side with requests out or marked starved. |
| RequestQueue.RequestList.constructor | fc86-linux-3.2.7/block/blk-core.c:434-454 | A new request list has nothing out and nobody asleep, and satisfies the invariant. |
| RequestQueue.RequestList.FreedRequest | fc86-linux-3.2.7/block/blk-core.c:700-713 | freed_request in place: the allocation alone is no longer counted, and sleepers that can go on are woken. |
| RequestQueue.RequestList.PutRequest | fc86-linux-3.2.7/block/blk-core.c:1103-1127 | A request that comes back is freed, keeping the invariant. |
| RequestQueue.RequestList.GetRequest | fc86-linux-3.2.7/block/blk-core.c:748-810 | get_request in place, up to where it drops the lock: grants exactly when scheduler and limits allow it, restores the invariant, and a refusal leaves something to wait for. |
| RequestQueue.RequestList.GotMemory | fc86-linux-3.2.7/block/blk-core.c:811-848 | The memory was there: the allocation is out, and the invariant holds. |
| RequestQueue.RequestList.Undo | fc86-linux-3.2.7/block/blk-core.c:813-836 | The end of get_request when no memory could be had: the allocation is taken back, the invariant holds, and there is something to wait for. |
| RequestQueue.RequestList.PrepareToWait | fc86-linux-3.2.7/block/blk-core.c:880-881 | A task may sleep at the tail of its side after a failed attempt, keeping the invariant. |
| RequestQueue.RequestList.FinishWait | fc86-linux-3.2.7/block/blk-core.c:898-898 | A woken task leaves its side, whose sleepers may be left with nothing to wait for until it has tried. |
| RequestQueue.RequestList.Retry | fc86-linux-3.2.7/block/blk-core.c:880-901 | A turn of get_request_wait: a woken task gets its request exactly when scheduler and limits allow it, sleeps again if not, and the invariant holds after the whole step. |
| DeadlineProofs.AddInv | fc86-linux-3.2.7/block/deadline-iosched.c:76-111 | A new request keeps fifo and sorted list in agreement and each in its order. |
| DeadlineProofs.DispatchInv | fc86-linux-3.2.7/block/deadline-iosched.c:192-325 | A dispatch keeps the lists in agreement, at most one next request, and the bounds on the batch and on starving. |
| DeadlineProofs.DispatchProgress | fc86-linux-3.2.7/block/deadline-iosched.c:243-325 | A dispatch serves an expired request or strictly lowers the number of dispatches it can still be kept waiting. |
| DeadlineProofs.PatienceBound | fc86-linux-3.2.7/block/deadline-iosched.c:243-325 | That number is at most (k + 1) * (writes_starved + 1) * fifo_batch at place k. |
| DeadlineTheorems.RunInv | fc86-linux-3.2.7/block/deadline-iosched.c:76-325 | The invariant holds at every point of every run with fixed settings. |
| DeadlineTheorems.NoStarvation | fc86-linux-3.2.7/block/deadline-iosched.c:192-325 | In every run without merges and with writes_starved of at least 1, an expired request at place k of its fifo is dispatched within (k + 1) * (writes_starved + 1) * fifo_batch dispatches (fifo_batch 0 counting as 1), whatever arrives meanwhile. |
| DeadlineTheorems.BoundedIff | fc86-linux-3.2.7/block/deadline-iosched.c:243-325 | For each setting of fifo_batch and writes_starved: that bound holds in all runs if and only if writes_starved is at least 1. |
| DeadlineTheorems.OnesRun | fc86-linux-3.2.7/block/deadline-iosched.c:251-292 | A run with fifo_batch set to 0 is a run with it set to 1. |
| DeadlineTheorems.ReadsStarve | fc86-linux-3.2.7/block/deadline-iosched.c:268-292 | With writes_starved of 0, for every fifo_batch and every n there is a run in which a read that has expired and is first in its fifo is not dispatched in n dispatches. |
| DeadlineTheorems.Scheduler.AddRequest | fc86-linux-3.2.7/block/deadline-iosched.c:98-111 | deadline_add_request in place. |
| DeadlineTheorems.Scheduler.MoveRequest | fc86-linux-3.2.7/block/deadline-iosched.c:204-220 | deadline_move_request in place. |
| DeadlineTheorems.Scheduler.DispatchRequests | fc86-linux-3.2.7/block/deadline-iosched.c:243-325 | deadline_dispatch_requests in place: one request goes out unless there is none. |
| CfqTree.InsertSorted | fc86-linux-3.2.7/block/cfq-iosched.c:841-868 | Inserting an entry to the right of all with keys up to its own keeps a tree in order. |
| CfqTree.EraseOk | fc86-linux-3.2.7/block/cfq-iosched.c:790-796 | Erasing drops exactly that entry and keeps the leftmost cache right. |
| CfqGroupProofs.ServedInv | fc86-linux-3.2.7/block/cfq-iosched.c:972-992 | Charging a group, off the tree and back on, keeps the group tree in order, total_weight the sum of weights on it, and a group on it exactly when it has busy queues. |
| CfqGroupProofs.NotifyAddInv | fc86-linux-3.2.7/block/cfq-iosched.c:890-912 | A queue becoming busy keeps that, with a new group behind all others. |
| CfqGroupProofs.NotifyDelInv | fc86-linux-3.2.7/block/cfq-iosched.c:923-938 | A queue becoming idle keeps that. |
| CfqFairness.RoundWithin | fc86-linux-3.2.7/block/cfq-iosched.c:2289-2316 | A turn of the group with the least virtual time spreads the groups no further than they were or than its own charge. |
| CfqFairness.Spread | fc86-linux-3.2.7/block/cfq-iosched.c:841-992 | In every run with the same busy groups and weights the virtual times stay within the larger of their initial spread and the largest scaled charge. |
| CfqFairness.Growth | fc86-linux-3.2.7/block/cfq-iosched.c:542-549 | The virtual time of a group grows by its service over its weight, up to one unit of rounding a turn. |
| CfqFairness.Fairness | fc86-linux-3.2.7/block/cfq-iosched.c:542-992 | In every such run the services of two groups, each times the other's weight, differ by at most the product of the weights times twice that bound plus the number of turns. |
| CfqProofs.FindNextOk | fc86-linux-3.2.7/block/cfq-iosched.c:802-823 | The next request of a queue is another one of it, and none exactly when there is no other. |
| CfqProofs.DispatchOk | fc86-linux-3.2.7/block/cfq-iosched.c:2079-2096 | Dispatching any request of a queue, the next one or an expired one, takes exactly it out of both lists and the count, and leaves another one next exactly if there is one. |
| CfqProofs.DelRrOk | fc86-linux-3.2.7/block/cfq-iosched.c:1472-1492 | An empty queue leaves the service tree and, with the last one, its group the group tree. |
| CfqProofs.ResortOk | fc86-linux-3.2.7/block/cfq-iosched.c:1293-1375 | Moving a busy queue to its place, in its own or another tree, changes nothing else. |
| CfqProofs.InsertedOk | fc86-linux-3.2.7/block/cfq-iosched.c:1520-1546 | A new request makes its queue busy if it was not, and is in both lists. |
| CfqProofs.RepositionedOk | fc86-linux-3.2.7/block/cfq-iosched.c:1548-1558 | A request that starts earlier after a front merge is sorted anew, keeps its place in the fifo, and may become next; all else stays. |
| CfqProofs.MergedIff | fc86-linux-3.2.7/block/cfq-iosched.c:1654-1684 | cfq_merged_requests, within a queue or across two, keeps the invariant and takes out exactly the merged request, if and only if it does not move a request to the fifo of another queue. |
| CfqDrain.ExpiredOk | fc86-linux-3.2.7/block/cfq-iosched.c:1747-1792 | At the end of a slice an empty queue stops being busy and another one keeps its requests. |
| CfqDrain.NextForcedOk | fc86-linux-3.2.7/block/cfq-iosched.c:1823-1841 | As long as a request is queued anywhere, the search over groups and trees finds a busy queue. |
| CfqScheduler.StepInOrder | fc86-linux-3.2.7/block/cfq-iosched.c:1456-1841 | Inserting, dispatching any request of the active queue, moving a request after a front merge, merging, expiring and activating each keep the invariant: next_rq is missing exactly when the sorted list is empty, fifo and sorted list hold the same requests, a busy queue that is not active has requests, trees and flags agree, and the counters count. |
| CfqScheduler.RunInOrder | fc86-linux-3.2.7/block/cfq-iosched.c:1456-1841 | That holds at every point of every run. |
| CfqScheduler.Scheduler.DispatchInsert | fc86-linux-3.2.7/block/cfq-iosched.c:2079-2096 | cfq_dispatch_insert of any request of a queue, in place, keeping the invariant. |
| CfqScheduler.Scheduler.DispatchRequest | fc86-linux-3.2.7/block/cfq-iosched.c:2573-2592 | The choice of cfq_dispatch_request: the head of the fifo if it has expired, else the next request, goes to the dispatch list; the invariant holds. |
| CfqScheduler.Scheduler.MergedRequest | fc86-linux-3.2.7/block/cfq-iosched.c:1636-1644 | cfq_merged_request after a front merge, in place, keeping the invariant. |
| CfqScheduler.Scheduler.MergedRequests | fc86-linux-3.2.7/block/cfq-iosched.c:1654-1684 | cfq_merged_requests in place; the invariant holds after it if and only if it stayed within a queue or the merged request was not the older. |
| CfqScheduler.Scheduler.AddCfqqRr | fc86-linux-3.2.7/block/cfq-iosched.c:1456-1466 | cfq_add_cfqq_rr in place. |
| CfqScheduler.Scheduler.InsertRequest | fc86-linux-3.2.7/block/cfq-iosched.c:3505-3520 | cfq_insert_request in place, keeping the invariant. |
| CfqScheduler.Scheduler.DelCfqqRr | fc86-linux-3.2.7/block/cfq-iosched.c:1472-1492 | cfq_del_cfqq_rr in place. |
| CfqScheduler.Scheduler.SliceExpired | fc86-linux-3.2.7/block/cfq-iosched.c:1747-1792 | __cfq_slice_expired in place. |
| CfqScheduler.Scheduler.GetNextQueueForced | fc86-linux-3.2.7/block/cfq-iosched.c:1823-1841 | cfq_get_next_queue_forced in place. |
| CfqScheduler.Scheduler.ForceQueue | fc86-linux-3.2.7/block/cfq-iosched.c:2433-2447 | The active queue is emptied, each request to the dispatch list once, and stops being busy; the BUG_ON for its fifo is dead. |
| CfqScheduler.Scheduler.ForcedDispatch | fc86-linux-3.2.7/block/cfq-iosched.c:2453-2469 | cfq_forced_dispatch terminates; every queued request of every queue and group goes to the dispatch list exactly once, the result is their number, and no queue is busy or active; the BUG_ON for busy queues is dead. |
| SpawnWalkProofs.PushOk | fc86-linux-3.2.7/crypto/algapi.c:150-166 | Taking the next user onto the stack keeps the invariant of the walk. |
| SpawnWalkProofs.PopOk | fc86-linux-3.2.7/crypto/algapi.c:83-104 | Going back one level hands the fate of the spawn down the stack; the algorithm written back is the one in whose list the spawn was. |
| SpawnWalkProofs.WalkEnds | fc86-linux-3.2.7/crypto/algapi.c:148-168 | When the walk ends, exactly the smallest set with the chosen spawns and, below every spawn but the replacement's, all users has been visited; instances may have any number of spawns. |
| SpawnWalkProofs.KeptIff | fc86-linux-3.2.7/crypto/algapi.c:83-168 | The spawns that have their algorithm back are exactly those that lead to the replacement if and only if no instance the replacement was built on is reached through two spawns. |
| SpawnWalkProofs.RemovalSingle | fc86-linux-3.2.7/crypto/algapi.c:130-176 | Without a replacement that condition always holds: everything that is reached goes, however instances share each other. |
| SpawnRegistry.TwinsLost | fc86-linux-3.2.7/crypto/algapi.c:148-168 | With a replacement it can fail: two spawns of one instance on the old algorithm, in either order, and the replacement built on that instance. |
| SpawnRegistry.Bounded | fc86-linux-3.2.7/crypto/algapi.c:148-168 | No spawn is visited twice, which bounds the walk. |
| SpawnRegistry.ReachedBelow | fc86-linux-3.2.7/crypto/algapi.c:157 | Nothing that is reached is the algorithm itself, so that BUG_ON is dead. |
| SpawnRegistry.NoUsersLeft | fc86-linux-3.2.7/crypto/algapi.c:127 | Users that return to a list do so after the instance was dealt with, so the list of an instance that goes is empty at that point and that BUG_ON is dead, with or without shared instances. |
| SpawnRegistry.Registry.RemoveSpawn | fc86-linux-3.2.7/crypto/algapi.c:106-128 | crypto_remove_spawn in place: the instance is dead, and taken off its template if it was on it. |
| SpawnRegistry.Registry.Select | fc86-linux-3.2.7/crypto/algapi.c:140-146 | The spawns whose type mask agrees leave the list of the algorithm, the others stay in order. |
| SpawnRegistry.Registry.MoreSpawns | fc86-linux-3.2.7/crypto/algapi.c:83-104 | crypto_more_spawns in place. |
| SpawnRegistry.Registry.Descend | fc86-linux-3.2.7/crypto/algapi.c:150-166 | The inner loop goes down until a list is empty or the replacement is met. |
| SpawnRegistry.Registry.WalkAll | fc86-linux-3.2.7/crypto/algapi.c:148-168 | The walk terminates with the stack and the chosen spawns used up. |
| SpawnRegistry.Registry.Settle | fc86-linux-3.2.7/crypto/algapi.c:170-175 | Kept spawns return to their own lists, the instances of the others die. |
| SpawnRegistry.Registry.RemoveSpawns | fc86-linux-3.2.7/crypto/algapi.c:130-176 | crypto_remove_spawns on any acyclic graph: the instances of the spawns reached that do not keep their algorithm die, all lists are what they were without these spawns, a spawn reached that keeps its algorithm leads to the replacement, and all that lead to it keep theirs if and only if no instance under the replacement is reached through two spawns. What is left is fit for another removal. |
| SpawnRegistry.Registry.DropDead | fc86-linux-3.2.7/crypto/algapi.c:75-82 | With the instances that went their spawns go too, and only these. |
| MergeProofs.ScanOk | fc86-linux-3.2.7/block/elevator.c:329-349 | A search of a bucket drops only requests that may not be merged and finds one that ends at the sector if and only if there is one in it. |
| MergeProofs.ScanFirst | fc86-linux-3.2.7/block/elevator.c:329-349 | It finds the first such request of the bucket. |
| MergeProofs.SearchIff | fc86-linux-3.2.7/block/elevator.c:329-349 | elv_rqhash_find succeeds if and only if some request that may be merged ends at the sector. |
| MergeProofs.StepInv | fc86-linux-3.2.7/block/elevator.c:469-706 | Inserts of requests with any number of bios, insert merges, bio back and front merges, request merges, forbidding, passing on and searching keep every request one contiguous extent of its recorded length and kind, every bio in one place, and the hash exact. |
| MergeProofs.AbsorbInv | fc86-linux-3.2.7/block/elevator.c:520-545 | A request that is merged on insertion brings all its bios, in one contiguous extent with those that were there. |
| MergeProofs.PlugOk | fc86-linux-3.2.7/block/blk-core.c:1246-1277 | A request that gathers bios in front and behind on a plug list stays one contiguous extent. |
| MergeProofs.FrontInv | fc86-linux-3.2.7/block/blk-core.c:1197-1226 | A front merge keeps the hash exact although the request is not hashed anew. |
| MergeProofs.MergeInv | fc86-linux-3.2.7/block/blk-merge.c:367-447 | Merging two requests keeps all bios, in one contiguous extent. |
| MergeProofs.RunInv | fc86-linux-3.2.7/block/elevator.c:469-706 | In every run the bios in requests and passed on are exactly those submitted, each once. |
| MergeProofs.FindExact | fc86-linux-3.2.7/block/elevator.c:315-349 | In every run the search by hash agrees with a search of all requests. |
| MergeQueue.Queue.constructor | fc86-linux-3.2.7/block/elevator.c:315-321 | A new queue holds nothing and satisfies the invariant. |
| MergeQueue.Queue.AddRequest | fc86-linux-3.2.7/block/elevator.c:689-699 | A request enters the queue, and the hash if it may be merged, keeping the invariant; exactly its bios are added. |
| MergeQueue.Queue.RqHashFind | fc86-linux-3.2.7/block/elevator.c:329-349 | elv_rqhash_find with its clean-up, in place. |
| MergeQueue.Queue.ElvMerge | fc86-linux-3.2.7/block/elevator.c:469-515 | elv_merge (one-hit cache and hash) computes what the specification says, only offers merges that fit and adjoin, and keeps the invariant. |
| MergeQueue.Queue.AttemptBackMerge | fc86-linux-3.2.7/block/blk-core.c:1174-1195 | bio_attempt_back_merge and elv_merged_request in place: the invariant holds, and exactly the bio is added. |
| MergeQueue.Queue.AttemptFrontMerge | fc86-linux-3.2.7/block/blk-core.c:1197-1226 | bio_attempt_front_merge and elv_merged_request in place: the invariant holds, and exactly the bio is added. |
| MergeQueue.Queue.AttemptMerge | fc86-linux-3.2.7/block/blk-merge.c:367-447 | attempt_merge goes ahead exactly when the requests adjoin, are alike and fit the limits; the invariant holds and no bio is lost. |
| MergeQueue.Queue.AttemptInsertMerge | fc86-linux-3.2.7/block/elevator.c:520-545 | elv_attempt_insert_merge: the request joins one that it adjoins, with all its bios, or the queue is left alone; when merging is allowed and it joins none, any that it could join shares its end with another that it cannot. |
| MergeQueue.MissedMerge | fc86-linux-3.2.7/block/elevator.c:469-515 | A possible back merge can be missed: a run of three insertions after which elv_merge sends away a write that continues one of the requests. |
| MergeQueue.MissedIff | fc86-linux-3.2.7/block/elevator.c:469-515 | With merging allowed and nothing in the cache, elv_merge misses a request that a bio continues if and only if the first mergeable request of the bucket that ends at the sector does not fit the bio. |
| MergeQueue.AloneFound | fc86-linux-3.2.7/block/elevator.c:329-349 | It takes two for that: a mergeable request that alone ends at a sector is what the search for that sector finds. |
| DispatchOrder.StretchOrdered | fc86-linux-3.2.7/block/elevator.c:409-446 | In an ordered list any two requests of a stretch that is alike and not stopped are in sweep order. |
| DispatchOrder.DispatchSort | fc86-linux-3.2.7/block/elevator.c:409-446 | The loop of elv_dispatch_sort, from the back, against the specification. |
| DispatchOrder.SortedAdds | fc86-linux-3.2.7/block/elevator.c:409-446 | Exactly the new request is added, nothing else moves, and started or barrier requests stay ahead of it. |
| DispatchOrder.SortedOrdered | fc86-linux-3.2.7/block/elevator.c:409-446 | The list stays in order. |
| DispatchOrder.AllOrdered | fc86-linux-3.2.7/block/elevator.c:409-446 | For any sequence of dispatches with one boundary the list is in order and has each request once. |
| DispatchOrder.StoppedStay | fc86-linux-3.2.7/block/elevator.c:409-446 | A started or barrier request and all ahead of it stay in place whatever is dispatched. |
| AesField.SubInverse | fc86-linux-3.2.7/crypto/aes_generic.c:329-1119 | The two S-boxes, as algebra, undo each other. |
| AesSpec.InvMixMix | fc86-linux-3.2.7/crypto/aes_generic.c:1128-1139 | The inverse column mixer undoes the mixer. |
| AesSpec.CipherInverse | fc86-linux-3.2.7/crypto/aes_generic.c:1329-1440 | The inverse cipher of FIPS-197, section 5.3, undoes the cipher of section 5.1, for any schedule of any length. |
| AesSpec.EqInvCipherAgrees | fc86-linux-3.2.7/crypto/aes_generic.c:1212-1214 | On the reversed and mixed schedule the equivalent inverse cipher of section 5.3.5 computes the inverse cipher. |
| AesWords.ForwardWordOk | fc86-linux-3.2.7/crypto/aes_generic.c:1300-1305 | A word of a table round is SubBytes, ShiftRows, MixColumns and the key. |
| AesWords.ForwardLastOk | fc86-linux-3.2.7/crypto/aes_generic.c:1315-1320 | A word of the last round, without MixColumns. |
| AesWords.InverseWordOk | fc86-linux-3.2.7/crypto/aes_generic.c:1372-1377 | A word of an inverse table round. |
| AesWords.InverseLastOk | fc86-linux-3.2.7/crypto/aes_generic.c:1387-1392 | A word of the last inverse round. |
| AesWords.ImixColOk | fc86-linux-3.2.7/crypto/aes_generic.c:1128-1139 | imix_col on a word is the inverse column mixer on its bytes. |
| AesWords.LsBoxOk | fc86-linux-3.2.7/crypto/aes_generic.c:1141-1145 | ls_box is the S-box on each byte of a word. |
| AesWords.TablesBegin | fc86-linux-3.2.7/crypto/aes_generic.c:65-1119 | The algebraic tables begin as the tables of the source do. |
| AesCipher.RcoTabOk | fc86-linux-3.2.7/crypto/aes_generic.c:63 | rco_tab holds the round constants of section 5.2. |
| AesCipher.RoundTrip | fc86-linux-3.2.7/crypto/aes_generic.c:1329-1440 | Decryption gives back every encrypted block for every key of 16, 24 or 32 bytes. |
| AesCipher.Context.Loop4 | fc86-linux-3.2.7/crypto/aes_generic.c:1147-1158 | loop4 extends the key expansion of section 5.2 by four words. |
| AesCipher.Context.Loop6 | fc86-linux-3.2.7/crypto/aes_generic.c:1160-1175 | loop6, by six. |
| AesCipher.Context.Loop8TopHalf | fc86-linux-3.2.7/crypto/aes_generic.c:1177-1188 | loop8tophalf, by four. |
| AesCipher.Context.Loop8 | fc86-linux-3.2.7/crypto/aes_generic.c:1190-1200 | loop8, by eight. |
| AesCipher.Context.Reverse | fc86-linux-3.2.7/crypto/aes_generic.c:1258-1266 | The decryption schedule is the encryption schedule backwards with all but the ends mixed. |
| AesCipher.Context.ExpandKey | fc86-linux-3.2.7/crypto/aes_generic.c:1216-1268 | crypto_aes_expand_key fails exactly for other key lengths, leaving the context alone, and otherwise stores both schedules. |
| AesCipher.Context.SchedulesOk | fc86-linux-3.2.7/crypto/aes_generic.c:1216-1268 | The stored words are the key schedule of FIPS-197 and its reversed, mixed form. |
| AesCipher.Context.ForwardRound | fc86-linux-3.2.7/crypto/aes_generic.c:1307-1313 | f_nround from one buffer into the other is a round of the specification. |
| AesCipher.Context.ForwardFinal | fc86-linux-3.2.7/crypto/aes_generic.c:1322-1327 | f_lround completes the cipher. |
| AesCipher.Context.InverseRound | fc86-linux-3.2.7/crypto/aes_generic.c:1379-1385 | i_nround is a round of the equivalent inverse cipher. |
| AesCipher.Context.InverseFinal | fc86-linux-3.2.7/crypto/aes_generic.c:1394-1399 | i_lround completes it. |
| AesCipher.Context.Encrypt | fc86-linux-3.2.7/crypto/aes_generic.c:1329-1368 | aes_encrypt with its alternating buffers computes FIPS-197 encryption. |
| AesCipher.Context.Decrypt | fc86-linux-3.2.7/crypto/aes_generic.c:1401-1440 | aes_decrypt computes FIPS-197 decryption, through the equivalent inverse cipher. |
| AnubisSpec.SubTwice | fc86-linux-3.2.7/crypto/anubis.c:320-385 | The S-box undoes itself: its network of mini-boxes reads the same both ways. |
| AnubisSpec.ThetaTwice | fc86-linux-3.2.7/crypto/anubis.c:560-569 | The diffusion layer undoes itself. |
| AnubisSpec.TauGammaTwice | fc86-linux-3.2.7/crypto/anubis.c:594-623 | Substitution with transposition undoes itself. |
| AnubisSpec.CryptInverse | fc86-linux-3.2.7/crypto/anubis.c:552-569 | The cipher on the inverse schedule undoes the cipher, for any schedule and number of rounds. |
| AnubisKeys.HornerIsSum | fc86-linux-3.2.7/crypto/anubis.c:497-522 | Horner's rule, by which round keys are read off the key state, evaluates the sums of powers. |
| AnubisWords.DiffuseOk | fc86-linux-3.2.7/crypto/anubis.c:595-618 | Four table entries are the S-box and the diffusion of a row. |
| AnubisWords.LastWordOk | fc86-linux-3.2.7/crypto/anubis.c:629-652 | The masked table entries of the last round are the S-box alone. |
| AnubisWords.UndiffusedOk | fc86-linux-3.2.7/crypto/anubis.c:560-569 | The words of the inverse schedule are the diffused words of the schedule. |
| AnubisWords.TablesBegin | fc86-linux-3.2.7/crypto/anubis.c:52-452 | The algebraic tables begin as the tables of the source do. |
| AnubisCipher.RunCipher | fc86-linux-3.2.7/crypto/anubis.c:574-660 | anubis_crypt computes the cipher of the layers on the given schedule. |
| AnubisCipher.RoundTrip | fc86-linux-3.2.7/crypto/anubis.c:662-672 | Decryption gives back every encrypted block for every key of 16, 20, ..., 40 bytes. |
| AnubisSetkey.Extract | fc86-linux-3.2.7/crypto/anubis.c:497-522 | A round key is read off the key state. |
| AnubisSetkey.Evolve | fc86-linux-3.2.7/crypto/anubis.c:534-549 | The next key state: substitution, cyclic permutation of columns, diffusion, and the round constant. |
| AnubisSetkey.Context.Expand | fc86-linux-3.2.7/crypto/anubis.c:486-550 | The encryption schedule holds the round key of every round. |
| AnubisSetkey.Context.Invert | fc86-linux-3.2.7/crypto/anubis.c:552-569 | The decryption schedule is the inverse schedule. |
| AnubisSetkey.Context.SetKey | fc86-linux-3.2.7/crypto/anubis.c:462-572 | anubis_setkey fails exactly for other key lengths, leaving the context alone, and otherwise stores both schedules. |
| AnubisSetkey.Context.Encrypt | fc86-linux-3.2.7/crypto/anubis.c:662-666 | Encryption with the stored schedule. |
| AnubisSetkey.Context.Decrypt | fc86-linux-3.2.7/crypto/anubis.c:668-672 | Decryption with the stored inverse schedule. |

## Left out

- sysfs, ioctl, cgroup plumbing, statistics and tracing: shallow logic that would add easy members.
- RCU, memory barriers, timers and work queues: every locked stretch of code is one step.
- Overflow of 32 and 64-bit integers and wrap-around of `jiffies`: integers are unbounded, except that the 16 bits of `nr_phys_segments` are modelled; an unlimited rate is a case of its own.
- `blk_abort_flushes`: it intentionally drops the sequencing state.
- `blk_throtl_drain` and changes of limits while bios are counted: they intentionally skip or reset the accounting.
- The exact values of waits in the throttle, which the source calls approximate: only that a refusal names a wait of at least one jiffy is used.
- Padding and drain entries of `blk_rq_map_sg`, integrity segments, failfast mixing and bidirectional requests.
- Physical mergeability and segment boundaries are arbitrary predicates on neighbouring vectors.
- CFQ: reference counts, idling, think time, cooperating queues and their hand-over, priority trees, preemption and queue depth detection; charges, keys and service trees of queues are parameters of the steps.
- CFQ: re-sorting a queue and the operations on the group tree are functions on values; what is not captured is that the source links and unlinks nodes in place. Whether a request is older than another, and has expired, are parameters.
- The `count` of the group service tree, which the source decrements but does not increment for groups.
- Merges in the deadline scheduler.
- Schedulers' own searches for front merges, and those conditions of `elv_rq_merge_ok` that concern the disk, integrity data and the scheduler; sizes are whole sectors.
- AesWords.TablesBegin: compares the first entry of each literal table with what the S-box and multiplication in the field give, because the tables are data.
- AnubisWords.TablesBegin: compares the first entries of the literal tables, because the tables are data.
- `ansi_cprng.c`, `ahash.c`, `ablkcipher.c`, tagging, time-outs and settings of queues: small or dependent on drivers.
- ThrottleSlice.RateBound: is about fixed limits, because a change of limits resets the slice.
- DeadlineTheorems.NoStarvation: is about runs without merges, because a merge can move a request in the fifo.
- CfqFairness.Fairness: is about a fixed set of busy groups with fixed weights, because a group that comes back starts behind all others.
- CfqScheduler.RunInOrder: does not include that queues are ordered by key within a service tree, because the keys are parameters of the steps and forced dispatch visits all queues.
- How long a plugged request stays on its plug list, and the list itself: a request enters the queue with whatever bios it has gathered.
- Notifications, reference counts of templates and the registration of algorithms in `crypto/algapi.c`; that instances are not built on each other in circles is a precondition, as registration can only build on what is there.
- RequestPoolProofs.RunInv: is about a live queue with a fixed limit of at least 4, because the source never sets a lower one and a dead queue refuses all requests.
- AnubisSetkey.Context.SetKey: does not include the flag that reports a bad key length to the transform.
- `crypto_aes_set_key`, which adds to `crypto_aes_expand_key` only the flag that reports a bad key length.
