# Verified models of kernel resource managers

Dafny models, with proofs, of the parts of this repository that keep hard invariants:

- the SLOB best-fit allocator (`project4/slob.c`): the free list packed into page memory, the heap of pages, the two counters;
- the FLUSH/FUA sequencer (`linux_source/block/blk-flush.c`) with the completion code it relies on;
- partial completion of requests (`linux_source/block/blk-core.c`);
- block I/O throttling (`linux_source/block/blk-throttle.c`);
- the real-time scheduling class (`project1/sched_rt.c`): nested priority arrays and bandwidth borrowing;
- the deadline elevator and the dispatch list (`linux_source/block/deadline-iosched.c`, `linux_source/block/elevator.c`);
- the sleeping barber (`concurrency4/barber.c`).

`dafny verify dfyconfig.toml` checks the whole project.

## How the models are built

Code that updates fields, lists or memory in place is a class whose methods follow the source branch by branch; loops are loops, and every `BUG_ON` is an assertion or a proved precondition.
Each such method is proved against a pure function of the old state.
What the code is for is then proved about those functions: invariants kept by every operation, and theorems about every run, where a run is any sequence of actions.
What is recorded only for the proofs (`trace`, `stamps`, `finished` and `device` of the sequencer, `submitted` and `dispatched` of a throttled group, `live` and `freshBytes` of the heap) is ghost state of the classes.
The barber's threads are steps between semaphore operations, interleaved in any order.

| files | component |
|---|---|
| `Collections`, `Arithmetic` | lists and optional values; products and quotients |
| `SlobFreeList`, `SlobPage`, `SlobHeap` | free lists as values; one page over an array of 16-bit units; the heap |
| `FlushSpec`, `FlushProof`, `FlushRuns`, `FlushHeld`, `FlushQueue`, `FlushBio` | the sequencer's steps; its invariants and theorems; what the flags promise; when flushes are held back; the queue in place; its view of completion |
| `BlkUpdate` | completion of a chain of bios |
| `Throttle` | slices, the rate bound, a group in place |
| `RtPrioSpec`, `RtPrioProof`, `RtPrioOrder`, `RtRunqueue` | priority arrays nested through groups |
| `RtBandwidth` | borrowing, going offline and online |
| `DeadlineSpec`, `DeadlineProof`, `DeadlineRuns`, `DeadlineLate`, `DeadlineOrder`, `DeadlineQueue` | the deadline scheduler: its steps, invariants, runs and expired requests; which request is next; in place |
| `ElevatorSort` | sorted insertion into the dispatch list |
| `Barber` | the barber shop |

Where code and documentation disagree, the models follow the code:

- The header of `project4/slob.c` (lines 22-25) describes a first-fit scan of the page; `slob_page_alloc` is a best-fit scan, and that is what `IsBestFit` says.
- `mem_used` is meant to be the bytes in use. Line 382 adds only for pages that are reused, line 440 subtracts always, so it is the bytes in use minus all bytes ever served from fresh pages. `SlobHeap.Valid` states exactly this.
- `blk_update_request` is described as accepting any number of bytes. Inside a bio without vectors it drops the count; `AdditiveIff` says exactly when splitting a completion is harmless.
- Handing on a surplus in `__disable_runtime` can lift a run queue above its period (`SurplusExceedsPeriod` reaches such a state); `DisableWithinPeriodIff` and `ApplyWithinPeriodIff` say exactly when.
- The wait `tg_with_in_bps_limit` computes is meant to be long enough. It rounds down, so it can be a jiffy short: `BpsWaitTooShort` is a bio refused again when its wait is over, and `BpsWaitEnoughIff` says exactly when the bytes are allowed then. The wait for the number of bios is always enough (`IopsWaitEnough`).
- A look after the end of the slice starts a new one and forgets how long a bio has waited. `AlwaysServedIff` says for which bios that is harmless; `NeverStarved` and `PunctualInTime` say that looks no later than asked for serve a bio of any size.
- `__enable_runtime` clears `rt_throttled` without queueing the group. `EnableOwesIff` says when that leaves a group that may run unqueued, `EnableLosesPlaceReached` reaches such a state, and `TimerSettlesIff` says when the period timer mends it.

Assumptions taken from the source: the queue has a write-back cache when a request reaches the sequencer (blk-core.c:1517) and FUA requests carry data (blk-flush.c:13); a run queue is enabled only while disabled, and `EnableConservesIff` shows that conservation needs exactly this; vectors of a bio are non-empty and add up to its size, or there are none.

## Model

| member | source | states |
|---|---|---|
| SlobFreeList.CanonicalUnique | project4/slob.c:475-507 | two address-ordered lists without adjacent blocks that cover the same units are equal: the free list is a function of the set of free units |
| SlobFreeList.FreeUnitsCount | project4/slob.c:460-479 | a canonical list's total length is the number of units it covers, so sp->units counts free units |
| SlobFreeList.FullPage | project4/slob.c:444 | free units plus one block in use add up to the page if and only if no unit of the page is neither |
| SlobFreeList.AlignDeltaExact | project4/slob.c:284-287 | skipping the computed delta lands on an aligned address |
| SlobFreeList.PageStartAligned | project4/slob.c:405-411 | at the start of a page every power-of-two alignment up to a page needs no skipping |
| SlobFreeList.BestFitUnique | project4/slob.c:281-300 | at most one block has least slack and is first among equals |
| SlobFreeList.TakeCanonical | project4/slob.c:308-331 | carving an aligned piece out of any block of a canonical list leaves a canonical list, shorter by the piece |
| SlobFreeList.TakeCovers | project4/slob.c:308-331 | carving removes exactly the units of the piece from the free set |
| SlobFreeList.InsertFront | project4/slob.c:481-487 | insertion before the first block, with coalescing, keeps the list canonical and adds exactly the freed units |
| SlobFreeList.InsertAfter | project4/slob.c:488-507 | insertion after a block, coalescing on either side or both, keeps the list canonical and adds exactly the freed units |
| SlobFreeList.TakeThenInsert | project4/slob.c:271-507 | any canonical list covering what an allocation left plus the freed block is the list there was before |
| SlobPages.SlobPage.SetSlob | project4/slob.c:201-211 | a header is written inside its block only, in either encoding |
| SlobPages.SlobPage.Decode | project4/slob.c:216-244 | reading a header gives back size, successor and end of list, for both encodings |
| SlobPages.SlobPage.SplitHead | project4/slob.c:308-315 | splitting for alignment turns a linked block into two linked ones |
| SlobPages.SlobPage.Relink | project4/slob.c:319-327 | pointing the predecessor, or the head of the list, somewhere else changes nothing but that link |
| SlobPages.SlobPage.Unlink | project4/slob.c:317-322 | an exact fit leaves the list linked without the block |
| SlobPages.SlobPage.Shorten | project4/slob.c:323-329 | a larger block stays linked, shortened from the front |
| SlobPages.SlobPage.FindBestFit | project4/slob.c:281-303 | the scan returns the best-fit block, its predecessor and the delta, or nothing exactly if no block fits |
| SlobPages.SlobPage.PageAlloc | project4/slob.c:271-341 | an aligned best-fit block comes off the list and the count; if no block fits, memory and list are unchanged |
| SlobPages.SlobPage.FindGap | project4/slob.c:489-494 | the walk stops at the free blocks on either side of the freed one |
| SlobPages.SlobPage.WriteFreed | project4/slob.c:496-500 | the header written for the freed block is that of the block joined with the next one if they touch |
| SlobPages.SlobPage.InsertBefore | project4/slob.c:481-487 | writing in place yields the list with the block put in front, joined if they touch |
| SlobPages.SlobPage.InsertAt | project4/slob.c:496-507 | writing in place yields the list with the block inserted, joined to any neighbour it touches |
| SlobPages.SlobPage.Free | project4/slob.c:458-507 | the page's list is canonical again and covers what it covered plus the freed units |
| SlobPages.SlobPage.AllocThenFree | project4/slob.c:271-507 | allocating and freeing restores free list, head and unit count, for any size and alignment; it allocates exactly if some block fits |
| SlobPages.SlobPage.Store | project4/slob.c:201-244 | writes by the owner of a block do not disturb the free list |
| SlobHeaps.PartitionAlloc | project4/slob.c:373-416 | adding a block taken from the free list keeps live and free blocks an exact partition of the page |
| SlobHeaps.PartitionFree | project4/slob.c:458-507 | giving a live block back keeps the partition |
| SlobHeaps.LastLiveBlock | project4/slob.c:444 | free units plus the freed block fill the page exactly if that block was its only live one, so the page goes back at the right time |
| SlobHeaps.SlobHeap.Serve | project4/slob.c:371-392 | a served request keeps the heap invariant, and a page that became full leaves its list |
| SlobHeaps.SlobHeap.SearchPages | project4/slob.c:362-393 | the block comes from the first page of its class in which anything fits; otherwise nothing changed |
| SlobHeaps.SlobHeap.FreshPageFits | project4/slob.c:405-411 | a fresh page serves every size up to a page at every power-of-two alignment up to a page: BUG_ON(!b) cannot fire |
| SlobHeaps.SlobHeap.AllocFresh | project4/slob.c:397-416 | growing the heap adds one page and one live block and drifts mem_used by its size; what is left of the page is one block, and the page heads the list of the request's size class |
| SlobHeaps.SlobHeap.Alloc | project4/slob.c:346-420 | a fresh, aligned block joins the live ones; NULL exactly if no listed page fits and there is no page; the next search of the class starts at the page that served; the heap invariant (partition, lists, mem_claimed, mem_used) is kept |
| SlobHeaps.SlobHeap.ReleasePage | project4/slob.c:440-456 | the page is forgotten, off its list, and both counters go down |
| SlobHeaps.SlobHeap.PutBack | project4/slob.c:458-507 | one live block turns into free units of its page, all other pages keep their partition |
| SlobHeaps.SlobHeap.Free | project4/slob.c:425-510 | exactly the freed block stops being live, its page is returned exactly if that was its last live block, and a page that was full goes to the head of the list of the block's size class |
| SlobHeaps.FreeThenAlloc | project4/slob.c:458-473 | after a block of a full page that keeps another one is freed, the next request of its size class that is not larger takes no fresh page |
| SlobHeaps.AllocTwice | project4/slob.c:397-416 | after a request took a fresh page, the next of its size class that fits on what is left takes no other |
| SlobHeaps.AllocNearby | project4/slob.c:378-392 | a request that fits on the page its size class starts at is served there; that is the page that served the last one, if it is not full |
| SlobHeaps.DriftFromTheStart | project4/slob.c:373-440 | the first block of an empty heap is not counted in mem_used at all, and freeing it takes mem_used to minus its size |
| SlobHeaps.SlobHeap.Store | project4/slob.c:425-510 | writes into live blocks keep the heap invariant |
| FlushProof.KickCore | linux_source/block/blk-flush.c:243-272 | issuing a flush keeps the sequencer's invariant, and afterwards nothing is stalled |
| FlushProof.CompleteSeqCore | linux_source/block/blk-flush.c:143-191 | completing a step of one request keeps the invariant and leaves nothing stalled, on success and on error |
| FlushProof.EndRestoredOnce | linux_source/block/blk-flush.c:114-126 | ending a restored request finishes its bio once and accounts it once, with the right status |
| FlushProof.WalkStep | linux_source/block/blk-flush.c:207-212 | one request of a finished batch moves on; the rest of the batch stays intact even if a kick toggles the lists |
| FlushProof.WalkInv | linux_source/block/blk-flush.c:203-212 | the whole walk ends in a good state whatever kicks happened on the way |
| FlushProof.FlushEndInv | linux_source/block/blk-flush.c:193-228 | completion of a flush keeps the invariant |
| FlushProof.DataEndInv | linux_source/block/blk-flush.c:274-284 | completion of any part of the data keeps the invariant |
| FlushProof.InsertInv | linux_source/block/blk-flush.c:297-335 | insertion keeps the invariant, for every combination of FLUSH, FUA and data |
| FlushProof.RunInv | linux_source/block/blk-flush.c:94-335 | every run keeps the invariant |
| FlushProof.FlushDurability | linux_source/block/blk-flush.c:143-272 | in every run data with a PREFLUSH step is dispatched only after a flush issued after the request came in has completed, and a bio is finished without error only after its data is done and, with a POSTFLUSH step, after a flush issued after that; a request is inserted once |
| FlushProof.OneFlushInFlight | linux_source/block/blk-flush.c:193-272 | at most one flush is in flight, exactly while pending_idx and running_idx differ |
| FlushProof.EveryRequestPlaced | linux_source/block/blk-flush.c:109-191 | every sequenced request is on exactly one list, the one of its lowest unset step |
| FlushProof.NeverStalled | linux_source/block/blk-flush.c:243-284 | while a request waits for a flush, a flush is in flight or some request executes DATA |
| FlushProof.BioFinishedOnce | linux_source/block/blk-core.c:1785-1809 | a bio is ended once and its I/O accounted once, never before its sequence is over |
| FlushProof.NothingLeftBehind | linux_source/block/blk-flush.c:143-335 | when dispatch queue and device are idle every request ever inserted has finished |
| FlushRuns.FlagsDurable | linux_source/block/blk-flush.c:94-335 | over every run, in terms of the flags of the submission: with REQ_FLUSH neither data nor successful end comes before a flush issued after the submission has completed without error; with data the successful end follows its completion, and with REQ_FUA on a device without FUA a flush issued after that |
| FlushRuns.NothingNeedless | linux_source/block/blk-flush.c:94-107 | no step is waited for that the flags do not ask for |
| FlushRuns.SubmitOutcome | linux_source/block/blk-flush.c:297-335 | a request is handed on as it is exactly if it has data, no REQ_FLUSH, and REQ_FUA only on a FUA device; otherwise its data is dispatched at once exactly without REQ_FLUSH, it ends at once exactly without data and REQ_FLUSH, and it waits for a flush exactly with REQ_FLUSH |
| FlushRuns.PlainOnlyIf | linux_source/block/blk-flush.c:313-322 | over every run, what is on the dispatch queue or the device without a sequence was submitted as such a request |
| FlushRuns.DispatchOrder | linux_source/block/blk-flush.c:143-322 | the dispatch queue keeps its order: data of a sequence goes in front, flushes and plain requests behind |
| FlushHeld.FlushHeldBack | linux_source/block/blk-flush.c:243-272 | over every run a flush is issued only if no request executes DATA or one has waited for FLUSH_PENDING_TIMEOUT |
| FlushHeld.FlushNotOverdue | linux_source/block/blk-flush.c:243-272 | and not later: after every completion, if requests wait and no flush is in flight, data is executing and the first that waits has waited for less than the timeout |
| FlushBio.SingleBio | linux_source/block/blk-core.c:2009-2157 | for a request with one bio, the sequencer's completion agrees with the general one in leftover, length, status and bios ended |
| FlushQueues.FlushQueue.KickFlush | linux_source/block/blk-flush.c:243-272 | the in-place kick is the specified step; true exactly if a flush was queued |
| FlushQueues.FlushQueue.Dispatch | linux_source/block/blk-flush.c:153-188 | the switch moves the request to the list of its next step, or ends it |
| FlushQueues.FlushQueue.CompleteSeq | linux_source/block/blk-flush.c:143-191 | the in-place step is the specified one; true exactly if something was queued |
| FlushQueues.FlushQueue.FlushEndIo | linux_source/block/blk-flush.c:193-228 | the loop over the batch computes the specified state, keeps the invariant, and meets no BUG_ON |
| FlushQueues.FlushQueue.FlushDataEndIo | linux_source/block/blk-flush.c:274-284 | the in-place completion is the specified one and keeps the invariant |
| FlushQueues.FlushQueue.InsertFlush | linux_source/block/blk-flush.c:297-335 | the in-place insertion is the specified one and keeps the invariant |
| FlushQueues.FlushQueue.FetchRequest | linux_source/block/blk-core.c:1976-1984 | the first request goes to the device and the invariant is kept |
| BlkUpdate.Conserved | linux_source/block/blk-core.c:2056-2131 | bytes used and bytes left add up, and the ids of ended and remaining bios are the chain, in order |
| BlkUpdate.RestTwice | linux_source/block/blk-core.c:2056-2129 | two completions leave the chain, end the bios and use the bytes of one |
| BlkUpdate.UpdateOk | linux_source/block/blk-core.c:2108-2131 | after any completion the sizes of the bios add up to the length of the request |
| BlkUpdate.EndedAre | linux_source/block/blk-core.c:2057-2065 | the finished bios are the first ones, each ended with success only if no part of it failed |
| BlkUpdate.LeftAre | linux_source/block/blk-core.c:2057-2157 | the next bio remembers a failure of its part, all others are untouched |
| BlkUpdate.UpdateMarks | linux_source/block/blk-core.c:2124-2140 | no bio is ended while its request is part of a flush sequence, and only a request with a sector of its own has it moved |
| BlkUpdate.Additive | linux_source/block/blk-core.c:2009-2157 | completing n1 and then n2 bytes gives the request that n1 + n2 gives; a finished one can differ in its sector only, which is where its last unfinished state left it |
| BlkUpdate.DatalessStalls | linux_source/block/blk-core.c:2067-2074 | a piece that ends inside a bio without vectors is lost: the bytes that complete the bio no longer do |
| BlkUpdate.AdditiveIff | linux_source/block/blk-core.c:2056-2129 | splitting off n1 bytes is harmless for every continuation exactly if they do not end inside a bio without vectors |
| BlkUpdate.PiecesAddUp | linux_source/block/blk-core.c:2009-2157 | any number of pieces is one completion of their sum, unless a piece before the last ends inside a bio without vectors |
| BlkUpdate.DataNeverStops | linux_source/block/blk-core.c:2059-2097 | no number of bytes ends inside a bio without vectors if all bios carry data |
| BlkUpdate.RestBytes | linux_source/block/blk-core.c:2056-2129 | the memory still to be transferred is exactly the old one without its first n bytes |
| BlkUpdate.EndSectorKept | linux_source/block/blk-core.c:2121-2136 | while anything is left, the request and each of its remaining bios end at the sector they ended at |
| BlkUpdate.NotBotched | linux_source/block/blk-core.c:2144-2151 | the current segment never exceeds the length: the branch for a botched request is dead |
| BlkUpdate.BlkRequest.BioEndio | linux_source/block/blk-core.c:150-176 | size, sector and status advance by at most the bio's size; the bio is ended exactly if it is done and in no flush sequence |
| BlkUpdate.BlkRequest.AdvanceChain | linux_source/block/blk-core.c:2056-2106 | the loop over bios and vectors ends the right bios and stops at the right vector and offset |
| BlkUpdate.BlkRequest.AdvanceHead | linux_source/block/blk-core.c:2124-2129 | the first bio keeps exactly the vectors, from the right offset, that are not done |
| BlkUpdate.BlkRequest.UpdateRequest | linux_source/block/blk-core.c:2009-2157 | the in-place completion is the specified one and keeps the request well-formed; true exactly if data is left |
| Throttle.MayDispatchOk | linux_source/block/blk-throttle.c:695-744 | an admitted bio is within the allowance of the slice; a refused one waits and the slice lasts that long |
| Throttle.TrimAccounted | linux_source/block/blk-throttle.c:534-591 | trimming rounds down, so it never forgets more than the rate allows |
| Throttle.TrimOk | linux_source/block/blk-throttle.c:534-591 | trimming keeps the accounts of bytes and bios since the first slice |
| Throttle.DispatchOk | linux_source/block/blk-throttle.c:746-809 | charging and trimming for an admitted bio keep the accounts and the rate bound |
| Throttle.RunInv | linux_source/block/blk-throttle.c:811-842 | every run of submissions, dispatches and rechecks keeps accounts, bound and order |
| Throttle.DispatchedWithinRate | linux_source/block/blk-throttle.c:496-842 | from the first slice at t0 to any t a group dispatches at most bps*(t - t0 + slice)/HZ bytes and iops*(t - t0 + slice)/HZ bios, in order, none lost |
| Throttle.BoundIsTight | linux_source/block/blk-throttle.c:643-683 | the bound is reached, for any HZ and slice length |
| Throttle.BpsWaitEnoughIff | linux_source/block/blk-throttle.c:643-683 | when the wait for a byte limit is over, the bytes are allowed if and only if the wait is not a whole number of slices or the rate has covered the bytes by then |
| Throttle.BpsWaitTooShort | linux_source/block/blk-throttle.c:643-683 | a bio whose wait is too short: at the end of it, inside the slice, it is refused again |
| Throttle.IopsWaitEnough | linux_source/block/blk-throttle.c:593-641 | when the wait for the number of bios is over, one more is allowed |
| Throttle.BpsWaitNotLong | linux_source/block/blk-throttle.c:643-683 | when the wait for a byte limit is over, the rate has covered less than one byte too much, unless it was the shortest wait |
| Throttle.IopsWaitNotLong | linux_source/block/blk-throttle.c:593-641 | a jiffy before the wait for the number of bios is over, the rate had covered no more than one |
| Throttle.PaidLook | linux_source/block/blk-throttle.c:695-744 | a look that finds the slice running admits a bio of any size, once the rate has covered what was charged to the slice and the bio |
| Throttle.LateLook | linux_source/block/blk-throttle.c:716-744 | a look after the end of the slice admits exactly what a fresh slice allows |
| Throttle.WorkStep | linux_source/block/blk-throttle.c:811-842 | a dispatch round lets the first queued bio go exactly if the look admits it |
| Throttle.OneAction | linux_source/block/blk-throttle.c:744-842 | whatever happens to the group, its first bio leaves or stays first, and only a look changes the slice |
| Throttle.ServedOncePaid | linux_source/block/blk-throttle.c:593-842 | over every run, with looks early or late and any number of them: a dispatch at a time by which the rate has covered the first queued bio lets it go, if a fresh slice allows it |
| Throttle.AlwaysServedIff | linux_source/block/blk-throttle.c:593-842 | that is so for every such run if and only if a fresh slice allows the bio |
| Throttle.PutOff | linux_source/block/blk-throttle.c:716-744 | a bio a fresh slice does not allow stays queued over arbitrarily many dispatches, each as late as wanted |
| Throttle.NeverStarved | linux_source/block/blk-throttle.c:593-842 | if every look finds the slice running, however early or often they come, a bio of any size leaves at the first dispatch after the rate has covered it |
| Throttle.PunctualInTime | linux_source/block/blk-throttle.c:716-789 | looks no later than the wait of the look before, or a slice if that is longer, always find the slice running |
| Throttle.TrimLeaves | linux_source/block/blk-throttle.c:534-591 | trimming costs a later bio at most one unit of what the slice had left for it |
| Throttle.NothingSavedUp | linux_source/block/blk-throttle.c:534-591 | over every run, however long a group was idle, a bio that finds the queue empty after an earlier dispatch leaves at once only if three slices' worth of bytes cover it, provided a rate earns something in a slice |
| Throttle.WindowWithinRate | linux_source/block/blk-throttle.c:496-842 | under the same condition, from any state: after an action that let a bio go at t1, at most bps*(t - t1 + 2 slices)/HZ bytes and iops*(t - t1 + 2 slices)/HZ bios leave up to t |
| Throttle.ThrotlGroup.TrimSlice | linux_source/block/blk-throttle.c:534-591 | the in-place trim is the specified one, about which TrimOk, TrimLeaves and NothingSavedUp speak |
| Throttle.ThrotlGroup.TgMayDispatch | linux_source/block/blk-throttle.c:695-744 | slice, verdict and wait are the specified ones |
| Throttle.ThrotlGroup.LetGo | linux_source/block/blk-throttle.c:746-809 | charge and trim are the specified ones |
| Throttle.ThrotlGroup.DispatchTg | linux_source/block/blk-throttle.c:811-842 | the loop dispatches the specified bios, at most max, and counts them |
| Throttle.ThrotlGroup.TgUpdateDisptime | linux_source/block/blk-throttle.c:771-789 | the slice is brought up to date as specified |
| Throttle.ThrotlGroup.ThrotlBio | linux_source/block/blk-throttle.c:1126-1220 | a bio goes out or is queued as specified, behind all that wait |
| RtPrioSpec.FirstBit | project1/sched_rt.c:1112-1113 | the least set bit, or the delimiter |
| RtPrioProof.DequeueOneOk | project1/sched_rt.c:885-897 | removal keeps bitmap, count, boost count and highest priority exact on every run queue |
| RtPrioProof.EnqueueOneOk | project1/sched_rt.c:857-883 | insertion keeps them exact, and happens exactly unless the group is throttled or empty |
| RtPrioProof.NonEmptyPrio | project1/sched_rt.c:857-871 | an entity that may be enqueued has a real-time priority |
| RtPrioProof.DequeueDownOk | project1/sched_rt.c:903-916 | removing a path from the top down takes all of it off and leaves every run queue in order |
| RtPrioProof.EnqueueUpOk | project1/sched_rt.c:918-923 | re-inserting a path from the bottom up files every group under its group's current highest priority |
| RtPrioProof.RequeueUpOk | project1/sched_rt.c:925-935 | the same for the loop that re-inserts only groups that still have something to run |
| RtPrioProof.EnqueueOk | project1/sched_rt.c:918-923 | enqueueing keeps every run queue in order for any depth, queues the task, touches nothing off its path and gives exactly the groups of the path the place they were owed |
| RtPrioProof.DequeueOk | project1/sched_rt.c:925-935 | dequeueing keeps every run queue in order for any depth, removes the task, touches nothing off its path and gives exactly the groups of the path the place they were owed |
| RtPrioProof.ThrottleOk | project1/sched_rt.c:617-641 | throttling a group keeps the order; its claim to a place ends, and those of the groups above it if it was queued |
| RtPrioProof.TimerOk | project1/sched_rt.c:554-600 | the period timer keeps the order; where it enqueues a group, the claims of the group and of those above it end, and no others |
| RtPrioProof.EnableOk | project1/sched_rt.c:513-523 | clearing rt_throttled without enqueueing keeps the order and adds the group to those owed a place exactly if it was throttled with something to run |
| RtPrioProof.EnableOwesIff | project1/sched_rt.c:513-523 | it breaks "queued if it may run" if and only if the group was throttled with something to run |
| RtPrioProof.EnableLosesPlace | project1/sched_rt.c:513-523 | from any state in order, throttling a non-empty group without boosted tasks and then clearing the flag leaves exactly that group without its place |
| RtPrioProof.EnableLosesPlaceReached | project1/sched_rt.c:513-523 | a run from the empty scheduler that ends like this |
| RtPrioProof.TimerSettlesIff | project1/sched_rt.c:569-598 | the period timer leaves an owed group without its place if and only if it finds rt_time not 0 and does not clear the flag |
| RtPrioProof.ApplyOk | project1/sched_rt.c:857-935 | every action keeps the order, and the groups that may run without being queued change exactly as stated for it |
| RtPrioProof.Run | project1/sched_rt.c:857-935 | after any sequence of actions every run queue is in order and only groups that may run are queued |
| RtPrioProof.OwedByEnable | project1/sched_rt.c:513-523 | over any run, a group comes to be without its place only by __enable_runtime on that group |
| RtPrioProof.NobodyOwed | project1/sched_rt.c:857-935 | as long as no CPU is brought online, a group is queued exactly when it may run |
| RtPrioProof.ReachableIff | project1/sched_rt.c:864-871 | a queued entity can be reached from the root if and only if no group above it is throttled or without its place |
| RtPrioProof.PickOk | project1/sched_rt.c:1104-1145 | picking from a non-empty run queue meets no BUG_ON and ends at a task of its highest priority |
| RtPrioProof.PickNextTask | project1/sched_rt.c:1121-1145 | the picked task may run and has the best priority among all queued tasks that may |
| RtPrioProof.IdleIff | project1/sched_rt.c:1127-1130 | the root run queue is empty exactly if no queued task may run |
| RtPrioProof.EnqueueOrder | project1/sched_rt.c:857-883 | the task goes to the head or tail of its priority, all others keep their order |
| RtPrioProof.DequeueOrder | project1/sched_rt.c:885-897 | the others keep their order |
| RtPrioOrder.EnqueuePathOrder | project1/sched_rt.c:918-923 | the task and every group above it is filed under the priority it has afterwards, at the head or the tail, unless it is throttled or empty; the other entries of each run queue keep their order |
| RtPrioOrder.DequeuePathOrder | project1/sched_rt.c:925-935 | the task is gone, every group above it is filed under the priority it has afterwards, at the tail, unless it is throttled or empty; the others keep their order |
| RtRunqueues.RtRunqueue.FindFirstBit | project1/sched_rt.c:1112-1113 | the scan finds the first set bit |
| RtRunqueues.RtRunqueue.DequeueEntityOne | project1/sched_rt.c:885-897 | the in-place removal is the specified one |
| RtRunqueues.RtRunqueue.EnqueueEntityOne | project1/sched_rt.c:857-883 | the in-place insertion is the specified one |
| RtRunqueues.RtRunqueue.WayUp | project1/sched_rt.c:905-910 | the walk up records the path |
| RtRunqueues.RtRunqueue.DequeueStack | project1/sched_rt.c:903-916 | the removal on the way back removes the path as specified |
| RtRunqueues.RtRunqueue.EnqueueChain | project1/sched_rt.c:918-923 | the loop re-inserts the path as specified |
| RtRunqueues.RtRunqueue.RequeueChain | project1/sched_rt.c:925-935 | the loop re-inserts the path as specified |
| RtRunqueues.RtRunqueue.EnqueueEntity | project1/sched_rt.c:918-923 | the in-place enqueue is the specified one, keeps the order and settles exactly what was owed on its path |
| RtRunqueues.RtRunqueue.DequeueEntity | project1/sched_rt.c:925-935 | the in-place dequeue is the specified one, keeps the order and settles exactly what was owed on its path |
| RtRunqueues.RtRunqueue.ClearThrottled | project1/sched_rt.c:520 | the flag is cleared in place, and the group is owed a place exactly if it was throttled with something to run |
| RtRunqueues.RtRunqueue.PickNextTask | project1/sched_rt.c:1104-1145 | the loop down the groups meets no BUG_ON and returns a task that may run whose priority no other such task beats; none exactly if the root is empty or throttled |
| RtBandwidth.ReclaimSum | project1/sched_rt.c:446-474 | reclaiming takes out exactly what is no longer wanted and leaves nobody negative |
| RtBandwidth.NothingLeftWanting | project1/sched_rt.c:436-481 | BUG_ON(want) cannot fire while the sum is conserved |
| RtBandwidth.DisableConserves | project1/sched_rt.c:415-491 | disabling keeps the sum over enabled run queues at (number enabled) * rt_runtime |
| RtBandwidth.EnableConservesIff | project1/sched_rt.c:502-524 | enabling keeps the sum exactly if the run queue was disabled or held its own share |
| RtBandwidth.BorrowOk | project1/sched_rt.c:360-410 | borrowing keeps the sum, never pushes a lender below the time it used and never lifts the borrower above the period |
| RtBandwidth.LoansFair | project1/sched_rt.c:360-410 | over a whole round with n CPUs, each lender gives at most 1/n of its spare time, and exactly that rounded down unless the borrower reaches the period; whoever has none to spare is left alone; the borrower gets the sum of what is offered, up to the period |
| RtBandwidth.RunConserves | project1/sched_rt.c:360-524 | every run conserves the sum |
| RtBandwidth.NeverLeftWanting | project1/sched_rt.c:481 | in every reachable state nothing is left wanting, and no run queue holds more than all together |
| RtBandwidth.ReclaimSurplus | project1/sched_rt.c:466-469 | a surplus goes as a whole to the first other enabled run queue |
| RtBandwidth.ReclaimInOrder | project1/sched_rt.c:446-474 | what was lent is taken back in order: a run queue gives something up only if those before it have nothing left |
| RtBandwidth.EnableFresh | project1/sched_rt.c:513-523 | a run queue that came online has its whole share unused and nothing to borrow for; the others are untouched |
| RtBandwidth.DisableWithinPeriodIff | project1/sched_rt.c:415-491 | going offline keeps every run queue within the period if and only if the first other enabled one has room for the surplus, or there is none |
| RtBandwidth.BorrowWithinPeriod | project1/sched_rt.c:360-410 | borrowing lifts nobody above the period |
| RtBandwidth.ApplyWithinPeriodIff | project1/sched_rt.c:360-524 | no other action can exceed the period, so in any run the first excess is a departure without room |
| RtBandwidth.SurplusExceedsPeriod | project1/sched_rt.c:466-469 | a run from the start, by charging, borrowing and refilling alone, to a state within the period from which going offline exceeds it |
| RtBandwidth.RtBandwidthPool.BorrowFromOne | project1/sched_rt.c:372-403 | one lender gives 1/n of its spare time, capped by the period, exactly if it has any |
| RtBandwidth.RtBandwidthPool.DoBalanceRuntime | project1/sched_rt.c:360-410 | the loop borrows as specified; true exactly if somebody had time to spare |
| RtBandwidth.RtBandwidthPool.DisableRuntime | project1/sched_rt.c:415-491 | the loop reclaims as specified and its BUG_ON is proved |
| RtBandwidth.RtBandwidthPool.EnableRuntime | project1/sched_rt.c:502-524 | the in-place enabling is the specified one and conserves the sum |
| DeadlineProof.MoveCore | linux_source/block/deadline-iosched.c:194-222 | dispatching a request takes it off both lists of its direction and off nothing else |
| DeadlineProof.ClearAliasCore | linux_source/block/deadline-iosched.c:76-84 | after the request in the way is dispatched no queued one has the new one's sector: the loop runs at most once |
| DeadlineProof.InsertIs | linux_source/block/elevator.c:356-378 | insertion is behind all smaller and before all larger sectors |
| DeadlineProof.AddInv | linux_source/block/deadline-iosched.c:100-113 | adding keeps both lists equal, sector order, expiry order and nr_sorted, alias or not |
| DeadlineProof.FrontMergeInv | linux_source/block/deadline-iosched.c:156-168 | repositioning after a front merge keeps them |
| DeadlineProof.MergeFifo | linux_source/block/deadline-iosched.c:174-183 | the merged request stands exactly where the one that goes stood and takes over its expiry, and the fifo stays sorted |
| DeadlineProof.MergeRequestsInv | linux_source/block/deadline-iosched.c:170-189 | merging two requests keeps the invariant |
| DeadlineProof.SelectedQueued | linux_source/block/deadline-iosched.c:245-315 | the selected request is queued, and there is one exactly if anything is queued |
| DeadlineProof.DispatchInv | linux_source/block/deadline-iosched.c:245-327 | dispatching keeps the invariant |
| DeadlineProof.CheckFifoSeesAll | linux_source/block/deadline-iosched.c:228-239 | the head of the fifo has expired exactly if any request on it has |
| DeadlineProof.ExpiredFirst | linux_source/block/deadline-iosched.c:296-315 | a new batch where something has expired starts with a request of least expiry |
| DeadlineRuns.StepOk | linux_source/block/deadline-iosched.c:76-327 | every action keeps the invariant |
| DeadlineRuns.Run | linux_source/block/deadline-iosched.c:76-327 | the invariant holds after any sequence of actions |
| DeadlineRuns.NothingLost | linux_source/block/deadline-iosched.c:76-327 | every request ever added is queued, dispatched or merged away, exactly one of these; a queued one is on both lists of its direction only; nr_sorted counts them |
| DeadlineRuns.ReadCosts | linux_source/block/deadline-iosched.c:245-327 | a read dispatched past a queued write uses up credit |
| DeadlineRuns.OthersFree | linux_source/block/deadline-iosched.c:76-222 | adding, merging and alias dispatches give no credit back |
| DeadlineRuns.WriteStarvationBound | linux_source/block/deadline-iosched.c:245-327 | while writes stay queued at most (writes_starved + 1) * max(1, fifo_batch) dispatches serve reads, whatever happens in between |
| DeadlineLate.StaysLate | linux_source/block/deadline-iosched.c:76-327 | whatever happens, the oldest request of a direction stays its oldest, with the same expiry, until it is dispatched or merged away |
| DeadlineLate.LateCosts | linux_source/block/deadline-iosched.c:245-327 | every dispatch, read or write, that leaves an expired oldest request behind uses up a bounded patience |
| DeadlineLate.ExpiredServed | linux_source/block/deadline-iosched.c:245-327 | an expired oldest write is passed over by at most (writes_starved + 1) * max(1, fifo_batch) dispatches of any kind, an expired oldest read by at most 2 * max(1, fifo_batch) if writes_starved > 0 |
| DeadlineLate.PassedOver | linux_source/block/deadline-iosched.c:272-287 | with writes_starved 0, as many dispatches as there are queued writes pass over every read |
| DeadlineLate.ReadsServedIff | linux_source/block/deadline-iosched.c:245-327 | there is a bound, over all runs, on how often an expired oldest read is passed over if and only if writes_starved is not zero |
| DeadlineOrder.BatchGoesOn | linux_source/block/deadline-iosched.c:201-222 | after x, while the batch is not used up and something is queued above x in its direction, the next request sent is the nearest above x |
| DeadlineOrder.SentAfter | linux_source/block/deadline-iosched.c:245-327 | which request follows x in every case: the nearest above it if the direction stays and the batch goes on or nothing has expired, otherwise the one that expires first in its direction |
| DeadlineOrder.StarvedCounts | linux_source/block/deadline-iosched.c:264-305 | starved counts the read batches begun while a write was queued, since the last write batch |
| DeadlineOrder.TurnIff | linux_source/block/deadline-iosched.c:264-287 | with both waiting, a new batch is one of writes if and only if writes have been passed over writes_starved times |
| DeadlineOrder.Merged | linux_source/block/deadline-iosched.c:170-189 | the merged request covers both and expires at the earlier of the two times; the other is gone and nothing else changes |
| DeadlineOrder.MergeGoesOn | linux_source/block/deadline-iosched.c:143-189 | a batch that was to go on with the request merged away goes on with the nearest above it; any other goes on as it was |
| DeadlineOrder.InfoAfter | linux_source/block/deadline-iosched.c:99-189 | a new request expires the direction's time from now; only a merge changes that, to an earlier one; no action changes its direction |
| DeadlineOrder.RunKeepsLast | linux_source/block/elevator.c:458-470 | over every run end_sector and boundary_rq are those of the last request dispatched |
| DeadlineRuns.DispatchShrinks | linux_source/block/elevator.c:609-615 | a forced dispatch sends one request, and when there is none both indexes are empty and nr_sorted is 0 |
| DeadlineQueues.DeadlineQueue.RbAdd | linux_source/block/elevator.c:356-378 | the descent finds the request at the same sector or inserts in order |
| DeadlineQueues.DeadlineQueue.RemoveRequest | linux_source/block/deadline-iosched.c:86-124 | off both lists, with next_rq moved on |
| DeadlineQueues.DeadlineQueue.MoveRequest | linux_source/block/deadline-iosched.c:194-222 | the in-place move, with elv_dispatch_add_tail, is the specified one |
| DeadlineQueues.DeadlineQueue.AddRqRb | linux_source/block/deadline-iosched.c:76-84 | the loop terminates with the request in the index |
| DeadlineQueues.DeadlineQueue.AddRequest | linux_source/block/deadline-iosched.c:100-113 | the in-place addition is the specified one and keeps the invariant |
| DeadlineQueues.DeadlineQueue.MergedRequest | linux_source/block/deadline-iosched.c:156-168 | the in-place repositioning is the specified one and keeps the invariant |
| DeadlineQueues.DeadlineQueue.MergedRequests | linux_source/block/deadline-iosched.c:170-189 | the in-place merge is the specified one and keeps the invariant |
| DeadlineQueues.DeadlineQueue.SelectRequest | linux_source/block/deadline-iosched.c:245-321 | batch, direction and request are chosen as specified; RB_EMPTY_ROOT is never true where it is a BUG |
| DeadlineQueues.DeadlineQueue.DispatchRequests | linux_source/block/deadline-iosched.c:245-327 | the in-place dispatch is the specified one and keeps the invariant |
| DeadlineQueues.DeadlineQueue.Drain | linux_source/block/elevator.c:609-615 | the loop ends with empty indexes, nr_sorted 0 and every queued request dispatched once |
| ElevatorSort.DispatchList.DispatchSort | linux_source/block/elevator.c:413-450 | the backward walk stops behind the last request that must not be passed; everything passed is compatible and later in one-way order |
| ElevatorSort.KeepsSorted | linux_source/block/elevator.c:424-448 | every stretch of mutually passable requests stays in one-way order |
| ElevatorSort.KeepsPasses | linux_source/block/elevator.c:424-448 | no started, soft-barrier, other-direction or discard-mismatched request is ever overtaken |
| ElevatorSort.SortAllOk | linux_source/block/elevator.c:413-450 | both hold after any number of insertions, and no request is lost |
| ElevatorSort.StableSort | linux_source/block/elevator.c:413-450 | requests of one kind come out in one-way order, ties in order of arrival |
| ElevatorSort.OneOrder | linux_source/block/elevator.c:413-450 | that order determines the list |
| Barber.CustomerTokens | concurrency4/barber.c:92-113 | each step of a customer keeps what the semaphores count |
| Barber.CustomerCuts | concurrency4/barber.c:107-112 | whoever gets up is the one whose hair was cut |
| Barber.BarberCuts | concurrency4/barber.c:115-128 | the barber cuts the hair of the one customer in the chair, for the first time |
| Barber.StepInv | concurrency4/barber.c:46-128 | every step of every thread keeps the invariant |
| Barber.OneAtATime | concurrency4/barber.c:46-128 | until closing, nap_time + barber at work + in_progress equals the customers awaiting completion, at most one |
| Barber.NoDeadlock | concurrency4/barber.c:51-128 | with at least one chair, or no customers, some thread can go on until the day is over |
| Barber.StepWorks | concurrency4/barber.c:51-128 | every step decreases a measure |
| Barber.EverybodyServed | concurrency4/barber.c:21-128 | every run has at most 13 n + 12 steps; one that cannot go on has ended the day exactly if there was a chair or no customer, and then each customer was cut exactly once |

## Left out

- Locks, interrupts, RCU, NUMA and memory barriers: every locked operation is one atomic step.
- Wrap-around of jiffies, of 64-bit clocks and of the 32-bit byte counters; times and counters are unbounded.
- slob.c: clearing memory for `__GFP_ZERO`, and the kmalloc and kmem_cache front ends.
- blk-flush.c: `blk_abort_flushes` and requeueing, which empty the queues outside the protocol.
- BlkUpdate.Additive: says nothing about the failfast flags that follow the first bio of a mixed request.
- BlkUpdate: I/O statistics, integrity data and segment recounting are not modelled.
- Throttle.DispatchedWithinRate: assumes constant limits, one of which is finite; limit changes in the middle of a run, the service tree of groups and the split of a dispatch round between reads and writes are not modelled.
- Throttle: products of a rate and a time do not wrap, which in the source they can with one limit unlimited.
- sched_rt.c: `highest_prio.next`, push and pull migration, cpupri and requeueing within a priority, which depend on code outside this file.
- RtPrioProof.TimerOk: whether rt_time is 0 and whether it falls below the runtime are inputs; the charging of rt_time is not modelled.
- RtBandwidth: one root domain; balancing is modelled from `do_balance_runtime` inwards.
- Deadline: looking up merge candidates, and the red-black tree behind the sorted index, which is an ordered sequence with a binary descent.
- ElevatorSort: the merge hash; the boundary is fixed while requests are sorted in.
- Barber: `MAX_CUSTOMERS` and argument parsing; any number of chairs and customers is allowed.
- cfq, noop and sstf schedulers, the crypto directory, the other concurrency programs and the driver plumbing: easy claims, table data, or code that depends on parts not in the repository.
