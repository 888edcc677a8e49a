# Block layer and crypto API of Linux 3.0.8, verified

This project models the parts of the Linux 3.0.8 block layer and of its crypto
API where the interesting behaviour is spread over many calls, and proves what
that behaviour amounts to over whole runs. `dafny verify dfyconfig.toml` checks
all of it.

| module | models |
|---|---|
| `ThrottleRate`, `ThrottleWait`, `ThrottleQueue` | I/O throttling: time slices per group and direction, how long bios wait, and the service tree, lists and dispatch rounds around them |
| `Flush`, `FlushProgress`, `FlushFlags` | sequencing of FLUSH and FUA requests over double-buffered cache flushes, its progress, and what the flags of a request are worth |
| `Deadline`, `DeadlineMerge`, `DeadlineOrder` | the deadline scheduler with the elevator's counting and draining, what becomes of merged requests, and the order of dispatch |
| `DispatchSort`, `MergeHash` | the elevator's sorted dispatch queue and its merge hash |
| `Completion`, `CompletionRuns` | partial completion of requests across bios and vectors, and what it adds up to |
| `Segments` | segment counting and scatterlist mapping |
| `Cfq`, `CfqRuns` | group scheduling by weighted virtual disk time |
| `Tags` | the tag allocator and its resizing |
| `Spawns` | removal of the instances that depend on an algorithm |
| `Anubis`, `AnubisTables`, `AnubisCipher` | the Anubis block cipher with its tables, and its definition |
| `TemplateName` | parsing and printing of names such as `authenc(hmac(sha1),cbc(aes))` |
| `Lists` | intrusive lists as sequences, used by the others |

A step that the kernel takes under the queue lock is one step here, `jiffies` is
a natural number that does not decrease, and a red-black tree is the sequence of
its nodes in order. State that the kernel keeps in a structure and updates in
place is a field holding one record (or an array, for bitmaps, indices, key
states and round keys) of a class, whose methods follow the kernel's loops; each
method is tied to a function on records, and the lemmas about runs are about
these functions. Several classes carry a history that no operation reads, so
that promises about the past can be stated.

Results that turned out to need a condition:

- The throttling bound holds from every newly started slice for every limit.
  From trimmed slices it holds exactly for limits that round clean. For bytes:
  the slice is one tick, or its quota is a whole number, or what is rounded away
  is less than one tick of the rate. For bios: the slice is one tick, or one
  slice and a tick are worth a bio. Byte limits of at least HZ per second and
  bios limits of at least ten do.
- A throttled bio that is never tried too early goes within four attempts, as
  long as it is not tried after its slice has run out; a bio that one slice is
  worth goes in any case, and any other can be passed over for ever.
- Replacing an algorithm spares all that leads to the new one exactly if no
  instance on the way there is reached by two spawns.
- An expired read is served within a bound only if `writes_starved` is at least
  one; with zero it can wait for ever.
- Completing a and then b bytes is completing a + b for b > 0; a completion of no
  bytes ends one empty bio.
- Growing a tag map is safe exactly when the old depth is at most twice
  `nr_requests`; the source copies without looking.
- Charging a CFQ group that is not on the service tree breaks the total weight.
- A moved boundary keeps the dispatch queue in order exactly if no neighbours
  end up on wrong sides of it.
- Without a write cache the flush policy of a request with data is empty, so the
  filter in front of the flush machinery is part of its correctness.

## Model

| member | source | states |
|---|---|---|
| `ThrottleRate.WholeSlices` | ANDROID_3.0.8/block/blk-throttle.c:560-565 | the whole slices gone by since the slice started: at most the elapsed time, and less than one slice short of it |
| `ThrottleRate.Quota` | ANDROID_3.0.8/block/blk-throttle.c:566-570 | what a rate allows in some ticks: the product with the rate, rounded down to whole units and by less than one |
| `ThrottleRate.MayDispatch` | ANDROID_3.0.8/block/blk-throttle.c:695-744 | looking at a bio leaves a slice that contains the present time, whether renewed, extended or kept |
| `ThrottleRate.RoundedVersusWhole` | ANDROID_3.0.8/block/blk-throttle.c:601-607 | the dispatch check rounds the elapsed time up to whole slices, the trim rounds it down: they differ by exactly one slice, or by none on a slice boundary |
| `ThrottleRate.RunAccounted` | ANDROID_3.0.8/block/blk-throttle.c:496-591 | over every run of looks and dispatches, the bytes (or bios) charged by earlier slices are paid for by the time before the current slice, and everything charged is paid for one slice from now and by the end of the slice |
| `ThrottleRate.RateBound` | ANDROID_3.0.8/block/blk-throttle.c:643-683 | from the start S of a settled slice, for any mix of new slices, extensions and trims, what is charged by time t is at most rate * (t - S + throtl_slice) / HZ |
| `ThrottleRate.NewSliceBound` | ANDROID_3.0.8/block/blk-throttle.c:496-506 | the same bound from every newly started slice, for every finite limit, however small |
| `ThrottleRate.FastRatesRoundClean` | ANDROID_3.0.8/block/blk-throttle.c:566-585 | every byte limit of at least HZ per second rounds clean, and every bios limit of at least ten |
| `ThrottleRate.RunSettled` | ANDROID_3.0.8/block/blk-throttle.c:534-591 | with a limit that rounds clean, in the sense of its own meter, every slice of every run is settled, trimmed ones included, so the rate bound holds from every slice start; no more bios than one slice is worth, or one, stay on a slice |
| `ThrottleRate.UncleanRateOverdraws` | ANDROID_3.0.8/block/blk-throttle.c:560-585 | with a limit that does not round clean, on bytes or on bios and whatever the other limit is, there is a run whose trimmed slice has been charged more than the bound allows from its own start |
| `ThrottleRate.CleanExactly` | ANDROID_3.0.8/block/blk-throttle.c:534-591 | so no slice of any run is over its bound exactly when the limit rounds clean, for either meter |
| `ThrottleRate.RunServed` | ANDROID_3.0.8/block/blk-throttle.c:746-756 | over every run the dispatch statistics are the number and the summed sizes of the bios that the limits let go |
| `ThrottleWait.BytesNear` | ANDROID_3.0.8/block/blk-throttle.c:643-683 | a bio held up by the byte limit lacks less than one tick of the rate once it has waited as told |
| `ThrottleWait.IosReached` | ANDROID_3.0.8/block/blk-throttle.c:593-641 | a bio held up by the bios limit may go once it has waited as told |
| `ThrottleWait.HeadGoes` | ANDROID_3.0.8/block/blk-throttle.c:695-744 | a bio that is never tried before its wait is over goes at the fourth attempt at the latest, if no attempt comes after the slice has run out or if one slice is worth the bio |
| `ThrottleWait.LateRun` | ANDROID_3.0.8/block/blk-throttle.c:524-531 | a bio that one slice is not worth can be tried any number of times, never too early, without ever going: each attempt after the end of the slice starts from nothing |
| `ThrottleWait.SafeExactly` | ANDROID_3.0.8/block/blk-throttle.c:695-744 | every such series of attempts succeeds exactly if one slice is worth the bio in bytes and in bios |
| `ThrottleWait.DueGoes` | ANDROID_3.0.8/block/blk-throttle.c:695-744 | from the time the rates alone are enough for a bio, the first attempt within the slice lets it go, after any mix of looks and early attempts |
| `ThrottleWait.DueAfterWait` | ANDROID_3.0.8/block/blk-throttle.c:593-683 | when a told wait is over, the byte limit that caused it is enough at most one tick later, and the bios limit that caused it at once |
| `ThrottleWait.WaitIsShort` | ANDROID_3.0.8/block/blk-throttle.c:593-683 | a told wait is not too long: a bio held up by the byte limit comes back no later than what its rate needs for one byte after its bytes are due, one held up by the bios limit no later than a tick after that is due, or at the next tick |
| `ThrottleWait.TrimKeepsRoom` | ANDROID_3.0.8/block/blk-throttle.c:534-591 | trimming does not slow a group down: what a meter leaves free at any later time is the same as before or one unit less, unless the time has paid for all that was charged |
| `ThrottleWait.SliceEnds` | ANDROID_3.0.8/block/blk-throttle.c:717-741 | a look leaves a slice that lasts for one interval and for the wait it tells, and no longer than the next multiple, unless it did before |
| `ThrottleWait.TrimEnds` | ANDROID_3.0.8/block/blk-throttle.c:558 | a dispatch cuts the slice back to that however long it was |
| `ThrottleQueue.MayDispatchAgain` | ANDROID_3.0.8/block/blk-throttle.c:695-744 | asking again at the same instant gives the same answer and changes nothing, which the dispatch loops rely on |
| `ThrottleQueue.EnqueueTree` | ANDROID_3.0.8/block/blk-throttle.c:421-462 | adding a group keeps the service tree sorted by dispatch time, its count right, and the cached leftmost node the first or absent |
| `ThrottleQueue.DequeueTree` | ANDROID_3.0.8/block/blk-throttle.c:402-408 | the same for taking a group off; removing the cached node clears the cache |
| `ThrottleQueue.ThrotlData.constructor` | ANDROID_3.0.8/block/blk-throttle.c:1227-1259 | the empty state is valid |
| `ThrottleQueue.ThrotlData.RbFirst` | ANDROID_3.0.8/block/blk-throttle.c:381-394 | the leftmost group, through the cache, which may only be filled |
| `ThrottleQueue.ThrotlData.EnqueueTg` | ANDROID_3.0.8/block/blk-throttle.c:421-462 | the group goes behind every group due no later; nothing happens to one already queued |
| `ThrottleQueue.ThrotlData.TgMayDispatch` | ANDROID_3.0.8/block/blk-throttle.c:695-744 | only the slice of the lane looked at changes; the answer is the wait of the limits |
| `ThrottleQueue.ThrotlData.DispatchHead` | ANDROID_3.0.8/block/blk-throttle.c:791-809 | the head of a list leaves exactly when there is one and the limits let it go; then it is counted off, charged and its slice trimmed, else the lane is at most renewed |
| `ThrottleQueue.ThrotlData.DispatchLane` | ANDROID_3.0.8/block/blk-throttle.c:819-829 | as many bios of one direction leave, in order and up to the quota, as the limits let go one after the other, each charged before the next; short of the quota only when none is left or the next must wait |
| `ThrottleQueue.ThrotlData.DispatchTg` | ANDROID_3.0.8/block/blk-throttle.c:811-842 | as many reads leave as the limits let go, up to three quarters of throtl_grp_quantum, and then as many writes, up to the rest; none only if both directions are blocked |
| `ThrottleQueue.ThrotlData.UpdateDisptime` | ANDROID_3.0.8/block/blk-throttle.c:771-789 | both heads are looked at and the group is requeued for now plus the smaller of their waits; that is in the future if both are blocked, and no later than the limits of either head need, but for the rounding of one byte or one tick |
| `ThrottleQueue.HeadsInTime` | ANDROID_3.0.8/block/blk-throttle.c:771-789 | in every valid state a group with a queued bio is on the service tree for a time no later than that |
| `ThrottleQueue.ThrotlData.SelectDispatch` | ANDROID_3.0.8/block/blk-throttle.c:844-873 | with a frozen clock a round terminates; it serves one group after the other, each the one due first, lets go of each direction as many bios as the limits and three or one quarter of throtl_grp_quantum allow, and puts the group back for its next bio; it stops at throtl_quantum bios or when no group is due and no queued head has waited as told; every invariant is kept: arrival order, and that the bios sent are exactly those the limits let go |
| `ThrottleQueue.ThrotlData.ServeFirst` | ANDROID_3.0.8/block/blk-throttle.c:850-866 | one turn of that: exactly the group due first is served and requeued, the others stay as they are |
| `ThrottleQueue.ThrotlData.ThrotlBio` | ANDROID_3.0.8/block/blk-throttle.c:1177-1220 | a bio passes at once exactly when nothing of its direction waits and the limits allow it, and then its lane is charged and trimmed and nothing else changes; otherwise it is queued; counters equal list lengths, a group is on the tree iff it has queued bios and then its dispatch time is from a look at the heads it still has, sent plus queued is the arrival order, and the bios sent are exactly those the limits let go, before and after |
| `ThrottleQueue.QueueRateBound` | ANDROID_3.0.8/block/blk-throttle.c:844-873 | in every state of the queue and from every point of a lane's past: with a limit that rounds clean, the bytes, or the number, of the bios sent since are within the rate for the time since the slice of that point started, plus one slice |
| `ThrottleQueue.QueueTotalBound` | ANDROID_3.0.8/block/blk-throttle.c:844-873 | with any limit, all that a direction of a group has ever sent is within its rate for the time gone by, plus one slice |
| `Flush.CurSeqIsAt` | ANDROID_3.0.8/block/blk-flush.c:109-112 | the lowest step not yet done is the next step of the policy |
| `Flush.KickAwake` | ANDROID_3.0.8/block/blk-flush.c:243-272 | after a kick a pending request has a flush command or a data command, queued or with the driver, to wait for |
| `Flush.KickIffDue` | ANDROID_3.0.8/block/blk-flush.c:243-272 | a kick issues one flush command exactly when none exists, a request waits, and either no sequenced data is under way or the request that waited longest has waited five seconds |
| `Flush.NothingDue` | ANDROID_3.0.8/block/blk-flush.c:143-335 | no flush is due after a completion or the insertion of a sequenced request |
| `Flush.PushedOk` | ANDROID_3.0.8/block/blk-flush.c:206-212 | one turn of the completion walk keeps the invariants although a nested kick may turn the walked list back into the pending one |
| `Flush.FlushEndIoOk` | ANDROID_3.0.8/block/blk-flush.c:193-228 | a flush completion keeps the invariant and strands no request |
| `Flush.FlushAdvancesWaiting` | ANDROID_3.0.8/block/blk-flush.c:193-228 | a completed flush advances exactly the requests that were waiting when it was issued, each by the step it was at; a failed flush advances none |
| `Flush.DataEndIoOk` | ANDROID_3.0.8/block/blk-flush.c:274-284 | a data completion keeps the invariant and strands no request |
| `Flush.InsertOk` | ANDROID_3.0.8/block/blk-flush.c:297-335 | an insertion on a device with a write cache keeps the invariant and strands no request |
| `Flush.NextInv` | ANDROID_3.0.8/block/blk-flush.c:143-335 | every event keeps the invariant and the promise that a waiting request has a command to wake it; a completion needs its command at the device |
| `Flush.ReachedInv` | ANDROID_3.0.8/block/blk-flush.c:143-335 | both hold in every reachable state |
| `Flush.CompletionEnabled` | ANDROID_3.0.8/block/blk-flush.c:193-284 | every command the driver has taken can be completed |
| `Flush.StepsInOrder` | ANDROID_3.0.8/block/blk-flush.c:94-191 | in every run a request performs its policy's steps in the order PREFLUSH, DATA, POSTFLUSH, each once, DATA exactly when the device completed its data command; it completes once for that command and once at its end; its bio ends exactly once, after the last step unless it failed |
| `Flush.NoStaleFlush` | ANDROID_3.0.8/block/blk-flush.c:243-272 | a flush command exists, queued or with the driver, exactly while a flush is in flight, and never two; the flushes issued are those the device completed and this one; no flush step is satisfied by a flush issued before the request joined or not completed by the device; without a flush in flight only the collecting list has entries |
| `Flush.NoneStranded` | ANDROID_3.0.8/block/blk-flush.c:143-272 | in every reachable state a request that is not finished has its own data command, the flush command it waits for, or, while it waits for a flush to be issued, a flush or data command of others |
| `Flush.QuietIsFinished` | ANDROID_3.0.8/block/blk-flush.c:143-272 | so when no command is queued or at the device, every request is finished and its bio ended |
| `FlushProgress.FlushWork` | ANDROID_3.0.8/block/blk-flush.c:193-228 | a completed or failed flush leaves at least a step less to do for every request it was issued for, and there is one |
| `FlushProgress.DataWork` | ANDROID_3.0.8/block/blk-flush.c:274-284 | completed or failed data leaves less to do |
| `FlushProgress.CompletionsBounded` | ANDROID_3.0.8/block/blk-flush.c:143-284 | in any run without insertions the completions are at most the steps that were left, and lower what is left by as many |
| `FlushProgress.EndsWithin` | ANDROID_3.0.8/block/blk-flush.c:143-284 | so after as many completions as steps were left every request is finished and its bio ended once |
| `FlushProgress.SomethingToDo` | ANDROID_3.0.8/block/blk-flush.c:143-284 | while a request is not finished the driver has a command to take or to complete |
| `FlushFlags.StableStorage` | ANDROID_3.0.8/Documentation/block/writeback_cache_control.txt:23-38 | over every run, for the flags a request was inserted with and whatever the device can do: when data of a REQ_FLUSH request is with the device or done, or the request is over, all writes completed before its insertion are on stable storage; when a REQ_FUA request is over, its own data is; this includes requests that go past the machinery |
| `FlushFlags.StepsForFlags` | ANDROID_3.0.8/block/blk-flush.c:94-107 | and no more is done: a request goes past the machinery as one command exactly if it has data and needs no flush; otherwise it is over exactly when it has gone through the steps its flags ask for, in order, unless it failed |
| `FlushFlags.QuietIsOver` | ANDROID_3.0.8/block/blk-flush.c:143-335 | when no command is left every request ever inserted is over |
| `FlushFlags.FailedByDevice` | ANDROID_3.0.8/block/blk-flush.c:143-284 | only an error of the device fails a request: of its data, of its own command, or of a flush |
| `FlushFlags.NextHead` | ANDROID_3.0.8/block/blk-flush.c:143-323 | the driver takes the first command; data of sequenced requests goes before all that is queued, a flush and other requests behind it |
| `Flush.DataNeedsCache` | ANDROID_3.0.8/block/blk-flush.c:94-107 | on insertion a request with data is left with a command or waiting for a flush exactly when the device has a write cache; without one its bio is ended and nothing is written, so the filter in front of the machinery is needed |
| `Flush.FlushQueue.constructor` | ANDROID_3.0.8/block/blk-core.c:437-439 | the idle queue satisfies the invariant |
| `Flush.FlushQueue.KickFlush` | ANDROID_3.0.8/block/blk-flush.c:243-272 | issues a flush for the pending list exactly under the three conditions, and says whether it did |
| `Flush.FlushQueue.CompleteFlushSeq` | ANDROID_3.0.8/block/blk-flush.c:143-191 | moves a request to the list of its next step, or ends it, and kicks |
| `Flush.FlushQueue.FlushEnd` | ANDROID_3.0.8/block/blk-flush.c:193-228 | the device gives the flush command back; the walk with a saved next pointer visits exactly the requests the flush was issued for, keeps the invariant and terminates |
| `Flush.FlushQueue.DataEnd` | ANDROID_3.0.8/block/blk-flush.c:274-284 | the device gives the data command of a request back, which completes its DATA step |
| `Flush.FlushQueue.InsertRq` | ANDROID_3.0.8/block/blk-flush.c:297-335 | sequences a request by its policy, or passes it on when only DATA is needed |
| `Deadline.Alias` | ANDROID_3.0.8/block/elevator.c:356-378 | a request of the tree at the given sector, and none only if there is none |
| `Deadline.InsertTree` | ANDROID_3.0.8/block/elevator.c:356-378 | inserting at a free sector keeps the tree strictly ascending and adds just the request |
| `Deadline.ClearedOk` | ANDROID_3.0.8/block/deadline-iosched.c:76-84 | making room dispatches at most the one request at that sector, and keeps everything else |
| `Deadline.MoveOk` | ANDROID_3.0.8/block/deadline-iosched.c:206-222 | moving a request to the dispatch queue keeps the invariant |
| `Deadline.AddOk` | ANDROID_3.0.8/block/deadline-iosched.c:100-113 | adding a request keeps tree and FIFO alike, the FIFO sorted by expiry and the count right |
| `Deadline.FrontMergedOk` | ANDROID_3.0.8/block/deadline-iosched.c:156-168 | so does a front merge, which moves the request in the tree |
| `Deadline.MergedFifo` | ANDROID_3.0.8/block/deadline-iosched.c:170-183 | merging two requests leaves the FIFO without the second; if that one expires first, the first takes its place and time, and the FIFO stays sorted |
| `Deadline.MergedOk` | ANDROID_3.0.8/block/deadline-iosched.c:170-189 | merging two requests keeps the invariant |
| `Deadline.ChooseOk` | ANDROID_3.0.8/block/deadline-iosched.c:245-317 | a call selects a queued request exactly when there is one |
| `Deadline.DispatchOk` | ANDROID_3.0.8/block/deadline-iosched.c:245-327 | a call dispatches one request exactly when something is queued, and keeps the invariant |
| `Deadline.StepOk` | ANDROID_3.0.8/block/deadline-iosched.c:76-327 | every step keeps it: per direction tree and FIFO hold the same requests, at most one next_rq is set and it is queued, the FIFO is sorted by expiry, nr_sorted is the total, and no request is lost or in two places |
| `Deadline.RunInv` | ANDROID_3.0.8/block/deadline-iosched.c:76-327 | it holds after every run |
| `Deadline.CallTurns` | ANDROID_3.0.8/block/deadline-iosched.c:256-317 | a call brings the turn of a direction nearer, or starts a batch of it with its oldest request if that has expired |
| `Deadline.WritesNotStarved` | ANDROID_3.0.8/block/deadline-iosched.c:245-327 | with a write queued, some write is dispatched within (writes_starved + 1) * max(1, fifo_batch) + 1 calls, whatever arrives and merges meanwhile |
| `Deadline.ExpiredServed` | ANDROID_3.0.8/block/deadline-iosched.c:228-327 | an expired request is dispatched or merged within a number of calls linear in its FIFO position: (place + 1) times (writes_starved + 1) * max(1, fifo_batch) + 1 for a write, times 2 * max(1, fifo_batch) + 1 for a read if writes_starved is at least one |
| `DeadlineMerge.CarrierServed` | ANDROID_3.0.8/block/deadline-iosched.c:170-327 | an expired request is dispatched, itself or in the request that carries it after merges, within as many turns as requests of its direction expire no later, in every run with merges and arrivals; a turn is bounded as above |
| `DeadlineMerge.TimelyIsPlace` | ANDROID_3.0.8/block/deadline-iosched.c:170-189 | without ties that number is its place in the FIFO, so the bound is that of the request itself |
| `DeadlineMerge.StepTimely` | ANDROID_3.0.8/block/deadline-iosched.c:76-327 | no step makes more requests expire by a time that has passed: a carrier only takes the place of what was merged into it |
| `DeadlineMerge.CarrierStep` | ANDROID_3.0.8/block/deadline-iosched.c:76-327 | after any step the carrier waits and expires no later than before, or is dispatched |
| `DeadlineOrder.DispatchOrder` | ANDROID_3.0.8/block/deadline-iosched.c:256-327 | over every run, with arrivals and merges, a call dispatches one request if any is queued: within a batch the queued one with the least sector above the request dispatched last; at its end a new batch starts, in the direction whose turn it is, there again if that is the same direction and nothing in it has expired, and otherwise at the request that expires first |
| `DeadlineOrder.BatchAscends` | ANDROID_3.0.8/block/deadline-iosched.c:206-263 | so calls that follow a dispatch within the batch dispatch the requests of its direction above it in the order of their sectors, leaving out none |
| `DeadlineOrder.LatterLeast` | ANDROID_3.0.8/block/deadline-iosched.c:63-74 | rb_next is the request with the least sector above, whatever else is queued |
| `DeadlineOrder.StepTracked` | ANDROID_3.0.8/block/deadline-iosched.c:92-222 | every step keeps that reading of next_rq, batching and starved: whatever is dispatched, also to make room for a request at its sector, the batch goes on above it; a next request that is merged away is replaced by the one above |
| `DeadlineOrder.StepRecords` | ANDROID_3.0.8/block/deadline-iosched.c:104-189 | sectors and expiry times are those of arrival, but for front merges and the earlier expiry of two merged requests |
| `Deadline.ReadStarves` | ANDROID_3.0.8/block/deadline-iosched.c:270-279 | with writes_starved zero, for every number of calls there is a run in which a queued read stays queued, so the condition is needed |
| `Deadline.DrainedAll` | ANDROID_3.0.8/block/elevator.c:609-621 | forced draining ends with nr_sorted zero and every queued request dispatched exactly once |
| `Deadline.DeadlineData.constructor` | ANDROID_3.0.8/block/deadline-iosched.c:342-360 | the empty scheduler satisfies the invariant |
| `Deadline.DeadlineData.MoveRequest` | ANDROID_3.0.8/block/deadline-iosched.c:206-222 | the request leaves tree and FIFO for the end of the dispatch queue, and the next request is the one above it |
| `Deadline.DeadlineData.RemoveRequest` | ANDROID_3.0.8/block/deadline-iosched.c:86-124 | the request leaves tree and FIFO; a next pointer at it moves on |
| `Deadline.DeadlineData.AddRqRb` | ANDROID_3.0.8/block/deadline-iosched.c:76-84 | the retry loop ends with the request in the tree, after at most one dispatch |
| `Deadline.DeadlineData.AddRq` | ANDROID_3.0.8/block/deadline-iosched.c:100-113 | adds a request and keeps the invariant |
| `Deadline.DeadlineData.MergedRequest` | ANDROID_3.0.8/block/deadline-iosched.c:156-168 | repositions a request after a front merge and keeps the invariant |
| `Deadline.DeadlineData.MergedRequests` | ANDROID_3.0.8/block/deadline-iosched.c:170-189 | merges two requests and keeps the invariant |
| `Deadline.DeadlineData.SelectRequest` | ANDROID_3.0.8/block/deadline-iosched.c:245-323 | the selection with its counters, or nothing |
| `Deadline.DeadlineData.DispatchRequests` | ANDROID_3.0.8/block/deadline-iosched.c:245-327 | one dispatch call; it reports whether anything was queued |
| `Deadline.DeadlineData.DrainElevator` | ANDROID_3.0.8/block/elevator.c:609-621 | the drain loop terminates with empty FIFOs and nr_sorted zero |
| `Spawns.PushOk` | ANDROID_3.0.8/crypto/algapi.c:153-169 | taking a spawn keeps the walk's invariant: every dependent spawn is waiting, on the stack or done, the stack is a chain of users, alg fields are set only for spawns that lead to the new algorithm, of several spawns of one instance at most one has its field, and users are done before the instance they use |
| `Spawns.PopOk` | ANDROID_3.0.8/crypto/algapi.c:85-106 | finishing a spawn keeps that invariant; what is done has its alg field only if it leads to the new algorithm, and whenever it does if no instance on the way there is reached twice |
| `Spawns.FinishedKept` | ANDROID_3.0.8/crypto/algapi.c:98-101 | when a spawn is finished a finished user of its instance leads to the new algorithm exactly if the spawn does |
| `Spawns.AllDone` | ANDROID_3.0.8/crypto/algapi.c:151-171 | when the walk ends every dependent spawn is on the secondary list |
| `Spawns.OutcomeIsOwner` | ANDROID_3.0.8/crypto/algapi.c:85-106 | when the walk is over the alg fields are as asked for exactly if no instance on the way to the new algorithm is reached twice |
| `Spawns.OverSparing` | ANDROID_3.0.8/crypto/algapi.c:85-106 | when the walk is over, whatever is shared: no other spawn lost its alg field, none that does not lead to the new algorithm has it, those right at it do, and of several spawns of another instance at most one |
| `Spawns.SharedDies` | ANDROID_3.0.8/crypto/algapi.c:108-179 | an instance on the way that is reached twice is removed although it leads to the new algorithm |
| `Spawns.DiamondShared` | ANDROID_3.0.8/crypto/algapi.c:132-179 | such links exist: two instances, a third over both by two spawns, and the new algorithm over that |
| `Spawns.UnregisteredApart` | ANDROID_3.0.8/crypto/algapi.c:132-179 | without a new algorithm the condition holds, whatever is shared, so every dependent spawn goes |
| `Spawns.ForestApart` | ANDROID_3.0.8/crypto/algapi.c:132-179 | it holds too if every instance is reached by one spawn only |
| `Spawns.KeptIsPath` | ANDROID_3.0.8/crypto/algapi.c:98-101 | in a forest the spawns kept are exactly those on one chain of users from the old algorithm to the new one, if there is one |
| `Spawns.SparesNew` | ANDROID_3.0.8/crypto/algapi.c:164-165 | the users of the new algorithm stay exactly as they are |
| `Spawns.CryptoAlgs.RemoveSpawn` | ANDROID_3.0.8/crypto/algapi.c:108-130 | marks the instance dead and hands it over for destruction if it is registered and its template can be held; its user list is empty |
| `Spawns.CryptoAlgs.MatchesMasked` | ANDROID_3.0.8/crypto/algapi.c:136-149 | a user goes exactly if the old and the new type are the same under its mask, and always without a new algorithm |
| `Spawns.CryptoAlgs.TakeMatching` | ANDROID_3.0.8/crypto/algapi.c:143-149 | exactly the users whose type bits match leave the list; the others keep their order |
| `Spawns.CryptoAlgs.MoreSpawns` | ANDROID_3.0.8/crypto/algapi.c:85-106 | one spawn goes to the secondary list and the one below it may be restored; the next list is that of the new top, or none |
| `Spawns.CryptoAlgs.Descend` | ANDROID_3.0.8/crypto/algapi.c:153-169 | goes down until there are no users or the new algorithm is reached; it never meets the old one |
| `Spawns.CryptoAlgs.WalkAll` | ANDROID_3.0.8/crypto/algapi.c:151-171 | the walk terminates with every dependent spawn on the secondary list |
| `Spawns.CryptoAlgs.Settle` | ANDROID_3.0.8/crypto/algapi.c:173-178 | exactly the dependent spawns that have an alg field are back in the lists they came from; the instances of the others are dead, and those registered whose template can be held are unhashed and handed over for destruction |
| `Spawns.CryptoAlgs.RemoveSpawns` | ANDROID_3.0.8/crypto/algapi.c:132-179 | on any acyclic use: exactly the dependent spawns that do not lead to the new algorithm lose their alg fields if and only if no instance on the way there is reached twice; in any case none that does not lead there is spared, exactly the dependent spawns without alg field leave their lists and their instances die, and all other links are as before |
| `Completion.RestBytes` | ANDROID_3.0.8/block/blk-core.c:2056-2128 | completing n bytes leaves exactly the byte sequence without its first n, in a well-formed chain |
| `Completion.EndsExactly` | ANDROID_3.0.8/block/blk-core.c:2056-2105 | a bio is ended exactly when all its bytes are among the n; an empty bio right at the end is reached only if it is the first |
| `Completion.RestShape` | ANDROID_3.0.8/block/blk-core.c:2056-2128 | what is left is the rest of the bio the bytes end in and the bios behind it, unchanged |
| `Completion.RestTwice` | ANDROID_3.0.8/block/blk-core.c:2008-2156 | completing a and then b bytes, a a sector multiple, ends the same bios and leaves the same rest as completing a + b |
| `Completion.RestTwiceZero` | ANDROID_3.0.8/block/blk-core.c:2097-2105 | for b zero that holds exactly when what is left does not start with an empty bio |
| `Completion.UpdateOk` | ANDROID_3.0.8/block/blk-core.c:2008-2156 | a well-formed request stays so; the "request botched" test never succeeds; the answer is whether a bio is left |
| `Completion.MoreIffBytes` | ANDROID_3.0.8/block/blk-core.c:2107-2118 | if no bio is empty the answer is whether bytes remain |
| `Completion.UpdateTwice` | ANDROID_3.0.8/block/blk-core.c:2008-2156 | two completions of sector multiples are one, except that a finished request keeps the sector of the last completion that left something |
| `CompletionRuns.UpdateOnDisk` | ANDROID_3.0.8/block/blk-core.c:2130-2135 | completing whole sectors keeps the bios one behind the other on the disk from the sector of the request on, and the sector it ends at |
| `CompletionRuns.RunJudged` | ANDROID_3.0.8/block/blk-core.c:150-176 | over any run of completions each bio is reported once, in order, when its last byte is done, and as good exactly if it was and no completion of any of its bytes failed |
| `Completion.BioEndio` | ANDROID_3.0.8/block/blk-core.c:150-176 | at most the bio's size is taken off; the bio is reported once, when nothing is left, with an error if any completion had one, and not inside a flush sequence |
| `Completion.EndBios` | ANDROID_3.0.8/block/blk-core.c:2055-2105 | the loop ends the right bios with the right reports and finds the place where the bytes end; its two ways out on inconsistent sizes are never taken |
| `Completion.WriteBack` | ANDROID_3.0.8/block/blk-core.c:2120-2128 | the progress is written into the first bio that is left, which is not ended |
| `Completion.Request.UpdateRequest` | ANDROID_3.0.8/block/blk-core.c:2008-2156 | the whole update, on the request in place, with the bios it ends |
| `Segments.FullerStartsMore` | ANDROID_3.0.8/block/blk-merge.c:136-169 | either walk, started with a fuller segment, starts at most one segment more, and never fewer |
| `Segments.GreedyLeast` | ANDROID_3.0.8/block/blk-merge.c:12-169 | no allowed way to cut the vectors makes fewer segments than the map, nor, if pages that may be bounced are kept apart, than the count |
| `Segments.SegsLeast` | ANDROID_3.0.8/block/blk-merge.c:12-169 | so both numbers are the least possible: segments of adjacent vectors on one side of the boundary, no longer than the limit |
| `Segments.MapsWithinCount` | ANDROID_3.0.8/block/blk-merge.c:12-69 | the count, with its extra cuts at pages that may be bounced, is never below the map |
| `Segments.MapsTogether` | ANDROID_3.0.8/block/blk-merge.c:136-169 | mapping two lists together takes no more segments than mapping each |
| `Segments.Recount` | ANDROID_3.0.8/block/blk-merge.c:12-69 | the counting loops compute that least number, pages that may be bounced kept apart |
| `Segments.MapSg` | ANDROID_3.0.8/block/blk-merge.c:117-169 | the entries are the segments of an allowed way to cut, cover exactly the physical bytes of the request in order, are as few as possible, and none is longer than the limit unless it is a single vector |
| `Segments.Request.constructor` | ANDROID_3.0.8/block/blk-core.c:2444-2460 | a request from one bio has room for its map |
| `Segments.Request.NewSegment` | ANDROID_3.0.8/block/blk-merge.c:202-250 | a bio is admitted exactly when its sectors and the request's are within max_sectors and its counted segments and the request's within max_segments, else all merging is forbidden |
| `Segments.Request.BackMerge` | ANDROID_3.0.8/block/blk-merge.c:228-250 | the same for a back merge, and the count still leaves room for the map |
| `Segments.Request.FrontMerge` | ANDROID_3.0.8/block/blk-merge.c:252-275 | the same after a front merge |
| `Segments.Request.Recalc` | ANDROID_3.0.8/block/blk-merge.c:71-74 | the same after a completion and recount |
| `Segments.Request.Map` | ANDROID_3.0.8/block/blk-merge.c:117-169 | after any merges and completions the scatterlist needs at most nr_phys_segments entries, each an allowed segment, and covers exactly the request's bytes |
| `Anubis.SInvolution` | ANDROID_3.0.8/crypto/anubis.c:320-385 | the substitution box, three layers of two boxes of four bits, is its own inverse |
| `Anubis.Tables` | ANDROID_3.0.8/crypto/anubis.c:52-452 | every table entry is what it stands for: that substitution times one column of the diffusion matrix, the substitution in each byte, or multiples of the index |
| `Anubis.ThetaLinear` | ANDROID_3.0.8/crypto/anubis.c:52-318 | the diffusion layer is linear |
| `Anubis.ThetaInvolution` | ANDROID_3.0.8/crypto/anubis.c:52-318 | the diffusion layer is its own inverse |
| `Anubis.RoundIs` | ANDROID_3.0.8/crypto/anubis.c:594-623 | a table round is substitution, transposition, diffusion and key addition |
| `Anubis.LastRoundIs` | ANDROID_3.0.8/crypto/anubis.c:629-652 | the masked last round is the same without diffusion |
| `Anubis.SubTransposeTwice` | ANDROID_3.0.8/crypto/anubis.c:594-652 | substituting and transposing twice changes nothing |
| `Anubis.TableThetaIs` | ANDROID_3.0.8/crypto/anubis.c:562-567 | the key schedule's table expression is the diffusion layer |
| `Anubis.Backwards` | ANDROID_3.0.8/crypto/anubis.c:574-660 | undoing r rounds under the inverse schedule leads back to the state r rounds before the end, substituted and transposed |
| `Anubis.CryptInverts` | ANDROID_3.0.8/crypto/anubis.c:574-660 | decryption inverts encryption for any number of rounds and any round keys |
| `Anubis.BlockRoundTrip` | ANDROID_3.0.8/crypto/anubis.c:662-672 | so it does on blocks of bytes |
| `Anubis.SelectIs` | ANDROID_3.0.8/crypto/anubis.c:497-522 | the key selection computes the sums of the substituted key bytes weighted with powers of 1, 2, 6 and 8 |
| `Anubis.EvolveWordIs` | ANDROID_3.0.8/crypto/anubis.c:534-546 | the key evolution is substitution, a cyclic shift in each column and diffusion |
| `Anubis.ConstantIs` | ANDROID_3.0.8/crypto/anubis.c:454-460 | every round constant is the next four values of the substitution box |
| `AnubisCipher.KeyStateIs` | ANDROID_3.0.8/crypto/anubis.c:485-549 | every key state is that of the definition: substituted, its columns turned, diffused, and four box values added to its first row |
| `AnubisCipher.ScheduleIs` | ANDROID_3.0.8/crypto/anubis.c:497-527 | every round key is the one of the definition |
| `AnubisCipher.CipherIs` | ANDROID_3.0.8/crypto/anubis.c:462-660 | for every key and block the table routines compute Anubis as defined on byte matrices from the small boxes, the diffusion matrix and the key selection |
| `Anubis.SelectKey` | ANDROID_3.0.8/crypto/anubis.c:497-527 | the selection loop yields the round key of a key state |
| `Anubis.EvolveKey` | ANDROID_3.0.8/crypto/anubis.c:534-549 | the in-place loops yield the next key state |
| `Anubis.LoadKey` | ANDROID_3.0.8/crypto/anubis.c:485-487 | the key bytes as big-endian words |
| `Anubis.Context.SetKey` | ANDROID_3.0.8/crypto/anubis.c:462-572 | keys of 16, 20, 24, 28, 32, 36 and 40 bytes are taken, with 8 + length / 4 rounds and both schedules; any other is refused and changes nothing |
| `Anubis.Context.Forwards` | ANDROID_3.0.8/crypto/anubis.c:485-550 | the encryption schedule |
| `Anubis.Context.Backwards` | ANDROID_3.0.8/crypto/anubis.c:552-569 | the decryption schedule: the keys backwards, all but the ends diffused |
| `Anubis.Context.CryptWith` | ANDROID_3.0.8/crypto/anubis.c:574-660 | the routine on a block under one schedule |
| `Anubis.Context.Encrypt` | ANDROID_3.0.8/crypto/anubis.c:662-666 | encryption under the forward schedule |
| `Anubis.Context.Decrypt` | ANDROID_3.0.8/crypto/anubis.c:668-672 | whatever Encrypt returned under the same key is taken back to the block |
| `TemplateName.ParseExactly` | ANDROID_3.0.8/crypto/algboss.c:114-182 | the parser succeeds with a template and argument texts exactly when the name is that template, an opening parenthesis, those arguments joined by commas, a closing one, and anything; identifiers, balanced nesting and fewer than CRYPTO_MAX_ATTRS arguments included |
| `TemplateName.PiecesFit` | ANDROID_3.0.8/crypto/algboss.c:121-157 | every piece it copies is shorter than the name |
| `TemplateName.ParsePrint` | ANDROID_3.0.8/crypto/algboss.c:114-182 | parsing a printed term gives back the template and the printed arguments |
| `TemplateName.ReadPrint` | ANDROID_3.0.8/crypto/algboss.c:114-182 | repeated parsing undoes printing at any nesting depth |
| `TemplateName.InstanceParses` | ANDROID_3.0.8/crypto/algapi.c:748-755 | the name given to an instance of a template over an algorithm parses back into the two |
| `TemplateName.InstanceFits` | ANDROID_3.0.8/crypto/algapi.c:748-751 | an instance is named exactly if the name fits its buffer with the NUL |
| `TemplateName.NumberPassed` | ANDROID_3.0.8/crypto/algboss.c:153-164 | an argument that is a decimal number is passed as that number in 32 bits |
| `TemplateName.OctalPassed` | ANDROID_3.0.8/lib/vsprintf.c:55-105 | with a leading zero as octal, up to the first digit that is not |
| `TemplateName.NamePassed` | ANDROID_3.0.8/crypto/algboss.c:127-164 | and with any other character as a name |
| `TemplateName.ScanIdent` | ANDROID_3.0.8/crypto/algboss.c:130-131 | the cursor stops behind the identifier, and the flag tells whether it is all digits |
| `TemplateName.ScanNested` | ANDROID_3.0.8/crypto/algboss.c:133-147 | the recursion counter finds the matching parenthesis, or the end of the string |
| `TemplateName.ScanItem` | ANDROID_3.0.8/crypto/algboss.c:127-151 | the extent of one argument and whether it names an algorithm |
| `TemplateName.ScheduleProbe` | ANDROID_3.0.8/crypto/algboss.c:114-182 | the cursor loops compute the parse, with digits passed as numbers and the rest as names |
| `Cfq.InsertTree` | ANDROID_3.0.8/block/cfq-iosched.c:827-853 | a group goes behind all groups of no larger time; the tree stays sorted, the weights add up, and it is leftmost only if strictly smallest |
| `Cfq.Scale` | ANDROID_3.0.8/block/cfq-iosched.c:528-535 | the scaled charge is the charge in inverse proportion to the weight, rounded down by less than one unit |
| `Cfq.QueueAddOk` | ANDROID_3.0.8/block/cfq-iosched.c:875-898 | adding a queue to a group keeps the invariant |
| `Cfq.QueueDelOk` | ANDROID_3.0.8/block/cfq-iosched.c:900-924 | removing one keeps it |
| `Cfq.SetWeightOk` | ANDROID_3.0.8/block/cfq-iosched.c:1008-1014 | a weight change at any time keeps it, because it waits until the group is off the tree |
| `Cfq.GetNextOk` | ANDROID_3.0.8/block/cfq-iosched.c:2262-2272 | the group chosen is the leftmost, and min_vdisktime does not decrease |
| `Cfq.ServedOk` | ANDROID_3.0.8/block/cfq-iosched.c:958-978 | charging a group on the tree keeps the invariant; its time grows by the scaled charge and nothing else changes |
| `Cfq.ServedNeedsTree` | ANDROID_3.0.8/block/cfq-iosched.c:900-906 | charged off the tree, a group would be counted in the tree but its weight missing from the total |
| `Cfq.RunInv` | ANDROID_3.0.8/block/cfq-iosched.c:827-978 | over every run, whichever queued groups are served, min_vdisktime never decreases or passes a queued group, total_weight is the sum of the queued weights despite asynchronous weight changes, and the cached leftmost is absent or the first |
| `Cfq.SpreadBounded` | ANDROID_3.0.8/block/cfq-iosched.c:958-978 | if every service is charged to the group chosen leftmost, continuously backlogged groups stay as close as they began or as the largest scaled charge, whichever is more |
| `Cfq.FairShare` | ANDROID_3.0.8/block/cfq-iosched.c:958-978 | so two such groups get the same scaled service to within twice that |
| `Cfq.GainedRaw` | ANDROID_3.0.8/block/cfq-iosched.c:528-535 | the scaled service of a group of steady weight is its service over its weight, less than one unit short for every charge |
| `Cfq.WeightedShare` | ANDROID_3.0.8/block/cfq-iosched.c:528-535 | two such groups of steady weights are charged service in proportion to their weights, to within twice the largest scaled charge and one unit for every charge |
| `CfqRuns.WeightTakesEffect` | ANDROID_3.0.8/block/cfq-iosched.c:859-873 | over every run a weight asked for takes effect when the group is served next or joins again, unless another one is asked for; until then the old one holds |
| `CfqRuns.RunBooked` | ANDROID_3.0.8/block/cfq-iosched.c:855-978 | every group has the queues and the weight that its own events alone account for |
| `CfqRuns.JoinsLast` | ANDROID_3.0.8/block/cfq-iosched.c:875-898 | a group with a first queue joins behind all others, later than the last by the idle delay, or alone at min_vdisktime |
| `CfqRuns.ChosenIsMin` | ANDROID_3.0.8/block/cfq-iosched.c:552-563 | a choice takes the group with the smallest time, and min_vdisktime comes up to exactly that |
| `CfqRuns.RunChosen` | ANDROID_3.0.8/block/cfq-iosched.c:552-563 | over every run min_vdisktime is the time of the group chosen last, the largest so far, or what it was |
| `Cfq.CfqData.constructor` | ANDROID_3.0.8/block/cfq-iosched.c:84-92 | no group is queued |
| `Cfq.CfqData.FirstGroup` | ANDROID_3.0.8/block/cfq-iosched.c:759-768 | the leftmost group, through the cache |
| `Cfq.CfqData.TreeLink` | ANDROID_3.0.8/block/cfq-iosched.c:827-853 | the walk puts a group in its place and caches it exactly if it is leftmost |
| `Cfq.CfqData.ServiceTreeAdd` | ANDROID_3.0.8/block/cfq-iosched.c:855-873 | a waiting weight is taken over and counted |
| `Cfq.CfqData.ServiceTreeDel` | ANDROID_3.0.8/block/cfq-iosched.c:900-906 | the group leaves the tree, the cache and the total |
| `Cfq.CfqData.QueueAdded` | ANDROID_3.0.8/block/cfq-iosched.c:875-898 | a first queue puts the group at the end of the tree, or at min_vdisktime if that is empty |
| `Cfq.CfqData.QueueDeleted` | ANDROID_3.0.8/block/cfq-iosched.c:908-924 | the last queue takes the group off |
| `Cfq.CfqData.GroupServed` | ANDROID_3.0.8/block/cfq-iosched.c:958-978 | the group is recharged off the tree and put back |
| `Cfq.CfqData.NextGroup` | ANDROID_3.0.8/block/cfq-iosched.c:2262-2272 | the leftmost group, with min_vdisktime moved up to it |
| `DispatchSort.SortOk` | ANDROID_3.0.8/block/elevator.c:413-450 | sorted insertion keeps neighbours of one kind in elevator order, loses nothing, and puts the request in the one place for it: before just the later requests of its kind at the end, and behind a barrier, a started request, one of another kind or one that is no later |
| `DispatchSort.StretchSorted` | ANDROID_3.0.8/block/elevator.c:413-450 | any two requests of a stretch of one kind are in one-way elevator order |
| `DispatchSort.MovedOrdered` | ANDROID_3.0.8/block/blk-core.c:1850-1853 | the order survives a moved boundary exactly if of no two neighbours of one kind one changes sides and the other does not |
| `DispatchSort.StartKeepsStretch` | ANDROID_3.0.8/block/blk-core.c:1850-1853 | in a queue of one kind it survives the start of the head if no other request starts within it |
| `DispatchSort.StepOrdered` | ANDROID_3.0.8/block/elevator.c:413-469 | a step keeps the order exactly if it breaks no neighbours |
| `DispatchSort.ReachedSorted` | ANDROID_3.0.8/block/elevator.c:413-469 | so stretches are in elevator order in every queue reached by such steps: sorted and tail insertions, and the driver being shown and taking the head |
| `DispatchSort.BoundaryBreaks` | ANDROID_3.0.8/block/blk-core.c:1850-1853 | a run of three sorted insertions and the start of the head after which two writes are out of order |
| `DispatchSort.BoundaryIs` | ANDROID_3.0.8/block/blk-core.c:1832-1853 | where the boundary is after each step: behind what was put at the tail, or behind the head that was shown, unless that is kept from moving it |
| `DispatchSort.TailHolds` | ANDROID_3.0.8/block/elevator.c:458-470 | once a request was put at the tail the boundary stays behind it until it is the head and shown, or another one comes |
| `DispatchSort.DispatchQueue.Dispatch` | ANDROID_3.0.8/block/elevator.c:413-450 | the backward loop inserts at that place |
| `DispatchSort.DispatchQueue.DispatchTail` | ANDROID_3.0.8/block/elevator.c:458-470 | the request goes to the end and becomes the one whose start moves the boundary |
| `DispatchSort.DispatchQueue.Peek` | ANDROID_3.0.8/block/blk-core.c:1832-1853 | the head is started; the boundary moves to its end unless another request is marked |
| `MergeHash.AddOk` | ANDROID_3.0.8/block/elevator.c:316-322 | a request is added to the bucket of its end sector |
| `MergeHash.RepositionOk` | ANDROID_3.0.8/block/elevator.c:324-328 | rehashing puts a changed request back in its place |
| `MergeHash.ChangeOk` | ANDROID_3.0.8/block/blk-core.c:1133-1162 | a change that keeps the end sector, as a front merge does, disturbs nothing; any other leaves only the changed request misplaced |
| `MergeHash.FindExactly` | ANDROID_3.0.8/block/elevator.c:330-350 | a lookup finds a mergeable request ending at an offset exactly when a scan of all hashed requests would, and drops none that can still be merged |
| `MergeHash.StepOk` | ANDROID_3.0.8/block/elevator.c:551-581 | insertion, merges, dispatch and lookups keep every hashed request in the bucket of its end sector |
| `MergeHash.StepAgrees` | ANDROID_3.0.8/block/elevator.c:316-581 | every step keeps the hash in agreement with the queue: it knows the requests as they are, holds no others, and all that can be merged |
| `MergeHash.LookupReached` | ANDROID_3.0.8/block/elevator.c:330-350 | after every run of insertions, merges and dispatches a lookup finds a request exactly if some request then on the queue can be merged and ends there, and finds such a one |
| `MergeHash.Hash.constructor` | ANDROID_3.0.8/block/elevator.c:221-222 | an empty hash |
| `MergeHash.Hash.RqAdd` | ANDROID_3.0.8/block/elevator.c:316-322 | adds a request that is not hashed |
| `MergeHash.Hash.BackMerged` | ANDROID_3.0.8/block/elevator.c:551-562 | a request grown at its end is rehashed |
| `MergeHash.Hash.RqFind` | ANDROID_3.0.8/block/elevator.c:330-350 | the loop along the bucket finds what a scan would |
| `Tags.StartOk` | ANDROID_3.0.8/block/blk-tag.c:337-384 | the lowest free tag is taken that the request may have, for an asynchronous one none of the last two but always the first; it fails exactly when there is none or more asynchronous requests are in flight than tags for them |
| `Tags.EndOk` | ANDROID_3.0.8/block/blk-tag.c:282-316 | the tag of a queued request is always in range; it becomes free in all three places and nothing else changes |
| `Tags.ResizeOk` | ANDROID_3.0.8/block/blk-tag.c:220-265 | a resize sets the depth, keeps every live tag, its bit and its index entry, and adds free ones; it fails exactly when a shared map would have to grow |
| `Tags.GrowFits` | ANDROID_3.0.8/block/blk-tag.c:107-138 | a grown map is large enough for the old one exactly when the old depth is at most twice nr_requests |
| `Tags.GrowLoses` | ANDROID_3.0.8/block/blk-tag.c:107-138 | otherwise there is a state with a live tag beyond the new map |
| `Tags.StepOk` | ANDROID_3.0.8/block/blk-tag.c:220-384 | every step keeps the invariant: a bit is set iff its index entry names a request, which carries that tag |
| `Tags.LiveTagKept` | ANDROID_3.0.8/block/blk-tag.c:220-384 | over every run a live tag stays with its request, in range and found by the index, until it is ended |
| `Tags.TagsDistinct` | ANDROID_3.0.8/block/blk-tag.c:337-384 | no two requests share a tag |
| `Tags.SyncStarts` | ANDROID_3.0.8/block/blk-tag.c:350-364 | asynchronous requests cannot shut out synchronous ones: after any run on at least three tags a synchronous request gets a tag unless two synchronous ones hold one |
| `Tags.QueueTags.constructor` | ANDROID_3.0.8/block/blk-tag.c:107-138 | a fresh map has no tag in use and the adjusted depth |
| `Tags.QueueTags.FindFirstZero` | ANDROID_3.0.8/block/blk-tag.c:367-372 | the lowest clear bit below the limit |
| `Tags.QueueTags.StartRequest` | ANDROID_3.0.8/block/blk-tag.c:337-384 | assigns a tag in bitmap, index and request, or fails and changes nothing |
| `Tags.QueueTags.EndRequest` | ANDROID_3.0.8/block/blk-tag.c:282-316 | clears all three; none of its complaints can occur |
| `Tags.QueueTags.ResizeMap` | ANDROID_3.0.8/block/blk-tag.c:220-265 | lowers the limit, or copies into larger maps, or refuses a shared map |

## Left out

- ThrottleRate.MayDispatch: products of limits, amounts and times are unbounded here; their wrap-around in 64 bits (in 32 bits for the number of bios times HZ) and that of jiffies are not modelled, and neither is the shortcut for a group without any limit.
- Throttling: unlimited (-1) rates, changes of limits while bios wait, creation and destruction of groups, the resubmission flag and statistics; all groups exist from the start with finite limits.
- Flush: what a flush makes stable beyond the writes completed when it was issued, `blk_abort_flushes` and queue abort, `blkdev_issue_flush`, and running the queue after a completion; requests that carry FUA carry data, as the header of the source says.
- Deadline: `last_sector`, sysfs tunables (they are fixed during a run), `deadline_merge` (the search for a front merge) and negative `writes_starved`.
- Elevator: the boundary set by barriers in `__elv_add_request`, switching elevators, requeueing and the plug list; `elv_merge` itself, whose hash lookup is modelled, with its `last_merge` cache and its queue flags.
- MergeHash: the hash function is an arbitrary function of the block number; `hash_long` is not part of this model.
- Completion: accounting, error messages, integrity data, mixed-merge flags and bidirectional requests; bios without vectors but with a size, as discards have them, are not well formed here.
- Segments: the cached front and back segment sizes and the segment-saving branch of `ll_merge_requests_fn`, DMA padding and draining; the boundary test is an arbitrary predicate of two adjacent vectors.
- Cfq: queues within a group, idling, preemption, how a charge is worked out from a slice, the node count of the group tree (which the source only ever decrements), and wrap-around of 64-bit times; weights are positive, as the control group interface enforces, and deleting the last queue of the group being served ends its service.
- Tags: allocation failure, the reference count beyond shared or not, `blk_queue_invalidate_tags`, and two queues racing for the same bit of a shared map, where each start is one step.
- Spawns: registration, larvals, reference counts and notifications; whether a template can still be held is a given set of instances.
- Anubis: registration with the crypto core; the tables are transcribed entry by entry and their meaning is proved.
- TemplateName: looking up and starting the template, allocation failure, and the type attribute.
- CRYPTO_MAX_ALG_NAME is only used by the printer; the parser's contract says that no piece is longer than the name, so pieces fit their buffers when the name does.
- Red-black rebalancing, locking, memory barriers, per-cpu data and module references throughout: the trees and lists are values, so aliasing of nodes is not captured.
