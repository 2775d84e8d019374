# The bmk layer of rumprun, verified

A model in Dafny of the self-contained C core of the rumprun unikernel: its page allocator,
scheduler, interrupt protocol on seL4, malloc, mutexes, JSON tokenizer, xenstore rings, kernel
printf and strtoul, and calendar arithmetic. `dafny verify dfyconfig.toml` checks everything.

- **Pages** (`Arith`, `Blocks`, `BuddySteps`, `Queues`, `FreeLists`, `Bitmap`, `PageAlloc`). The binary buddy
  allocator as a class over free lists, a bitmap of 64-bit words, chunk headers and kB counters.
  Its invariant says that the free chunks are the one canonical decomposition of the free bytes:
  aligned, disjoint, covering, no two free buddies. Everything else follows from that: the bitmap
  is right, allocation is complete, merging never meets a bad header, and freeing everything in
  any order restores the initial chunks.
- **Scheduler** (`SchedSpec`, `SchedInv`, `SchedSteps`, `SchedRuns`, `Tailq`, `SchedWindow`,
  `SchedWindowRuns`, `SchedTear`, `SchedWakes`, `Sched`). A state machine whose steps are the
  stretches of `sched.c` between scheduling points; every failing assertion and every halt sets a
  flag. The machine of `SchedSpec` makes a wakeup one step, and an invariant of its steps is proved.
  The machine of `SchedWindow` is the one that runs: a wakeup by a thread is a look at the flags, at
  spl 0, and a move, with interrupts before, between and after. Every run of it is proved to come to
  a run of the other unless a move spoils the links of the queues, and exactly when that happens is
  proved too; so the safety of all runs, the join/exit handshake, what a timeout reports and
  first-come-first-served waiting are theorems about it. `Tailq` is `queue.h` at the level of
  pointers, on which what a move does rests (`SchedTear`). `Sched` is the code, with its loops and queues,
  as one method for each stretch between scheduling points; each is proved to compute its step and to
  keep the invariant, and what the file asserts of threads and queues is proved in it.
- **Interrupts on seL4** (`Sel4Irq`). The handler thread and the main thread as two programs
  sharing a semaphore, flags and a sticky notification. Wakeups of the isr thread by other threads
  are a look and a move here as well.
- **Malloc** (`Buckets`, `MemState`, `MemAlloc`). The bucket allocator as a class over the page
  allocator, whose natural alignment its own alignment rests on.
- **Mutex** (`Mutex`), **JSON tokens** (`JsmnSpec`,
  `JsmnTokens`, `JsmnMachine`, `JsmnJson`, `Jsmn`), **xenstore rings and
  request identifiers** (`XenRing`, `XenReqs`), **printf and strtoul** (`Numerals`, `Texts`, `Strtoul`,
  `PrintfSpec`, `PrintfDirectives`, `Printf`, `PrintfRoundTrip`), **calendar** (`Calendar`).

Pointers are byte addresses, words are naturals below 2^64 with wrap-around written out, and
queue.h lists are sequences; `Tailq` proves this of the TAILQ macros the scheduler uses. Power-of-two tests and masks such as `p & (align-1)` are written with
`PowerOfTwo` and `%`; only the allocation bitmap is modelled on bit vectors. An assertion that
states what a caller must do is a precondition (order and alignment limits of pgalloc, a second
loadmem); an assertion about the code's own state is proved.

## Where the code does not do what one might expect

- `set_runnable` picks the queue of a thread before it raises the spl, so that an interrupt may wake
  the same thread first. `TAILQ_REMOVE` unlinks the thread by its own links whatever head it is
  given, and writes the head only for the last of a queue. So a thread that has got to runq in the
  meantime and is not the last there merely falls back to the end (`SchedWindowRuns.MoveOrder`,
  `SchedWindowRuns.FallsBehind`; `SchedTear.FallbackRun` is a run from the start in which one does); if
  it is the last, the links are spoilt: it is not reached from runq, and threads put on runq or on
  the old queue get lost or turn up on the wrong one (`Tailq.RequeueLast`, `Tailq.TornLoses`,
  `Tailq.TornFinds`). `SchedTear.TornRun` is a run from the start in which the assertion on `THR_RUNQ` in
  `schedule()` fails next. The queues are torn exactly when the last thread that interrupts
  made runnable between look and move is the one being woken (`SchedWindowRuns.TornExactly`), and never
  if threads that interrupt handlers wake are not woken at spl 0 (`SchedWindowRuns.RuleSpares`).
  On seL4 the thread in question is the isr thread (`Sel4Irq.TornRun`, `Sel4Irq.TornExactly`,
  `Sel4Irq.RaisedSplSuffices`).
- `THR_RUNNING` is not set on the current thread exactly: it is clear while the current thread is
  inside `schedule()` after yielding or dying, and a yielding current thread is on runq without
  `THR_BLOCKPREP` (`SchedWindowRuns.RunningExceptions` has a run to each; `SchedWindowRuns.RunSafe` has
  the exact form).
- A comment in `sched.c` (lines 328-332) says that threads run in inverse order of timeout expiry.
  They run in order of expiry (`SchedRuns.ExpiryInOrder`).
- The last BUG_ON of `xenbus_xb_write` compares wrapping 32-bit indices without regard to the wrap
  and can fire on a healthy ring (`XenRing.AlarmOnHealthyRing`; the exact condition is in
  `XenRing.Ring.XbWrite`).
- `bmk_strtoul` reports the start of the string as the end of a numeral that overflows and of a
  bare `0x` (`Strtoul.MeetsIso`).
- `%hu` and its relatives do not reduce the argument to a short: the UARG macro takes it as an int,
  sign-extended to 64 bits. What is shown is the unsigned short that section 7.21.6.1 of ISO C11
  asks for exactly when the int is one (`PrintfSpec.UnsignedMeaning`); of 65536 it is not
  (`PrintfDirectives.ShortException`).
- The alternate form of an octal starts with a zero except for a zero of precision zero, where
  nothing is shown and ISO C asks for a single 0 (`PrintfSpec.AlternateOctal`,
  `PrintfDirectives.OctalException`).
- The block-wise day count is a day short in 2100-2103, 2200-2203, 2300-2303 and every 400 years
  after (`Calendar.BlockDaysExact`).
- `jsmn.c` line 265 reads the token before the array when there is no superior token. The model
  takes what is read there as arbitrary; then no container is open and the value has no effect.

## Model

| member | source | states |
|---|---|---|
| Bitmap.BitsFromMask | lib/libbmk_core/pgalloc.c:126-133 | `-(1<<n)` holds exactly the bits from n up, for every offset in a word |
| Bitmap.BitsBelowMask | lib/libbmk_core/pgalloc.c:126-133 | `(1<<n)-1` holds exactly the bits below n |
| Bitmap.MapAlloc | lib/libbmk_core/pgalloc.c:143-156 | on 64-bit words, exactly the bits of pages [first, first+n) become set and every other bit keeps its value, at word boundaries too; all words touched are inside the array |
| Bitmap.MapFree | lib/libbmk_core/pgalloc.c:158-171 | the same for clearing |
| PageAlloc.BitmapSizeSuffices | lib/libbmk_core/pgalloc.c:329-345 | the bitmap loadmem sets aside is a positive number of pages and holds the word of every page index the range loops touch, including the one past the end |
| Blocks.Nested | lib/libbmk_core/pgalloc.c:281-296 | naturally aligned blocks that share a byte are nested, the smaller in the larger |
| Blocks.FreeBlockInChunk | lib/libbmk_core/pgalloc.c:383-391 | under the canonical decomposition an aligned block of free bytes lies inside a single chunk |
| Blocks.CanonicalUnique | lib/libbmk_core/pgalloc.c:455-484 | two canonical decompositions of the same free bytes are the same set of chunks |
| Blocks.ChunksAreMaximal | lib/libbmk_core/pgalloc.c:454-484 | the chunks are exactly the maximal naturally aligned free blocks, in both directions |
| BuddySteps.CarveOrderLargest | lib/libbmk_core/pgalloc.c:281-296 | carverange takes at each point the largest order that the alignment of the address and the remaining length both allow |
| BuddySteps.CarveCanonical | lib/libbmk_core/pgalloc.c:275-301 | carving any page range, aligned or not, yields the canonical chunks of exactly its bytes: aligned, disjoint, covering, no two free buddies |
| BuddySteps.AllocStep | lib/libbmk_core/pgalloc.c:392-406 | taking a block from the front of a chunk and carving up the rest leaves the canonical chunks of the remaining free bytes |
| BuddySteps.BuddyIsHead | lib/libbmk_core/pgalloc.c:455-472 | while a freed block is merged, a free buddy address is the head of a chunk no larger than the block, so the magic number chunklevel asserts is there |
| BuddySteps.MergeBuddy | lib/libbmk_core/pgalloc.c:463-481 | joining a free buddy of the same order keeps the merge state, for the parent block |
| BuddySteps.EndMerge | lib/libbmk_core/pgalloc.c:484-484 | when the buddy is not a free chunk of the same order, linking the block gives the canonical chunks again |
| BuddySteps.OrderBound | lib/libbmk_core/pgalloc.c:193-202 | a block inside a 64-bit address space has an order below FREELIST_LEVELS |
| PageAlloc.NoHeadNoBlock | lib/libbmk_core/pgalloc.c:351-364 | if no chunk of sufficient order has an aligned head, no free aligned block of the order exists at any aligned address, although only heads are tested |
| PageAlloc.AllReturned | lib/libbmk_core/pgalloc.c:430-487 | with nothing live the chunk set equals the one first carved |
| PageAlloc.PageAllocator.FreechunkLink | lib/libbmk_core/pgalloc.c:204-213 | the chunk set and the free bytes grow by exactly this chunk and its header says so |
| PageAlloc.PageAllocator.CarveRange | lib/libbmk_core/pgalloc.c:275-301 | the loop links exactly the chunks of the recursive definition and accounts for every byte |
| PageAlloc.PageAllocator.LoadMem | lib/libbmk_core/pgalloc.c:306-348 | establishes the invariant: everything between the bitmap and the last page is free, nothing is live, and the chunks are the carved ones |
| PageAlloc.PageAllocator.SatisfiesP | lib/libbmk_core/pgalloc.c:350-364 | finds an aligned head on the list exactly when there is one |
| PageAlloc.PageAllocator.FindChunk | lib/libbmk_core/pgalloc.c:383-386 | finds a chunk of the least sufficient order with an aligned head |
| PageAlloc.PageAllocator.SplitChunk | lib/libbmk_core/pgalloc.c:392-406 | the chunk leaves its list and the chunks carved from its rest join theirs; the magic number asserted is there |
| PageAlloc.PageAllocator.MarkBlock | lib/libbmk_core/pgalloc.c:408-408 | exactly the pages of the block become marked |
| PageAlloc.PageAllocator.TakeFrom | lib/libbmk_core/pgalloc.c:392-427 | the block becomes live and leaves the free bytes; lists, headers, bitmap and kB counters stay consistent |
| PageAlloc.PageAllocator.AllocAlign | lib/libbmk_core/pgalloc.c:373-428 | succeeds exactly when some free, naturally aligned block of the order exists at a multiple of align; the block was free, is naturally aligned, and comes from a chunk of least order; failure changes nothing |
| PageAlloc.PageAllocator.Pgalloc | lib/libbmk_core/pgalloc.c:366-371 | the same for page alignment |
| PageAlloc.PageAllocator.Mergeable | lib/libbmk_core/pgalloc.c:455-472 | the managed / bitmap / level test succeeds exactly when the buddy is a free chunk of the same order |
| PageAlloc.PageAllocator.Merge | lib/libbmk_core/pgalloc.c:463-481 | one merge round turns the block into its parent and keeps bytes, lists, headers and bitmap consistent |
| PageAlloc.PageAllocator.ReleaseBlock | lib/libbmk_core/pgalloc.c:450-452 | clearing the bitmap and the kB counter makes the bytes free before any merging |
| PageAlloc.PageAllocator.LinkMerged | lib/libbmk_core/pgalloc.c:484-484 | the merged block joins its list |
| PageAlloc.PageAllocator.Pgfree | lib/libbmk_core/pgalloc.c:430-487 | the merge loop ends below FREELIST_LEVELS and restores the invariant: the block's bytes are free, the used kB drop by its size, and once nothing is live the free lists hold the initial chunks, whatever the order of frees |
| PageAlloc.PageAllocator.OwnerStore | lib/libbmk_core/pgalloc.c:177-191 | whatever the owner of an allocated page writes, even where a header would be read, keeps the invariant |
| Buckets.BucketSmallest | lib/libbmk_core/memalloc.c:182-189 | the bucket computed from the leading zeros is the smallest whose blocks hold the request, in both directions |
| Buckets.HeaderRoundsToAlign | lib/libbmk_core/memalloc.c:174-175 | the header rounded up to the alignment takes exactly one alignment |
| Buckets.PayloadAddress | lib/libbmk_core/memalloc.c:200-202 | the first aligned address behind a header is one alignment into the block |
| Buckets.BlockIsAligned | lib/libbmk_core/memalloc.c:160-215 | a block at a multiple of its size is aligned to every smaller power of two; for large blocks this is the page allocator's natural alignment |
| Buckets.CallocTest | lib/libbmk_core/memalloc.c:231-235 | dividing the wrapped product detects overflow exactly |
| MemState.LiveDisjoint | lib/libbmk_core/memalloc.c:160-215 | no byte belongs to two live blocks, of whatever buckets |
| MemState.FreeDisjoint | lib/libbmk_core/memalloc.c:134-157 | no byte belongs to a live block and to a block on a free list |
| MemState.NewPage | lib/libbmk_core/memalloc.c:94-120 | the blocks cut from a new page, with the one returned, are exactly all blocks of the page, and the state stays consistent |
| MemState.TakeSmall | lib/libbmk_core/memalloc.c:144-156 | taking the head of a free list keeps the sharing of pages between free and live blocks |
| MemState.ReturnSmall | lib/libbmk_core/memalloc.c:289-295 | so does putting a live block back |
| MemState.TakeLarge | lib/libbmk_core/memalloc.c:191-194 | a page chunk becomes a block of its own without touching the buckets |
| MemState.ReturnLarge | lib/libbmk_core/memalloc.c:287-288 | and goes back |
| MemAlloc.Payload | lib/libbmk_core/memalloc.c:200-212 | the payload is aligned, leaves room for the header, and its last byte is inside the block |
| MemAlloc.MemAllocator.Init | lib/libbmk_core/memalloc.c:122-131 | empty lists satisfy the invariant over a valid page allocator |
| MemAlloc.MemAllocator.Accounting | lib/libbmk_core/memalloc.c:83-120 | in each local bucket free-list length plus nmalloc equals pages obtained times blocks per page |
| MemAlloc.MemAllocator.NoSharing | lib/libbmk_core/memalloc.c:134-215 | no byte of a live block is in another live block, free in the page allocator, or in a block on any free list |
| MemAlloc.MemAllocator.MoreCore | lib/libbmk_core/memalloc.c:93-120 | succeeds exactly when the page allocator has a page, and then the page's other blocks are on the list |
| MemAlloc.MemAllocator.BucketAlloc | lib/libbmk_core/memalloc.c:133-157 | yields a block of the bucket exactly when its list or the page allocator has one; the count rises by one; failure changes nothing |
| MemAlloc.MemAllocator.Memalloc | lib/libbmk_core/memalloc.c:159-215 | succeeds exactly when the alignment is a power of two (or 0) and memory is there; the result is a new pointer, aligned, in a block of the smallest bucket, header and payload inside; failure changes nothing |
| MemAlloc.MemAllocator.Memcalloc | lib/libbmk_core/memalloc.c:228-241 | refuses exactly the products that overflow; otherwise as memalloc, with exactly the requested bytes cleared |
| MemAlloc.MemAllocator.Memfree | lib/libbmk_core/memalloc.c:243-296 | halts exactly on the wrong owner, ignores NULL and bad magic, and otherwise returns exactly this block to the head of its list or to the page allocator |
| MemAlloc.MemAllocator.Memrealloc | lib/libbmk_core/memalloc.c:307-339 | the three modes: allocate, free, or keep in place exactly when the block has the room; a move preserves every byte of the old capacity, writes nothing outside the new block, and a failed one leaves everything as it was; halts exactly when it comes to free a block of another owner |
| MemAlloc.MemAllocator.Memset | lib/libbmk_core/memalloc.c:237-239 | exactly the n bytes are set |
| MemAlloc.MemAllocator.Memcpy | lib/libbmk_core/memalloc.c:336-336 | exactly the n bytes are copied |
| SchedSteps.SortedInsertAt | lib/libbmk_core/sched.c:195-220 | an insertion goes behind every thread due no later and before every later one: sorted, ties in order of arrival |
| SchedSteps.PrepareInv | lib/libbmk_core/sched.c:598-611 | blockprepare, with or without a deadline, keeps the invariant |
| SchedSteps.ExpireInv | lib/libbmk_core/sched.c:326-340 | after the expiry loop no deadline at or before the current time is queued, and the run queue has only grown at its end |
| SchedSteps.ReturnInv | lib/libbmk_core/sched.c:371-381 | the reaper never frees the current thread, and the return into block or yield keeps the invariant |
| SchedSteps.TestJoinedInv | lib/libbmk_core/sched.c:555-573 | one test of the join loop |
| SchedSteps.TestMustJoinInv | lib/libbmk_core/sched.c:506-531 | one test of the exit gate; a thread dies only when it need not be joined and is on no queue |
| SchedWindow.LookKeeps | lib/libbmk_core/sched.c:147-180 | the look of a wakeup by a thread, in wake, join or exit, stores the wakeup time and leaves a state that stands for the one before it |
| SchedWindow.IrqKeeps | lib/libbmk_core/sched.c:637-643 | an interrupt at any point, in the middle of a wakeup too, comes to a wakeup in one step, or to none if it wakes the thread being woken |
| SchedWindow.MoveKeeps | lib/libbmk_core/sched.c:182-189 | a move that does not tear the queues comes to the whole wakeup in one step, even of a thread that an interrupt has woken already |
| SchedWindow.StepKeeps | lib/libbmk_core/sched.c:302-720 | every step of create, wake, prepare, block, yield, schedule, join, exit and of interrupts that does not tear the queues comes to a step, or none, of the machine whose wakeups are one step, which keeps the invariant: no assertion of the file fails |
| SchedWindow.Reduce | lib/libbmk_core/sched.c:147-190 | every run that is not torn is matched, state by state, by a run with wakeups in one step; a run in which no interrupt wakes the thread being woken is not torn |
| SchedWindowRuns.RunSafe | lib/libbmk_core/sched.c:53-66 | in every state of every run that is not torn: flags are one-hot and match queue membership; a live thread other than the current is on exactly one queue; THR_RUNNING marks the current thread unless it is yielding or dead; a dead thread is on no scheduling queue; nothing is dead while THR_MUSTJOIN is set; a blocked joiner's target is alive and has not announced itself, or is just waking it; a thread gated in exit is woken once released; the thread schedule() returns to is no zombie |
| SchedWindowRuns.RunningExceptions | lib/libbmk_core/sched.c:705-720 | THR_RUNNING is clear on the current thread after a yield and after its death, by runs from the start |
| SchedWindowRuns.TornExactly | lib/libbmk_core/sched.c:147-190 | over every run: a wakeup by a thread tears the queues exactly when, of the interrupts between its look and its move, the last that made a thread runnable made the one being woken so |
| SchedWindowRuns.RuleSpares | lib/libbmk_core/sched.c:147-190 | if threads that interrupts wake are not woken by threads at spl 0, no run is torn |
| SchedWindowRuns.MoveOrder | lib/libbmk_core/sched.c:186-188 | a move that tears nothing leaves the order of runq as it was exactly when the thread still waited; otherwise the thread falls back to the end |
| SchedWindowRuns.TimeoutReport | lib/libbmk_core/sched.c:598-635 | over every run, from the blockprepare of a thread to the return of its block, whatever happens in between, interrupts in the middle of its wakeup included: it reports a timeout exactly when the expiry loop took it off timeq, which is exactly when nothing else took it off its queue, and then the deadline given to blockprepare has passed |
| SchedWindowRuns.BoundedWaiting | lib/libbmk_core/sched.c:342-359 | over every run, whatever wakeups, timeouts, yields, creations and interrupts intervene: between states outside wakeups, a thread at position k of runq moves up one place at each decision and becomes current at exactly the (k+1)th |
| SchedWindowRuns.BoundedWaitingAmid | lib/libbmk_core/sched.c:342-359 | the same from and to any state of any run, the middle of a wakeup included: a thread before the one being woken keeps its place, one behind it counts a place further up once an interrupt has made that runnable |
| SchedWindowRuns.FallsBehind | lib/libbmk_core/sched.c:186-188 | the thread being woken itself, over every run: no decision falls between look and move, those on runq keep their order, and all of them are before it after the move; after a torn move it is not reached |
| SchedTear.FallbackRun | lib/libbmk_core/sched.c:147-190 | a run of three threads and two interrupts from the start in which the first thread of runq falls behind the second without a decision |
| SchedTear.MoveLinks | lib/libbmk_core/sched.c:186-188 | on the links themselves: the end of set_runnable turns links that hold the three queues into links that hold the queues of the next state, and when it tears them runq is no queue at all |
| SchedTear.TornRun | lib/libbmk_core/sched.c:147-190 | a run of two threads and one interrupt from the start is torn; the woken thread is off runq with THR_RUNQ set, and if the main thread blocks next, it is what TAILQ_FIRST(&runq) finds, without THR_RUNQ |
| SchedWakes.WakeAmidMeans | lib/libbmk_core/sched.c:637-643 | a whole wakeup with any interrupts in the middle: torn exactly when the thread waited and is last on runq after them; otherwise the invariant is kept; if none wakes the thread, the wakeups one after the other |
| SchedWakes.AmidIsRun | lib/libbmk_core/sched.c:147-190 | such a wakeup is a look, the interrupts and a move of the state machine |
| Tailq.UnlinkIs | include/bmk-core/queue.h:523-533 | TAILQ_REMOVE under its own head takes out the element and leaves the others in order |
| Tailq.InsertTailIs | include/bmk-core/queue.h:495-501 | TAILQ_INSERT_TAIL appends |
| Tailq.InsertBeforeIs | include/bmk-core/queue.h:515-521 | TAILQ_INSERT_BEFORE puts the element before the k-th |
| Tailq.InsertHeadIs | include/bmk-core/queue.h:484-493 | TAILQ_INSERT_HEAD puts the element first |
| Tailq.UnlinkLocal | include/bmk-core/queue.h:523-533 | TAILQ_REMOVE writes links of its queue, its head and the element only |
| Tailq.InsertTailLocal | include/bmk-core/queue.h:495-501 | so does TAILQ_INSERT_TAIL |
| Tailq.InsertBeforeLocal | include/bmk-core/queue.h:515-521 | so does TAILQ_INSERT_BEFORE |
| Tailq.InsertHeadLocal | include/bmk-core/queue.h:484-493 | so does TAILQ_INSERT_HEAD |
| Tailq.Elsewhere | include/bmk-core/queue.h:484-533 | a macro that writes only there leaves every other queue as it was |
| Tailq.RequeueRunnable | lib/libbmk_core/sched.c:186-188 | TAILQ_REMOVE under the wrong head of an element that is not last, then TAILQ_INSERT_TAIL: all three queues hold, with the element at the end of runq |
| Tailq.RequeueLast | lib/libbmk_core/sched.c:186-188 | the same of the last element of runq tears the links |
| Tailq.TornHoldsNothing | include/bmk-core/queue.h:523-533 | torn links hold no queue under the head of runq |
| Tailq.TornLoses | include/bmk-core/queue.h:495-501 | an element appended to a torn runq is not reached from its head |
| Tailq.TornFinds | include/bmk-core/queue.h:495-501 | an element appended to the other queue is reached from the head of runq |
| SchedRuns.ExpireMarks | lib/libbmk_core/sched.c:326-340 | the expiry loop marks and makes runnable exactly the threads that are due |
| SchedRuns.ExpiryInOrder | lib/libbmk_core/sched.c:326-340 | expired threads join the run queue in deadline order behind what is there |
| SchedRuns.OnlyExpiryTimesOut | lib/libbmk_core/sched.c:333-333 | a step sets THR_TIMEDOUT exactly when its expiry loop finds the thread due, and only the thread's own return clears it |
| SchedRuns.HoldStep | lib/libbmk_core/sched.c:598-643 | until it returns, a blocking thread leaves timeq or blockq by an expiry, which marks it, or by a wakeup, which does not, and in no other way |
| SchedRuns.IdleTime | lib/libbmk_core/sched.c:317-353 | the time given to cpu_block is after the current time, within the maximum, and no later than any pending deadline |
| SchedRuns.OnlyJoinReleases | lib/libbmk_core/sched.c:546-576 | a thread is joinable as created, and only a join that has seen it announce its exit clears THR_MUSTJOIN |
| SchedRuns.ReaperFrees | lib/libbmk_core/sched.c:371-381 | when schedule() returns, exactly the dead threads are gone |
| SchedRuns.QueuePosition | lib/libbmk_core/sched.c:342-359 | a runnable thread moves up exactly one place at each decision and at no other step |
| Sched.Scheduler.StartMain | lib/libbmk_core/sched.c:645-669 | the start state, with the invariant |
| Sched.Scheduler.MakeRunnable | lib/libbmk_core/sched.c:147-190 | for any interrupts between its look and its move: a thread that waited is marked runnable, is last on runq and on no other queue, and the others keep their places; unless the queues are torn, and then it is not on runq; the halt is not reached |
| Sched.Scheduler.Interrupted | lib/libbmk_core/sched.c:637-643 | the interrupts of a window, each a wakeup in one go, with the queues still in order |
| Sched.Scheduler.WakeThread | lib/libbmk_core/sched.c:637-643 | alone it makes a thread that waited last on runq and changes no other; with interrupts in the middle the queues are torn exactly when the thread waited and is then last on runq, otherwise the invariant is kept, and if no interrupt wakes the same thread it is the wakeups of the interrupts and then its own |
| Sched.Scheduler.TimeqSortedInsert | lib/libbmk_core/sched.c:195-220 | the walk along timeq computes the recursive insertion, and its assertion about the last thread holds |
| Sched.Scheduler.Prepare | lib/libbmk_core/sched.c:598-611 | with clear_runnable: the current thread is queued by its deadline, or last on blockq without one, and goes on running; the three assertions hold and the invariant is kept |
| Sched.Scheduler.StartBlock | lib/libbmk_core/sched.c:620-629 | both assertions of bmk_sched_block hold, nothing but the place in the code changes, and the invariant is kept |
| Sched.Scheduler.ExpireTimeouts | lib/libbmk_core/sched.c:326-340 | the loop computes the recursive expiry, leaves nothing due on timeq, adds to runq only at its end and keeps the invariant |
| Sched.Scheduler.ScheduleRound | lib/libbmk_core/sched.c:314-354 | one round: idles exactly when nothing is runnable after expiry, for a time ahead of now and not past any deadline, and keeps the invariant |
| Sched.Scheduler.SwitchTo | lib/libbmk_core/sched.c:355-369 | the head of runq becomes current, exactly it is marked as running and it is on no queue; all four assertions hold and the invariant is kept |
| Sched.Scheduler.ReapZombies | lib/libbmk_core/sched.c:371-380 | the loop frees exactly the zombies |
| Sched.Scheduler.ReturnFromSchedule | lib/libbmk_core/sched.c:620-635 | the reaper leaves the current thread; block returns the timeout mark and clears the flags; the invariant is kept |
| Sched.Scheduler.FinishCall | lib/libbmk_core/sched.c:565-567 | what follows the block in the join loop, or schedule() in block and yield: the invariant is kept, the flags of the call are clear, a joiner is off joinwq and no other entry is, no other thread changes |
| Sched.Scheduler.CreateThread | lib/libbmk_core/sched.c:438-478 | the new thread is last on runq and joinable as asked, no other thread changes, and the invariant is kept |
| Sched.Scheduler.StartYield | lib/libbmk_core/sched.c:705-719 | the yielding thread is last on runq, no other thread changes, and the invariant is kept |
| Sched.Scheduler.StartJoin | lib/libbmk_core/sched.c:546-553 | the assertion on THR_MUSTJOIN holds |
| Sched.Scheduler.TestJoined | lib/libbmk_core/sched.c:555-573 | tells whether the wanted thread has announced its exit; if so it is another, live thread and may now go; the invariant is kept |
| Sched.Scheduler.ParkJoiner | lib/libbmk_core/sched.c:560-563 | the joiner is last on joinwq and on blockq, and the invariant is kept |
| Sched.Scheduler.SignalJoined | lib/libbmk_core/sched.c:575-575 | for any interrupts in the middle: torn exactly when the joined thread waited and is last on runq after them; otherwise it is alive, waits no longer and may go, and the invariant is kept; if none wakes it this is the step of the machine |
| Sched.Scheduler.StartExit | lib/libbmk_core/sched.c:499-507 | keeps the invariant |
| Sched.Scheduler.TestMustJoin | lib/libbmk_core/sched.c:506-531 | a thread that must be joined announces itself and stays; any other is dead, on no scheduling queue and first of the zombies; the assertion on its queues holds and the invariant is kept |
| Sched.Scheduler.NotifyMyJoiner | lib/libbmk_core/sched.c:512-518 | the search of joinwq wakes the joiner if there is one, with interrupts in the middle: torn exactly when it waited and is last on runq after them; otherwise no joiner of this thread is left on blockq, and the invariant is kept |
| Sched.Scheduler.ParkExiter | lib/libbmk_core/sched.c:519-519 | the exiting thread waits on blockq, announced and not yet joined; the invariant is kept |
| Sel4Irq.StepInv | platform/sel4/entry.c:231-256 | every small step of the handler thread, the main thread and the hardware that tears no queue keeps the protocol invariant |
| Sel4Irq.LookInv | lib/libbmk_core/sched.c:147-180 | a thread that sees the isr thread waiting keeps the invariant, on its way to splhigh |
| Sel4Irq.MoveInv | lib/libbmk_core/sched.c:185-189 | the move keeps it too, unless the isr thread is no longer where it was seen, and then the queues are torn |
| Sel4Irq.TornExactly | platform/sel4/intr.c:193-201 | over every run: a wakeup of the isr thread by another thread tears the queues exactly when the handler wakes it between look and move |
| Sel4Irq.RaisedSplSuffices | platform/sel4/kernel.c:74-104 | if threads wake the isr thread only at raised spl, no run is torn, and the invariant holds throughout |
| Sel4Irq.TornRun | platform/sel4/intr.c:193-201 | some run from the start is torn |
| Sel4Irq.ProtocolSafe | platform/sel4/clock.c:73-112 | in every state of every run of handler and main thread that is not torn: the spldepth checks never fire; handler and spl-protected sections never overlap; main never sleeps with a runnable thread and no notification pending; the isr thread is never left parked with work marked unless the handler is about to wake it |
| Sel4Irq.InterruptWakesSleeper | platform/sel4/intr.c:193-201 | after the handler's wake the isr thread is runnable and the sleeping main thread has its notification |
| Sel4Irq.SplInv | platform/sel4/kernel.c:74-104 | the semaphore and depth steps of splhigh and splx |
| Sel4Irq.IsrInv | platform/sel4/intr.c:107-148 | the steps of the isr thread's loop |
| Mutex.MutexSafe | lib/libbmk_rumpuser/rumpuser_synch.c:145-197 | over every run of threads entering, trying, exiting and being woken, spuriously or not: at most one holder; the recorded owner is it; when the mutex is free and a thread sleeps on it, some thread is on its way to take it |
| Mutex.ComingTakes | lib/libbmk_rumpuser/rumpuser_synch.c:145-156 | such a thread takes the free mutex at its next try |
| Mutex.StepInv | lib/libbmk_rumpuser/rumpuser_synch.c:50-197 | every step keeps the invariant of waiter list, owner and thread states |
| Mutex.MutexObject.MutexTryenter | lib/libbmk_rumpuser/rumpuser_synch.c:170-186 | succeeds exactly when the mutex is free, and then records the owner; halts exactly when the caller holds it; keeps the invariant |
| Mutex.MutexObject.EnterAttempt | lib/libbmk_rumpuser/rumpuser_synch.c:145-156 | one attempt of enter: takes the mutex exactly when it is free; after a later failure the thread sleeps at the end of the list; keeps the invariant |
| Mutex.MutexObject.WaitReturns | lib/libbmk_rumpuser/rumpuser_synch.c:62-68 | a waiter that wakeup_one has not taken off the list leaves it; keeps the invariant |
| Mutex.MutexObject.MutexExit | lib/libbmk_rumpuser/rumpuser_synch.c:188-197 | the mutex is free, the first waiter is off the list and runnable, no other thread changes; the assertion holds and the invariant is kept |
| Mutex.MutexObject.WakeOne | lib/libbmk_rumpuser/rumpuser_synch.c:72-82 | the first waiter is off the list and runnable, no other thread changes, someone is on the way to the mutex if anyone waited; keeps the invariant |
| Mutex.MutexObject.WakeAll | lib/libbmk_rumpuser/rumpuser_synch.c:84-94 | the list is emptied, exactly its members are runnable, no other thread changes; keeps the invariant |
| JsmnSpec.AcceptedString | lib/libbmk_core/jsmn.c:107-169 | an accepted string is a sequence of plain characters and escapes of section 7 of RFC 8259 |
| JsmnSpec.AcceptsString | lib/libbmk_core/jsmn.c:107-169 | every such sequence followed by a quote is accepted, up to that quote |
| JsmnSpec.TwoPasses | lib/libbmk_core/jsmn.c:174-321 | with the room the counting pass asks for, the filling pass never returns NOMEM: it agrees with a pushdown recognizer of matching brackets, which yields the count, INVAL or PART |
| JsmnSpec.BothRefuse | lib/libbmk_core/jsmn.c:174-321 | a text the counting pass refuses is refused by the filling pass with any room |
| JsmnTokens.SizesAddUp | lib/libbmk_core/jsmn.c:195-200 | the size fields and the tokens without a superior sum to the number of tokens |
| JsmnTokens.Opened | lib/libbmk_core/jsmn.c:187-204 | opening a container keeps nesting, sizes and texts |
| JsmnTokens.Added | lib/libbmk_core/jsmn.c:251-257 | so does a string or primitive |
| JsmnTokens.Closed | lib/libbmk_core/jsmn.c:229-248 | closing the innermost container keeps them, and leaves no superior only if nothing is open |
| Jsmn.Parser.NewToken | lib/libbmk_core/jsmn.c:26-53 | a fresh token exactly when there is room |
| Jsmn.Parser.ParsePrimitive | lib/libbmk_core/jsmn.c:55-102 | ends where the specification says, with the token, or leaves position and tokens alone |
| Jsmn.Parser.SkipEscape | lib/libbmk_core/jsmn.c:136-165 | goes over exactly the escapes |
| Jsmn.Parser.ParseString | lib/libbmk_core/jsmn.c:104-169 | ends at the closing quote with the token, or leaves position and tokens alone |
| Jsmn.Parser.FindOpen | lib/libbmk_core/jsmn.c:229-248 | the nearest open token below a point |
| Jsmn.Parser.OnOpen | lib/libbmk_core/jsmn.c:187-204 | pushes the container |
| Jsmn.Parser.OnClose | lib/libbmk_core/jsmn.c:205-250 | succeeds exactly if the innermost open container has the kind of the bracket, which is the one closed |
| Jsmn.Parser.OnComma | lib/libbmk_core/jsmn.c:263-280 | returns to the innermost open container; whatever is read in place of a superior token at index -1 has no effect |
| Jsmn.Parser.OnItem | lib/libbmk_core/jsmn.c:295-303 | a string or primitive as a child of the superior token |
| Jsmn.Parser.Parse | lib/libbmk_core/jsmn.c:171-321 | without tokens equals the counting specification, with tokens the filling one for every capacity; on success all tokens are closed, spans properly nested, each token stands for its text with matching brackets, and sizes count children |
| Jsmn.Parser.OnColon | lib/libbmk_core/jsmn.c:260-262 | makes the last token superior and leaves the open containers alone |
| JsmnJson.ReadsEveryJson | lib/libbmk_core/jsmn.c:174-321 | every JSON text, white space included, is accepted, and the tokens are its tree in preorder: spans, elements counted by arrays, keys by objects, one value by each key |
| Jsmn.ParseDocument | lib/librumprun_base/config.c:774-790 | the same for the two calls on any JSON text |
| Jsmn.CountAndFill | lib/librumprun_base/config.c:774-790 | the two calls together succeed exactly when the recognizer accepts at least one token, with an array of exactly that size filled |
| XenRing.Store | platform/xen/xen/xenbus/xenbus.c:489-507 | a chunk stored behind a run of bytes extends the run and leaves the rest of the ring alone |
| XenRing.Ring.MemcpyFromRing | platform/xen/xen/xenbus/xenbus.c:123-135 | the two copies read consecutive ring bytes across the wrap |
| XenRing.Ring.Transfer | platform/xen/xen/xenbus/xenbus.c:485-507 | the scatter-gather loop ends for any segments, empty ones included, with exactly their concatenation behind the unread bytes |
| XenRing.Ring.XbWrite | platform/xen/xen/xenbus/xenbus.c:444-521 | header and segments are appended as one message behind the unread ones at any index; the BUG_ON at the end fires exactly when the window end has wrapped and the producer has not |
| XenRing.AlarmOnHealthyRing | platform/xen/xen/xenbus/xenbus.c:511-511 | the check fires on a valid, empty ring half a ring before the index wrap |
| XenRing.Ring.Receive | platform/xen/xen/xenbus/xenbus.c:247-340 | the oldest message comes out as it was written, exactly when there is one |
| XenReqs.RequestTable.FreeSlot | platform/xen/xen/xenbus/xenbus.c:376-384 | with a free slot the probe finds the first one round from the probe position and its BUG_ON never fires |
| XenReqs.RequestTable.IdAllocate | platform/xen/xen/xenbus/xenbus.c:362-392 | the identifier was not live and is now, and is the first free one round from the probe; every other slot, the count and the probe follow |
| XenReqs.RequestTable.IdRelease | platform/xen/xen/xenbus/xenbus.c:350-359 | the identifier is no longer live, the other slots keep their reply queues; waiters are woken exactly when the table was full |
| Numerals.ValueOfDigits | lib/libbmk_core/subr_prf.c:528-563 | the digits of a number have its value and are digits of the base |
| Numerals.DigitsLength | lib/libbmk_core/subr_prf.c:57-57 | a number below the k-th power of the base has at most k digits |
| PrintfSpec.PaddedLength | lib/libbmk_core/subr_prf.c:591-598 | what kprintf adds to its result is the number of characters it emits for the conversion |
| PrintfSpec.NumberMeaning | lib/libbmk_core/subr_prf.c:508-565 | whatever the flags, the digits printed for a number have its value and are at least as many as the precision asks for |
| PrintfSpec.SignedMeaning | lib/libbmk_core/subr_prf.c:417-430 | the signed conversions d, D and i show sign and magnitude of the argument, a long one for D |
| PrintfSpec.UnsignedMeaning | lib/libbmk_core/subr_prf.c:448-508 | unsigned conversions show their argument in their base, without sign, prefixed exactly in hexadecimal alternate form of a number other than 0; it is the value ISO C asks for exactly when an argument said to be short is one |
| PrintfSpec.AlternateOctal | lib/libbmk_core/subr_prf.c:522-538 | the alternate octal form starts with a zero exactly unless number and precision are both zero |
| PrintfDirectives.ReadsAsMeant | lib/libbmk_core/subr_prf.c:327-411 | any directive, with flags in any order, repeated or not, width and precision absent, written out or `*`, and any length, is read back as meant, whatever stands around it: plus before space, a negative width as a minus flag, a negative precision as none |
| PrintfDirectives.RendersAsMeant | lib/libbmk_core/subr_prf.c:274-644 | and is rendered as the field meant, the rest of the format following |
| PrintfDirectives.ShortException | lib/libbmk_core/subr_prf.c:253-260 | `%hu` of 65536 shows 65536, which as an unsigned short is 0 |
| PrintfDirectives.OctalException | lib/libbmk_core/subr_prf.c:514-523 | `%#.0o` of 0 shows nothing |
| Printf.StoreNumber | lib/libbmk_core/subr_prf.c:514-565 | the digit loops fill the 23-byte buffer from its end without overrun for every 64-bit value, base and flag |
| Printf.ConvertArg | lib/libbmk_core/subr_prf.c:412-574 | the switch on the conversion character computes the specified field |
| Printf.ScanNumber | lib/libbmk_core/subr_prf.c:380-388 | the digit loops compute the number and its end |
| Printf.ScanSpec | lib/libbmk_core/subr_prf.c:328-411 | the loop over flags, width, precision and length computes the specified scan, arguments taken for `*` included |
| Printf.Output.PutChar | lib/libbmk_core/subr_prf.c:262-269 | stores while there is room and never beyond |
| Printf.Output.PutField | lib/libbmk_core/subr_prf.c:591-635 | padding, prefix, zeros and text in order, and their length |
| Printf.Kprintf | lib/libbmk_core/subr_prf.c:274-644 | for every format and argument list everything the format yields is put, and the result is its length |
| Printf.Vsnprintf | lib/libbmk_core/subr_prf.c:188-207 | stores the first min(ret, size-1) characters of the unbounded rendering and a NUL, touches nothing beyond, and returns the full length |
| Strtoul.Cutoff | lib/libbmk_core/strtoul.c:97-123 | the cutoff test holds exactly when one more digit would overflow |
| Strtoul.Scan | lib/libbmk_core/strtoul.c:97-124 | the longest run of digits, its value, and overflow detected exactly |
| Strtoul.ReadPrefix | lib/libbmk_core/strtoul.c:76-95 | white space, sign and base prefix |
| Strtoul.Strtoul | lib/libbmk_core/strtoul.c:58-131 | value and end for every string and base, halting exactly on an invalid base |
| Strtoul.MeetsIso | lib/libbmk_core/strtoul.c:58-131 | the result is what section 7.22.1.4 of ISO C11 asks for exactly when the numeral neither overflows nor is a 0x without digits |
| Strtoul.IsoExceptions | lib/libbmk_core/strtoul.c:89-129 | both exceptions occur |
| PrintfRoundTrip.RenderWord | lib/libbmk_core/subr_prf.c:412-574 | what %lu, %#lo, %#lx, %p and %ld yield for every word |
| PrintfRoundTrip.RoundTrip | lib/libbmk_core/strtoul.c:58-131 | for every 64-bit word strtoul, in the matching base or base 0, reads back what %lu, %#lo, %#lx, %p and %ld wrote, to its last character |
| Calendar.IsLeapYear | platform/hw/clock_subr.c:109-119 | the shortcut tests amount to the Gregorian rule |
| Calendar.DayNumberCounts | platform/hw/clock_subr.c:148-203 | the day number of the date reached by counting k days from the epoch is k |
| Calendar.EveryDate | platform/hw/clock_subr.c:148-203 | every date from 1970 on is reached at its day number |
| Calendar.BlockDaysExact | platform/hw/clock_subr.c:169-189 | counting in blocks of 400, 100 and 4 years gives the year-by-year sum, less one exactly in the first four years of a century whose first year is no leap year |
| Calendar.DaysBeforeYear | platform/hw/clock_subr.c:165-189 | both branches of the code, for every year from 1970 |
| Calendar.ClockYmdhmsToSecs | platform/hw/clock_subr.c:148-203 | the seconds since the epoch for every date, one day less exactly in the short years; 0 before 1970 |
| Calendar.ShortYears | platform/hw/clock_subr.c:169-189 | no year before 2100 is short; the first day of 2100 is counted as the last of 2099 |

## Left out

- Lists at the level of pointers, but for the three queues of the scheduler: elsewhere queue.h lists are sequences.
- PageAlloc.PageAllocator.LoadMem: needs room for the bitmap after rounding and is called once; the halt on a second call is not modelled.
- PageAlloc.PageAllocator.Pgfree: needs a block handed out with that order and not yet freed; other frees are not detected by the code.
- MemAlloc.MemAllocator.Memalloc: excludes requests whose size plus alignment exceeds 2^63, which wrap or trip the order assertion of the page allocator, and powers of two over 2^31 as alignment, which its own assertion excludes.
- MemAlloc.MemAllocator.Memfree: needs a pointer that is NULL, live, or without a valid magic number; the code does not clear the magic number of a freed block, so it cannot tell a second free.
- MemAlloc.MemAllocator.Memrealloc: needs a bucket whose size fits an int shift; the contents of blocks that are not live, which free-list links overwrite, are not modelled.
- Allocation statistics and dumps of the allocators and the scheduler, and the unit tests inside memalloc.c.
- What happens after the queues are torn: a run ends there, but for what `SchedTear.TornRun` says of the next call.
- Caller rules of the scheduler are taken from its assertions and comments: API calls come from a thread's own code at spl 0, a thread is joined once and while joinable, wakeups name live threads.
- Thread stacks, TLS, context switching, the scheduler hook and thread names.
- On seL4 `bmk_platform_splhigh` returns 0, so the depth check at the top of `schedule()` never fires; the model takes `schedule()` to be entered at depth 0.
- The second seL4 handler thread (stdio), which runs at the priority of the first.
- The semaphore library of seL4 is not part of the repository; a wait takes a flag and a post returns it.
- Reader/writer locks and condition variables of rumpuser_synch.c, and the upcalls that release and reacquire the rump kernel around a wait.
- Strict mode and parent links of jsmn, and resuming a parse after an error.
- XenRing.Ring.XbWrite: starts once the wait for room is over and with a message that fits the ring, which its first BUG_ON demands; memory barriers, event channels and the wait itself are not modelled.
- XenRing.Ring.Receive: takes the other end to publish whole messages, and does not dispatch them to watches and request queues.
- XenReqs.RequestTable.IdAllocate: starts once a slot is free; the wait for one is not modelled.
- Printf.Kprintf: writes to a buffer; the console, the dmesg ring and the store made by %n are not modelled, field widths and results are unbounded integers, and a missing argument reads as 0.
- Calendar.ClockYmdhmsToSecs: for dates that do not exist the contract gives the sum the code computes, not a meaning.
- The rest of the repository: Xen front ends, drivers, boot code, configuration handlers, the rumprun tool chain.
