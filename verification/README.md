# Linux 2.6.19: a Dafny model of its core algorithms and protocols

The modules below model parts of `init/`, `ipc/` and `kernel/` that are hard to get right: protocols between
tasks that interleave, data structures that are updated in place, and arithmetic that wraps. Each module follows
one source file. Code that updates objects, arrays and lists is imperative Dafny, proved against specification
functions; protocols are state machines whose steps are the atomic accesses of the code, and what is proved of
them holds in every state of every run, for any number of tasks.

| module | source | main results |
|---|---|---|
| `KexecList`, `KexecImage`, `KexecRelocate` | `kernel/kexec.c` | the relocation delivers every segment in any order of copies; the chain survives; pages are freed exactly once; the segment checks are exact unless an end wraps |
| `Initramfs`, `Newc` | `init/initramfs.c` | what an archive unpacks to, entry by entry, in whatever chunks it comes; cutting into chunks is invisible, with the two exact exceptions |
| `Sem` | `ipc/sem.c` | exactly when a call passes, sleeps and fails; no pending task could ever proceed, and no task that alters values overtakes another; conservation of value plus undo, with the exact 16-bit condition |
| `Mutex` | `kernel/mutex.c` and its fast paths | mutual exclusion and no lost wake-up; the task that has waited longest is next |
| `MqOrder`, `Mqueue` | `ipc/mqueue.c` | the queue with direct hand-over refines an abstract priority queue, exactly once; the most urgent waiter is served, and the oldest among equals |
| `Futex` | `kernel/futex.c` | whom a wake and a requeue take, however others interleave; a wake misses nobody; waiters are moved between buckets safely; references balance; the locks do not deadlock |
| `Pid` | `kernel/pid.c` | the allocator computes the next free pid exactly |
| `Hrtimer`, `HrtimerQueue` | `kernel/hrtimer.c` | forwarding is exact in spite of the approximate division; due timers fire in order, once |
| `Kfifo` | `kernel/kfifo.c` | a lock-free reader sees a prefix of what was written, across wrap-around |
| `Percpu` | `kernel/module.c` | live blocks are disjoint and aligned; all freed means no fragmentation |
| `Cpuset`, `Fmeter` | `kernel/cpuset.c` | the local check keeps the global rules, exactly; nesting in every run of edits and hotplugs; the exact condition under which a hot-unplug keeps the rest |
| `SysvMsg` | `ipc/msg.c` | first in, first out over whole runs; the message promised is the one selected, with the exact exception; no receiver is left waiting for a queued message; the system totals in every run |
| `Kallsyms` | `kernel/kallsyms.c` | lookups by name, by address and by iterator agree with the uncompressed table |
| `Lists`, `Arith`, `Arrival` | | shared helpers: sequences, arithmetic, and lines in which nobody is overtaken |

## Properties that are false of the code

Each of these has a lemma with a concrete input, and the exact condition under which the property does hold.

- kexec: the end of a segment is computed in an unsigned long. `RangeTestExact`: all destination pages are
  recognised if and only if no accepted segment wraps; `WrapExample`, and `WrapsUnseen` for every one that does.
- initramfs: an entry that is skipped goes on at whatever state was noted last. `CutIsInvisibleUnlessSkipped`: a cut
  inside a header shows if and only if its entry is skipped; then the rest of the archive is lost (`CutSwallows`), as
  `SkippedExample` shows.
- initramfs: a name field without a zero runs on into what follows it in memory, which depends on the cut.
  `NameExact`: what is made is independent of that if and only if the field has a zero; `UnterminatedExample`.
- semaphores: two undo operations on one semaphore in one call are range-checked one by one. `TwoUndosWrap` shows the
  sum wrapping; `Conserved` has the exact condition and `OneUndoFits` the case where the check is enough.
- semaphores: on exit values are capped. `ExitedTotal`: the total is kept if and only if nothing is capped
  (`CappedExample`).
- hrtimer: `ktime_divns` may be one too large (`OneTooMany`). `ForwardedExact`: hrtimer_forward is exact in spite of it,
  if and only if the number of periods fits in an unsigned long of 32 bits (`TooManyPeriods`).
- cpusets: a hot-unplug that leaves a cpuset with nothing online gives it its parent's CPUs, which may overlap an
  exclusive sibling (`StrandedExample`). `PlugExact` has the exact condition.
- cpusets: after that a leaf may not be removable (`RmdirRefused`). `TurnOff` has the exact condition.
- cpusets: `fmeter_update` keeps its documented bound if and only if the clock was not set back or there was room
  (`NoRoomExample`).
- cpusets: the comment says that the level is stable after FM_MAXTICKS. From a high value it is not (`LongGap`);
  `GapExact`: an update over a longer gap is the filter over that gap if and only if the value is below 8408.
- msgrcv: the least long has no negation. `LongMinFindsNothing`, and `SelectsPromised` for every other type.

## Assumptions

- Machine: 32-bit longs, 4096-byte pages. Interleavings are sequentially consistent at the steps given; the barriers
  in the code are what makes that so.
- Permission checks and security hooks let the caller through; `copy_from_user`, `kmalloc` and the page allocator may
  fail wherever the code allows for it, and are otherwise arbitrary choices or parameters.
- `simple_strtoul` reads what eight hexadecimal digits say (`ReadsNumbers`). Clocks and the outcome of system calls made by the unpacker are parameters.
- initramfs: the bytes behind the end of a chunk and behind the end of name_buf end a string.
- kexec: frames come from the page allocator one owner at a time; the segment list is sound after `CheckSegments`
  (see `RangeTestExact` for when it is not).
- mutex: the fast paths do what their comments require; `needs` tells the kinds apart.
- mqueue: a sleeper's static priority does not change while it sleeps.
- hrtimer: callbacks that restart a timer move it to now or later; times differ by less than 2^63, and now plus one
  interval is below 2^63, so that by `Forward` no sum leaves 64 bits.
- per-cpu area: sizes between 1 and 65535, alignments that divide the cache line or exceed it, and a cache-aligned static area.
- Where a comment and the code disagree the code is followed: the check of buffer sizes allows equality although its
  comment says strictly less.

## Model

| member | source | states |
|---|---|---|
| KexecImage.CheckSegments | src/kernel/kexec.c:139-195 | accepts a segment list exactly when every start and (wrapped) end is page aligned and below the limit, no two overlap as unsigned ranges, and no buffer is larger than its memory; answers EADDRNOTAVAIL exactly when some segment is misaligned or too high |
| KexecImage.AcceptedIsSound | src/kernel/kexec.c:152-195 | accepted segments that do not wrap are page aligned and pairwise apart as mathematical ranges |
| KexecImage.RangeTestExact | src/kernel/kexec.c:157-160 | all pages of all accepted segments are recognised as destinations by the range test if and only if no segment wraps around the address space |
| KexecImage.WrapsUnseen | src/kernel/kexec.c:315-331 | for every accepted list with a wrapping segment, a page of that segment that the range test does not recognise |
| KexecImage.WrapExample | src/kernel/kexec.c:152-184 | a two-page segment across the top is accepted and its first page is not recognised |
| KexecImage.RangeSees | src/kernel/kexec.c:315-331 | for a block of pages, the range test misses no destination page |
| KexecImage.RangeExact | src/kernel/kexec.c:315-331 | for one page, the range test holds exactly when the page is a destination of some segment |
| KexecImage.CoversOnce | src/kernel/kexec.c:164-184 | a page is a destination of at most one segment |
| KexecImage.Kimage.constructor | src/kernel/kexec.c:100-134 | a new image has an empty list, no pages of its own, and satisfies the image invariant |
| KexecImage.Kimage.IsDestinationRange | src/kernel/kexec.c:315-331 | the loop over the segments decides whether any segment meets the range |
| KexecImage.Kimage.GetFreePages | src/kernel/kexec.c:333-348 | any block of page frames the image does not own yet, or nothing |
| KexecImage.DstUsed | src/kernel/kexec.c:640-657 | walking the chained indirection pages finds the entry whose running destination is the page, and finds none exactly when no page has been assigned that destination |
| KexecImage.Kimage.SwapIn | src/kernel/kexec.c:720-742 | exchanging a freshly allocated page that is already some entry's destination keeps the image invariant and all loaded data, and yields a page that is no destination |
| KexecImage.SwapMeaning | src/kernel/kexec.c:720-742 | after the exchange every destination still has exactly one source, each source is its own destination or none, and only the one entry changed |
| KexecImage.SwapValid | src/kernel/kexec.c:720-742 | the exchange keeps the whole image invariant and moves exactly one page in and one page out of the pages in hand |
| KexecImage.Kimage.AllocPage | src/kernel/kexec.c:659-752 | the page returned is the wanted destination or no destination at all; the list keeps its shape and its data; nothing is lost or taken twice; the search ends |
| KexecImage.Kimage.SearchFrame | src/kernel/kexec.c:696-749 | the search loop: frames that cannot be used are filed, the swap is made when needed, and the page obtained is safe |
| KexecImage.Kimage.AddEntry | src/kernel/kexec.c:521-545 | appends one entry to the list the chain of indirection pages stands for, growing the chain when the page is full; on failure the chain, the assigned destinations and their data are kept, though a swap may have given a destination another source |
| KexecList.ListAppend | src/kernel/kexec.c:540-542 | writing the entry and the terminator into the last page gives the list with one more entry |
| KexecList.ListGrow | src/kernel/kexec.c:526-542 | linking a new page through the last slot and writing the entry there gives the list with one more entry |
| KexecList.ListReplace | src/kernel/kexec.c:731-734 | overwriting an entry in place gives the list with that entry replaced |
| KexecList.ReplaceSource | src/kernel/kexec.c:731-734 | replacing a source entry changes the source of that destination and of no other |
| KexecList.SourcesOnce | src/kernel/kexec.c:606-638 | the source entries of the list, counted with multiplicity, are the assigned pages |
| KexecImage.AppendValid | src/kernel/kexec.c:521-545 | appending an admissible entry keeps the image invariant |
| KexecImage.GrowValid | src/kernel/kexec.c:526-542 | so does appending it through a new indirection page |
| KexecImage.Kimage.SetDestination | src/kernel/kexec.c:547-558 | the running destination becomes the given page; data and assignments are kept |
| KexecImage.Kimage.AddPage | src/kernel/kexec.c:561-571 | one more source page is recorded for the running destination, which moves to the next page |
| KexecImage.Kimage.RecordPage | src/kernel/kexec.c:777-785 | allocating and recording one page assigns the destination a safe page and disturbs nothing loaded before |
| KexecImage.Kimage.FillPage | src/kernel/kexec.c:787-808 | when the copy from user space succeeds, the page holds the segment's bytes for that destination, zero padded |
| KexecImage.Kimage.LoadPage | src/kernel/kexec.c:772-809 | one turn of the segment loop loads one more page of the segment |
| KexecImage.ChunkIsImage | src/kernel/kexec.c:787-808 | the bytes copied in one turn are exactly the part of the segment's image that belongs on the page |
| KexecImage.Kimage.LoadSegment | src/kernel/kexec.c:754-812 | on success every page of the segment has a source that holds its bytes, and the invariant holds; on failure the invariant still holds |
| KexecImage.Kimage.Terminate | src/kernel/kexec.c:583-591 | the list ends with the done marker and is otherwise unchanged |
| KexecImage.Kimage.SearchControl | src/kernel/kexec.c:397-415 | finds a block that lies below the limit and contains no destination page; all other blocks tried are collected |
| KexecImage.Kimage.AllocControlPages | src/kernel/kexec.c:374-438 | a control block holds no destination page, no source page and no indirection page, and everything else allocated on the way is given back |
| KexecImage.Kimage.Load | src/kernel/kexec.c:962-993 | a load that succeeds leaves an image that is ready: the assigned pages are exactly the destinations, each source is its own destination or no destination, and each holds the right data |
| KexecRelocate.AnyOrder | src/kernel/kexec.c:663-680 | copies made in any order, even repeatedly, all deliver the original data and touch nothing else |
| KexecRelocate.AnyOrderDelivers | src/kernel/kexec.c:663-680 | for every ready image and every order of copies that covers the destinations, all segments arrive intact and the chain and control pages survive |
| KexecRelocate.Relocate | src/kernel/kexec.c:71-80 | walking the chain inside the memory that is being overwritten delivers every segment and leaves every other page alone |
| KexecRelocate.FreeList | src/kernel/kexec.c:606-634 | the walk frees each indirection page only after its last slot has been read, and frees every page but the control pages once |
| KexecRelocate.Free | src/kernel/kexec.c:606-638 | every page taken from the allocator is freed exactly once |
| Initramfs.ActKeeps | src/init/initramfs.c:325-334 | every action keeps the machine invariant, never reads past its input and makes progress |
| Initramfs.Run | src/init/initramfs.c:336-344 | the dispatch loop terminates and leaves input over only when the archive stopped at a padding or an error |
| Initramfs.Feed | src/init/initramfs.c:346-364 | the loop around it terminates and keeps the invariant |
| Initramfs.HungryEats | src/init/initramfs.c:346-364 | each restart of the dispatch loop consumes at least one byte |
| Initramfs.RunSplits | src/init/initramfs.c:336-344 | running on a concatenation is running on the first part and then on the rest, wherever the cut is |
| Initramfs.FeedSplits | src/init/initramfs.c:346-364 | feeding a then b is feeding a + b, for the machine that always collects |
| Initramfs.StoppedByMessage | src/init/initramfs.c:346-364 | once an error message is set no further input is consumed |
| Initramfs.RunAgrees | src/init/initramfs.c:147-159 | reading a whole field straight from the input gives the same as collecting it byte by byte |
| Initramfs.FeedAgrees | src/init/initramfs.c:346-364 | so the machine with the direct read refines the one that always collects, over a whole chunk |
| Initramfs.ChunksJoin | src/init/initramfs.c:423-438 | feeding any list of chunks is feeding their concatenation, for the collecting machine |
| Initramfs.ChunkingIsInvisible | src/init/initramfs.c:423-438 | for every archive and every way to cut it into chunks, the real machine makes the same file-system effects and reports the same error as on the whole archive, unless an entry is skipped or a name lacks its zero; and whether one does so does not depend on the cut |
| Newc.UnpacksInChunks | src/init/initramfs.c:94-364 | for every list of entries that are not skipped, encoded in the newc format and cut into chunks in any way, the effects made are exactly those the entries stand for, in order, and no error is reported |
| Newc.ArchiveUnpacks | src/init/initramfs.c:94-364 | the same for the archive whole, from any state between two entries |
| Newc.EntryUnpacks | src/init/initramfs.c:183-334 | one entry: a directory, a node, a symbolic link, a file with its contents and close, or a further link to an inode made before |
| Newc.HeaderRead | src/init/initramfs.c:94-115 | each header field that is kept is the one that was written |
| Newc.EntryLength | src/init/initramfs.c:183-211 | the next header is expected exactly behind the padding of the body |
| Newc.NameDone | src/init/initramfs.c:258-296 | do_name makes what the entry stands for under the name as written |
| Newc.FileMade | src/init/initramfs.c:234-287 | a regular file is created and owned, or linked to its first name and opened without truncation; what it waits for is its contents |
| Newc.NodeMade | src/init/initramfs.c:234-296 | a device, pipe or socket is made, or linked |
| Newc.FileFilled | src/init/initramfs.c:298-313 | the contents are the body, then the file is closed |
| Newc.LinkDone | src/init/initramfs.c:314-323 | the symbolic link is made at the name and points to the body |
| Newc.GapPassed | src/init/initramfs.c:225-232 | zeros between entries are passed over |
| Newc.NumbersCanBeRead | src/init/initramfs.c:94-104 | there is a reader of eight hexadecimal digits as these theorems assume it |
| Initramfs.WholeHeader | src/init/initramfs.c:183-211 | a header read whole whose entry is skipped leaves the following state as it was |
| Initramfs.CutHeader | src/init/initramfs.c:183-223 | the same header cut anywhere comes back to the header state after the skip |
| Initramfs.CutIsInvisibleUnlessSkipped | src/init/initramfs.c:183-223 | a header cut at any byte leaves the machine in the same state as the header read whole if and only if its entry is not one that do_header skips |
| Initramfs.CutShows | src/init/initramfs.c:183-223 | a header of zero digits is such an entry: every cut in it leaves another state |
| Initramfs.CutSwallows | src/init/initramfs.c:183-223 | after any such header was cut, nothing of the rest of the archive is unpacked, in whatever chunks it comes |
| Initramfs.SkippedShows | src/init/initramfs.c:183-223 | a skipped entry before a directory: read whole the directory is made, with the skipped header cut anywhere it is not |
| Initramfs.SkippedExample | src/init/initramfs.c:183-223 | the same for one small archive given byte by byte |
| Initramfs.NameExact | src/init/initramfs.c:258-296 | what do_name makes does not depend on the bytes behind the name field, which differ with the cut, if and only if there is a zero in the field |
| Initramfs.UnterminatedShows | src/init/initramfs.c:147-159 | a directory whose name has no zero: whole the name runs on into the input, cut it runs on into the old contents of name_buf, and other directories are made |
| Initramfs.UnterminatedExample | src/init/initramfs.c:147-159 | the same for one small archive given byte by byte |
| Initramfs.Unpacker.constructor | src/init/initramfs.c:450-452 | an unpacker begins at the start state with no message |
| Initramfs.Unpacker.WriteBuffer | src/init/initramfs.c:336-344 | the loop computes the run of the machine, of which EntryUnpacks says what it makes, and returns the number of bytes consumed |
| Initramfs.Unpacker.FlushBuffer | src/init/initramfs.c:346-364 | the loop over the archives in one chunk computes the feed of the machine, of which UnpacksInChunks says what it makes |
| Sem.Stuck | src/ipc/sem.c:346-368 | the first operation that cannot pass at that point |
| Sem.Try | src/ipc/sem.c:339-399 | the attempt succeeds if and only if every operation passes in turn, and fails otherwise; what passing means is TryExact |
| Sem.TryExact | src/ipc/sem.c:339-399 | on the values themselves: the attempt succeeds if and only if each operation, after the sum of those before it on its semaphore, waits for zero and finds zero, or changes the value within 0 and SEMVMX, with its adjustment in range when it undoes |
| Sem.RefusalExact | src/ipc/sem.c:339-399 | the first operation that cannot decides: it sleeps exactly when that one waits for zero or for an increase, gives EAGAIN instead with IPC_NOWAIT, and ERANGE otherwise |
| Sem.AppliedIsMoved | src/ipc/sem.c:346-368 | the value an operation meets is the first value plus the operations before it |
| Sem.SemArray.TryAtomic | src/ipc/sem.c:339-399 | all operations take effect with their undo records, or none does and the array is as it was |
| Sem.AppliedIsSum | src/ipc/sem.c:346-368 | a semaphore changes by the sum of the operations on it |
| Sem.RecordedIsSum | src/ipc/sem.c:370-376 | an undo record changes by minus the sum of the undo operations, in 16 bits |
| Sem.Conserved | src/ipc/sem.c:370-376 | value plus undo adjustment is conserved, apart from operations without undo, if and only if the new adjustment fits in a short |
| Sem.OneUndoFits | src/ipc/sem.c:359-366 | with at most one undo operation for each semaphore the range check does make it fit |
| Sem.TwoUndosWrap | src/ipc/sem.c:359-376 | two undo operations on one semaphore pass the check one by one and together wrap around |
| Sem.AppliedSound | src/ipc/sem.c:346-368 | a successful prefix keeps every value between 0 and SEMVMX |
| Sem.ReadOnly | src/ipc/sem.c:339-399 | operations that do not alter leave values and undo records alone |
| Sem.ScanQuiets | src/ipc/sem.c:404-445 | after the scan no pending task could complete or fail, although the scan goes back to the start only after a task that altered something |
| Sem.ScanReplays | src/ipc/sem.c:404-445 | the scan is a sequence of single attempts, each by a task that was pending; each of these gets one result, and the others stay |
| Sem.ScanSub | src/ipc/sem.c:404-445 | the tasks left keep readers before alterers and one entry a task, and the undo records keep their owners |
| Sem.ScanPicks | src/ipc/sem.c:404-445 | the tasks left are a subsequence of the queue |
| Sem.ScanFair | src/ipc/sem.c:404-445 | each task the scan serves was, at that moment, the first in the queue that did not have to wait |
| Sem.SemArray.UpdateQueue | src/ipc/sem.c:404-445 | the loop over the linked queue computes the scan from the front |
| Sem.AttemptTotal | src/ipc/sem.c:339-399 | value plus all undo adjustments moves by the operations without undo if and only if the adjustment fits |
| Sem.ReplayTotal | src/ipc/sem.c:404-445 | conservation over a whole scan |
| Sem.UpdatedTotal | src/ipc/sem.c:404-445 | conservation over update_queue, with the woken tasks as the account |
| Sem.CompletedTotal | src/ipc/sem.c:1203-1207 | conservation over an operation that completes and the scan it starts |
| Sem.SemopTotal | src/ipc/sem.c:1203-1225 | conservation over a whole semop call, whatever its result |
| Sem.SemArray.SemTimedOp | src/ipc/sem.c:1203-1229 | a call either completes, fails, or is queued behind (altering) or in front of (reading) the pending tasks; afterwards no pending task could proceed |
| Sem.SemopOutcome | src/ipc/sem.c:1114-1229 | EINVAL for no operations, EFBIG for one out of range, and otherwise the result of the attempt with the adjustments the task has; a call that sleeps is queued, one that fails changes no value and queues nothing |
| Sem.SemopKeeps | src/ipc/sem.c:1203-1225 | a call keeps: no pending task can proceed, readers before alterers, one entry a task |
| Sem.EnqueuedKeeps | src/ipc/sem.c:305-321 | queueing a blocked task keeps the invariant, at either end |
| Sem.GiveUpKeeps | src/ipc/sem.c:323-332 | a task that gives up leaves the others unable to proceed |
| Sem.UpdatedKeeps | src/ipc/sem.c:404-445 | update_queue establishes the invariant from any values |
| Sem.SemArray.StoreValue | src/ipc/sem.c:790-807 | SETVAL stores a value in range, clears that adjustment in every undo record and lets pending tasks run |
| Sem.StoredTotal | src/ipc/sem.c:790-807 | SETVAL leaves nothing to give back on its semaphore and moves no other total |
| Sem.AllStoredTotal | src/ipc/sem.c:702-747 | SETALL leaves nothing to give back on any semaphore |
| Sem.SemArray.PutValue | src/ipc/sem.c:798-800 | the loop over the undo records clears one column |
| Sem.SemArray.GiveBack | src/ipc/sem.c:1366-1391 | the loop adds every adjustment and caps the value at 0 and SEMVMX |
| Sem.SemArray.ExitSem | src/ipc/sem.c:1321-1399 | the exit of the last user of an undo list applies and removes its record and lets pending tasks run |
| Sem.ExitedTotal | src/ipc/sem.c:1366-1391 | exit conserves value plus adjustments if and only if nothing is capped |
| Sem.ExitedNearest | src/ipc/sem.c:1366-1391 | exit leaves each semaphore with the value, of those it may have, nearest to what the adjustment asks for |
| Sem.CappedExample | src/ipc/sem.c:1366-1391 | a set on which the cap loses five units |
| Sem.StepKeeps | src/ipc/sem.c:339-445 | every event (call, signal, SETVAL, SETALL, exit) keeps the invariant |
| Sem.RunsStayQuiet | src/ipc/sem.c:404-445 | in every state of every run no pending task could proceed |
| Sem.NoOvertaking | src/ipc/sem.c:305-321 | in every state of every run, of two sleepers the one that was already pending when the other (which alters) was not stands in front |
| Sem.CountPending | src/ipc/sem.c:456-491 | the loops count the operations that wait for an increase or for zero |
| Sem.PendingIsCounted | src/ipc/sem.c:447-455 | every pending task is counted at some semaphore |
| Mutex.StepKeeps | src/kernel/mutex.c:124-316 | every atomic step of lock, unlock, trylock and of an interrupted waiter keeps the invariant, for any number of tasks and for each kind of fast path |
| Mutex.Reachable | src/kernel/mutex.c:124-316 | the invariant holds in every state of every run |
| Mutex.MutualExclusion | src/kernel/mutex.c:63-68 | two owners in any state of any run are the same task, and the count is not 1 while there is one |
| Mutex.FreeIsClaimed | src/kernel/mutex.c:142-155 | whenever the count says free and tasks are waiting, a task is on its way that will take it or pass it on: no lost wake-up |
| Mutex.SleepersHaveAnOwner | src/kernel/mutex.c:142-155 | when nobody is between steps, a sleeper implies an owner whose unlock takes the slow path |
| Mutex.ReleaseWakes | src/kernel/mutex.c:214-246 | the owner's own steps free the mutex and wake the first waiter |
| Mutex.WokenTakes | src/kernel/mutex.c:145-190 | the woken task's own steps make it the owner |
| Mutex.HandOver | src/kernel/mutex.c:124-246 | from every such state there is a run of seven steps that hands the mutex to the first on the list; who that is, is OldestGetsIt |
| Mutex.ArrivalOrder | src/kernel/mutex.c:138-140 | in every state of every run, a task that was already waiting when another was not yet stands before it on the list, through all sleeps, signals and retries |
| Mutex.HeadIsOldest | src/kernel/mutex.c:225-236 | the first on the list is the task that has waited longest |
| Mutex.OldestGetsIt | src/kernel/mutex.c:214-246 | from every reachable state with sleepers and nobody between steps, the owner's unlock hands the mutex to the task that has waited longest |
| Mutex.FreeIsTaken | src/kernel/mutex.c:299-316 | a free mutex is had at once, by the fast path and by either kind of trylock, and a trylock succeeds if and only if nobody holds the mutex |
| Mutex.TrylocksKept | src/include/asm-generic/mutex-xchg.h:77-111 | the window in which the exchange-based trylock has overwritten the count is accounted for |
| MqOrder.InsertArranged | src/ipc/mqueue.c:469-482 | insertion keeps priority order, first-in first-out among equals, and adds exactly the one item |
| MqOrder.InsertInto | src/ipc/mqueue.c:469-482 | the loop that shifts the array from the top computes that insertion in place |
| MqOrder.InsertWalk | src/ipc/mqueue.c:391-406 | the walk over the list of waiters computes the same insertion |
| MqOrder.LastIsBest | src/ipc/mqueue.c:484-488 | the last item is the oldest of the most urgent ones, and removing it removes that one |
| Mqueue.Info.MsgInsert | src/ipc/mqueue.c:469-482 | the message joins the queue and the account |
| Mqueue.Info.MsgGet | src/ipc/mqueue.c:484-488 | returns the front message and removes it |
| Mqueue.Info.Pop | src/ipc/mqueue.c:484-488 | the array access itself |
| Mqueue.PutSound | src/ipc/mqueue.c:884-885 | inserting keeps the array a refinement of the abstract priority queue |
| Mqueue.TakeSound | src/ipc/mqueue.c:793-810 | taking gives the oldest most urgent message of that queue |
| Mqueue.TakeRefines | src/ipc/mqueue.c:484-488 | the abstract queue can make the same step |
| Mqueue.PastSound | src/ipc/mqueue.c:781-791 | handing a message straight to a waiting receiver is a send followed at once by a receive |
| Mqueue.SendKeeps | src/ipc/mqueue.c:862-892 | send in all its branches keeps the invariant |
| Mqueue.ReceiveKeeps | src/ipc/mqueue.c:936-962 | receive in all its branches keeps the invariant |
| Mqueue.NotPendingUnderLock | src/ipc/mqueue.c:413-453 | a sleeper that takes the lock never finds its hand-over half done |
| Mqueue.StepKeeps | src/ipc/mqueue.c:763-810 | every step, including the lockless return of a sleeper between the two writes of a hand-over, keeps the invariant |
| Mqueue.Reachable | src/ipc/mqueue.c:763-810 | in every state of every run: receivers wait only on an empty queue, senders only on a full one, and the contents refine the abstract queue |
| Mqueue.ReplayConserves | src/ipc/mqueue.c:812-976 | sends are receipts plus messages still queued, message by message |
| Mqueue.ExactlyOnce | src/ipc/mqueue.c:812-976 | when all calls have returned, the results they returned are exactly the history of the abstract queue: no message lost, doubled or reported twice |
| Mqueue.FirstIsMostUrgent | src/ipc/mqueue.c:458-467 | of the entries of a list the last has the largest key and, among equal keys, the smallest stamp; what that means for tasks is MostUrgentIsServed |
| Mqueue.MostUrgentIsServed | src/ipc/mqueue.c:391-467 | in every run, whoever a send or a receive serves has the least static priority of all tasks that wait on that side and, among those of the same, fell asleep at the earliest step |
| Mqueue.FellAsleep | src/ipc/mqueue.c:413-419 | and each task that waits did fall asleep at some step |
| Mqueue.EntryOf | src/ipc/mqueue.c:391-406 | through the whole wait the list holds the task with its static priority and the time of that step |
| Mqueue.SendFull | src/ipc/mqueue.c:862-876 | a send to a full queue sleeps, or fails exactly when it may not |
| Mqueue.SendRoom | src/ipc/mqueue.c:877-892 | with room, the message goes straight to a waiting receiver if there is one, which finds the queue empty, and otherwise behind all others of the abstract queue |
| Mqueue.ReceiveEmpty | src/ipc/mqueue.c:936-950 | a receive from an empty queue sleeps, or fails exactly when it may not |
| Mqueue.ReceiveSome | src/ipc/mqueue.c:951-962 | otherwise it takes the oldest message of the highest priority, and if a sender waits its message joins the abstract queue in the same step |
| Mqueue.HandsOver | src/ipc/mqueue.c:763-791 | a send that meets a waiting receiver: from every state of the invariant, three steps of the two tasks end both calls with the message, past the array |
| Mqueue.Exchange | src/ipc/mqueue.c:763-791 | from every fresh queue there is a run in which one task waits, another sends, and both return |
| Pid.PidMap.constructor | src/kernel/pid.c:383-393 | only pid 0 is taken |
| Pid.PidMap.Claim | src/kernel/pid.c:121-125 | one bit is set, the free count follows, and the last pid moves |
| Pid.PidMap.FreePidmap | src/kernel/pid.c:83-90 | one bit is cleared and the free count follows |
| Pid.PidMap.FindNext | src/kernel/pid.c:51-52 | the next bit of the wanted kind on a page, with nothing of that kind before it |
| Pid.PidMap.SearchPage | src/kernel/pid.c:120-136 | the search of one page, including where it stops on the last turn |
| Pid.PidMap.Turn | src/kernel/pid.c:103-137 | one turn of the outer loop: the page is allocated if need be, searched, and the pid claimed |
| Pid.PidMap.AllocPidmap | src/kernel/pid.c:92-150 | unless a page cannot be had, the result is the next clear bit above the last pid, then from the reserved pids up, exactly; on failure nothing changes |
| Pid.PickIsFair | src/kernel/pid.c:92-150 | whenever any pid the search may use is free, it returns a free one in range, and none closer in its cyclic order was free |
| Pid.PidMap.NextPidmap | src/kernel/pid.c:152-168 | the least pid in use above the last, or -1 when there is none |
| Hrtimer.Shrink | src/kernel/hrtimer.c:271-277 | the loop shifts the divisor to 32 bits, and no further than needed |
| Hrtimer.DivNs | src/kernel/hrtimer.c:267-283 | exact below 32 bits; otherwise the quotient or one more |
| Hrtimer.Approximates | src/kernel/hrtimer.c:267-283 | dividing both by the same power of two overshoots by at most one |
| Hrtimer.OneTooMany | src/kernel/hrtimer.c:267-283 | an input on which it does overshoot |
| Hrtimer.LandsOnce | src/kernel/hrtimer.c:299-337 | at most one number of periods lands the expiry in the first period after now |
| Hrtimer.QuotientLands | src/kernel/hrtimer.c:299-337 | that number is the quotient plus one |
| Hrtimer.ForwardedExact | src/kernel/hrtimer.c:321-335 | the correction step repairs the overshoot: expiry and overrun are exact if and only if the number of periods fits in the 32-bit counter |
| Hrtimer.TooManyPeriods | src/kernel/hrtimer.c:321-335 | with 2^32 periods of one tick of a 100 Hz clock the count is 1 and the timer stays in the past |
| Hrtimer.ForwardedBounded | src/kernel/hrtimer.c:321-335 | the expiry moves forward and never more than one interval past now, whatever the count |
| Hrtimer.Timer.Forward | src/kernel/hrtimer.c:307-337 | the timer ends in the first period after now and the overrun is the number of periods, if and only if they fit in 32 bits |
| HrtimerQueue.LinkInOrder | src/kernel/hrtimer.c:345-377 | descending the tree inserts behind the timers that expire no later |
| HrtimerQueue.EraseInOrder | src/kernel/hrtimer.c:384-394 | erasing removes exactly the one timer from the order |
| HrtimerQueue.InsertedSorted | src/kernel/hrtimer.c:345-377 | insertion keeps the order, and the new timer is first exactly when it expires before all others |
| HrtimerQueue.Base.constructor | src/kernel/hrtimer.c:780-789 | an empty queue |
| HrtimerQueue.Base.Enqueue | src/kernel/hrtimer.c:345-377 | the cached first timer stays the leftmost, and ties are served in order of arrival |
| HrtimerQueue.Base.Remove | src/kernel/hrtimer.c:384-394 | the timer leaves, the others keep their order, and the cached first timer is again the leftmost |
| HrtimerQueue.Base.FireFirst | src/kernel/hrtimer.c:620-636 | the first timer is removed, its callback run and, when it asks for a restart, filed again |
| HrtimerQueue.FiredNext | src/kernel/hrtimer.c:615-637 | a timer that was restarted late never runs before one that was due |
| HrtimerQueue.Base.RunQueue | src/kernel/hrtimer.c:603-640 | fires exactly the timers that were due, in expiry order and once each, and leaves none due |
| Kfifo.PowerIsRing | src/kernel/kfifo.c:38-56 | every power of two below 2^32 divides the 32-bit index range, which is what the masking needs |
| Kfifo.Ring.constructor | src/kernel/kfifo.c:38-56 | an empty fifo over the buffer |
| Kfifo.Ring.Put | src/kernel/kfifo.c:118-149 | copies as much as there is room for, in two pieces around the end, and appends exactly that |
| Kfifo.Ring.Get | src/kernel/kfifo.c:164-195 | returns the oldest bytes, at most len, and removes exactly those |
| Kfifo.Ring.CopyAllIn | src/kernel/kfifo.c:132-137 | the two memcpy pieces together write every byte at its place |
| Kfifo.Ring.Publish | src/kernel/kfifo.c:139-146 | advancing the wrapped index makes the copied bytes visible |
| Kfifo.Ring.Release | src/kernel/kfifo.c:185-192 | and advancing the other gives the space back |
| Kfifo.StepKeeps | src/kernel/kfifo.c:118-195 | every step of one writer and one reader that interleave byte by byte keeps the invariant |
| Kfifo.PrefixInEveryRun | src/kernel/kfifo.c:105-117 | in every state of every unlocked run with one reader and one writer, the bytes read are a prefix of the bytes written and the index difference is what is in between, across any number of wrap-arounds |
| Kfifo.PutTakes | src/kernel/kfifo.c:118-149 | at any moment of any interleaving, a put takes all of its data that fits beside what was put and not yet got |
| Kfifo.GetTakes | src/kernel/kfifo.c:164-195 | and a get as much as it asks for of what is there |
| Percpu.Area.constructor | src/kernel/module.c:426-442 | one block for the static area and one free block |
| Percpu.Area.SplitBlock | src/kernel/module.c:307-330 | splits one table entry in place, growing the table when it is full; fails exactly when it cannot grow |
| Percpu.Area.TakeAt | src/kernel/module.c:364-379 | carving an aligned block out of a free one, padding to the neighbour, in all its branches |
| Percpu.Area.UseBlock | src/kernel/module.c:364-379 | for a block that fits: a new aligned allocation, or nothing when the table could not grow |
| Percpu.AllocKeeps | src/kernel/module.c:357-379 | the block taken is aligned and new; the table still tiles the area and accounts for every live allocation |
| Percpu.Area.ModAlloc | src/kernel/module.c:342-385 | first fit: one new allocation of that size and alignment, so disjoint from every live one; failure while memory lasts means that nothing fits |
| Percpu.Area.MergeAt | src/kernel/module.c:410-416 | moves the rest of the table down over the merged entry |
| Percpu.FreeKeeps | src/kernel/module.c:387-417 | freeing and coalescing with either neighbour keeps the tiling and every other allocation |
| Percpu.Area.ModFree | src/kernel/module.c:387-417 | exactly the one allocation goes away |
| Percpu.LiveApart | src/kernel/module.c:342-417 | live allocations are disjoint and inside the area |
| Percpu.AllFreed | src/kernel/module.c:387-417 | when all is freed the table is back to its initial two entries: no fragmentation is left |
| Futex.StepKeeps | src/kernel/futex.c:537-984 | every step of wait, wake and requeue, with two bucket locks and the lock pointer read without a lock, keeps the invariant |
| Futex.Reachable | src/kernel/futex.c:537-984 | the invariant holds in every state of every run |
| Futex.EnqueueKeeps | src/kernel/futex.c:916-921 | queueing under the bucket lock keeps every waiter on exactly one chain, the one its lock pointer names |
| Futex.UnlinkKeeps | src/kernel/futex.c:537-558 | so does unlinking |
| Futex.RequeueKeeps | src/kernel/futex.c:865-880 | and moving a waiter to another bucket, key references included |
| Futex.QueuedOnlyIfEqual | src/kernel/futex.c:1023-1065 | a task is queued only if the word was read under the bucket lock, equal to the expected value, and the task has held the lock since |
| Futex.WakeMissesNobody | src/kernel/futex.c:653-687 | when a wake has come to the end of its chain, every waiter on the key has been woken or has not yet read the word |
| Futex.RefsBalance | src/kernel/futex.c:257-279 | when all calls have returned, every key reference has been dropped |
| Futex.NoDeadlock | src/kernel/futex.c:636-647 | in every state of every run in which a bucket lock is held, some holder can take its next step: the order in which two locks are taken excludes deadlock |
| Futex.WakeReaches | src/kernel/futex.c:664-682 | a wake of one finds the first waiter on its key anywhere on the chain, unlinks it and clears its lock pointer, by steps of its own |
| Futex.WakeWakes | src/kernel/futex.c:653-687 | from every state of the invariant with the bucket unlocked, and the waiter then returns at its next step |
| Futex.WaitThenWake | src/kernel/futex.c:1004-1107 | from every fresh state and for every word there is a run in which one task waits, another wakes it, and it returns |
| Futex.DueAre | src/kernel/futex.c:664-682 | a pass handles the first waiters on its key in the order of the chain, as many as the call asks for but at least one |
| Futex.CallSettles | src/kernel/futex.c:653-898 | however the steps of other tasks fall in between: of those waiters a wake, and a requeue for the first nr_wake of them, takes each off its chain and clears its lock pointer; a requeue gives the others the second key and puts them at the end of its chain in their order; nobody else leaves or joins the chains |
| Futex.RequeueRefused | src/kernel/futex.c:834-860 | a requeue that finds another value than the one to compare with wakes and moves nobody |
| Futex.BeginDecides | src/kernel/futex.c:834-860 | and it gives up if and only if it does |
| Futex.LockKeeps | src/kernel/futex.c:636-647 | neither a chain nor a key on it changes by steps of tasks that do not hold the chain's lock |
| Cpuset.ValidateExact | src/kernel/cpuset.c:701-752 | the local checks accept a change if and only if the whole tree obeys the rules afterwards: children within parents, exclusive siblings disjoint, exclusive only under exclusive |
| Cpuset.VerdictExact | src/kernel/cpuset.c:701-752 | in every nested tree, also one whose exclusive siblings overlap, the checks accept exactly the changes that keep it nested and bring the cpuset into no conflict |
| Cpuset.ReplacedKeeps | src/kernel/cpuset.c:813-839 | so a change goes through if and only if it is admissible, keeps the tree nested, and makes no new conflict |
| Cpuset.RefusedBreaks | src/kernel/cpuset.c:721-752 | in any tree a refused change would break the nesting or bring the cpuset into conflict with a sibling |
| Cpuset.Cpusets.ChildrenFit | src/kernel/cpuset.c:725-729 | the loop over the children |
| Cpuset.Cpusets.SiblingsFit | src/kernel/cpuset.c:739-749 | the loop over the siblings |
| Cpuset.Cpusets.ValidateChange | src/kernel/cpuset.c:721-752 | the code returned is the verdict, error by error |
| Cpuset.Cpusets.UpdateCpumask | src/kernel/cpuset.c:813-839 | in any nested tree the mask changes exactly when it is not empty and the change is admissible; the error code otherwise |
| Cpuset.Cpusets.UpdateNodemask | src/kernel/cpuset.c:904-940 | the same for memory nodes, where an unchanged mask is accepted before the test for empty |
| Cpuset.Cpusets.UpdateFlag | src/kernel/cpuset.c:1043-1072 | in any nested tree an exclusive flag changes exactly when that is admissible |
| Cpuset.GuaranteeOnline | src/kernel/cpuset.c:559-605 | the result is online, and not empty while anything is |
| Cpuset.Cpusets.GuaranteeOnlineMask | src/kernel/cpuset.c:572-605 | the loop up the ancestors finds the nearest with something online |
| Cpuset.PluggedNested | src/kernel/cpuset.c:2048-2082 | taking CPUs away keeps a child within its parent |
| Cpuset.PluggedDisjoint | src/kernel/cpuset.c:2048-2082 | disjoint siblings stay disjoint if and only if neither is stranded, that is, left with nothing online |
| Cpuset.PlugPair | src/kernel/cpuset.c:2070-2082 | a pair of siblings stays compatible if and only if the exclusive masks do |
| Cpuset.PlugExact | src/kernel/cpuset.c:2084-2111 | after a hot-unplug the tree obeys the rules if and only if no pair with an exclusive mask had a stranded member |
| Cpuset.StrandedExample | src/kernel/cpuset.c:2084-2111 | a tree that obeys the rules and one CPU whose removal breaks them |
| Cpuset.PlugNests | src/kernel/cpuset.c:2084-2111 | nesting always survives |
| Cpuset.PlugOnline | src/kernel/cpuset.c:2048-2082 | afterwards no cpuset has anything that is not online |
| Cpuset.Cpusets.Walk | src/kernel/cpuset.c:2070-2082 | the recursion brings every descendant up to date exactly once, children before their parent, and touches nothing else |
| Cpuset.Cpusets.Hotplug | src/kernel/cpuset.c:2100-2111 | the whole update in any nested tree, which stays nested, and the exact condition under which exclusive siblings stay apart |
| Cpuset.Cpusets.Create | src/kernel/cpuset.c:1872-1924 | a new empty cpuset keeps any tree nested |
| Cpuset.Cpusets.Rmdir | src/kernel/cpuset.c:1945-1988 | busy while in use or not a leaf; refused with the verdict on its exclusive flag; otherwise removed |
| Cpuset.TurnOff | src/kernel/cpuset.c:1964-1970 | in any nested tree, switching the exclusive flag of a leaf off is accepted if and only if the leaf shares nothing with a sibling that insists, and otherwise refused with EINVAL |
| Cpuset.RulesYield | src/kernel/cpuset.c:1964-1970 | which holds in every tree that obeys the rules |
| Cpuset.RmdirRefused | src/kernel/cpuset.c:1945-1988 | and fails after the hot-unplug of one CPU in a tree of two exclusive leaves: the one that lost it cannot be removed |
| Cpuset.EditKeeps | src/kernel/cpuset.c:721-752 | every edit and hotplug keeps a nested tree nested, and its exclusive siblings apart unless a walk strands one |
| Cpuset.NestedInEveryRun | src/kernel/cpuset.c:2084-2111 | in every state of every run of edits and hotplugs in any order every cpuset lies within its parent |
| Cpuset.RulesUntilStranded | src/kernel/cpuset.c:701-752 | and all rules hold as long as no walk strands a cpuset beside an exclusive sibling |
| Fmeter.Meter.Update | src/kernel/cpuset.c:1133-1149 | the filter runs for the ticks elapsed, at most 99, then adds the pending events; the value stays below one million and all products in 32 bits if and only if the clock was not set back or there was room anyway |
| Fmeter.NoRoomExample | src/kernel/cpuset.c:1133-1149 | a value and a count, each within its bound, whose sum without a tick in between is not |
| Fmeter.Meter.MarkEvent | src/kernel/cpuset.c:1151-1158 | the old events are folded in and one more is pending, capped, also when the clock was set back; the bound holds under the same exact condition |
| Fmeter.HalvesInTen | src/kernel/cpuset.c:1093-1096 | the filter at least halves the value in any ten ticks |
| Fmeter.DiesOut | src/kernel/cpuset.c:1093-1096 | and takes it to zero, tick by tick |
| Fmeter.GapExact | src/kernel/cpuset.c:1098-1101 | one update over a gap is the filter over that gap if and only if the gap is at most 99 ticks or the value is below 8408 |
| Fmeter.LivelyExact | src/kernel/cpuset.c:1098-1101 | 8408 is the least value that 99 ticks do not take to zero |
| Fmeter.LongGap | src/kernel/cpuset.c:1098-1101 | read after any gap of 99 ticks or more the highest value is 1035, though the filter would be at zero after 198 |
| SysvMsg.Select | src/ipc/msg.c:774-795 | the scan of the queue, with the bound that shrinks as better messages are found |
| SysvMsg.ScanFirst | src/ipc/msg.c:774-795 | in the other modes it is the first message that fits |
| SysvMsg.ScanLeast | src/ipc/msg.c:774-795 | in the less-or-equal mode it is the first message of the lowest type within the bound |
| SysvMsg.SelectsPromised | src/ipc/msg.c:726-795 | for every msgtyp but LONG_MIN the message msgrcv promises is found if and only if there is one |
| SysvMsg.LongMinFindsNothing | src/ipc/msg.c:726-743 | for LONG_MIN the negation overflows and nothing is ever found, although a message qualifies |
| SysvMsg.MsgQueue.PipelinedSend | src/ipc/msg.c:594-627 | the loop over the receivers hands the message to the first that wants it and can hold it, and turns away those that want it and cannot |
| SysvMsg.PipeMeaning | src/ipc/msg.c:594-627 | who takes, who is refused, and that nobody left wants a message nobody took |
| SysvMsg.PipeFirst | src/ipc/msg.c:594-627 | the taker is the first in line that can take it |
| SysvMsg.PipeBag | src/ipc/msg.c:594-627 | every receiver stays, is refused or takes, once |
| SysvMsg.MsgQueue.WakeSenders | src/ipc/msg.c:194-208 | every waiting sender is woken |
| SysvMsg.MsgQueue.Msgsnd | src/ipc/msg.c:629-724 | sends, blocks or fails as specified (SendOutcome, OldestFirst); msg_bytes and msg_hdrs move with the queue, and the receivers taken off the list are given the message or E2BIG |
| SysvMsg.MsgQueue.Msgrcv | src/ipc/msg.c:745-899 | receives, blocks or fails as specified; msg_bytes and msg_hdrs move with the queue |
| SysvMsg.MsgQueue.FreeMessages | src/ipc/msg.c:235-255 | removing a queue takes its whole share out of the system totals |
| SysvMsg.SendKeeps | src/ipc/msg.c:629-724 | a send keeps the invariant |
| SysvMsg.ReceiveKeeps | src/ipc/msg.c:745-899 | a receive keeps the invariant |
| SysvMsg.StepKeeps | src/ipc/msg.c:181-225 | so do signals, wake-ups and a new limit |
| SysvMsg.Reachable | src/ipc/msg.c:594-899 | in every state of every run no queued message is wanted by a waiting receiver, and the byte and message counts are those of the list |
| SysvMsg.MessagesInOrder | src/ipc/msg.c:703-713 | in every run the queue holds, in the order in which they were accepted, messages that were accepted and not yet taken |
| SysvMsg.OldestFirst | src/ipc/msg.c:774-795 | so of the messages a receiver may have, msgrcv returns the one accepted first |
| SysvMsg.ReceivesOldest | src/ipc/msg.c:774-795 | one call, against any record of the accepted messages |
| SysvMsg.ReceiversInOrder | src/ipc/msg.c:819-830 | sleeping receivers stand in the order in which they fell asleep |
| SysvMsg.LongestSleeperTakes | src/ipc/msg.c:594-627 | and a message handed over goes to the one, of those it suits and fits, that has slept longest |
| SysvMsg.SendOutcome | src/ipc/msg.c:629-724 | a send succeeds, fails or sleeps by the type, the room counted over the queued messages, and IPC_NOWAIT |
| SysvMsg.ReceiveOutcome | src/ipc/msg.c:745-899 | a receive returns, fails with E2BIG or ENOMSG, or sleeps, by what is promised, the size and the flags |
| SysvMsg.TotalsInEveryRun | src/ipc/msg.c:235-255 | in every state of every run over any number of queues, msg_bytes and msg_hdrs are the sizes and the number of all queued messages, and each message accepted is queued, was returned, was handed over or was freed with its queue, as often as it was accepted |
| SysvMsg.MovedKeeps | src/ipc/msg.c:703-713 | a new queue, any event of a queue and the removal of a queue keep that account |
| SysvMsg.MessagesMove | src/ipc/msg.c:594-627 | one event: what leaves a queue was returned or handed over, and what enters it was accepted |
| SysvMsg.TotalIsSum | src/ipc/msg.c:703-713 | the counts the queues keep add up to the sizes and the number of all queued messages |
| SysvMsg.AnswersHand | src/ipc/msg.c:594-627 | a message with a taker is handed over once, and the refused are given nothing |
| Kallsyms.GetSymbolOffset | src/kernel/kallsyms.c:130-149 | starting from the marker gives the offset that walking all names from the first gives |
| Kallsyms.CopyToken | src/kernel/kallsyms.c:104-111 | the inner loop appends one token, except for the very first character of the symbol |
| Kallsyms.ExpandSymbol | src/kernel/kallsyms.c:81-118 | the concatenation of the tokens without its first character, and the offset of the next symbol |
| Kallsyms.TypeAndName | src/kernel/kallsyms.c:120-127 | type and name together are the expanded symbol |
| Kallsyms.LookupName | src/kernel/kallsyms.c:151-165 | the address of the first symbol of that name, or nothing exactly when there is none |
| Kallsyms.GetSymbolPos | src/kernel/kallsyms.c:167-220 | binary search, aliases and end: the first of the symbols at the greatest address not above addr, and the distance to the next higher one or the section end |
| Kallsyms.Iter.Reset | src/kernel/kallsyms.c:338-343 | positions the iterator at the offset of that symbol |
| Kallsyms.Iter.Update | src/kernel/kallsyms.c:345-362 | sequential or not, the iterator shows the symbol asked for and stands at the next |

## Left out

- kexec: the crash image, `compat_sys_kexec_load`, freeing on the error paths of a failed load, and the assembly stub beyond the walk it makes.
- initramfs: gzip (`inflate`), the dry run, `unpack_to_rootfs`'s search for the next archive, and the contents of the file system.
- ipc/sem.c: `sempid`, the time stamps, `find_undo` and its allocation, removal of an array, namespaces, and the lockless wake-up handshake.
- kernel/mutex.c: lockdep and the debug variant.
- ipc/mqueue.c: `mq_notify`, poll, attributes, the file system and accounting.
- kernel/futex.c: priority inheritance, robust lists, `futex_wake_op`, FUTEX_FD and key computation; page faults only as a retry.
- kernel/pid.c: two allocations at the same time, the pid hash and RCU.
- kernel/hrtimer.c: red-black balancing (the tree is any search tree), migration between CPUs, and the 64-bit form of `ktime_divns`, which is a plain division.
- kernel/module.c: everything but the per-cpu allocator.
- kernel/cpuset.c: scheduler domains, task attachment, memory migration, the file system and notify-on-release.
- ipc/msg.c: removal while tasks wait, and the moment between a receiver leaving the list and its message being set.
- kernel/kallsyms.c: module symbols and printing.
- The rest of `init/`, `ipc/` and `kernel/` (scheduler, signals, fork, audit, time keeping, shared memory) is not modelled.
- KexecImage.Kimage.LoadSegment: when the load fails it states only that the image invariant still holds, which is what the free that follows needs.
- KexecImage.Kimage.Load: the same on failure; the control page count is a parameter.
- Percpu.Area.ModAlloc: when the table cannot grow the attempt fails without a claim that nothing would have fitted, as in the code.
- HrtimerQueue.Base.RunQueue: a callback that changes other timers of the same queue is not modelled.
- Pid.PidMap.AllocPidmap: no claim about which pid a retry after a failed page allocation would give.
