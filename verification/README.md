# A verified model of the Pintos kernel's core

Pintos is a small teaching kernel in C. This project models, in Dafny 4.11, the
parts of it whose correctness is hard to see, and proves properties of them over
all inputs, all runs and all interleavings. `dafny verify dfyconfig.toml` checks
everything.

Code that changes things in place is modelled in place: classes with fields,
loops with invariants, an array for the heap sort and the bitmap's words, linked
elements with `prev` and `next` for the list. Protocols between threads are state
machines whose runs are arbitrary schedules; a choice that is not enabled is
passed over, so every schedule is allowed.

| module | what it models |
|---|---|
| `RwMonitor`, `CondVars` | the reader/writer monitor of an inode, any number of threads; the same with condition variables made of semaphores |
| `CacheProtocol`, `CacheData`, `CacheFlush`, `CacheLoss`, `CacheAlone` | the cache's two levels of locks, its byte-wise copies and its flush, run concurrently by any number of threads; what reads then see; what the flush saves, and when it makes a write be forgotten; that an undisturbed call is done once and ends |
| `Sectors`, `BufferCache`, `FreeMap` | sector contents, the 64-entry write-back cache over a logical disk, the map of used sectors |
| `BlockTree`, `Losses`, `InodeResize`, `InodeFile` | the two-level block index, `inode_resize` with its rollback and what that loses, and files on top |
| `Scheduler`, `Kernel` | the ready list and round robin; semaphores and locks on top of it, any number of threads |
| `LinkedList` | the doubly linked list and its natural merge sort |
| `Bitmap`, `Palloc`, `Malloc` | the packed bitmap, the page pools, the block allocator |
| `Arithmetic` | 64-bit division from a 64-by-32-bit instruction |
| `HashTable` | the self-resizing hash table as a set |
| `Ustar` | archive headers and octal numbers |
| `PageDir` | the two-level page directory as a partial map, from creation to destruction |
| `Sorting` | heap sort and binary search |
| `Counting`, `Order`, `Bitwise`, `Common` | counting threads at program points; strict weak orders; masks as arithmetic; bytes, options, sequences without repetition |

Bytes are numbers below 256, addresses and sizes are numbers; where 32-bit or
64-bit wrap-around matters it is written out. A file is seen as 8 MiB of bytes
that are zero beyond its length (`InodeFile.View`), the cache as a logical disk
(`Cache.flat`), a page directory as a map from user pages to frames.

Points where the code does not do what one might expect; each is proved with the
exact condition, the first one for writes inside a file:

- A write of part of a sector that is not cached zeroes the rest of it
  (`BufferCache.PartialWriteKeepsRest`, `InodeFile.OutsideKept`).
- The flush takes no entry locks. It saves a sector under every interleaving exactly
  if no writer has come upon the sector's entry and not marked it yet when the flush
  begins (`CacheFlush.FlushIsExact`). Otherwise it can put half of a copy on the
  device (`CacheFlush.TornFlush`), or clear the mark of data that it did not write
  (`CacheFlush.ForgottenWrite`), and so lose them exactly if a writer that has come
  upon a dirty entry has something new to copy (`CacheLoss.LossIsExact`).
- When growth fails, the rollback of an empty file that has a first-level table
  frees that table, but the inode on the device still points to it
  (`InodeResize.FailedResizeDangles`).
- The rollback does not give back sectors that only tables in memory point to.
  With a writable map it loses none exactly if no sector was free, or only the
  one for a missing first-level table, or as many as the last second-level table
  had room for (`InodeResize.FailedResizeLoses`).
- `malloc` of more than 2^32 - 12 bytes succeeds with one page
  (`Malloc.PagesForFits`), and the overflow test of `calloc` does not find every
  overflow (`Malloc.CallocMisses`).
- `umod64` and `smod64` cut the remainder to 32 bits (`Arithmetic.UmodIsExact`,
  `Arithmetic.SmodIsExact`), and `sdiv64` of the most negative number by -1 gives
  that number (`Arithmetic.Sdiv64`).
- `pagedir_set_page` does not look whether a frame is in use, and
  `pagedir_destroy` frees a frame as often as it is mapped (`PageDir.FreedOnce`).
- Stripping antisocial prefixes leaves `a/../../b` as it is
  (`Ustar.StripStays`, `Ustar.StillClimbs`).
- The comment in `malloc.c` says that blocks of up to 2 kB come from descriptors;
  the loop makes descriptors of up to 1 kB only, and so does the model.

## Model

| member | source | states |
|---|---|---|
| RwMonitor.InvStep | pintos/src/filesys/inode.c:662-703 | every step of any thread keeps the invariant: one lock holder, counters equal to the threads they count, queues equal to the unsignalled waiters, no writer together with anybody, nobody stranded |
| RwMonitor.InvRun | pintos/src/filesys/inode.c:662-703 | so does every schedule, of any length, of any number of threads |
| RwMonitor.Exclusion | pintos/src/filesys/inode.c:662-703 | in every run a writing thread excludes every other reader and writer |
| RwMonitor.NobodyStranded | pintos/src/filesys/inode.c:662-703 | no lost wake-up: with the lock free, an unsignalled writer has an active thread or a signalled writer to wait for, an unsignalled reader an active or waiting writer |
| RwMonitor.NoDeadlock | pintos/src/filesys/inode.c:662-703 | while any thread is inside the protocol, some such thread can move |
| RwMonitor.WriterQueueFifo | pintos/src/threads/synch.c:287-338 | in every run a queued writer moves up with each writer that is signalled, and the writer at position k is woken by signal k + 1 |
| RwMonitor.CheckinEnters | pintos/src/filesys/inode.c:662-692 | a reader that finds no writer active or waiting, and a writer that finds nobody active, is active after its check-in, counted once, and has given the lock back |
| RwMonitor.CheckinWaits | pintos/src/filesys/inode.c:662-692 | one that finds somebody in its way is at the end of its queue, counted as waiting, with the lock given back |
| RwMonitor.WokenEnters | pintos/src/filesys/inode.c:662-692 | a woken thread that takes the lock and finds nobody in its way becomes active, and its waiting count moves to the active one |
| RwMonitor.CheckoutEnds | pintos/src/filesys/inode.c:673-703 | after its checkout, in every reachable state, a thread is outside with the lock given back, its counter is one less and the others are the same; it has woken exactly the first queued writer, if writers wait and it was the last active reader or a writer, or, a writer with no writer waiting, exactly all queued readers, or nobody |
| CondVars.ActSimulates | pintos/src/threads/synch.c:287-338 | with a queue of semaphores that start at 0 for each condition variable, signals before, during or after the sleep, and broadcasts one signal at a time, every step of the program is a step of the monitor or changes nothing there |
| CondVars.ProgramIsMonitor | pintos/src/threads/synch.c:287-338 | so every state that the program reaches is one that the monitor reaches, with all that is proved of those |
| CondVars.SleepersAreListed | pintos/src/threads/synch.c:287-338 | no signal is lost: in every run a thread that sleeps on its semaphore is still on the queue of its condition, and the semaphore is 0 |
| CondVars.ProgramMoves | pintos/src/threads/synch.c:287-338 | while any thread is inside the program, some such thread can move |
| CondVars.CheckinActive | pintos/src/filesys/inode.c:662-692 | the same of the program with its semaphores: a check-in with nobody in the way ends in the activity, the lock free |
| CondVars.CheckinQueued | pintos/src/threads/synch.c:287-304 | one with somebody in the way ends in sema_down on its own semaphore, which is 0, at the end of its queue, the lock free |
| CondVars.DownReturns | pintos/src/threads/synch.c:60-76 | sema_down on it takes the unit that a signal has left and goes for the lock, or sleeps if there is none |
| CondVars.ProgramCheckout | pintos/src/filesys/inode.c:673-703 | a checkout of the program ends outside with the lock free, the counter one less, and exactly those threads signalled that should be, a broadcast however long the queue |
| RwMonitor.WaitingWriterBarsReaders | pintos/src/filesys/inode.c:662-671 | while a writer waits no thread becomes an active reader |
| CacheProtocol.ShapeStep | pintos/src/filesys/inode.c:60-164 | every step of the two-level locking protocol, of the copying byte by byte and of the flush keeps the locks, the list, the capacity and what each program point may rely on |
| CacheProtocol.ShapeRun | pintos/src/filesys/inode.c:60-164 | so does every schedule, with flushes by any thread at any time |
| CacheData.InvStep | pintos/src/filesys/inode.c:60-164 | every step keeps the agreement of the entry or the device with the bytes written so far to a sector, a step that begins a flush if no writer stands between coming upon the entry and marking it |
| CacheData.InvRun | pintos/src/filesys/inode.c:60-164 | so does every interleaving in which no flush begins while the sector has such a writer |
| CacheProtocol.Bounded | pintos/src/filesys/inode.c:60-110 | in every reachable state the cache has at most 64 entries for pairwise different sectors |
| CacheProtocol.ReturnsLockedEntry | pintos/src/filesys/inode.c:60-110 | from its return to the release of the lock the caller holds the lock of a listed entry of the requested sector |
| CacheProtocol.NoHoldAndWait | pintos/src/filesys/inode.c:60-110 | a thread that waits for the list lock holds no entry's lock |
| CacheProtocol.AlwaysSafe | pintos/src/filesys/inode.c:60-164 | no reachable step, of a flush or not, leaves the list, the entries, the sector or the device |
| CacheProtocol.NoDeadlock | pintos/src/filesys/inode.c:60-164 | while a thread is inside, flushing or not, some thread inside can move |
| CacheData.ReadsSeeLastWrite | pintos/src/filesys/inode.c:132-164 | linearisability, byte by byte: in every interleaving with any evictions, and with flushes that begin while the sector has no writer, a read of any stretch of a sector returns the bytes of the last writes to it or the initial ones |
| CacheData.WithoutFlush | pintos/src/filesys/inode.c:132-164 | so in every run without flushes |
| CacheAlone.DoneOnce | pintos/src/filesys/inode.c:60-159 | a read or write that nobody disturbs, from any reachable state, comes to its end, the locks free, and is in the log exactly once: a write with its offset and bytes, marked as one over zeros exactly if the sector was not cached, a read with as many bytes as asked for |
| CacheAlone.FlushDone | pintos/src/filesys/inode.c:113-127 | a flush that nobody disturbs comes to its end with no read or write logged, the sector clean and as last written on the device |
| CacheFlush.FlushSaves | pintos/src/filesys/inode.c:113-127 | a flush that reaches the end of the list has left every listed entry of the sector clean and the device as last written, in every such interleaving |
| CacheFlush.FlushIsExact | pintos/src/filesys/inode.c:113-143 | a flush that takes the list lock saves a sector under every interleaving that follows if and only if at that time no writer has come upon its entry and not marked it |
| CacheFlush.Spoil | pintos/src/filesys/inode.c:113-143 | with such a writer some schedule, computed from the state, leaves the entry dirty at the end of the list |
| CacheFlush.TornFlush | pintos/src/filesys/inode.c:113-143 | an explicit schedule from the start leaves the first k bytes of one write and the rest of another on the device and the entry clean, for every k |
| CacheFlush.ForgottenWrite | pintos/src/filesys/inode.c:113-143 | an explicit schedule from the start leaves a completed write in a clean entry and the older data on the device |
| CacheLoss.LossIsExact | pintos/src/filesys/inode.c:113-143 | once the flush has found an entry dirty, some schedule leaves it clean, free and different from the device if and only if a writer has come upon the entry and has a byte to copy that differs from what is there |
| Sectors.PointersRoundTrip | pintos/src/filesys/inode.c:42-45 | a pointer table written to a sector and read back is the same table |
| Sectors.BlockRoundTrip | pintos/src/filesys/inode.c:42-45 | every sector is the image of the table it holds |
| Sectors.InodeRoundTrip | pintos/src/filesys/inode.c:26-34 | an on-device inode written to a sector and read back is the same inode |
| Sectors.InodeLayout | pintos/src/filesys/inode.c:26-34 | the flag is byte 0, and the table's sector, the length and the magic number are the little-endian words at 4, 8 and 12; all bytes from 16 on are zero |
| Sectors.PointerLayout | pintos/src/filesys/inode.c:42-45 | pointer k of a table is the little-endian word at 4 * k |
| BufferCache.Cache.Get | pintos/src/filesys/inode.c:60-110 | a hit or a load leaves the requested sector in the list, keeps every other logical sector, and follows first-in first-out order |
| BufferCache.Cache.Write | pintos/src/filesys/inode.c:132-142 | the logical disk changes in that sector only, to the new bytes over the old contents if cached and over zeros if not |
| BufferCache.Cache.Read | pintos/src/filesys/inode.c:151-159 | returns the logical bytes and changes no logical sector |
| BufferCache.Cache.WriteBlock | pintos/src/filesys/inode.c:144-146 | a whole-sector write sets the logical sector, whatever was cached |
| BufferCache.Cache.ReadBlock | pintos/src/filesys/inode.c:162-164 | returns the logical sector |
| BufferCache.Cache.Flush | pintos/src/filesys/inode.c:113-127 | makes the device equal to the logical disk and leaves no dirty entry |
| BufferCache.PartialWriteKeepsRest | pintos/src/filesys/inode.c:100-103 | a partial write keeps the rest of its sector if and only if the sector is cached or the rest is zero |
| BufferCache.WholeWrite | pintos/src/filesys/inode.c:144-146 | a whole-sector write does not depend on the cache |
| FreeMap.SectorMap.constructor | pintos/src/filesys/free-map.c:14-24 | over a packed bitmap: a sector is used if and only if it is the free map's or the root directory's |
| FreeMap.SectorMap.Allocate | pintos/src/filesys/free-map.c:31-53 | takes the first run of that many free sectors and marks exactly it, or fails and changes nothing; it fails if there is no such run, and only then if the map's file can be written |
| FreeMap.SectorMap.Release | pintos/src/filesys/free-map.c:57-65 | a sector is used after it if and only if it was and is not of the run; taking the run again gives back the map |
| FreeMap.TakeAndGiveBack | pintos/src/filesys/free-map.c:31-65 | setting a run and clearing it are inverse to each other |
| BlockTree.FillSlot | pintos/src/filesys/inode.c:253-276 | giving a needed slot a free sector keeps the progress invariant: distinct used sectors, kept slots, conserved neighbours, kept data |
| BlockTree.EmptySlot | pintos/src/filesys/inode.c:278-282 | taking the sector of an unneeded slot keeps it too |
| BlockTree.WriteTable | pintos/src/filesys/inode.c:285-296 | so does rewriting one of the file's own tables |
| BlockTree.NothingReleased | pintos/src/filesys/inode.c:250-294 | while changes are confined to needed positions nothing has been released and no pointer has changed |
| InodeResize.AddSector | pintos/src/filesys/inode.c:217-224 | a sector that was free, zeroed and marked, or no change |
| InodeResize.ResizeSlot | pintos/src/filesys/inode.c:267-284 | one turn of the inner loop keeps the loop invariant or reports the failed allocation |
| InodeResize.ResizeLeaf | pintos/src/filesys/inode.c:265-286 | the inner loop gives every data slot of one second-level table its final state, or stops where the allocation failed |
| InodeResize.OneTable | pintos/src/filesys/inode.c:250-294 | one turn of the outer loop keeps the loop invariant or reports the failed allocation |
| InodeResize.ResizeTables | pintos/src/filesys/inode.c:250-294 | the outer loop does so for all 128 tables |
| InodeResize.Attempt | pintos/src/filesys/inode.c:231-303 | a resize up to its first failed allocation |
| InodeResize.Resize | pintos/src/filesys/inode.c:227-309 | on success the tree is exactly that of the new size; on failure the nested call, which cannot fail and so ends the recursion, restores every original pointer the length needs; a size the tree already covers never fails; a failure loses as many sectors as slots had been filled that no table on the device shows, and with a writable map comes after exactly the free sectors have been taken; it succeeds only if there are as many free sectors as missing slots, and with a writable map always then |
| InodeResize.ResizedData | pintos/src/filesys/inode.c:263-287 | data pointer k is set exactly if the file reaches sector k, kept with its contents if it was set, and otherwise a sector that was free and is zero |
| InodeResize.ResizedConserves | pintos/src/filesys/inode.c:227-309 | no sector is pointed to twice, and the used sectors that are not the file's stay the same with their contents |
| InodeResize.ResizeToZero | pintos/src/filesys/inode.c:442-447 | resizing to nothing frees exactly the file's sectors |
| InodeResize.ResizedFits | pintos/src/filesys/inode.c:217-224 | a resize that succeeds has found a free sector for every missing slot |
| InodeResize.Rollback | pintos/src/filesys/inode.c:243-275 | after a failure anywhere in the two loops the nested resize gives back every original pointer below the length and frees the others |
| InodeResize.FailedResizeDangles | pintos/src/filesys/inode.c:565-569 | the inode on the device, which the caller does not rewrite, is still sound after a failed resize if and only if the file was not empty or had no first-level table |
| InodeResize.LossCount | pintos/src/filesys/inode.c:255-276 | after the rollback the sectors that are used and belong to nobody are as many as the slots that had been filled and were neither the root nor in an old second-level table already written |
| InodeResize.TakenCount | pintos/src/filesys/inode.c:217-224 | if no sector is left when the allocation for a slot fails, the free sectors were as many as the missing slots before it |
| InodeResize.FailedResizeLoses | pintos/src/filesys/inode.c:227-309 | a failed resize leaves no sector used that was not used before if and only if none was free, or only the one for a missing first-level table, or exactly as many as the last second-level table had room for |
| Losses.LossOfSettled | pintos/src/filesys/inode.c:250-294 | the same condition on the number of slots filled before the failure, for every file, size and failing slot |
| Losses.MissingCount | pintos/src/filesys/inode.c:250-294 | the missing slots of a file are the first-level table if there is none and the second-level tables and data sectors that the new size has more than the old, in closed form |
| Losses.LostTable | pintos/src/filesys/inode.c:255-276 | growing an empty file with two free sectors loses the second-level table |
| InodeFile.Length | pintos/src/filesys/inode.c:633-641 | the length in the inode |
| InodeFile.ByteToSector | pintos/src/filesys/inode.c:170-199 | the sector that holds a byte below the length, -1 beyond |
| InodeFile.ReadAt | pintos/src/filesys/inode.c:495-532 | returns exactly the smaller of what is asked for and what is left, byte for byte the file's contents, and changes no logical sector |
| InodeFile.WriteChunk | pintos/src/filesys/inode.c:574-596 | one turn of the write loop reaches the end of the buffer or of a sector, changes no other sector, loses the rest of its sector exactly if that is not cached, and moves the cache's list as the four reads and the write do |
| InodeFile.WriteLoop | pintos/src/filesys/inode.c:574-596 | the loop writes the whole buffer; the inode, the tables and all sectors outside the file stay; which touched sectors are cached when they are written is told by the cache's list at the start |
| InodeFile.Grow | pintos/src/filesys/inode.c:561-571 | a growth succeeds only if there are as many free sectors as the longer file lacks, and with a writable map always then; a longer file looks as before with zeros after its old end and leaves all neighbours alone; a failed growth leaves all neighbours alone, leaves the file as it was exactly under the condition of FailedResizeDangles, and loses no sector exactly under that of FailedResizeLoses |
| InodeFile.RoomIs | pintos/src/filesys/inode.c:227-309 | that number of lacking sectors computed from the length, the new size and whether there is a first-level table |
| InodeFile.WriteAt | pintos/src/filesys/inode.c:540-606 | a denied write changes nothing; otherwise the length becomes the larger of the old one and the end of the write, every byte of the file has the value of the buffer, its old value, or zero, as its range and the cached sectors say, and all sectors of others are unchanged; or the growth failed and nothing is written; with a writable map that happens exactly if fewer sectors are free than the longer file lacks, so never inside the file; inside the file the cache's list before the call says which sectors are cached; for any write the first one is, if it was and the call has brought in too few sectors to push it off the list |
| InodeFile.ReadBack | pintos/src/filesys/inode.c:495-606 | reading the written range gives the buffer |
| InodeFile.OutsideKept | pintos/src/filesys/inode.c:574-596 | a byte outside the range is kept if and only if its sector is not touched, or cached when it is about to be written, or the byte is zero |
| InodeFile.GapReadsZero | pintos/src/filesys/inode.c:540-606 | the gap between the old end and the write reads as zero |
| InodeFile.AlignedWriteIsExact | pintos/src/filesys/inode.c:540-606 | a write that starts with a sector and ends with one, or at or beyond the end of the file, changes nothing but its range |
| InodeFile.OtherFileKept | pintos/src/filesys/inode.c:540-606 | whatever a write or growth does to one file, also one that fails and leaves it unsound, a file that shares no sector with it stays sound, reads the same and still shares none |
| InodeFile.Create | pintos/src/filesys/inode.c:316-350 | with a writable map it succeeds if and only if as many sectors are free as the first-level table, the second-level tables and the data of that length take; the inode is that of an ordinary file with the given length and the magic number, the file is sound and all zeros, with a first-level table even if the length is 0; all used sectors keep their contents; a failure loses no sector if and only if at most one was free |
| InodeFile.CreateLoses | pintos/src/filesys/inode.c:332-342 | a creation that fails after it has taken the first-level table leaves no sector used that was not used before if and only if that was the only free one |
| InodeFile.Remove | pintos/src/filesys/inode.c:464-474 | exactly the sectors of the file and of its inode become free; what stays used keeps its contents |
| Scheduler.DispatchOk | pintos/src/threads/thread.c:545-621 | from a state in which nobody runs, scheduling runs exactly one thread and keeps the ready list equal to the ready threads but the idle one |
| Scheduler.BlockOk | pintos/src/threads/thread.c:239-247 | blocking keeps that invariant |
| Scheduler.UnblockOk | pintos/src/threads/thread.c:257-269 | so does unblocking a blocked thread |
| Scheduler.YieldOk | pintos/src/threads/thread.c:353-367 | so does yielding, also by the idle thread |
| Scheduler.ExitOk | pintos/src/threads/thread.c:325-344 | so does exiting |
| Scheduler.TickOk | pintos/src/threads/thread.c:142-160 | so does a tick with the yield it may cause |
| Scheduler.OpServes | pintos/src/threads/thread.c:545-621 | after a yield, a block or an exit the first of the line runs with a new slice and the rest is ready, the yielding thread last in line, or the idle thread runs if there is nobody |
| Scheduler.OpOthers | pintos/src/threads/thread.c:545-621 | and nobody else's status changes |
| Scheduler.TickServes | pintos/src/threads/thread.c:142-160 | the first three ticks of a slice are only counted, the fourth sends the running thread to the end of the line |
| Scheduler.OpTurns | pintos/src/threads/thread.c:545-552 | every operation leaves the ready list in place but for threads appended, or then takes its head off and runs it |
| Scheduler.OpClock | pintos/src/threads/interrupt.c:377-388 | no operation puts back the count of slices and ticks, and a delivered tick advances it |
| Kernel.TestKeeps | pintos/src/threads/synch.c:60-76 | a test of the value in sema_down, first or after a wake-up, keeps the invariant whether it takes or sleeps |
| Kernel.RaiseKeeps | pintos/src/threads/synch.c:108-121 | sema_up keeps it whether or not somebody waits |
| Kernel.ClaimKeeps | pintos/src/threads/synch.c:192-201 | recording the holder after the down keeps it |
| Kernel.FinishKeeps | pintos/src/threads/synch.c:228-236 | raising the semaphore after the holder was cleared keeps it |
| Kernel.InvStep | pintos/src/threads/synch.c:60-236 | every step of every thread or interrupt keeps the whole invariant |
| Kernel.InvRun | pintos/src/threads/synch.c:60-236 | so does every run, with barging |
| Kernel.OneRunning | pintos/src/threads/thread.c:142-621 | in every reachable state exactly one thread runs and the ready list is exactly the ready threads but the idle one, each once |
| Kernel.OneList | pintos/src/threads/thread.h:96-101 | a waiting thread is blocked, once on its list and on no other: its list element is never linked twice |
| Kernel.SemaphoreIsSound | pintos/src/threads/synch.c:60-121 | a value is the initial one plus the ups minus the completed downs; while somebody waits it is at most the number of woken threads that have not re-tested it |
| Kernel.DownTakes | pintos/src/threads/synch.c:60-76 | a test that finds a unit takes exactly one and goes on without a switch; other semaphores and threads stay as they are |
| Kernel.DownSleeps | pintos/src/threads/synch.c:60-76 | one that finds none puts the caller at the end of the waiters, blocked, and the first of the ready list runs |
| Kernel.NoDownWithoutUnit | pintos/src/threads/synch.c:60-76 | in every run a thread that found no unit is still in sema_down until a step of its own has taken one |
| Kernel.UpGives | pintos/src/threads/synch.c:108-121 | sema_up adds one unit and moves exactly the thread that has waited longest to the end of the ready list; no switch |
| Kernel.MakeStarts | pintos/src/threads/synch.c:44-182 | a new semaphore has the given value and a new lock the value 1, with nobody waiting and no holder |
| Kernel.AcquireHolds | pintos/src/threads/synch.c:192-201 | acquiring a free lock makes the caller its holder with the semaphore down |
| Kernel.ReleaseFrees | pintos/src/threads/synch.c:228-236 | releasing it leaves no holder and the value 1, and readies the longest waiter |
| Kernel.SomebodyComes | pintos/src/threads/synch.c:60-121 | a positive value with somebody waiting means that a thread on its way to it is running or on the ready list |
| Kernel.TryDownReturns | pintos/src/threads/synch.c:85-102 | sema_try_down never puts its caller to sleep and wakes nobody; it changes the state exactly if there is a unit, which it takes |
| Kernel.TriesNeverSleep | pintos/src/threads/synch.c:85-102 | in every run a thread that takes semaphores by sema_try_down only is never blocked and never among anybody's waiters, whatever the others do |
| Kernel.LockHasOneOwner | pintos/src/threads/synch.c:192-247 | a lock never has two owners, has one exactly while its semaphore is down, and tells a thread outside acquire and release correctly whether it is the owner |
| Kernel.DispatchedInTurn | pintos/src/threads/thread.c:545-621 | a thread at position k of the ready list moves up with each call of schedule and runs at call k + 1, in every run |
| Kernel.DispatchedInTime | pintos/src/threads/thread.c:142-160 | and within 4 * (k + 1) delivered ticks |
| Kernel.KeepsTheSlice | pintos/src/threads/thread.c:142-160 | in every run a thread that does not give up the processor keeps it for the first three ticks of its slice, and the ready threads keep their places |
| Kernel.SliceIsFour | pintos/src/threads/thread.c:142-160 | and loses it at the fourth, to the first in line |
| Kernel.NewSlice | pintos/src/threads/thread.c:571-581 | every call of schedule begins a slice with no tick counted |
| Kernel.Readied | pintos/src/threads/thread.c:186-269 | thread_create and thread_unblock put exactly one thread at the end of the ready list, a created one under a number never used before |
| Kernel.GivenUp | pintos/src/threads/thread.c:239-367 | thread_yield, thread_block, thread_exit and the idle thread hand the processor to the first in line; the caller is then last in line, blocked, or gone |
| Kernel.WokenInTurn | pintos/src/threads/synch.c:108-121 | a thread at position k of a semaphore's waiters is woken by the sema_up number k + 1, and not before |
| LinkedList.Splice | pintos/src/lib/kernel/list.c:183-204 | moves a stretch in one list or from one to another, all links both ways consistent; the outer links of both heads and tails stay |
| LinkedList.Insert | pintos/src/lib/kernel/list.c:168-178 | the list with the element put before the given one, links consistent, the outer links of head and tail as they were |
| LinkedList.Remove | pintos/src/lib/kernel/list.c:248-255 | the list without the element, links consistent, the outer links of head and tail as they were, and the following element |
| LinkedList.Reverse | pintos/src/lib/kernel/list.c:325-337 | the elements in reverse order between the same head and tail, links consistent, the outer links of head and tail as they were |
| LinkedList.FindEndOfRun | pintos/src/lib/kernel/list.c:357-372 | the end of the longest sorted stretch |
| LinkedList.InplaceMerge | pintos/src/lib/kernel/list.c:379-399 | two adjacent sorted stretches become one, nothing else moves, equal elements keep their order |
| LinkedList.Pass | pintos/src/lib/kernel/list.c:420-436 | a pass that puts out at most one run leaves a sorted list; one that puts out more leaves half as many runs as it found, rounded up, and at most as many as it put out |
| LinkedList.PassHalves | pintos/src/lib/kernel/list.c:420-436 | so a pass that is not the last one found more than two runs and halves them |
| LinkedList.Sort | pintos/src/lib/kernel/list.c:404-440 | a sorted and stable permutation between the same head and tail with all links consistent and the outer ones as they were, for every strict weak order; in as many passes as the logarithm of the number of runs, and at least one |
| LinkedList.OnlyOneSort | pintos/src/lib/kernel/list.c:404-440 | two arrangements of the same elements that are both sorted and both keep equal elements in order are the same list |
| LinkedList.InsertOrdered | pintos/src/lib/kernel/list.c:445-459 | the new element goes after all that are not above it, and the list stays sorted |
| Bitmap.SetWord | pintos/src/lib/kernel/bitmap.c:35-47 | changing one bit of one word changes that element of the boolean sequence and no other |
| Bitmap.OrOneBit | pintos/src/lib/kernel/bitmap.c:156-166 | or-ing a mask in sets one bit of a word |
| Bitmap.AndOneBit | pintos/src/lib/kernel/bitmap.c:169-179 | and-ing with its complement clears one |
| Bitmap.Bits.constructor | pintos/src/lib/kernel/bitmap.c:78-94 | all bits clear |
| Bitmap.Bits.Test | pintos/src/lib/kernel/bitmap.c:197-203 | the element of the sequence |
| Bitmap.Bits.Mark | pintos/src/lib/kernel/bitmap.c:156-166 | the sequence with that element set |
| Bitmap.Bits.Reset | pintos/src/lib/kernel/bitmap.c:169-179 | the sequence with that element cleared |
| Bitmap.Bits.Set | pintos/src/lib/kernel/bitmap.c:144-153 | the sequence with that element changed |
| Bitmap.Bits.SetMultiple | pintos/src/lib/kernel/bitmap.c:217-228 | the sequence with that stretch changed |
| Bitmap.Bits.Contains | pintos/src/lib/kernel/bitmap.c:250-263 | true exactly if the stretch is not a run of the other value |
| Bitmap.Bits.Scan | pintos/src/lib/kernel/bitmap.c:295-310 | the least start of a matching run at or after the given index, or none exactly if there is none |
| Bitmap.Bits.ScanAndFlip | pintos/src/lib/kernel/bitmap.c:319-326 | the same, with the run flipped and nothing else |
| Palloc.Pool.constructor | pintos/src/threads/palloc.c:171-188 | a pool behind its bitmap, with no page out |
| Palloc.Pages.constructor | pintos/src/threads/palloc.c:47-66 | two new pools that do not overlap, with no page out: the kernel's from the end of the first megabyte, the user's behind it to the end of memory, each less its bitmap |
| Palloc.Pages.GetMultiple | pintos/src/threads/palloc.c:74-112 | contiguous pages of one pool that were all free, the first such group; null exactly if there is none or none is asked for; all other pages stay |
| Palloc.Pages.FreeMultiple | pintos/src/threads/palloc.c:128-160 | exactly those pages come back |
| Malloc.BlockInPage | pintos/src/threads/malloc.c:267-294 | a block lies in its page clear of the header, and its address gives back page and index |
| Malloc.BlocksApart | pintos/src/threads/malloc.c:285-294 | different blocks of one size do not overlap |
| Malloc.PagesForFits | pintos/src/threads/malloc.c:105-112 | the pages asked for hold the block and its header if and only if adding the header does not wrap; 2^32 - 1 bytes get one page |
| Malloc.Heap.constructor | pintos/src/threads/malloc.c:71-85 | the invariant holds with no block in use |
| Malloc.Heap.Pick | pintos/src/threads/malloc.c:100-104 | the smallest descriptor that fits, or none exactly if none fits |
| Malloc.Heap.Malloc | pintos/src/threads/malloc.c:89-154 | null if and only if nothing is asked for, or no block of the size is free and the page allocator does not have the pages, and then with no change; otherwise a block that was not in use, all others kept |
| Malloc.Heap.Free | pintos/src/threads/malloc.c:218-264 | exactly that block is no longer in use |
| Malloc.Heap.Reclaim | pintos/src/threads/malloc.c:240-252 | an arena whose count says all its blocks are free leaves the list and gives its page back |
| Malloc.Heap.Calloc | pintos/src/threads/malloc.c:158-175 | null if and only if the product modulo 2^32 is below a factor or cannot be allocated; the block has the product as its size exactly when that fits in 32 bits |
| Malloc.CallocMisses | pintos/src/threads/malloc.c:164-167 | factors whose product does not fit and that the test lets through |
| Malloc.Heap.Realloc | pintos/src/threads/malloc.c:194-214 | null if and only if the new block cannot be made or the size is 0; the old block is freed exactly if the new one could be made, or the new size is 0 |
| Malloc.Heap.TakeOutside | pintos/src/threads/palloc.c:74-112 | other kernel code that takes pages between calls gets pages of the pool it asks for, none of the heap's, and the heap's invariant stays |
| Malloc.Heap.ReturnOutside | pintos/src/threads/palloc.c:128-160 | so does it when they come back |
| Malloc.BlockIsGood | pintos/src/threads/malloc.c:89-154 | a block in use starts clear of the arena header, ends inside the arena's pages, and is as big as asked for unless that is within 11 of 2^32 |
| Malloc.BlocksDisjoint | pintos/src/threads/malloc.c:89-154 | different blocks in use do not overlap |
| Malloc.ArenaIffLive | pintos/src/threads/malloc.c:218-264 | a page is an arena exactly while it has a block in use |
| Malloc.AllFreed | pintos/src/threads/malloc.c:218-264 | freeing everything gives every page back |
| Arithmetic.Nlz | pintos/src/lib/arithmetic.c:41-73 | the shift that brings the top bit of a nonzero word to the top |
| Arithmetic.SmallDivisor | pintos/src/lib/arithmetic.c:80-110 | division in two digits is exact and its low digit does not overflow the instruction |
| Arithmetic.Normalised | pintos/src/lib/arithmetic.c:118-120 | shifting the divisor loses nothing, and its top half is the divisor with its lowest bits dropped |
| Arithmetic.EstimateClose | pintos/src/lib/arithmetic.c:112-121 | the estimate is the true quotient or one more |
| Arithmetic.Estimate | pintos/src/lib/arithmetic.c:111-121 | for every dividend and shifted divisor the estimate does not overflow the instruction and is the quotient or one more |
| Arithmetic.LargeDivisor | pintos/src/lib/arithmetic.c:111-126 | the corrected estimate is the quotient, without overflow of the instruction |
| Arithmetic.Udiv64 | pintos/src/lib/arithmetic.c:77-127 | the exact quotient for every dividend and nonzero divisor |
| Arithmetic.Umod64 | pintos/src/lib/arithmetic.c:131-135 | the remainder modulo 2^32 |
| Arithmetic.UmodIsExact | pintos/src/lib/arithmetic.c:131-135 | that is the remainder for every dividend if and only if the divisor is at most 2^32 |
| Arithmetic.Sdiv64 | pintos/src/lib/arithmetic.c:139-146 | the quotient rounded towards zero if and only if it is not the most negative number divided by -1, which gives that number |
| Arithmetic.Smod64 | pintos/src/lib/arithmetic.c:150-154 | the remainder, with the sign of the dividend, cut to 32 signed bits |
| Arithmetic.SmodIsExact | pintos/src/lib/arithmetic.c:150-154 | that is the remainder for every dividend if and only if the divisor is at most 2^31 in size |
| Bitwise.AndMask | pintos/src/lib/kernel/hash.c:305-310 | masking with a power of two less one is the remainder |
| HashTable.TurnOffKeepsTop | pintos/src/lib/kernel/hash.c:329-340 | turning off the lowest bit leaves nothing exactly for a power of two and otherwise keeps the highest bit |
| HashTable.BucketCount | pintos/src/lib/kernel/hash.c:369-376 | a power of two that is at most the wanted count and more than half of it |
| HashTable.FindElem | pintos/src/lib/kernel/hash.c:314-326 | an equal element of the bucket, or none exactly if there is none |
| HashTable.MoveAll | pintos/src/lib/kernel/hash.c:394-410 | the new table is in order and holds the same elements |
| HashTable.Table.constructor | pintos/src/lib/kernel/hash.c:24-42 | an empty table in order, with four buckets |
| HashTable.Table.Find | pintos/src/lib/kernel/hash.c:131-135 | an equal element of the set, or none exactly if there is none |
| HashTable.Table.Insert | pintos/src/lib/kernel/hash.c:98-110 | the equal element and no change, or the set with the new one; in either case the bucket count then is the ideal one if memory for new buckets is granted, and unchanged if not |
| HashTable.Table.Replace | pintos/src/lib/kernel/hash.c:114-127 | the set with the new element in place of the equal one; the bucket count likewise |
| HashTable.Table.Delete | pintos/src/lib/kernel/hash.c:144-154 | the set without the equal element, which is returned, and the bucket count likewise; with none, no bucket changes |
| HashTable.Table.Rehash | pintos/src/lib/kernel/hash.c:351-413 | the set and the exact count stay; with memory for new buckets their number becomes the power of two at most half the count, or four, and more than half of that; without, no bucket changes |
| HashTable.Next | pintos/src/lib/kernel/hash.c:218-235 | the next element not yet seen, or none exactly when all have been |
| HashTable.Iterate | pintos/src/lib/kernel/hash.c:199-235 | iterating yields the buckets one after the other |
| HashTable.VisitsOnce | pintos/src/lib/kernel/hash.c:199-235 | that is every element of the table, each exactly once |
| Ustar.FormatOctal | pintos/src/lib/stdio.c:469-547 | an octal conversion padded with zeros gives the digits of the number, as many as the width or as it needs |
| Ustar.OctalField | pintos/src/lib/stdio.c:25-52 | a number that fits its field is written in full and null-terminated; of a longer one the first digits are |
| Ustar.ParseOctal | pintos/src/lib/ustar.c:129-162 | returns a number if and only if the field begins with at least one octal digit, all up to the first other byte are of that number, it fits in 32 bits, and a space or null follows within the field |
| Ustar.ParseMeaning | pintos/src/lib/ustar.c:129-162 | the same from any point of the loop: the test for overflow is exact |
| Ustar.OctalRoundTrip | pintos/src/lib/ustar.c:129-162 | an octal field reads back as the number written |
| Ustar.StripPrefixes | pintos/src/lib/ustar.c:56-73 | drops leading slashes and leading dot and dot-dot components |
| Ustar.StripComponents | pintos/src/lib/ustar.c:56-73 | the components of a stripped name are those of the name without the leading dots, ups and empty ones |
| Ustar.StripIsSafe | pintos/src/lib/ustar.c:56-73 | a stripped name begins with none of the prefixes, and stripping it again changes nothing |
| Ustar.StripStays | pintos/src/lib/ustar.c:56-73 | a stripped name is not absolute, and it stays below the current directory if and only if, past the dropped components, no beginning of it has more ups than names |
| Ustar.StillClimbs | pintos/src/lib/ustar.c:56-73 | a/../../b is not stripped and leads out, for every a and b |
| Ustar.Checksum | pintos/src/lib/ustar.c:36-54 | the sum of the bytes with the checksum field taken as spaces |
| Ustar.MakeHeader | pintos/src/lib/ustar.c:82-118 | fails exactly if the stripped name is too long; otherwise a header that parses to the stripped name, the type and the size, and whose other bytes are the permissions 0000644 or 0000755, owner numbers of zeros, the time 10355706000, the owner's names root, and zeros |
| Ustar.RoundTrip | pintos/src/lib/ustar.c:82-227 | parsing a composed header gives name, type and size, or the error for sizes above 2^31 - 1 |
| Ustar.ParseHeader | pintos/src/lib/ustar.c:181-227 | accepts a header if and only if it describes a file or a directory, with that name, type and size, whatever the order of the tests; ends at exactly the blank one |
| Ustar.AcceptsExactly | pintos/src/lib/ustar.c:181-227 | the same of the chain of tests with their messages |
| Ustar.CorruptionIsFound | pintos/src/lib/ustar.c:181-227 | changing any one byte outside the checksum field of a header that parses makes parsing fail |
| PageDir.EntryBits | pintos/src/threads/pte.h:61-104 | or-ing flags into an entry is adding them to the number, and masking gives back frame and flags |
| PageDir.FlagBits | pintos/src/threads/pte.h:61-74 | testing and clearing the present, write and user flags by a mask is reading and changing that digit of the number |
| PageDir.EntryParts | pintos/src/threads/pte.h:71-104 | a table entry gives back its frame, present, writable and open to user programs; a page entry gives back its frame, present, open to user programs, and writable exactly if asked for |
| PageDir.PutEntry | pintos/src/userprog/pagedir.c:82-85 | writing one page's entry changes that page and no other |
| PageDir.AddTable | pintos/src/userprog/pagedir.c:66-80 | an added empty table changes no mapping |
| PageDir.Directory.constructor | pintos/src/userprog/pagedir.c:16-23 | no user page is mapped, there are no tables, and only the directory's own frame is in use, once |
| PageDir.Directory.EnsureTable | pintos/src/userprog/pagedir.c:56-86 | fails exactly if a table is missing and no page is to be had; no mapping changes; a new table's entry is its frame with the present, write and user flags, and adds its page to the tables and to the frames in use, and no frame is shared if and only if none was and the page was not in use |
| PageDir.Directory.SetPage | pintos/src/userprog/pagedir.c:98-119 | on success that page's entry is the frame with the present and user flags, and the write flag exactly if asked for, and all others are as before; otherwise no mapping changes; the frames in use are those before, the frame, and the page of a new table; they stay unshared if and only if the new ones were not in use and are not the same |
| PageDir.Directory.InstallPage | pintos/src/userprog/process.c:704-713 | fails exactly if the page is mapped or there is no page for its table, and then changes no mapping; otherwise the page's entry is the frame with the present and user flags, and the write flag exactly if asked for; nothing else comes into use |
| PageDir.Directory.GetPage | pintos/src/userprog/pagedir.c:125-137 | the mapped address with the same offset, or none exactly if the page is not mapped |
| PageDir.Directory.ClearPage | pintos/src/userprog/pagedir.c:143-157 | that page is not mapped, the other bits of its entry and all other pages stay; no frame comes into use, and frames stay unshared |
| PageDir.Directory.Destroy | pintos/src/userprog/pagedir.c:27-48 | frees exactly the frames in use, in order; each once if and only if none is shared |
| PageDir.PagesHas | pintos/src/userprog/pagedir.c:27-48 | the frames of the first entries and their tables are freed, and nothing else |
| PageDir.NewFrame | pintos/src/userprog/pagedir.c:56-119 | a frame put in an empty place keeps frames unshared if and only if it was not in use |
| PageDir.FreedOnce | pintos/src/userprog/pagedir.c:27-48 | the freed pages are exactly the mapped frames, the tables and the directory, and each is freed once if and only if none is used twice |
| PageDir.Lifetime | pintos/src/userprog/pagedir.c:16-157 | from creation over any mapping and unmapping, with or without memory for tables, to destruction: if no frame is offered twice, none is freed twice and nothing else is freed |
| Sorting.MaxChild | pintos/src/lib/stdlib.c:103-112 | the biggest of an element and its children |
| Sorting.Heapify | pintos/src/lib/stdlib.c:96-123 | the heap reaches one element further, by a permutation of its elements |
| Sorting.BuildHeap | pintos/src/lib/stdlib.c:142-144 | a heap of the same elements |
| Sorting.RootIsMax | pintos/src/lib/stdlib.c:146-151 | the root of a heap is not below any element |
| Sorting.Sort | pintos/src/lib/stdlib.c:131-152 | the same elements in order, in place, for every total preorder |
| Sorting.BinarySearch | pintos/src/lib/stdlib.c:184-207 | a match, or none exactly if there is none |

## Left out

- InodeFile.WriteAt: for a write that makes the file longer, that a touched sector is cached is stated one way only, by the number of sectors that the call brings in, because the reads and writes of the growth are not followed one by one.
- InodeFile.WriteAt: sizes and offsets with a sum up to 8 MiB, the limit the index can hold; the program defines it and does not check it.
- InodeFile.WriteAt: one call at a time, because the program drops its reader status before it becomes a writer; the monitor and the cache are what is modelled concurrently.
- CacheProtocol.ShapeStep: the device's read or write of one sector is one step; a flush is called only after some sector has been cached, because the program asserts that the list is not empty.
- FreeMap.SectorMap.Allocate: the map's own file is a write that may fail unless the map is declared writable, not a file; its lock is not modelled.
- Palloc.Pages.GetMultiple: does not model the contents of pages, the zeroing flag or the panic flag.
- Malloc.Heap.Calloc: does not model the bytes of blocks, so not the clearing.
- Malloc.Heap.Realloc: does not model the bytes of blocks, so not the copying.
- Malloc.Heap.Malloc: the lock of a descriptor is not modelled; one call at a time.
- PageDir.Directory.SetPage: the frame of a new table is a parameter, 0 when the page allocator has none; the processor's own copy of the entries is not modelled.
- Ustar.FormatOctal: octal conversions padded with zeros only; the parsing of format strings is not modelled.
- CondVars.ActSimulates: the semaphores of waiting threads are part of that model, not the semaphores of Kernel; each has one thread that waits for it.
- Failure of the memory allocator inside the inode code, for the cache entry and the scratch tables.
- Opening, reopening and closing inodes, and their reference counts.
- Directories and path names.
- Processes: loading, waiting, system calls.
- Device drivers, interrupts beyond the timer tick and the yield it causes, the context switch, and the processor's tables.
- Priorities and the advanced scheduler, which this version does not have.
- The rest of the list, hash, bitmap and string functions, which would only add easy members.
