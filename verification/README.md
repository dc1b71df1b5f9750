# A model of xv6 in Dafny

This project models the parts of a RISC-V xv6 kernel and its user programs where
correctness is hard to see from the code, and proves what they promise.

- **Storage** (`Blocks`, `BufferCache`, `BufferList`, `LogHeader`, `Storage`, `StorageSafety`,
  `CrashSafety`, `LogRoom`, `LogDriver`): the buffer cache with its linked list, and the write-ahead
  log. The cache and the log are a state machine whose steps interleave freely and may be cut off
  by a crash; it refines an atomic disk. `BufferList` and `LogDriver` are the code's own loops and
  lists, proved against that machine; `LogRoom` says when there is a buffer for them.
- **Processes** (`Procs...`): sleep, wakeup, the scheduler's hand-off, sleep locks, fork, exit,
  wait and kill, as single acquire, release, assign and switch steps of any number of CPUs.
- **Files** (`Fs...`, `FileSystem`): block allocation, inodes, direct and indirect blocks, reading,
  writing and truncating, on the bytes of the disk. `FsCrash`, `FsRuns` and `FsDriver` put them
  over the log: what a crash in the middle of a write leaves of the files.
- **Memory** (`Page...`, `UserMemory`, `VirtualMemory`, `AddressSpaces`): the page allocator,
  three-level page tables, the address spaces of processes, and copying to and from them.
- **Disk driver** (`Virtio...`): the virtqueue shared with the device, after sections 2.6 and 5.2
  of Virtio 1.1, and the data that requests move.
- **Shell** (`Sh...`): the parser, the language it accepts, and the buffer it cuts up.
- **Pipes** (`Pipe`), **the K&R allocator** (`FreeList`, `Malloc`), **grep** (`GrepMatch`, `GrepSpec`,
  `Grep`) and **lines and circles** on the frame buffer (`Raster`).

Code that changes state step by step is a class or a method with loops, proved against functions
and predicates on values; protocols are state machines with theorems over every run. A panic of
the source is a precondition that its callers are proved to meet, unless it is reported as a
result. `dafny verify dfyconfig.toml` checks everything.

## Model

| member | source | states |
|---|---|---|
| `LogHeader.HeadRoundTrip` | kernel/log.c:87-115 | A header written by `write_head` over any old block reads back in `read_head` as the same list of block numbers. |
| `BufferCache.PutOrder` | kernel/bio.c:116-137 | Releasing a buffer for the last time moves exactly that buffer to the front of the list and keeps the order of the others. |
| `BufferCache.EveryRunKeepsCache` | kernel/bio.c:58-151 | In every run of `bget`, `brelse`, `bpin` and `bunpin` the list holds every buffer once, and no two buffers hold the same block of the same device. |
| `BufferCache.EveryRunByRecency` | kernel/bio.c:58-137 | In every run the list order is the order of last release, most recent first. |
| `BufferCache.RecyclesLeastRecentlyReleased` | kernel/bio.c:75-87 | When `bget` recycles a buffer, every other buffer without references was released later. |
| `BufferList.UnlinkKeepsList` | kernel/bio.c:128-129 | Unlinking a node of the circular doubly linked list leaves a well-formed list of the other nodes in their order. |
| `BufferList.PushKeepsList` | kernel/bio.c:130-133 | Linking a node after the head puts it first and keeps the rest. |
| `BufferList.Bcache.constructor` | kernel/bio.c:36-53 | `binit` builds a well-formed list of all buffers with no references. |
| `BufferList.Bcache.FindCached` | kernel/bio.c:65-72 | The forward scan finds the buffer of a block if there is one, and nothing otherwise. |
| `BufferList.Bcache.FindUnused` | kernel/bio.c:75-88 | The backward scan finds the last buffer on the list without references. |
| `BufferList.Bcache.Bget` | kernel/bio.c:58-89 | `bget` on the linked list does what the cache specification does, including the panic when every buffer is in use. |
| `BufferList.Bcache.Brelse` | kernel/bio.c:116-137 | `brelse` on the linked list does what the specification does: one reference less, and a move to the front at zero. |
| `BufferList.Bcache.Bpin` | kernel/bio.c:139-144 | One reference more for that buffer; nothing else changes. |
| `BufferList.Bcache.Bunpin` | kernel/bio.c:146-151 | One reference less for that buffer; the list order stays. |
| `StorageSafety.NoLogPanic` | kernel/log.c:215-224 | In every reachable state `log_write` within an operation and `end_op` do not panic, and the in-memory header never holds more than LOGBLOCKS entries, reservations included. |
| `StorageSafety.UnspentBounds` | kernel/log.c:127-143 | The blocks that outstanding operations may still add are between 0 and MAXOPBLOCKS for each of them. |
| `CrashSafety.StepRefines` | kernel/log.c:66-236 | Every step of the buffer cache and the log, in any interleaving and with crashes, keeps the invariant and does to an atomic disk (what is durable, what is visible) exactly what its event says. |
| `CrashSafety.EveryRunKeepsInv` | kernel/log.c:66-236 | The storage invariant holds in every state of every run. |
| `CrashSafety.DurableIsLastCommitted` | kernel/log.c:194-204 | At every time what a crash would leave is what was visible at the last commit point. |
| `CrashSafety.NothingCommitsInRecovery` | kernel/log.c:117-124 | While recovery runs, and is interrupted any number of times, the committed contents stay the same. |
| `CrashSafety.CrashAtomicity` | kernel/log.c:66-124 | Crash at any time and recover with any number of further crashes: when recovery completes every home block holds what was visible at the last commit point before the crash. |
| `CrashSafety.RecoveryEnds` | kernel/log.c:117-124 | When recovery ends, what is visible is what is durable, and the disk holds it at home. |
| `CrashSafety.CommitOutsideOperations` | kernel/log.c:147-176 | No commit step happens between `begin_op` and `end_op` of any process, nor while a modified block is not logged. |
| `CrashSafety.ReadsLatest` | kernel/bio.c:92-103 | A locked buffer that `bread` returned holds the latest contents of its block. |
| `CrashSafety.PinnedExactlyLogged` | kernel/log.c:215-236 | Outside commit a buffer has one reference more than users exactly when the log names its block. |
| `LogRoom.EndOpCommits` | kernel/log.c:147-176 | `end_op` starts a commit exactly if no other process is inside an operation and a block is logged. |
| `LogRoom.ThreeAtOnce` | kernel/log.c:127-144 | `begin_op` does not wait while the log is empty and fewer than three operations are in progress. |
| `LogRoom.ChooseNone` | kernel/bio.c:58-89 | `bget` panics exactly if the block is not cached and every buffer has references. |
| `LogRoom.SpaceLeft` | kernel/param.h:9-11 | While an operation may still log a block, the log does not pin every buffer. |
| `LogRoom.FullLogStops` | kernel/log.c:179-192 | A log of NBUF blocks pins every buffer, and `write_log` finds none for a log block. |
| `LogDriver.FillHead` | kernel/log.c:103-115 | The loop of `write_head` writes the header block that the specification describes. |
| `LogDriver.LoadHead` | kernel/log.c:87-98 | The loop of `read_head` reads the header that the specification describes. |
| `LogDriver.FindLogged` | kernel/log.c:226-229 | The search of `log_write` finds the first entry for a block, or the end of the header. |
| `LogDriver.Log.LogBlock` | kernel/log.c:215-236 | `log_write` neither panics nor adds or pins a block twice, and the header then names the block; nothing visible or durable changes. |
| `LogDriver.Log.Bread` | kernel/bio.c:92-103 | `bread` returns a locked buffer with the contents of the block; it finds none exactly if the block is not cached and every buffer is in use. It changes nothing else. |
| `LogDriver.Log.WriteHead` | kernel/log.c:103-115 | `write_head` makes everything visible durable when it commits, and nothing else when it clears the log; it stops only if every buffer is in use, and not at all when nobody uses one and the log does not pin them all. |
| `LogDriver.Log.PutHeader` | kernel/log.c:103-115 | The header block on the disk becomes the old one with the in-memory header written over it. |
| `LogDriver.Log.WriteLog` | kernel/log.c:179-192 | `write_log` copies every logged block to the log and changes neither what is durable nor what is visible; it stops only if every buffer is in use, and always when the log pins them all. |
| `LogDriver.Log.InstallTrans` | kernel/log.c:66-84 | `install_trans` copies every logged block home, in commit and in recovery, and changes neither what is durable nor what is visible; it stops only if every buffer is in use. |
| `LogDriver.Log.ReadHeader` | kernel/log.c:87-98 | `read_head` at boot changes nothing that is durable. |
| `LogDriver.Log.Commit` | kernel/log.c:194-204 | When `commit` completes, everything visible is durable and at home; if it stops early, either all of the transaction is durable or nothing. It stops only for want of a buffer, and when nobody else uses one, exactly if the log holds NBUF blocks. |
| `LogDriver.Log.EndOperation` | kernel/log.c:147-176 | `end_op` keeps what is visible. If it ends the last operation, all of that is durable when it returns and any process can begin the next; otherwise nothing more is durable. Without other users of buffers it fails exactly if it must commit a log of NBUF blocks. |
| `LogDriver.Log.RecoverFromLog` | kernel/log.c:117-124 | After `recover_from_log` every home block on the disk holds what was durable; at boot, when nobody uses a buffer, it always completes. |
| `ProcsRuns.NextKeepsInv` | kernel/proc.c:259-611 | Every step of every CPU keeps the invariant of the process protocol. |
| `ProcsRuns.EveryRunKeepsInv` | kernel/proc.c:259-611 | The invariant holds in every state of every interleaving of the CPUs. |
| `ProcsTheorems.MutualExclusion` | kernel/spinlock.c:21-72 | No two CPUs are inside critical sections of the same spinlock, and the lock's owner is the CPU that is. |
| `ProcsTheorems.NoLockPanic` | kernel/proc.c:472-490 | No step panics in `acquire`, `release` or `sched`: what is acquired is not already held, what is released is held, and `sched` runs with exactly p->lock and a state other than RUNNING. |
| `ProcsTheorems.LockDiscipline` | kernel/proc.h:97-108 | A process's state, channel, killed flag, exit status and pid change only while the CPU that changes them holds its p->lock, and its parent only under wait_lock. |
| `ProcsTheorems.InTurn` | kernel/proc.c:424-462 | The scheduler takes the entries in turn, each time one closer to any given entry, and runs the process of an entry that is RUNNABLE. |
| `ProcsTheorems.HandOff` | kernel/proc.c:424-490 | While p->lock is free, p is RUNNING exactly if one CPU's c->proc is p, and no process runs on two CPUs. |
| `ProcsTheorems.FreedAtRest` | kernel/proc.c:370-415 | `freeproc` frees only a process that no CPU runs or is about to run, and that is a zombie or was never made runnable. |
| `ProcsTheorems.NoLostWakeup` | kernel/proc.c:542-587 | When a `wakeup(chan)` made under lk has gone through the table, no process that went to sleep on chan under lk before is still asleep. |
| `ProcsTheorems.AsleepOnChannel` | kernel/proc.c:542-569 | From the call of `sleep(chan, lk)` until it is woken, the CPU that runs a process holds lk, or p->lock is held, or the process is SLEEPING on chan. |
| `ProcsTheorems.OneSleepLockHolder` | kernel/sleeplock.c:21-41 | A sleep lock has at most one holder, and lk->locked says whether it has one. |
| `ProcsTheorems.NoSleeperOnFreeLock` | kernel/sleeplock.c:21-41 | Nobody sleeps on a free sleep lock once its spinlock is free. |
| `ProcsTheorems.NoExitMissed` | kernel/proc.c:326-415 | A process blocked in `kwait` has a child, and once wait_lock is free none of its children is a zombie. |
| `ProcsTheorems.NoChildrenIsTrue` | kernel/proc.c:381-410 | `kwait` says there are no children only when there are none. |
| `ProcsTheorems.WaitGivesUp` | kernel/proc.c:406-413 | `kwait` gives up only if the process is killed or has no children, and sleeps only if it is not killed and has children, none of which has exited. |
| `ProcsGuard.EveryRunReads` | kernel/proc.c:370-415 | What `wakeup`, `allocproc`, `kwait` and `kkill` read under a p->lock stays true until they release it. |
| `ProcsTheorems.KillTakesEffect` | kernel/proc.c:592-612 | When `kkill` stops at an entry, it has that pid, is killed and is not SLEEPING, and it is in use unless the pid is 0; an entry that it passes over has another pid. |
| `ProcsGuard.SearchSucceeds` | kernel/proc.c:109-123 | If some entry is free from the start of `allocproc`'s search to its end, the search takes an entry that is free; if some entry has the pid that long, `kkill` ends with a process of that pid killed and not asleep. |
| `ProcsGuard.NothingMissed` | kernel/proc.c:592-612 | `kkill` does not get past an entry that has the pid from the start of its search on, nor `kfork` past one that is free. |
| `ProcsFree.NewProcess` | kernel/proc.c:109-128 | The entry that `allocproc` takes is blank but for its new pid, and for its killed flag, which is as it was. |
| `ProcsFree.BornKilled` | kernel/proc.c:592-612 | A free entry is marked as killed exactly if a `kkill(0)` has stopped at it since it became free. |
| `ProcsFree.KillZero` | kernel/proc.c:592-612 | A run in which initproc calls `kkill(0)` and a free entry is marked as killed. |
| `ProcsTheorems.NoOrphans` | kernel/proc.c:310-321 | Every process that can run or has exited, init aside, has a parent that is alive. |
| `ProcsTheorems.ReapedOnce` | kernel/proc.c:383-401 | `kwait` reaps its own child, once, with the status the child passed to `kexit`. |
| `ProcsTheorems.ExitStatusKept` | kernel/proc.c:326-415 | No exit status is lost: it has been reported unchanged, or a zombie has it. |
| `ProcsTheorems.ExitStatusFinal` | kernel/proc.c:356-365 | An exit status, once given, stays as it is for the rest of the run. |
| `ProcsTheorems.PidsUnique` | kernel/proc.c:92-103 | Every process in the table has its own pid. |
| `ProcsTheorems.UsedHasForker` | kernel/proc.c:259-306 | A USED entry belongs to exactly one `kfork` in progress. |
| `FsBits.PutTestBit` | kernel/fs.c:66-106 | Setting or clearing a bit of a byte changes that bit and no other. |
| `FsBits.PutBlockBitAt` | kernel/fs.c:66-106 | Setting or clearing a bit of a bitmap block changes that bit and no other. |
| `FsDisk.InodeRoundTrip` | kernel/fs.c:226-242 | An inode written to its place in its block reads back, and its neighbours stay. |
| `FsFormat.BitmapBlock` | mkfs/mkfs.c:236-250 | The bitmap that mkfs writes marks exactly the first blocks. |
| `FsFormat.FormattedOk` | mkfs/mkfs.c:68-175 | A disk with that bitmap and zero inodes is a good file system in which no block is in use but the metadata. |
| `FileSystem.FileSystem.Format` | mkfs/mkfs.c:236-250 | A fresh disk satisfies the invariant, with every inode free. |
| `FileSystem.FileSystem.Mount` | kernel/fs.c:41-48 | Any good disk satisfies the invariant when no inode is in memory. |
| `FileSystem.FileSystem.FirstFree` | kernel/fs.c:66-89 | The scan of `balloc` finds the lowest block that is not marked. |
| `FileSystem.FileSystem.Balloc` | kernel/fs.c:66-89 | `balloc` marks and zeroes a block that was not marked, or finds that all are marked; no file changes. |
| `FileSystem.FileSystem.Bfree` | kernel/fs.c:92-106 | `bfree` clears the mark of a block that is in use, and no other mark; freeing a free block is a panic. |
| `FileSystem.FileSystem.Iupdate` | kernel/fs.c:226-242 | `iupdate` makes the on-disk inode the one in memory and leaves every other inode and byte. |
| `FileSystem.FileSystem.Bmap` | kernel/fs.c:405-444 | `bmap` returns the block of a file, allocating a direct, indirect or data block where there is none, keeps every other block number and every byte, and keeps ownership exact. |
| `FileSystem.FileSystem.Readi` | kernel/fs.c:494-519 | `readi` returns exactly the bytes of the file from off, cut at its size, and 0 for an offset beyond it or an overflow. |
| `FileSystem.FileSystem.Writei` | kernel/fs.c:528-562 | `writei` puts a prefix of the source at off, extends the size if it reaches beyond, and leaves every other byte of every file; it stops only in the round that would read beyond what can be read of the source, or when the disk is full, and refuses exactly the bad ranges. |
| `FileSystem.FileSystem.Itrunc` | kernel/fs.c:448-476 | `itrunc` leaves the inode with size 0 and no block, frees each of its blocks once, and leaves the other files. |
| `FileSystem.FileSystem.Ialloc` | kernel/fs.c:199-220 | `ialloc` takes the lowest free inode, or finds none, and leaves the other inodes; the new one has the type asked for and size, links, device numbers and block addresses 0. |
| `FileSystem.FileSystem.Ilock` | kernel/fs.c:293-318 | `ilock` makes the in-memory inode agree with the disk. |
| `FileSystem.FileSystem.FreeFile` | kernel/fs.c:337-363 | The last `iput` of a file without links frees its blocks and its inode, and leaves the other files. |
| `FileSystem.FileSystem.FileWrite` | kernel/file.c:148-173 | `filewrite` writes in operations that each log at most seven blocks and leave a good file system with every inode written back; each but the last writes 3072 bytes, and together they write the source, or a prefix of it that ends exactly where an operation refused or stopped; the blocks of each state are those of the one before with the operation's writes made to them. |
| `FsCrash.HoldsOk` | kernel/fs.c:226-242 | Blocks that agree with such a state from the inodes on are, on their own, a good file system with the same files. |
| `FsCrash.Between` | kernel/log.c:127-176 | In every run, while a process that alone changes the file system is outside an operation, the visible blocks are those its last operation left. |
| `FsCrash.CommitsWholeOperations` | kernel/log.c:147-204 | A commit makes exactly the operations durable that have ended. |
| `FsCrash.CrashKeepsWholeOperations` | kernel/log.c:66-204 | Crash at any time in a sequence of file system operations, and recover: the disk is a good file system, without lost or shared blocks, with the files as they were after the operations that had ended at the last commit. |
| `FsCrash.CrashBeforeCommit` | kernel/log.c:117-124 | If nothing was committed since the first operation began, the disk holds none of them. |
| `FsRuns.CrashedWrite` | kernel/file.c:148-173 | Crash at any point of a `filewrite` whose operations make the writes computed for it, in any interleaving with readers and commits, and recover: the file holds the bytes of a whole number of its operations, spliced in at the offset, and every other file is as it was. |
| `FsRuns.AlwaysShows` | kernel/fs.c:528-562 | In every run in which a process makes the writes of its operations in order, the visible blocks are at every time those the file system code has computed so far. |
| `FsRuns.ReadsComputed` | kernel/bio.c:92-103 | So whatever it reads through the buffer cache is what it has computed. |
| `FsRuns.ExecutesPerforms` | kernel/log.c:127-176 | Making those writes takes the visible file system from each state to the next, an operation at a time. |
| `FsRuns.RoomInLog` | kernel/log.c:215-224 | Operations that write at most seven blocks never add more than seven to the log, so that `log_write` has room. |
| `FsDriver.Put` | kernel/fs.c:51-60 | `bread`, a change, `log_write` and `brelse` make exactly that change visible, leave other processes' buffers alone, and do not panic while there is a buffer, as there is when nobody else uses one. |
| `FsDriver.Operation` | kernel/log.c:127-176 | `begin_op`, such changes to fewer than ten blocks, and `end_op` make exactly them visible, and durable too if no other operation is in progress; when nobody else uses a buffer this always succeeds. |
| `FsDriver.FullLog` | kernel/log.c:179-192 | From any idle log, three operations that each log ten new blocks make the last `end_op` panic: `bget` finds no buffer for its commit. |
| `FsTheorems.NoSharing` | kernel/fs.c:405-444 | Two places of a good file system never hold the same block number, and what they hold is marked. |
| `FsTheorems.NoLeak` | kernel/fs.c:448-476 | A marked data block of a good file system is held by some inode. |
| `FsTheorems.SyncedSurvives` | kernel/fs.c:226-242 | Once every inode is written back, the disk alone is a good file system with the same files. |
| `FsTheorems.WriteIsSplice` | kernel/fs.c:528-562 | What `writei` does to the file as a sequence of bytes is a splice. |
| `FsTheorems.OtherFilesKept` | kernel/fs.c:528-562 | A write to one file leaves the bytes of every other. |
| `VirtualMemory.Vm.constructor` | kernel/kalloc.c:26-40 | After `kinit` the free list holds each whole page of the range once, and nothing else is in use. |
| `VirtualMemory.Vm.Kalloc` | kernel/kalloc.c:68-82 | `kalloc` takes the head of the free list, or finds it empty. |
| `VirtualMemory.Vm.Walk` | kernel/vm.c:97-115 | `walk` finds the last-level table of a page, adds tables only when asked, changes no leaf entry, and fails only if there were not enough free pages for the tables. |
| `VirtualMemory.Vm.Mappages` | kernel/vm.c:145-174 | `mappages` maps the pages to the frames in order, and they read as the frames did; no other user byte changes; if memory runs out a prefix stays mapped, which cannot happen with two free pages for each. |
| `VirtualMemory.Vm.Uvmunmap` | kernel/vm.c:192-212 | `uvmunmap` clears exactly the leaf entries of the range, freeing the pages behind them if asked; the range then reads as zero and every other user byte as before. |
| `VirtualMemory.Vm.Uvmalloc` | kernel/vm.c:216-240 | `uvmalloc` maps fresh zeroed pages with the asked flags, or leaves every leaf entry as it was, which cannot happen with three free pages for each; no user byte of any process changes. |
| `VirtualMemory.Vm.Uvmdealloc` | kernel/vm.c:246-258 | `uvmdealloc` unmaps exactly the pages above the new size, and no other user byte changes. |
| `VirtualMemory.Vm.Uvmcopy` | kernel/vm.c:296-324 | `uvmcopy` maps a page of its own with the same flags wherever the parent maps one, every byte of which is the parent's byte before the call; or it leaves every leaf entry as it was, which cannot happen with three free pages for each. No byte of any other tree changes. |
| `VirtualMemory.Vm.Freewalk` | kernel/vm.c:262-278 | `freewalk` frees each page-table page of the subtree once; its panic is unreachable. |
| `VirtualMemory.Vm.Uvmfree` | kernel/vm.c:282-288 | `uvmfree` gives up the whole tree, and no byte of another tree changes. |
| `VirtualMemory.Vm.Uvmcreate` | kernel/vm.c:178-187 | An empty page table, or 0 and nothing changed. |
| `VirtualMemory.Vm.ProcPagetable` | kernel/proc.c:176-206 | A page table with just the trampoline and the trapframe, or 0 with every page back where it was, which cannot happen with five free pages; no user byte of another tree changes. |
| `VirtualMemory.Vm.ProcFreepagetable` | kernel/proc.c:210-216 | Each page of the tree goes to the free list once, no other page moves, and no byte of another tree changes. |
| `VirtualMemory.Vm.Walkaddr` | kernel/vm.c:120-138 | The frame of a mapped user page, and 0 for every other address. |
| `VirtualMemory.Vm.Vmfault` | kernel/vm.c:452-473 | A zeroed page in the page table of the process, exactly for an address below its size that the given table does not map, if there is memory; every user byte reads as before. |
| `VirtualMemory.Vm.Copyout` | kernel/vm.c:342-375 | `copyout` stores the bytes at the user addresses, across pages, and no other user byte of any process changes; on failure a prefix is stored. It succeeds only if every page of the range is then mapped for the user to write, and it does succeed if every page was, or was missing below the size with three free pages for each page. |
| `VirtualMemory.Vm.Copyin` | kernel/vm.c:380-403 | `copyin` returns exactly the user bytes and changes none. It succeeds only if every page is then mapped for the user, and it does if every page was, or was missing below the size with enough free pages. |
| `VirtualMemory.Vm.StoreAndLoad` | kernel/vm.c:342-403 | After a `copyout` that succeeds, `copyin` succeeds and returns what was stored. |
| `AddressSpaces.Table.Alloc` | kernel/proc.c:109-150 | A new process has a trapframe and an empty space that reads as zero, or nothing has changed hands, which cannot happen with six free pages; no byte of another process changes. |
| `AddressSpaces.Table.Free` | kernel/proc.c:155-172 | Freeing a process returns exactly its trapframe and the pages of its tree to the free list, and no byte of another process changes; `freewalk` finds no leaf. |
| `AddressSpaces.Table.Grow` | kernel/proc.c:236-255 | `growproc` changes the size as asked and maps or unmaps exactly the pages between; growing changes no byte of any process, shrinking only clears those beyond the new size, and failing changes nothing. It fails if the size would pass TRAPFRAME, and otherwise not while there are three free pages for each new page. |
| `AddressSpaces.Table.Fork` | kernel/proc.c:259-276 | Every byte of the child is the byte the parent had before the call, in pages of the child's own with the same flags, or no page has changed hands, which cannot happen with three free pages for each page and six more; no byte of the parent or of another process changes. |
| `AddressSpaces.Table.Fault` | kernel/vm.c:452-473 | A fault maps a zeroed writable page exactly where the process may have one and has none, if there is memory, and keeps every process's pages below its size. |
| `AddressSpaces.Table.CopyTo` | kernel/vm.c:342-375 | So does `copyout`, which stores the bytes; it succeeds only into pages the user may write, and always when they are there or can be added. |
| `AddressSpaces.Table.CopyFrom` | kernel/vm.c:380-403 | So does `copyin`, which reads them, only from pages of the user, and always when they are there or can be added. |
| `AddressSpaces.Table.NoPageLost` | kernel/proc.c:155-172 | After any calls, with no process left, every page is on the free list or held by the rest of the kernel. |
| `FreeList.InsertOrdered` | user/umalloc.c:24-44 | Inserting a freed block, joined with the neighbours it touches, keeps the list sorted, without overlap and without touching neighbours. |
| `FreeList.OneFreeBlock` | user/umalloc.c:24-44 | No unit belongs to two free blocks. |
| `FreeList.OneLiveBlock` | user/umalloc.c:63-90 | No unit belongs to two blocks in use. |
| `FreeList.FreeOrInUse` | user/umalloc.c:24-90 | No unit is both free and in use. |
| `Malloc.Heap.FindPlace` | user/umalloc.c:30-32 | The search of `free` ends at the one place of the circular list where the block belongs. |
| `Malloc.Heap.Free` | user/umalloc.c:24-44 | `free` inserts the block into the list in memory, joined with its neighbours; no unit is lost or shared, and of the blocks in use only the header of the freed one is written. |
| `Malloc.Heap.Morecore` | user/umalloc.c:46-61 | `morecore` adds a region of at least 4096 units to the list, or nothing; what sbrk has given depends on its int argument. |
| `Malloc.Heap.Malloc` | user/umalloc.c:63-90 | `malloc` returns a new block that overlaps no other, with room for the bytes asked for behind its header and no whole unit more, and 0 exactly when nothing fits and sbrk fails; no unit of a block in use is written; the heap holds only memory it was given, except exactly when the request overflows sbrk's int. |
| `Malloc.Heap.Store` | user/umalloc.c:63-90 | Whatever a program stores behind the header of a block it was given, the allocator stays intact. |
| `Malloc.StaysBacked` | user/umalloc.c:46-61 | A region taken from sbrk is memory exactly when its size in bytes fits in an int. |
| `Malloc.HugeRequest` | user/umalloc.c:46-61 | For 0x80000000 bytes a block is handed out whose memory is not there. |
| `VirtioSteps.SubmitKeeps` | kernel/virtio_disk.c:236-281 | Submitting overwrites no ring entry the device has yet to read and no descriptor of another request. |
| `VirtioSteps.TakeFinds` | kernel/virtio_disk.c:272-277 | With indices that wrap at 16 bits, the device finds an entry exactly when one is waiting, and it is the oldest. |
| `VirtioSteps.CompleteKeeps` | kernel/virtio_disk.c:261-265 | A completion writes the request's own status byte and overwrites no unseen entry of the used ring. |
| `VirtioSteps.SeenFinds` | kernel/virtio_disk.c:312-323 | The handler finds an entry exactly when a completion is waiting; its status is 0 and it names the buffer of the request. |
| `VirtioSteps.FinishKeeps` | kernel/virtio_disk.c:284-289 | Freeing the chain of a request whose completion has been seen keeps the invariant. |
| `VirtioDisk.Disk.constructor` | kernel/virtio_disk.c:61-153 | The queue starts with every descriptor free and cleared. |
| `VirtioDisk.Disk.AllocDesc` | kernel/virtio_disk.c:156-166 | The first free descriptor, no longer free, or -1. |
| `VirtioDisk.Disk.FreeDesc` | kernel/virtio_disk.c:169-182 | The descriptor is cleared and free. |
| `VirtioDisk.Disk.FreeChain` | kernel/virtio_disk.c:185-197 | Following the next fields frees exactly the three descriptors of the chain. |
| `VirtioDisk.Disk.Alloc3Desc` | kernel/virtio_disk.c:201-213 | The first three free descriptors in order; with fewer than three, every descriptor is left as it was. |
| `VirtioDisk.Disk.Submit` | kernel/virtio_disk.c:215-281 | A request with the asked buffer, sector and direction is put on the ring, or nothing changes. |
| `VirtioDisk.Disk.DeviceTake` | kernel/virtio_disk.c:271-277 | The device finds an entry of the available ring exactly if a request has been submitted that it has not taken, and takes the oldest. |
| `VirtioDisk.Disk.DeviceComplete` | kernel/virtio_disk.c:236-265 | The device, following the descriptors and storing only into a buffer whose descriptor has the write flag, moves one block in the direction and to the place asked for: a read takes what the sector holds, and a write puts there what the buffer held when it was submitted. |
| `VirtioData.SubmitData` | kernel/virtio_disk.c:236-281 | Submitting keeps what waiting buffers hold and what the completed writes have left on the disk. |
| `VirtioData.ReadData` | kernel/virtio_disk.c:252-258 | When a read completes its buffer holds the sector's contents, the buffers of all other requests are as they were, and so is the disk. |
| `VirtioData.WriteData` | kernel/virtio_disk.c:252-258 | When a write completes the sector gets what the buffer held at the submission, after the writes that completed before. |
| `VirtioDisk.Disk.IntrOne` | kernel/virtio_disk.c:312-323 | One round of the handler releases the buffer of the completed request; its panic cannot happen. |
| `VirtioDisk.Disk.Intr` | kernel/virtio_disk.c:294-327 | Afterwards every completion so far has been seen. |
| `VirtioDisk.Disk.Finish` | kernel/virtio_disk.c:283-291 | The waiting process frees exactly its own three descriptors, after its request completed; the buffer of a read then holds what the sector held at the completion. |
| `VirtioRuns.EveryRunValid` | kernel/virtio_disk.c:215-327 | The queue invariant holds in every run, in any order of submissions, completions, interrupts and wake-ups. |
| `VirtioRuns.FreeOrOneChain` | kernel/virtio_disk.c:156-213 | In every run each descriptor is free or in the chain of exactly one request. |
| `VirtioRuns.CompletionNamesSubmitter` | kernel/virtio_disk.c:312-323 | In every run the id the handler reads names the buffer of a request that was submitted and not seen before. |
| `VirtioRuns.FinishedCompletedOnce` | kernel/virtio_disk.c:283-291 | In every run a request that is finished with has completed exactly once and never completes again. |
| `VirtioRuns.NoDescriptorLost` | kernel/virtio_disk.c:185-213 | In every run, when all requests are finished with, every descriptor is free. |
| `Pipe.CountersTell` | kernel/pipe.c:88-122 | The tests for full and empty on the 32-bit counters are right also after they wrap around. |
| `Pipe.Pipe.Store` | kernel/pipe.c:95 | Storing a byte appends it to what was written and loses none that is unread. |
| `Pipe.Pipe.WriteSection` | kernel/pipe.c:76-103 | A stretch of `pipewrite` under the lock appends a prefix of what is left; a sleeping writer means a full pipe with the read end open; and readers are left asleep over unread bytes exactly under a condition on the call's inputs. |
| `Pipe.Pipe.ReadSection` | kernel/pipe.c:105-134 | A stretch of `piperead` returns the next bytes in order, as many as asked for, there and copyable; it sleeps only on an empty pipe with the write end open. |
| `Pipe.Pipe.Close` | kernel/pipe.c:58-74 | Closing an end wakes the other side; the pipe is freed exactly when both are closed. |
| `Pipe.Pipe.Rouse` | kernel/proc.c:592-611 | A kill wakes the process and keeps the invariant. |
| `Pipe.ReaderLeftAsleep` | kernel/pipe.c:83-87 | A reader asleep over an unread byte, after the writer was killed between two bytes. |
| `ShParser.Parser.constructor` | user/sh.c:333-338 | The end of the line is where its first NUL is. |
| `ShParser.Parser.GetToken` | user/sh.c:271-314 | `gettoken` returns the kind and the span of the next token and moves past it. |
| `ShParser.Parser.Peek` | user/sh.c:316-326 | `peek` tells whether the next token is one of the given symbols and consumes none. |
| `ShParser.Parser.ParseRedirs` | user/sh.c:380-403 | The redirections of the grammar, or its error. |
| `ShParser.Parser.ParseExec` | user/sh.c:421-452 | The command of the grammar, or its error; words go to the inner command whatever redirections come between. |
| `ShParser.Parser.ParseBlock` | user/sh.c:405-419 | The block of the grammar, or its error; the first panic is unreachable. |
| `ShParser.Parser.ParsePipe` | user/sh.c:367-378 | The pipeline of the grammar, or its error. |
| `ShParser.Parser.ParseLine` | user/sh.c:350-365 | The line of the grammar, or its error. |
| `ShParser.Parser.NulTerminate` | user/sh.c:455-499 | `nulterminate` writes a NUL at the end of every word of the command and nowhere else. |
| `ShParser.Parser.ParseCmd` | user/sh.c:333-348 | For every line the parser ends, agrees with the grammar, and leaves every argument and file name reading as exactly its token. |
| `ShTerminate.AllRead` | user/sh.c:455-499 | With NULs at all word ends, each word reads as its own text. |
| `ShTokens.LexWords` | user/sh.c:271-314 | Every word token is maximal: plain characters up to a space, a symbol or the end. |
| `ShSpacing.AnySpacing` | user/sh.c:268-314 | Tokens are read back whatever runs of the five white space characters stand before, between and after them; between two that do not run together none is needed. |
| `ShGrammar.LineTrip` | user/sh.c:350-452 | The tokens printed for a command, with parentheses only where needed, parse back to it. |
| `ShAccepts.AcceptsLanguage` | user/sh.c:333-452 | The grammar's parser accepts a line with a command exactly when the line spells it in a language defined by cutting token sequences at separators, without any parsing. |
| `ShAccepts.Unambiguous` | user/sh.c:350-452 | No line spells two commands. |
| `ShAccepts.RejectsTheRest` | user/sh.c:333-348 | Parsing fails exactly on the lines that spell no command. |
| `ShAccepts.PrinterSpells` | user/sh.c:350-452 | What is printed for a command spells it. |
| `ShGrammar.PLineMap` | user/sh.c:350-452 | Parsing does not depend on what is inside words. |
| `ShWords.LineSound` | user/sh.c:421-452 | Every word of an accepted command is a word of the line, and no command has more than nine. |
| `ShTheorems.RoundTrip` | user/sh.c:271-452 | Every command tree with at most nine good words to a command is parsed back from the line printed for it, whatever white space stands between the tokens. |
| `ShTheorems.ParsePrinted` | user/sh.c:333-499 | The parser run on that line gives the command, read word by word from the buffer it has cut up. |
| `ShTheorems.AcceptedPrintsBack` | user/sh.c:333-348 | Whatever line the parser accepts, printing the tree with any white space and parsing again gives the same tree. |
| `ShTheorems.AmpEndsCommand` | user/sh.c:350-365 | After the last `&` of a command a line is accepted exactly if it ends there, or if `;` and an accepted line follow; anything else is a syntax error. |
| `ShTheorems.WordLimit` | user/sh.c:438-446 | A command of plain words is accepted exactly when it has at most nine of them. |
| `Raster.Frame.DrawPixel` | kernel/fb.c:52-63 | The pixel has the colour if it is on the screen, and no other pixel changes. |
| `Raster.Frame.DrawLine` | kernel/fb.c:110-139 | The pixels painted are a path without gaps from one end to exactly the other, one for each step along the longer axis, each within half a pixel of the ideal line; no other pixel changes. |
| `RasterSpec.ErrStep` | kernel/fb.c:120-136 | The error term stays between 0 and the longer side, and counts the steps along and across. |
| `RasterSpec.ErrEnd` | kernel/fb.c:120-138 | After all steps along, the steps across are exactly the shorter side. |
| `Raster.Frame.DrawCircle` | kernel/fb.c:161-187 | For each y of an octant the x painted is the largest with x*x + y*y + 2*y <= r*r, in all eight octants, for exactly the rows the octant has; nothing is painted for a negative radius. |
| `RasterSpec.CircleStep` | kernel/fb.c:178-185 | The error term is x*x + y*y + 2*y - r*r, never above 0 at the head of the loop, and x + 1 is too wide. |
| `RasterSpec.CircleEnd` | kernel/fb.c:168-186 | When the loop ends no row of the octant is missing. |
| `RasterSpec.InsideAndOut` | kernel/fb.c:164-187 | Every point painted lies inside the circle, and the point diagonally further out lies outside. |
| `GrepMatch.Match` | user/grep.c:72-82 | `match` returns 1 exactly when the pattern's meaning holds of some suffix, or of the whole text after `^`. |
| `GrepMatch.MatchHere` | user/grep.c:85-96 | `matchhere` returns 1 exactly when a start of the text can be cut into one piece for each item of the pattern. |
| `GrepMatch.MatchStar` | user/grep.c:99-106 | `matchstar` does so for a repeated character followed by the rest of the pattern. |
| `GrepMatch.FirstItem` | user/grep.c:85-106 | A list of items describes a text exactly when its first item describes a piece at the start and the others the rest. |
| `Grep.Grep` | user/grep.c:11-35 | However `read` splits the input, what is printed is one function of the input. |
| `GrepSpec.SelectsMatching` | user/grep.c:11-35 | For every input that function gives the matching lines, in order, before the first line that holds a NUL or does not fit in the buffer. |
| `GrepSpec.AllPrinted` | user/grep.c:11-35 | All matching lines are printed exactly when none of them is at or after that line. |
| `GrepSpec.LineLost` | user/grep.c:17-34 | A line of 1024 bytes hides a matching line after it. |

## Findings

Places where the code does not do what its purpose suggests, each with the exact condition.

- A reader can stay asleep in `piperead` although there is a byte to read: `pipewrite` returns on
  `killed` without waking anybody (kernel/pipe.c:84-87). `Pipe.ReaderLeftAsleep` is a run, and
  `Pipe.Pipe.WriteSection` gives the condition on the call.
- grep stops at the first line that does not fit in its buffer, or that holds a NUL, and so loses
  matching lines after it (user/grep.c:17-34): `GrepSpec.LineLost` and `GrepSpec.AllPrinted`.
- `malloc` hands out memory it does not have when the size overflows the int that sbrk takes
  (user/umalloc.c:54): `Malloc.HugeRequest` and the last clause of `Malloc.Heap.Malloc`.
- `kkill(0)` finds a free entry, whose pid is 0, and marks it as killed; `allocproc` leaves the flag, so the
  next process there is born killed (kernel/proc.c:592-612, kernel/proc.c:109-150). `ProcsFree.KillZero` is a
  run, and `ProcsFree.BornKilled` with `ProcsFree.NewProcess` says exactly when it happens.
- A log of LOGBLOCKS blocks cannot be committed: it pins all NBUF buffers, as many, so that `write_log`
  panics in `bget` (kernel/param.h:9-11, kernel/log.c:179-192). `FsDriver.FullLog` is such a run, and
  `LogDriver.Log.Commit` says that with no other users of buffers this is the one way to fail. It takes
  operations that log MAXOPBLOCKS blocks; `FsDriver.Operation` logs fewer, and does not fail.
- The shell rejects a command after `&` (user/sh.c:356-363): `ShTheorems.AmpEndsCommand` says exactly
  what may follow.

## Left out

- Interrupts as such, memory ordering and fences: a step of a CPU is atomic, and a spinlock is taken in one step.
- Liveness: that a process is ever scheduled, and that other users of buffers ever release them.
- Storage: only one device, and every process modifies blocks only inside an operation and within MAXOPBLOCKS new blocks, which is proved of `filewrite` only.
- LogDriver.Log.Commit: other processes meanwhile hold no buffer of the log or of a logged block; waiting for one is covered by the theorems about runs.
- LogDriver.Log.EndOperation: other processes meanwhile hold no buffer of the log or of a logged block; waiting for one is covered by the theorems about runs.
- FsDriver.Operation: likewise, and no other process takes a step of its own meanwhile.
- LogDriver.Log.WriteHead: other processes meanwhile hold no buffer of the log or of a logged block; waiting for one is covered by the theorems about runs.
- LogDriver.Log.WriteLog: other processes meanwhile hold no buffer of the log or of a logged block; waiting for one is covered by the theorems about runs.
- LogDriver.Log.InstallTrans: other processes meanwhile hold no buffer of the log or of a logged block; waiting for one is covered by the theorems about runs.
- pid overflow in `allocpid`, and 32-bit overflow of pixel and block arithmetic outside the places named above.
- The reference counts of the inode table (`iget`, `idup`), directories, path names, link counts and devices.
- FileSystem.FileSystem.Writei: copying from user memory fails or succeeds for a whole block at a time.
- FsRuns.CrashedWrite: one process at a time changes the file system; others may read it meanwhile.
- FsFormat.FormattedOk: an empty disk; the root directory and the files that mkfs appends are left out.
- FileSystem.FileSystem.Format: likewise without the root directory.
- VirtualMemory.Vm: a page holds either page-table entries or bytes, and the free list is a sequence rather than links in the free pages.
- exec, `copyinstr`, the kernel's own page table and traps.
- Pipe.Pipe.ReadSection: the atomicity of `sleep` is taken from the process protocol; `copyin` and `copyout` fail from some byte on.
- VirtioDisk.Disk.DeviceComplete: the device does not report errors.
- VirtioDisk.Disk.Intr: the device adds no completion while the handler runs; the theorems about runs let it.
- ShParser.Parser.ParseExec: the exec node's words are kept apart from the redirections wrapped round it until the command is complete.
- Running commands in the shell, grep's arguments, and read errors in grep.
- The console, the UART, rectangles and sprites on the frame buffer, statistics calls and the other user programs.
