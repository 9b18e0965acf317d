# xv6 kernel core in Dafny

A model of the core of the x86 xv6 kernel as OS-Lab-1 has it, with its shell
parser and its grep matcher, and proofs of what the code keeps true. Lab 4 and
Lab 5 share most of these files; where a limit differs in Lab 5 the text says so.
`dafny verify dfyconfig.toml` checks everything.

## The modules

- `Disk`, `Wal`, `WalInvariant`, `WalSteps`, `WalCommit`, `WalTheorems`, `WalSleep`,
  `WalProgress`, `WalOps`: the
  write-ahead log as a transition system. Any number of processes read, modify
  and log blocks; each block write is one step, and power may fail between any
  two steps, those of recovery included. `Wal.Run` is a run, `Wal.Replay` the
  meaning of a history, `Disk.Recovered` what recovery makes of an image.
  `WalSleep` adds the processes asleep in `begin_op` and who wakes them; `WalProgress`
  says that commits end, `WalOps` that operations do.
- `Bio`, `Holding`, `LogImages`, `Log`, `FullLog`: the same layer as the code has it. The
  class `Bcache` is the buffer array with its `prev`/`next` list over a disk that
  takes writes at once and keeps a trace of its images. `Bcache.Valid` says that
  the list is a circle through every buffer, that no block of a real device has
  two buffers, and that a valid clean idle buffer equals the disk. The class `Log`
  runs commit and recovery over it; its contracts speak of every image in the trace.
- `FreeList`, `Umalloc`: the circular free list and the class `Allocator`.
- `Sleeplock`: sleep-locks over sleep, wakeup and kill, statement by statement.
- `Procs`, `ProcTree`: the process table as the class `Ptable`, and runs of
  fork, exit, wait and kill over it.
- `FsBlock`, `FsLayout`, `FsMap`, `FsTrunc`, `FsBudget`, `Fs`, `FsVolumes`, `FsRuns`: inode contents.
  Blocks are bytes; an indirect block is read as little-endian words and a bitmap
  block as bits. `FsLayout.Own` gives each block one owner, `FsLayout.File` is a
  file's bytes, and the class `Fs` has the code's methods. `FsBudget.Count` is what a
  write logs, exactly; `FsVolumes` has an empty volume and the volumes whose free
  blocks are scattered so that writes log the most.
- `Grammar`, `Forms`, `Lexer`, `Sh`: the shell's parser on tokens, the ways to write a
  tree that it accepts, tokens of a string, and the class `Parser`, whose methods move a cursor as the code does.
- `Grep`: the matcher against the language of its patterns.
- `Pipe`, `PipeRuns`: the ring buffer with wrapping counters, and runs of
  readers and writers that sleep and are woken.
- `Frames`, `Vm`: physical frames, the free list threaded through them, and
  two-level page tables (section 4.3, "32-bit paging", of the Intel SDM, volume
  3A) in the class `Machine`.
- `Params`, `Options`, `Sets`: constants, an option type, sizes of sets.

## Where the code falls short

- `log_write` tests for room before it looks for the block in the log
  (log.c:218-228), so that an operation within its budget can panic by logging
  one of its own blocks again while the log is full: `RelogMayPanic`.
  `PanicsOnlyWhenFull` says that this is the only panic. Transactions of `filewrite`
  never meet it, because the inode they log last is new: `CalmNeverPanics`.
- `mkfs` gives the log LOGSIZE blocks (mkfs.c:25), one of them the header, and
  so one slot too few for the reservation of `begin_op`: `BudgetHoldsIffRoom`.
- NBUF equals LOGSIZE (param.h:11-12). With LOGSIZE blocks pinned no buffer is
  left for commit to read a log block into: `NoBufferLeft`. A log of more than
  LOGSIZE blocks gets there with three operations within their budgets:
  `CommitFindsNoBuffer`. With the log that `mkfs` makes, `log_write` panics before
  that, at 29 blocks. `Log.Commit` is proved for every shorter list.
- `malloc` computes in 32 bits; for the last seven values of `nbytes` the sum wraps
  and the block handed out is a bare header: `Malloc`, `WrappedRequest`. Below them,
  from 2^31 - 15 on, the argument of `sbrk` does not fit an int. It is negative, or for
  eight values 0; `sbrk` takes space back or adds none, and `morecore` believes it has
  all it asked for: `Malloc`, `UngrantedRequest`.
- The chunk of 1536 bytes in `filewrite` counts on a bitmap block for every block
  it allocates. That happens only on volumes of five bitmap blocks or more, for
  which it is the largest safe chunk; with the one bitmap block of the 1000-block
  image (param.h:13) chunks of up to 3073 bytes fit: `ChunkFitsIff`. Lab 5's limit,
  computed from LOGSIZE, is over the budget on every volume, with every full chunk:
  `Lab5Breaks`, and a request of n bytes is safe there under the same condition on
  n: `Lab5FitsIff`.
- `kill(0)` finds a free slot, since free slots have pid 0 (proc.c:486-487), and
  `allocproc` does not clear the mark: the next process there is killed at birth:
  `BornKilled`. `ForkMakes` says that a new process is marked if and only if its slot was.
- `pipewrite` returns without waking readers when a killed writer has filled the
  pipe (pipe.c:86-89): `KilledWriterStrands`. `NeglectsIffStrands` and
  `NoLostWakeup` say that wakeups are lost just by that step.
- The shell opens `>` and `>>` with the same flags (sh.c:388-392), so a tree does
  not tell them apart.

## Model

| member | source | states |
|---|---|---|
| Disk.RecoveredDependsOn | OS-Lab-1/log.c:116-122 | recovery reads only the header, the slots the header counts, and the home blocks it does not list: images that agree there recover alike |
| Disk.RecoveredIs | OS-Lab-1/log.c:69-122 | if the slots hold v at the listed blocks and the other home blocks hold v already, recovery yields v |
| WalTheorems.RunKeeps | OS-Lab-1/log.c:126-233 | the protocol invariant (cache, log, history, committer) holds after every run, of any number of processes, with crashes anywhere |
| WalTheorems.CrashSafety | OS-Lab-1/log.c:126-174 | after any interleaved run the disk as it stands recovers to the effects of a set of whole operations, never of part of one |
| WalTheorems.DurableNeverShrinks | OS-Lab-1/log.c:145-202 | no step, not even a crash, takes back a durable operation, and when nobody is in an operation or committing all of history is durable |
| WalTheorems.HeaderCommits | OS-Lab-1/log.c:192-202 | the header write with n > 0 is the commit point: one block write takes the disk from recovering the old contents to recovering the new |
| WalTheorems.RecoveryEnds | OS-Lab-1/log.c:116-122 | recovery is never stuck, ends, clears the header, and leaves the home blocks as the durable history says |
| WalTheorems.CrashThenRecover | OS-Lab-1/log.c:69-122 | crash after any run, then let recovery finish: the home blocks hold exactly the replay of whole operations |
| WalTheorems.OneCommitter | OS-Lab-1/log.c:145-174 | there is one committer at most, while it commits nobody is inside an operation, and log.committing says when |
| WalTheorems.ReadsSeeWrites | OS-Lab-1/bio.c:96-106 | a read through the cache shows the latest write, and a logged block stays cached and dirty and cannot be evicted |
| WalTheorems.SpaceReserved | OS-Lab-1/log.c:125-141 | logged blocks and the unused budgets of all open operations together fit LOGSIZE, and the log lists no block twice |
| WalTheorems.PanicsOnlyWhenFull | OS-Lab-1/log.c:213-233 | with log.size > LOGSIZE a step panics if and only if it is log_write, on a full log, of a block its own operation has logged before; the panic log.committing is never reached |
| WalTheorems.BudgetHoldsIffRoom | OS-Lab-1/log.c:218-221 | an operation within its budget can always append if and only if log.size > LOGSIZE |
| WalTheorems.BudgetKept | OS-Lab-1/log.c:125-141 | the direction of BudgetHoldsIffRoom that holds, over all runs |
| WalTheorems.BreakBudget | OS-Lab-1/mkfs.c:25-25 | with nlog = LOGSIZE as mkfs sets it, a run in which an operation within its budget panics |
| WalTheorems.RelogMayPanic | OS-Lab-1/log.c:218-228 | a run, with room for LOGSIZE blocks, in which logging one's own block again panics because room is tested before absorption |
| WalTheorems.TransactionFits | OS-Lab-1/log.c:213-233 | an operation that logs at most MAXOPBLOCKS blocks, in any order, has a log_write taken if and only if it is not of a block it has logged before, on a full log |
| WalTheorems.CalmNeverPanics | OS-Lab-1/log.c:213-233 | given log.size > LOGSIZE, in any interleaving, a process whose operation logs a calm list of at most MAXOPBLOCKS blocks, as each transaction of filewrite does, has every log_write taken; the panic on logging again in a full log never comes |
| WalSleep.SleepsOnlyWithoutRoom | OS-Lab-1/log.c:125-141 | over every run, while a process sleeps in begin_op its begin_op could not go through: somebody commits, or the logged blocks, the open reservations and one more do not fit LOGSIZE; so no wakeup by end_op or commit is missing |
| WalSleep.SomeoneWillWake | OS-Lab-1/log.c:145-174 | over every run, while a process sleeps in begin_op some process that is not asleep is in an operation or commits |
| WalSleep.EndsWake | OS-Lab-1/log.c:145-174 | ending an operation wakes all sleepers or makes the process the committer; the last step of a commit, to which every commit comes (CommitEnds), wakes them all and leaves room for an operation |
| WalSleep.AsleepMoves | OS-Lab-1/log.c:125-174 | over every run: all sleepers wake when an operation ends without a commit, when a commit ends, and in a crash; kill wakes one; nothing else wakes anybody, and only sleepers are held up |
| WalProgress.CommitMoves | OS-Lab-1/log.c:177-202 | where the invariant holds, a committer's step is taken if and only if nobody holds the buffer it needs, and then exactly one step less is left |
| WalProgress.CommitEnds | OS-Lab-1/log.c:145-202 | over every run: a commit whose blocks nobody holds is over after exactly the steps it has left; then nobody commits, the log is empty, its header clear, and the home blocks hold the replay of the whole history |
| WalProgress.OthersLeaveCommit | OS-Lab-1/log.c:145-202 | over every run: no action of anybody else, but a crash, changes the disk, the list or what is left to do of a commit under way |
| WalOps.Effects | OS-Lab-1/bio.c:96-140 | over every run: what an action adds to the history, who then holds which buffer, and that what reads show changes by a store only, at that block only |
| WalOps.TakenIff | OS-Lab-1/log.c:126-233 | over every run, with log.size > LOGSIZE: each action is taken if and only if its caller need not wait or panic, condition by condition |
| WalOps.BeginsOrSleeps | OS-Lab-1/log.c:126-141 | over every run: a process at begin_op begins or goes to sleep, and sleeps if and only if there is a commit under way or no room |
| WalOps.OperationEnds | OS-Lab-1/log.c:126-233 | over every run: begin_op, any stores to at most MAXOPBLOCKS blocks that nobody else holds, each read, logged and released, and end_op all go through with nobody else inside; after the commit the disk itself holds the last store to each block, and the rest as it was read before |
| Bio.Bcache.constructor | OS-Lab-1/bio.c:38-56 | every buffer on the list once, all recyclable, the cache shows the disk |
| Bio.Bcache.FindCached | OS-Lab-1/bio.c:66-76 | the buffer of the block if one has it, else the list head |
| Bio.Bcache.FindVictim | OS-Lab-1/bio.c:78-91 | the least recently used buffer that nobody references and that is not dirty |
| Bio.Bcache.Bget | OS-Lab-1/bio.c:61-93 | a hit gains a reference, and waits if and only if another process holds that buffer; a miss recycles the least recently used clean idle buffer; the panic if and only if there is neither; no other buffer changes |
| Bio.Bcache.Bread | OS-Lab-1/bio.c:96-106 | returns the block's current contents, locked; waits if and only if the block's buffer is held, panics if and only if no buffer is at hand; the disk and what the cache shows are unchanged in every case |
| Bio.Bcache.Bwrite | OS-Lab-1/bio.c:109-116 | one disk block becomes the buffer's data, the buffer becomes clean, what the cache shows is unchanged |
| Bio.Bcache.Iderw | OS-Lab-1/memide.c:39-60 | a dirty buffer goes to the disk, a clean invalid one is filled from it; the four panics are preconditions |
| Bio.Bcache.MarkDirty | OS-Lab-1/log.c:231-231 | the buffer is dirty, which keeps it from being recycled, and nothing looks different |
| Bio.Bcache.SetData | OS-Lab-1/log.c:78-78 | new data is what every later bread of that block shows, and no other block looks different |
| Bio.Bcache.Brelse | OS-Lab-1/bio.c:120-141 | drops one reference; the last one moves the buffer to the front of the list, the order of the others unchanged |
| Bio.Bcache.MoveToFront | OS-Lab-1/bio.c:130-137 | six pointer writes: the list is again a circle through every buffer, with this one first |
| Bio.PushedLinks | OS-Lab-1/bio.c:133-136 | four pointer writes behind the head link the longer ring, in both directions |
| Bio.UnlinkedLinks | OS-Lab-1/bio.c:131-132 | two pointer writes link the ring without the buffer, in both directions |
| Bio.BreadView | OS-Lab-1/bio.c:96-106 | recycling and filling a buffer changes no block's visible contents |
| Bio.BwriteView | OS-Lab-1/bio.c:109-116 | writing a buffer through changes no block's visible contents |
| Holding.SpareBuffer | OS-Lab-1/param.h:10-12 | the cache has a clean buffer if and only if fewer than NBUF blocks are pinned |
| FullLog.NoBufferLeft | OS-Lab-1/bio.c:61-93 | with NBUF blocks pinned bget finds no buffer for any other block: it is not cached and nothing can be recycled |
| FullLog.CommitFindsNoBuffer | OS-Lab-1/log.c:177-190 | given log.size > LOGSIZE, three operations of ten blocks each, all within budget, lead to the state in which the last end_op would commit and bget of the first log block panics |
| LogImages.InstalledImage | OS-Lab-1/log.c:69-82 | after any prefix of install_trans the image still recovers to what it recovered to before |
| LogImages.LoggedImages | OS-Lab-1/log.c:177-190 | every image that write_log passes through recovers to the old contents |
| LogImages.CommittedImage | OS-Lab-1/log.c:102-113 | the image with the header written recovers to what the cache showed |
| LogImages.CommitTrace | OS-Lab-1/log.c:192-202 | the images of a whole commit: old contents before the header write, new ones from it on |
| Log.Log.constructor | OS-Lab-1/log.c:53-66 | an idle log with nothing outstanding |
| Log.Log.InstallTrans | OS-Lab-1/log.c:69-82 | copies every slot home in order, through exactly those images, and unpins each block as it does |
| Log.Log.WriteLog | OS-Lab-1/log.c:177-190 | fills the slots with the listed blocks as the cache has them, never with a stale disk copy |
| Log.Log.WriteHead | OS-Lab-1/log.c:102-113 | one block write puts the count and the block numbers on disk |
| Log.Log.ReadHead | OS-Lab-1/log.c:85-96 | lh becomes the list the disk's header holds, and nothing else changes |
| Log.Log.RecoverFromLog | OS-Lab-1/log.c:115-122 | the home blocks become the recovered ones, the header is cleared, and every image on the way recovers to the same contents |
| Log.Log.Commit | OS-Lab-1/log.c:192-202 | for every list of fewer than NBUF blocks: 2n + 2 block writes, of which the first n leave images that recover to the old contents and all later ones images that recover to the contents the cache showed; at the end nothing is pinned |
| Log.Log.LogWrite | OS-Lab-1/log.c:213-233 | accepts if and only if there is room and an operation is open; appends unless the block is listed (absorption) and pins it |
| Log.Log.LogBread | OS-Lab-1/log.c:204-233 | one block of an operation, read, logged and released: the list gains the block unless it has it, the cache pins exactly the list, and what it shows is unchanged |
| Log.Log.EndOp | OS-Lab-1/log.c:145-174 | the last operation commits for all, so that the home blocks become what the cache showed; any other changes only the count |
| FreeList.FreedSorted | OS-Lab-1/umalloc.c:25-44 | putting a block back keeps the list in address order with one wrap point and no two neighbours touching |
| FreeList.FreedSum | OS-Lab-1/umalloc.c:25-44 | the list gains exactly the block's units |
| FreeList.FreedCovers | OS-Lab-1/umalloc.c:33-42 | the units free afterwards are those free before and those of the block, no others |
| FreeList.FreedLinked | OS-Lab-1/umalloc.c:33-43 | the header writes of free link the new list into a circle |
| FreeList.UnlinkedLinks | OS-Lab-1/umalloc.c:76-77 | unlinking an exact fit links the rest into a circle |
| FreeList.TailLinks | OS-Lab-1/umalloc.c:79-81 | cutting the tail off a block keeps the circle |
| FreeList.TailSorted | OS-Lab-1/umalloc.c:79-81 | cutting the tail off a block keeps order and coalescing |
| FreeList.TailCovers | OS-Lab-1/umalloc.c:79-81 | the units taken are the last n of the block, the rest stay free |
| Umalloc.ScanStep | OS-Lab-1/umalloc.c:30-32 | free's scan stops at a position if and only if the block belongs there |
| Umalloc.FreedHeap | OS-Lab-1/umalloc.c:25-44 | the heap after free: list, live blocks and granted units fit together again |
| Umalloc.WholeTaken | OS-Lab-1/umalloc.c:76-77 | the heap after an exact fit was handed out |
| Umalloc.TailTaken | OS-Lab-1/umalloc.c:79-81 | the heap after a tail was handed out |
| Umalloc.SearchMoves | OS-Lab-1/umalloc.c:74-87 | each step of malloc's search leaves one position fewer ahead |
| Umalloc.Allocator.FindPlace | OS-Lab-1/umalloc.c:30-32 | the scan ends, at the one place where the block belongs |
| Umalloc.Allocator.Free | OS-Lab-1/umalloc.c:25-44 | the block's units become free and no others do; it leaves the live blocks; the heap stays well formed |
| Umalloc.Allocator.Take | OS-Lab-1/umalloc.c:75-84 | hands out the whole block or its tail, disjoint from every live and free block |
| Umalloc.Allocator.Malloc | OS-Lab-1/umalloc.c:64-90 | ends; asks for space once at most, and only if no free block is big enough; on success the live blocks gain exactly this one, which is as large as asked for if and only if nbytes <= 2^32 - 8, and free plus live units equal what morecore takes sbrk to have granted; sbrk has moved the end of memory by as much if and only if it was not asked or its argument is below 2^31; on failure the free units, the live blocks and what was granted are as before |
| Umalloc.WrappedRequest | OS-Lab-1/umalloc.c:64-90 | a call with nbytes = 2^32 - 1 that succeeds and hands out a header with nothing behind it |
| Umalloc.UngrantedRequest | OS-Lab-1/umalloc.c:47-61 | a call with nbytes = 2^32 - 15, for which sbrk is asked for 0 bytes: it succeeds and hands out 2^29 units of which sbrk has added none |
| Umalloc.Allocator.Morecore | OS-Lab-1/umalloc.c:47-61 | adds max(nu, 4096) units to the free list, coalesced, or 0 if sbrk fails and nothing changes |
| Sleeplock.RunKeeps | OS-Lab-1/sleeplock.c:23-42 | the invariant of locks, owners and sleepers after every run of any number of processes, kill included |
| Sleeplock.MutualExclusion | OS-Lab-1/sleeplock.c:23-53 | at most one process is in its critical section, and holdingsleep is true of it alone |
| Sleeplock.NoLostWakeup | OS-Lab-1/proc.c:418-474 | a process asleep on the lock implies the lock is taken, or a releaser that holds lk->lk has yet to reach it in wakeup |
| Sleeplock.NoDeadlock | OS-Lab-1/sleeplock.c:23-42 | while a process is in the lock's code some process can take a step or is in its critical section |
| Sleeplock.QuietMeansFree | OS-Lab-1/sleeplock.c:35-42 | with nobody left in the lock's code the lock is free and nobody sleeps |
| Sleeplock.Moves | OS-Lab-1/sleeplock.c:23-42 | over every run: a step waits for the spin lock it takes, and asleep for a wakeup, and for nothing else; each step taken brings its process nearer to having the lock, having given it up, or sleep |
| Sleeplock.AcquireEnds | OS-Lab-1/sleeplock.c:23-33 | over every run: a process that asks for the free lock, or is woken to find it free, has it after five, or six, steps of its own, and nobody else's state changes |
| Sleeplock.ReleaseEnds | OS-Lab-1/sleeplock.c:35-42 | over every run: a holder that lets go is out after n + 7 steps of its own; the lock is free, and exactly those who slept are runnable |
| Sleeplock.KillRouses | OS-Lab-1/proc.c:480-497 | kill waits for ptable.lock only, makes a sleeper runnable, and does nothing else |
| Procs.Ptable.constructor | OS-Lab-1/proc.c:121-154 | a table with init in it, RUNNABLE with pid 1, and nobody else |
| Procs.Ptable.Wakeup1 | OS-Lab-1/proc.c:458-465 | exactly the processes sleeping on the channel become RUNNABLE |
| Procs.Ptable.AllocProc | OS-Lab-1/proc.c:74-93 | the first unused slot becomes EMBRYO with the next pid, or None and nothing changes |
| Procs.Ptable.Fork | OS-Lab-1/proc.c:181-222 | one new RUNNABLE slot with the caller as parent, or -1 and a slot that is unused again |
| Procs.Ptable.Exit | OS-Lab-1/proc.c:247-267 | the whole table after exit: parent woken, children handed to init, init woken if one of them is a zombie, the caller a zombie; nobody else woken, and no other field changed |
| Procs.ExitMeans | OS-Lab-1/proc.c:247-267 | what exit does to each slot of the table, by the slot's parent, state and channel |
| Procs.Ptable.Wait | OS-Lab-1/proc.c:276-311 | one pass of wait, by the caller's children: a zombie child is freed and its pid returned if there is one; -1 if there is none, and no child at all or the caller has been killed; else the caller sleeps on itself; nothing else changes |
| Procs.WaitMeans | OS-Lab-1/proc.c:276-311 | what wait returns and does to the table, by the caller's children alone |
| Procs.Ptable.Kill | OS-Lab-1/proc.c:480-497 | the first slot with that pid is marked and woken; found if and only if there is one |
| ProcTree.RunKeeps | OS-Lab-1/proc.c:181-312 | the invariant of the process table after every run of fork, exit, wait, sleep, wakeup and kill |
| ProcTree.Tree | OS-Lab-1/proc.c:228-268 | every live or zombie process but init has a live parent, and parents lead to init |
| ProcTree.NoMissedExit | OS-Lab-1/proc.c:273-312 | a process asleep in wait has a living child and no zombie child, and has not been killed |
| ProcTree.ReapedOnce | OS-Lab-1/proc.c:181-312 | no process exits or is reaped twice, and what exited is reaped or still a zombie |
| ProcTree.WaitReaps | OS-Lab-1/proc.c:281-300 | wait with a zombie child returns the pid of one that exited and was never returned before |
| ProcTree.WaitAnswers | OS-Lab-1/proc.c:273-312 | over every run, for a first call and after every wakeup: wait returns -1 if and only if the caller has no living or zombie child, or has been killed and has no zombie child; it sleeps if and only if it has children, none a zombie, and has not been killed; in both cases nothing else changes |
| ProcTree.OnlyParentReaps | OS-Lab-1/proc.c:288-300 | a zombie leaves the table only through a wait of its parent, which returns its pid |
| ProcTree.KillHits | OS-Lab-1/proc.c:480-497 | kill of a positive pid marks exactly the process that has it and wakes it if it sleeps; with no such process it does nothing |
| ProcTree.WakeupHits | OS-Lab-1/proc.c:458-474 | over every run: wakeup makes exactly the processes asleep on the channel runnable |
| ProcTree.SleepWakePick | OS-Lab-1/proc.c:418-474 | over every run: a process that sleeps can do nothing until its channel is woken, no other channel's wakeup reaches it, and then the scheduler resumes it as it was |
| ProcTree.ExitLeaves | OS-Lab-1/proc.c:228-268 | over every run: exit is refused to init alone, and leaves the table as ExitMeans says |
| ProcTree.TakenIff | OS-Lab-1/proc.c:325-370 | over every run: each action is taken if and only if its process is where the action belongs; the scheduler can resume every runnable process; a trap marks and a yield requeues just the process that runs |
| ProcTree.NoSlotLost | OS-Lab-1/proc.c:74-93 | over every run: a slot that is neither free nor a process is being filled by a process in fork |
| ProcTree.ForkMakes | OS-Lab-1/proc.c:181-222 | over every run: fork puts a runnable process with a pid never used before and the caller as parent into the first free slot; a fork that fails for want of memory leaves the slot free, and with no free slot nothing changes |
| ProcTree.BornKilled | OS-Lab-1/proc.c:480-490 | five actions after which a process is marked killed from birth: kill(0) finds a free slot |
| ProcTree.ExitKeeps | OS-Lab-1/proc.c:228-268 | exit keeps the invariant though it reparents, wakes and dies in one scan |
| FsBlock.SetPtrPtr | OS-Lab-1/fs.c:391-394 | storing a block number in an indirect block's bytes: that entry reads back, the others are unchanged |
| FsBlock.SetBitBit | OS-Lab-1/fs.c:68-69 | setting a bitmap bit sets that bit and no other |
| FsBlock.ClearBitBit | OS-Lab-1/fs.c:90-93 | clearing a bitmap bit clears that bit and no other |
| FsLayout.SpliceSplice | OS-Lab-1/fs.c:482-511 | writes of consecutive pieces are one write of the whole |
| FsLayout.MarkBits | OS-Lab-1/fs.c:57-95 | after a bit is set or cleared the bitmap marks exactly that block more or less |
| FsLayout.AttachOwn | OS-Lab-1/fs.c:373-400 | a free block given to an empty place keeps every block with one owner |
| FsLayout.TakenKeeps | OS-Lab-1/fs.c:57-78 | balloc's block is in no file, and no file's blocks move or change |
| FsMap.MappedOne | OS-Lab-1/fs.c:379-382 | direct slot, or indirect with its block there: the file grows by one zeroed block, nothing else changes |
| FsMap.MappedTwo | OS-Lab-1/fs.c:386-396 | the first indirect block: the file grows by one data block, two blocks are allocated, nothing else changes |
| FsMap.MappedHolds | OS-Lab-1/fs.c:373-400 | no file's bytes change when a block is mapped |
| FsMap.BlitHolds | OS-Lab-1/fs.c:500-501 | bytes copied into block bn at o are a write at bn * BSIZE + o of the file |
| FsMap.WrittenOn | OS-Lab-1/fs.c:497-504 | two rounds of writei's loop are one write: their allocations add up, and together they log exactly what one write would |
| FsMap.WrittenEnds | OS-Lab-1/fs.c:506-510 | setting the size turns the partial writes into Splice of the old contents; what was logged is exactly the data blocks, the bitmap blocks of the new blocks, the indirect block if it lists one of them, and the inode if the file grew |
| FsTrunc.NoSharing | OS-Lab-1/fs.c:373-400 | no block is named by two (inode, index) places, indirect blocks included |
| FsTrunc.FreePlusOwned | OS-Lab-1/fs.c:57-95 | free blocks and owned blocks add up to all data blocks, and a block is owned if and only if some place names it |
| FsTrunc.StillMarked | OS-Lab-1/fs.c:90-91 | a block that itrunc has yet to free is still marked, so the panic freeing free block is not reached |
| FsTrunc.Truncated | OS-Lab-1/fs.c:408-435 | after the loops of itrunc the other files are untouched and the bitmap is theirs alone |
| Fs.Fs.Balloc | OS-Lab-1/fs.c:57-78 | the lowest free data block, marked, zeroed and logged; the panic, with nothing changed, if and only if there is none |
| Fs.Fs.Bfree | OS-Lab-1/fs.c:82-95 | the bitmap marks one block less, that block, and no other block of the volume changes; the panic is the precondition |
| Fs.Fs.AllocAddr | OS-Lab-1/fs.c:380-381 | a zeroed block, the lowest free, is attached to the empty slot and nothing else changes; None if and only if no block is free |
| Fs.Fs.AllocPtr | OS-Lab-1/fs.c:391-394 | a zeroed block, the lowest free, is attached through the indirect block and nothing else changes; None if and only if no block is free |
| Fs.Fs.Bmap | OS-Lab-1/fs.c:373-400 | returns the block's place; allocates, from the lowest free blocks, only for the file's next block; other files, sizes and contents unchanged; logs exactly the bitmap blocks of the new blocks, the new block, and the indirect block if it lists it; the panic if and only if the one or two blocks it needs are not there |
| Fs.Fs.Readi | OS-Lab-1/fs.c:453-476 | -1 exactly on a bad range, else exactly the slice of the file; allocates nothing and changes nothing |
| Fs.Fs.Writei | OS-Lab-1/fs.c:482-511 | -1 exactly on a bad range or beyond MAXFILE, with nothing changed; the panic if and only if the range is good and the blocks it needs are not there; else the file is the old one with src written at off, no other file changes, exactly the blocks of WriteDone are logged, and the inode on disk agrees with memory |
| Fs.Fs.Itrunc | OS-Lab-1/fs.c:408-435 | the file gives back exactly its blocks; the others keep theirs, contents included |
| Fs.Fs.WriteChunk | OS-Lab-1/file.c:139-145 | one transaction logs at most MAXOPBLOCKS distinct blocks, and none of them again once it has logged that many; it panics if and only if the blocks run out |
| Fs.Fs.Filewrite | OS-Lab-1/file.c:118-156 | all chunks together are one write of src at the offset, or of the chunks before the one that would pass MAXFILE; every transaction logs at most MAXOPBLOCKS blocks, and in a calm order; the panic if and only if the volume lacks the blocks for the bytes it accepts |
| Fs.Fs.constructor | OS-Lab-1/fs.c:171-184 | a volume that satisfies the invariant, with an empty log |
| FsBudget.CostBound | OS-Lab-1/file.c:127-133 | blocks spanned and bitmap blocks come to at most eight, for any alignment and file size, if n is at most Largest of the number of bitmap blocks |
| FsBudget.CountBound | OS-Lab-1/file.c:127-133 | on a volume with m bitmap blocks a write of at most Largest(m) bytes logs at most MAXOPBLOCKS blocks, whichever blocks are free |
| FsVolumes.ChunkFitsIff | OS-Lab-1/file.c:133-133 | over all volumes of at most m bitmap blocks and all their states, a limit keeps every chunk within budget if and only if it is at most Largest(m): 3073, 2561, 2049, 1537 for m = 1 to 4 and 1536 from 5 on |
| FsVolumes.SizeFitsIff | OS-Lab-1/file.c:127-145 | the same for writes of exactly n bytes: all of them keep to the budget if and only if n is at most Largest(m) or no file can hold them |
| FsVolumes.Overrun | OS-Lab-1/fs.c:57-78 | for each m up to 5 and each n above Largest(m), a volume of m bitmap blocks, with the invariant, from which a write of n bytes logs more than MAXOPBLOCKS blocks |
| FsRuns.Exceed | OS-Lab-1/fs.c:482-511 | writei run on that volume: more than MAXOPBLOCKS blocks are logged |
| FsVolumes.FormattedInv | OS-Lab-1/mkfs.c:92-114 | for every valid super block the volume without files satisfies the invariant |
| FsBudget.LoggedBlocks | OS-Lab-1/fs.c:482-511 | from an empty log a write logs exactly Count blocks: those it spans, the bitmap blocks of the lowest free blocks, of which it takes as many as it needs, the indirect block and the inode when they change |
| FsBudget.CalmWrite | OS-Lab-1/fs.c:496-510 | the inode comes last and once, so that a chunk of at most 1536 bytes never logs a block again after ten of them |
| FsBudget.Lab5Breaks | OS-Lab-5/file.c:133-133 | every full chunk of the LOGSIZE-based limit logs 13 blocks or more, over the budget of 10 |
| FsVolumes.Lab5FitsIff | OS-Lab-5/file.c:133-145 | the first chunk that Lab 5's filewrite takes of n bytes always keeps to the budget if and only if n is at most Largest(m) |
| FsBudget.FileSoOn | OS-Lab-1/file.c:135-152 | a chunk after a finished prefix is a longer finished prefix |
| Grammar.ParsePrint | OS-Lab-1/sh.c:327-342 | parsing the printed form of any tree with at most nine words per command gives the tree back, nothing left over |
| Grammar.PrintLine | OS-Lab-1/sh.c:344-359 | a line printed before anything that ends a line parses back, up to that point |
| Grammar.PrintPipe | OS-Lab-1/sh.c:361-372 | the same for pipelines |
| Grammar.PrintExec | OS-Lab-1/sh.c:415-446 | the same for commands, redirections and parenthesised lines |
| Grammar.ArgsBack | OS-Lab-1/sh.c:430-442 | the same for words followed by redirections |
| Grammar.LineFits | OS-Lab-1/sh.c:439-440 | no parse yields a command with more than nine words |
| Grammar.PrintParsed | OS-Lab-1/sh.c:327-342 | whatever parses, parses to the same tree after being printed |
| Forms.LineParses | OS-Lab-1/sh.c:344-446 | every way to write a tree parses to that tree: redirections in any order before, between and behind the words, output as > or >>, redundant parentheses, trailing & |
| Forms.ParsesIff | OS-Lab-1/sh.c:327-446 | a token list parses to a tree if and only if it is a way to write that tree, and is refused if and only if it is no way to write any |
| Forms.PanicWhy | OS-Lab-1/sh.c:327-446 | each panic names what is wrong: leftovers behind a line, a missing file name, a missing ), too many arguments, or a token no argument can be |
| Lexer.LexRender | OS-Lab-1/sh.c:266-308 | tokens written with spaces between them are read back |
| Lexer.CharClasses | OS-Lab-1/sh.c:262-263 | the five blanks separate, the seven operators are tokens of their own, and any string without them is one word |
| Lexer.LexGood | OS-Lab-1/sh.c:266-308 | every token read is a symbol or a non-empty word without spaces or symbols |
| Lexer.LexSpaced | OS-Lab-1/sh.c:266-308 | tokens written with any runs of spaces before, between and after them, empty ones where two tokens do not run together, are read back |
| Lexer.LexReads | OS-Lab-1/sh.c:266-308 | every line is its tokens written with some such runs of spaces |
| Sh.Parser.SkipSpace | OS-Lab-1/sh.c:272-273 | moves over spaces only: the tokens left are the same |
| Sh.Parser.GetToken | OS-Lab-1/sh.c:266-308 | returns the next token of the line and leaves the rest, or the end |
| Sh.Parser.Peek | OS-Lab-1/sh.c:311-320 | tells whether the next token starts with one of the characters, and consumes none |
| Sh.Parser.ParseRedirs | OS-Lab-1/sh.c:375-397 | agrees with the grammar, which ParsesIff pins for every line, on result, panic and cursor |
| Sh.Parser.ParseExec | OS-Lab-1/sh.c:416-446 | agrees with the grammar, on result, panic and cursor |
| Sh.Parser.ParseBlock | OS-Lab-1/sh.c:400-413 | agrees with the grammar, on result, panic and cursor |
| Sh.Parser.ParsePipe | OS-Lab-1/sh.c:362-372 | agrees with the grammar, on result, panic and cursor |
| Sh.Parser.ParseLine | OS-Lab-1/sh.c:345-359 | agrees with the grammar, on result, panic and cursor; the recursion ends on every input |
| Sh.ParseCmd | OS-Lab-1/sh.c:328-342 | the tree of the whole line, or the panic the grammar prescribes |
| Sh.RoundTrip | OS-Lab-1/sh.c:266-446 | for every printable tree: write it as a string, lex and parse it, and get the tree |
| Sh.AnySpacing | OS-Lab-1/sh.c:262-263 | every printable tree, written with any runs of spaces between its words and symbols, parses to that tree |
| Sh.AnyForm | OS-Lab-1/sh.c:266-446 | every way to write a tree, with any runs of spaces, is lexed and parsed to that tree |
| Sh.LineReads | OS-Lab-1/sh.c:266-446 | every string that parses is such a way to write its tree |
| Grep.Match | OS-Lab-1/grep.c:73-82 | true if and only if some substring of the text, or some prefix after ^, is in the language of the pattern |
| Grep.MatchHere | OS-Lab-1/grep.c:85-96 | true if and only if a prefix of the text is in the language, all of it after a final $ |
| Grep.MatchStar | OS-Lab-1/grep.c:99-106 | true if and only if the text is a run of c followed by a match of the rest |
| Grep.ManyTakes | OS-Lab-1/grep.c:98-106 | what c* followed by a pattern denotes |
| Grep.OneTakes | OS-Lab-1/grep.c:93-94 | what one character followed by a pattern denotes |
| Grep.Concatenation | OS-Lab-1/grep.c:66-67 | the language of two patterns in a row is the concatenation of their languages |
| Pipe.WriteFifo | OS-Lab-1/pipe.c:79-98 | a writer's section appends the next bytes of its buffer, as many as there is room for; it is done if these were the last, gives up on a full pipe without readers or when killed, and sleeps on a full pipe else |
| Pipe.ReadFifo | OS-Lab-1/pipe.c:101-121 | a reader's section sleeps, or fails when killed, just on an empty pipe open for writing; else it takes exactly the oldest min(n, occupancy) bytes; a read of n > 0 returns 0 if and only if the pipe is empty and the write end closed |
| Pipe.Wrapped | OS-Lab-1/pipe.c:94-94 | a counter wrapped at 2^32 still finds its place in the buffer |
| Pipe.FullWraps | OS-Lab-1/pipe.c:85-85 | the wrapped test for full is the real one |
| Pipe.Ring.constructor | OS-Lab-1/pipe.c:23-45 | empty, both ends open |
| Pipe.Ring.Put | OS-Lab-1/pipe.c:94-94 | the byte joins the end of the written history and overwrites nothing unread |
| Pipe.Ring.Get | OS-Lab-1/pipe.c:117-117 | the oldest unread byte |
| Pipe.Ring.Write | OS-Lab-1/pipe.c:79-98 | the ring buffer does what WriteSection does to the histories |
| Pipe.Ring.Read | OS-Lab-1/pipe.c:101-121 | the ring buffer does what ReadSection does to the histories |
| Pipe.Ring.CloseEnd | OS-Lab-1/pipe.c:60-75 | closes one end and keeps the bytes; the pipe is freed if and only if the other end was closed already |
| PipeRuns.FirstInFirstOut | OS-Lab-1/pipe.c:79-121 | over all runs what was read is a prefix of what was written, at most 512 bytes behind |
| PipeRuns.WritesWhole | OS-Lab-1/pipe.c:79-98 | over every run: the bytes that came from a write call are the first ones of its buffer, in order, whatever is between them, and all of them if the call has returned n; every byte came from some call |
| PipeRuns.WriteReturns | OS-Lab-1/pipe.c:79-98 | over every run: what a writer's turn puts in, and whether it returns n, returns -1 or sleeps; readers wake unless it gave up |
| PipeRuns.ReadReturns | OS-Lab-1/pipe.c:101-121 | over every run: a reader's turn sleeps, or fails when killed, just on an empty pipe open for writing; else it returns the next n bytes or all there are, and the reads together are a prefix of what was written |
| PipeRuns.CloseWakes | OS-Lab-1/pipe.c:60-75 | over every run: after an end is closed nobody sleeps on the other, and the bytes stay |
| PipeRuns.CallsStart | OS-Lab-1/pipe.c:79-121 | over every run: what a call begins with, and that kill wakes the process it hits, whichever end it sleeps on |
| PipeRuns.NoLostWakeup | OS-Lab-1/pipe.c:79-121 | over every run: no state has a reader asleep beside bytes or beside a closed write end, if and only if no step of the run is a killed writer, or one without readers, about to run with more bytes to go than fit, beside a sleeping reader |
| PipeRuns.NeglectsIffStrands | OS-Lab-1/pipe.c:79-98 | step by step: from a state without such a reader a step leads to one with, if and only if it is that step |
| PipeRuns.WritersSleepOnFull | OS-Lab-1/pipe.c:85-92 | over every run, killed writers included, a sleeping writer means a full pipe with a reader |
| PipeRuns.NoDeadlock | OS-Lab-1/pipe.c:79-121 | over every run, killed writers included, a reader and a writer are not both asleep |
| PipeRuns.KilledWriterStrands | OS-Lab-1/pipe.c:86-89 | five actions, the last of them a killed writer's, after which a reader sleeps beside a full pipe |
| Frames.MapOwn | OS-Lab-1/vm.c:72-72 | an entry for a frame nobody uses gives it one owner and changes no other page |
| Frames.UnmapOwn | OS-Lab-1/vm.c:269-275 | freeing a page's frame and clearing its entry takes exactly that page away |
| Frames.NewTableOwn | OS-Lab-1/vm.c:43-53 | a new table changes no page of any directory |
| Frames.TouchesPage | OS-Lab-1/vm.c:222-249 | pages outside an operation's range keep their bytes and flags, in every directory |
| Frames.OneFrame | OS-Lab-1/vm.c:316-345 | no two user pages, of one directory or two, share a frame |
| Frames.AddedDropped | OS-Lab-1/vm.c:341-344 | freeing the directory that was added gives back exactly what there was |
| Frames.WriteFrame | OS-Lab-1/vm.c:380-380 | bytes written to a user page's frame are seen at that page and at no other address of any directory |
| Frames.WroteOn | OS-Lab-1/vm.c:372-384 | consecutive page-wise writes are one byte-wise write |
| Vm.Machine.constructor | OS-Lab-1/kalloc.c:31-37 | no frame is free or in use yet |
| Vm.Machine.Freerange | OS-Lab-1/kalloc.c:47-53 | the frames of the range are on the free list, last first |
| Vm.Machine.Kalloc | OS-Lab-1/kalloc.c:83-95 | the head of the free list, or None if and only if it is empty; free, owned and held frames stay a partition |
| Vm.Machine.Kfree | OS-Lab-1/kalloc.c:60-77 | the frame goes to the head of the list, on which it was not |
| Frames.AccessIs | OS-Lab-1/vm.c:52-52 | the stricter of the two levels rules, and directory entries are always open: a mapped page permits just what its own entry says |
| Vm.Machine.Walkpgdir | OS-Lab-1/vm.c:36-55 | the table for the page; without one it takes exactly one frame for it, whose directory entry is open to writes and to the user, or fails if there is none or it must not; no page changes |
| Vm.Machine.Mappages | OS-Lab-1/vm.c:61-80 | user frames in the caller's hands, or kernel addresses: the pages that the bytes lie in are mapped to consecutive frames, with the flags asked for at both levels together, if and only if there is a free frame for each table of the range that is missing, and exactly those are taken; else -1, with the pages before the first refused one mapped and no frame left; no other page changes and users' bytes are kept |
| Vm.Machine.Allocuvm | OS-Lab-1/vm.c:222-249 | newsz with zeroed pages up to it, which the user may read and write, if and only if there are free frames for the new pages and their missing tables; else 0 with the mapping as before; all other pages and frames unchanged, none lost |
| Vm.Machine.Deallocuvm | OS-Lab-1/vm.c:256-279 | no page of the range is mapped, its frames are free, nothing else changes; skipping a missing table skips no page |
| Vm.Machine.Freevm | OS-Lab-1/vm.c:284-298 | every frame the directory owned is freed once, and every other directory keeps its pages |
| Vm.Machine.Setupkvm | OS-Lab-1/vm.c:119-136 | a new directory with the kernel's mappings, writable just as kmap says, no user page and no kernel page open to users, if and only if there are free frames for the directory and the distinct tables of the mappings, and exactly those are taken; else None and nothing changed |
| Vm.Machine.Copyuvm | OS-Lab-1/vm.c:316-345 | the same bytes, flags and access at every page below sz, in frames that were not in use, and no kernel page open to users, if and only if there are free frames for the directory, the kernel's tables, the pages and their tables, and exactly those are taken; else None and nothing changed |
| Vm.Machine.Copyout | OS-Lab-1/vm.c:366-386 | p at va byte by byte, seen at no other address; -1 exactly at the first page the user may not access |

## Left out

- Umalloc.Allocator.Malloc: the page fault that writing a header behind the end of memory may raise, and what sbrk answers after a request whose argument overflowed: its answers are taken to lie behind what morecore believes it has.
- Umalloc.Allocator.Free: an address that malloc did not return, which the code does not detect either.
- Procs.Ptable.AllocProc: overflow of the pid counter after 2^31 forks, which C leaves undefined; pids are unbounded here.
- Procs.Ptable.Exit: closing files and the working directory before the lock is taken, and init's panic, which is a precondition.
- Sleeplock.AcquireEnds: who gets a contended lock; the code promises no order.
- Sleeplock.RunKeeps: kill is one step under ptable.lock, and a woken process is picked by the scheduler in one step.
- Pipe.Ring.CloseEnd: the wakeup that goes with it is a step of PipeRuns; the page of a freed pipe is not followed.
- PipeRuns.NoLostWakeup: steps are the stretches between taking and releasing the pipe's lock; instruction-level interleaving is what Sleeplock shows for sleep and wakeup.
- WalTheorems.RunKeeps: the cache has no capacity limit there, and log blocks go to disk without a buffer; Bio and Log have the 30 buffers.
- Log.Log.Commit: a list of NBUF blocks, for which commit panics (CommitFindsNoBuffer); buffers that readers outside any operation hold meanwhile, which Wal has; a crash inside a method appears as the trace of disk images rather than as a stop.
- Log.Log.EndOp: the same, when it commits.
- Log.Log.BeginOp: sleeping on the log is the answer false, after which the caller tries again; WalSleep has the sleepers and their wakeups.
- WalTheorems.CalmNeverPanics: Log over Bio and Wal are two models of log.c, the one with its buffers and loops, the other with its processes and crashes; no refinement from the one to the other is proved, and the lists that Filewrite leaves are the link to it.
- WalSleep.SomeoneWillWake: fairness; that the process which will wake the sleepers is given its steps. Given them, a commit ends: CommitEnds.
- Bio.Bcache.Bget: a waiting process takes the buffer up again when its holder releases it, which is Sleeplock's subject; two processes in the cache at once are the subject of Wal.
- Bio.Bcache.Brelse: a clean buffer whose data was changed and neither written nor logged, which the callers never release.
- Fs.Fs.Bmap: block numbers beyond the file's next block, which readi and writei never ask for.
- Fs.Fs.Writei: the state after a panic; device inodes, and the byte layout of on-disk inodes, of which dinodes holds the fields size and addrs.
- Fs.Fs.Filewrite: pipes and devices behind a file, and other writers between two chunks.
- Fs.Fs.Itrunc: ialloc, iget, iput and directories, which call it.
- Sh.Parser.ParseExec: the code adds words to a node that redirections already wrap; the method builds the tree when the words are known. nulterminate is the slicing of words.
- Vm.Machine.Copyout: a missing page table, which uva2ka does not survive, is excluded by precondition.
- Vm.Machine.Mappages: a user range whose frames the caller does not hold, a physical address inside a frame, and a page mapped already, for which the code panics.
- Vm.Machine.Kfree: the fill byte written before the link, which the link or the next user overwrites.
- Vm.Machine.Walkpgdir: the accessed and dirty bits the hardware sets, and the TLB.
- Frames are typed by their last use (free, bytes, table), and so is a block read as a log header; the C casts between these views are not modelled.
- growproc, exec and loading programs into an address space.
- Boot, interrupts, drivers, the console, system-call arguments, path names, priority locks and shared memory.
- grep's line buffering and output.
