# xv6 in Dafny

A model of the parts of xv6 (the RISC-V teaching kernel, its mkfs, and three of its user programs)
whose correctness is not visible from any one function, with proofs of what they promise.

| files | what they model | form |
|---|---|---|
| `Log*.dfy` | the redo log and its buffers: crashes, recovery, group commit, capacity | a machine of steps and its runs; a class with the code of `kernel/log.c`, each method a stretch of a run |
| `Bio*.dfy` | the buffer cache's ring | a class over `next`/`prev` arrays |
| `Procs*.dfy` | processes, spinlocks, sleep and wakeup, sleep-locks, fork/exit/wait, the scheduler, on any number of CPUs | a machine of interleaved steps and its runs |
| `Vm*.dfy` | physical pages, Sv39 page tables, process memory, user copies | a class over memory, with the partial map it stands for as history |
| `Umalloc*.dfy` | the user-level allocator | a class over the circular free list |
| `Fs*.dfy` | blocks, bitmap, inodes' block lists, file contents, truncation; what a write takes of the log; the image mkfs builds | classes over the disk, with each block's role as history |
| `Dir*.dfy` | directories as bytes and as maps, paths, references, link counts, create/link/unlink | a class over inodes, with the counted names as history |
| `Virtio*.dfy` | the disk driver's descriptors and rings, with a device that may reorder | a class |
| `Grep.dfy`, `Shell*.dfy` | the regular expressions and lines of grep; the shell's grammar, tokens and parser | methods with loops against a declarative meaning |

Each proof goes over every input, every reachable state or every run.  Where the code does not keep
what one would expect of it, the code is modelled as it is, an input shows the failure, and the exact
condition under which the property does hold is proved.

## Findings

Each is a proved statement about the code as written.

- Log capacity (`LogCapacity.PanicFreeIff`, `LogCapacity.MkfsLayout`): begin_op reserves by a test that
  lets the log reach MAXOPBLOCKS + 2k blocks when operations write at most k.  With the log mkfs lays
  out, operations that use all of MAXOPBLOCKS can make log_write panic; with one block fewer they cannot.
- Log capacity and file writes (`FsFile.Writei`, `FsCapacity.TenBlocks`, `FsCapacity.FileWrites`): a chunk
  of filewrite logs at most 6 blocks and the bitmap blocks it allocates from, of which there are at most
  4.  With four bitmap blocks there are disks on which it logs all 10 (`FsCapacity.TenDiskFits` gives
  one).  So operations that log no more than file writes do can reach the panic exactly on disks of more
  than 24576 blocks: with the FSSIZE of 200000 in kernel/param.h, not with 2000 or 10000.
- Log capacity and truncation (`FsTrunc.Itrunc`, `FsCapacity.TruncateTooMuch`, `FsCapacity.TruncateFits`):
  itrunc logs the bitmap block of every block of the file.  Where they lie under more than nine bitmap blocks
  that is more than the MAXOPBLOCKS of an operation; a disk of at most nine has none such.
- Reads outside a transaction (`FsFile.Fileread`, `FsMkfs.BootRead`): fileread begins no operation, but readi
  gives holes blocks.  If none of another process is outstanding, log_write panics exactly if there is a hole in
  the range and a free block: listing the root directory of an image with the hole below does it.
- kill(0) (`ProcsCalls.BornKilledIff`, `ProcsRun.BornKilled`): unused slots have pid 0, so kill(0) finds one and
  marks it, and nothing but freeproc takes the mark away.  A new process starts killed exactly if kill found its
  slot so.
- Removed directories (`DirLive.PanicsIff`, `DirLive.UnlinkSafeIff`, `DirLive.FreedSafeIff`,
  `DirRun.RemovedParent`): sys_unlink removes a directory that is somebody's current directory.  Its ".."
  stays, the parent can be removed and freed, and a path on through that ".." then makes ilock panic.  A
  path panics exactly so.  Without such a directory no call panics, create and sys_link make none, and
  sys_unlink or iput makes one exactly if it frees the parent of a removed directory that is in use.  A run
  that never removes a directory that is referred to never gets there (`DirLive.UnlinkLiveIff`).
- Root directory hole (`FsImage.RootHolesIff`, `FsMkfs.Build`): mkfs rounds the root directory up to the
  next block even when it ends on one, so with 62 files (or 64n - 2) the image has a block missing below
  the size.  The first lookup of a name that is not there allocates the block, and panics exactly if the
  files fill the disk (`FsMkfs.BootLookup`; `DirFile.Dirlookup` has the condition for any directory).
- Failed copies in writei (`FsFile.TornWrite`, `FsFile.WroteExact`): if the copy from user memory fails
  inside a block, the bytes before the failure are in the buffer, but are neither reported nor logged.  Only
  the reported bytes were written exactly if those others were there before.
- sbrk's argument (`UmallocCode.SbrkExactIff`, `UmallocCode.SbrkWraps`): morecore passes a byte count as
  int.  It is the count meant exactly for requests of at most 2^31 - 32 bytes; one more asks to shrink.
- Long lines (`Grep.PrintsAll`, `Grep.PrintsAllIff`, `Grep.LongLineLost`): grep stops at the first line
  that does not fit its buffer.  It prints all matching lines, whatever the pattern, exactly if every line
  fits; for one pattern, exactly if none matches from the first overlong line on.
- Last lines (`Grep.TailDropped`): a last line without a newline is never printed, whatever it holds.
- uvmdealloc (`VmCode.Vm.Uvmdealloc`, `VmProc.DeallocPanics`, `VmProc.DeallocAbove`): a comment in
  kernel/vm.c says that oldsz may be larger than the process.  The code panics exactly if oldsz reaches
  into a page beyond the process and newsz not into the same one; one page more always makes it panic.

## Model

| member | source | states |
|---|---|---|
| LogModel.HeaderRoundTrip | kernel/log.c:86-114 | the words write_head lays over any stale block read back, by read_head, as the same block list |
| LogModel.StepInv | kernel/log.c:68-235 | every enabled step (operation, buffer, commit, crash, recovery) keeps the log invariant: pins, coherence of cache and disk, log area, installed prefix |
| LogSafety.RunInv | kernel/log.c:9-30 | the invariant holds in every state of every run, crashes and repeated recoveries included |
| LogSafety.RecoverDiskHolds | kernel/log.c:68-123 | recovery of a disk whose header lists h puts the logged copy in every home block and leaves an empty header, whatever prefix was installed before |
| LogSafety.CrashAtomicity | kernel/log.c:116-123 | stop any run anywhere: recovery leaves in the home blocks exactly the modifications of a prefix of those the steps have made, a prefix that no operation straddles |
| LogSafety.Durability | kernel/log.c:193-203 | the durable prefix of the history never loses an event, over any number of crashes and recoveries |
| LogSafety.EndOpDurable | kernel/log.c:144-175 | once the last end_op is back (nothing outstanding, not committing) every modification made so far is durable |
| LogSafety.GroupCommit | kernel/log.c:12-16 | no commit while an operation is outstanding; the durable prefix changes only at the header write, and then takes in the whole history |
| LogSafety.BreadReturnsBlockMap | kernel/bio.c:91-103 | outside recovery a read of a home block returns what all modifications the steps have made leave there, whatever was evicted, logged or installed |
| LogSafety.ModifyStep | kernel/log.c:205-213 | a modification shows at once in its block, in no other, and in the history |
| LogSafety.OtherStep | kernel/log.c:68-235 | every other step but a crash leaves the history, and what home blocks read as, alone |
| LogSafety.CrashStep | kernel/log.c:18-30 | a crash keeps the disk and nothing of memory; the history falls back to its durable prefix |
| LogSafety.RunHistory | kernel/log.c:193-203 | in every run the history and its durable prefix are what the steps say: modifications, header writes, crashes |
| LogCapacity.Reservation | kernel/log.c:125-142 | in every run the logged blocks plus the unused reservations stay within MAXOPBLOCKS + 2k, k the most blocks one operation writes |
| LogCapacity.PanicFreeIff | kernel/log.c:205-217 | the "too big a transaction" panic is unreachable exactly if the log has room for MAXOPBLOCKS + 2k blocks and one more |
| LogCapacity.PanicReachable | kernel/log.c:205-217 | a log without that room: a run that panics, though every operation keeps to its k blocks |
| LogCapacity.MkfsLayout | mkfs/mkfs.c:20-26 | with the log mkfs lays out, the panic is unreachable exactly if operations write fewer than MAXOPBLOCKS blocks |
| LogCode.FillHeader | kernel/log.c:99-114 | the loop of write_head leaves exactly the header of the list over the old block |
| LogCode.ReadHeaderWords | kernel/log.c:86-97 | the loop of read_head returns the list the header holds |
| LogCode.KernelLog.WriteHead | kernel/log.c:99-114 | the header goes to disk as one step of the model, commit or erasure |
| LogCode.KernelLog.WriteLog | kernel/log.c:177-191 | the copy loop is the run of write-log steps; it ends with every logged block in its slot |
| LogCode.KernelLog.InstallTrans | kernel/log.c:68-83 | the install loop, in commit and in recovery, is a run of install steps; it ends with every logged block home |
| LogCode.KernelLog.Commit | kernel/log.c:193-203 | commit, with none of its blocks held by a reader, ends with an empty log, everything durable, and home blocks equal to the replayed history |
| LogCode.KernelLog.RecoverFromLog | kernel/log.c:116-123 | the code computes the recovered disk of the model, whatever disk it is given in a run |
| LogCode.KernelLog.TryBeginOp | kernel/log.c:125-142 | admits the operation exactly if not committing and the log can hold MAXOPBLOCKS more for it and all outstanding ones |
| LogCode.KernelLog.LogWrite | kernel/log.c:205-235 | appends the block unless it is there (absorption); each panic exactly under its test, with nothing changed |
| LogCode.KernelLog.EndOp | kernel/log.c:144-175 | the operation leaves; if it was the last the log is committed, empty, and the disk equals the replayed history |
| LogCode.KernelLog.Read | kernel/bio.c:91-103 | bread by a thread: the buffer is its own and holds what was last written to the block |
| LogCode.KernelLog.Modify | kernel/log.c:205-213 | the holder stores data: the block, and no other, reads so from then on |
| LogCode.KernelLog.Brelse | kernel/bio.c:114-137 | the buffer is nobody's; nothing else changes |
| LogCode.KernelLog.Evict | kernel/bio.c:74-86 | recycling a buffer that is neither held nor logged changes what no block reads as |
| LogCode.KernelLog.Reboot | kernel/log.c:53-66 | a crash at any point between calls: the disk stays, the undurable modifications are gone |
| LogCode.Restart | kernel/log.c:116-123 | crash and recovery from any state: every home block on disk holds what the durable modifications leave there |
| LogCode.WriteBlock | kernel/log.c:205-213 | bread, modify, log_write and brelse of one block inside an operation |
| LogCode.Survives | kernel/log.c:144-175 | boot, one operation that writes a block, end_op, crash, recovery: the block has the data, every other is as it was |
| LogCode.Vanishes | kernel/log.c:144-175 | the same with the crash before end_op: every block is as it was |
| Bio.MoveRing | kernel/bio.c:114-137 | the six pointer assignments of brelse turn the ring into the same ring with that buffer first |
| Bio.ToFrontPermutation | kernel/bio.c:114-137 | moving a buffer to the front keeps every buffer in the ring exactly once |
| BioCode.Bcache.constructor | kernel/bio.c:36-53 | the pushes of binit make one ring of all buffers, unused |
| BioCode.Bcache.Bget | kernel/bio.c:58-89 | the cached buffer, or the least recently used unused one recycled; fails exactly if neither exists; no block is cached twice |
| BioCode.Bcache.Bread | kernel/bio.c:91-103 | the buffer holds what the block map holds, read from disk only if it was not valid |
| BioCode.Bcache.Modify | kernel/bio.c:1-14 | a holder changes the block map at this block and nowhere else |
| BioCode.Bcache.Bwrite | kernel/bio.c:105-112 | the disk gets the buffer; the block map does not change |
| BioCode.Bcache.Brelse | kernel/bio.c:114-137 | one reference fewer; at the last one the ring is the old one with this buffer first |
| BioCode.Bcache.Bpin | kernel/bio.c:139-144 | one more reference, nothing else |
| BioCode.Bcache.Bunpin | kernel/bio.c:146-151 | one reference fewer, nothing else |
| ProcsSafety.StepInv | kernel/proc.c:109-616 | every enabled step of any CPU (acquire, release, sched, sleep, wakeup, fork, exit, wait, scheduler, yield, kill) keeps the whole invariant |
| ProcsSafety.RunInv | kernel/proc.c:109-616 | the invariant holds in every state of every interleaving of any number of CPUs and processes |
| ProcsSafety.OneCpu | kernel/proc.c:444-481 | no process is on two CPUs |
| ProcsSafety.SchedChecks | kernel/proc.c:490-503 | sched finds its state changed and p->lock, and only p->lock, held by this CPU: its panics cannot happen |
| ProcsSafety.SpinChecks | kernel/spinlock.c:21-72 | acquire never finds the lock held by its own CPU, release always does |
| ProcsSafety.NoDeadlock | kernel/proc.c:23-27 | while a spinlock is held, its holder, or the holder of the p->lock that one waits for, has an enabled step |
| ProcsSafety.NeverResumesDead | kernel/proc.c:457-473 | the scheduler switches only to a thread waiting in sched or forkret and on no CPU |
| ProcsSafety.OwnerStep | kernel/sleeplock.c:21-41 | a step that is not the owner clearing this sleep-lock leaves its owner alone |
| ProcsSafety.SleepLockExcludes | kernel/sleeplock.c:21-41 | from acquiresleep to its own releasesleep a process owns the lock, over any steps in between |
| ProcsSafety.NoLostWakeup | kernel/proc.c:547-592 | with the inner lock free, whoever waits in acquiresleep waits for a lock that somebody owns |
| ProcsSafety.WakeupComing | kernel/proc.c:578-592 | with it held, the lock is owned or a wakeup loop is coming that has not passed the sleeper |
| ProcsSafety.WakesAll | kernel/sleeplock.c:33-41 | when releasesleep is about to return no process waits for the lock asleep |
| ProcsSafety.ZombieSeen | kernel/proc.c:346-435 | with wait_lock free a zombie has a live parent that is not asleep in wait |
| ProcsSafety.ReapSafe | kernel/proc.c:402-419 | wait frees a child only when it has left its stack for good, has no children and was not reaped before |
| ProcsSafety.ReapedOnce | kernel/proc.c:346-435 | every exited pid is reaped at most once and is, until then, a zombie with a live parent |
| ProcsSafety.PidsDiffer | kernel/proc.c:92-103 | no two live or zombie processes share a pid |
| ProcsCalls.WaitEnds | kernel/proc.c:391-435 | wait gives up exactly at the end of its scan, and then exactly if the process has no child or was killed; with a child and not killed it goes to sleep; it passes no zombie child |
| ProcsCalls.WaitReaps | kernel/proc.c:402-419 | wait returns a zombie child: its slot is unused and blank, its pid is reaped, nobody else changes |
| ProcsCalls.ForkReturns | kernel/proc.c:280-325 | fork returns with a runnable child of its own, never on a CPU before, with a pid nobody else has |
| ProcsCalls.NoSlotLost | kernel/proc.c:109-150 | a slot that is neither unused nor started belongs to a fork under way |
| ProcsCalls.ForkFails | kernel/proc.c:280-298 | fork may fail while it sets the slot up: the slot is blank and unlocked again, nothing else changed |
| ProcsCalls.CallsFail | kernel/proc.c:109-127 | fork may find no slot, wait may find no room for the status: both return, with nothing else changed and the zombie kept |
| ProcsCalls.StateTurns | kernel/proc.c:109-616 | a slot changes its state in nine ways, each only at its own step of the right process; a sleeper is woken only by a wakeup on its channel or a kill |
| ProcsCalls.OneOwner | kernel/sleeplock.c:21-41 | between two acquiresleep of a lock that succeed, the first one's process has released it |
| ProcsCalls.TakenOnReturn | kernel/sleeplock.c:21-31 | acquiresleep returns with the lock owned by its caller |
| ProcsCalls.AsleepOn | kernel/proc.c:545-572 | who is asleep is inside sleep, on the channel of what it waits for; outside sleep no channel is set |
| ProcsCalls.YieldInvisible | kernel/proc.c:509-519 | timer interrupts, context switches and the steps of other processes never change where a process is in its calls |
| ProcsCalls.PreemptIff | kernel/spinlock.c:86-110 | a process can be preempted exactly while its CPU holds no spinlock (and its own lock is free) |
| ProcsCalls.KilledIff | kernel/proc.c:597-616 | in every run a process is marked killed exactly if kill found its slot since the slot was last freed |
| ProcsCalls.KillWakes | kernel/proc.c:604-612 | the process kill finds is marked and not asleep afterwards; nothing else changes |
| ProcsCalls.BornKilledIff | kernel/proc.c:597-616 | a new process starts marked killed exactly if kill found its slot while unused, which has pid 0 |
| ProcsRun.BornKilled | kernel/proc.c:597-616 | the run: kill(0), then fork; the child is marked killed before it has run |
| ProcsRun.ForkExitWait | kernel/proc.c:280-435 | a run from boot: fork, wait sleeps, the child exits and wakes its parent, wait reaps it |
| ProcsRun.LockHandedOver | kernel/sleeplock.c:21-41 | a run from boot: the parent takes a sleep-lock, the child sleeps for it, is woken by the release, and has it |
| VmModel.HardwareIsView | kernel/vm.c:85-103 | the three-level tables in memory translate every virtual page exactly as the partial map says, 0 where it says nothing |
| VmModel.NoSharing | kernel/vm.c:143-172 | distinct user pages below TRAPFRAME, of one or of two processes, never share a physical page |
| VmModel.Partition | kernel/kalloc.c:33-82 | free list, page-table pages, user pages and pages held by the kernel partition the allocatable pages |
| VmModel.Pigeonhole | kernel/memlayout.h:39-59 | n mapped pages from 0 on need n allocatable pages |
| VmCode.Vm.Kalloc | kernel/kalloc.c:68-82 | pops the list, and fails exactly if it is empty |
| VmCode.Vm.Kfree | kernel/kalloc.c:46-63 | pushes a page that is in no table; every other page keeps its role |
| VmCode.Vm.Walk | kernel/vm.c:85-103 | finds the entry the map describes; with alloc adds only empty tables, and fails only with no page left |
| VmCode.Vm.Mappages | kernel/vm.c:143-172 | adds exactly the asked mappings; on failure exactly the first k of them, and then the free list is empty |
| VmCode.Vm.Uvmunmap | kernel/vm.c:177-199 | panics exactly if the start is not aligned or one of the pages is not mapped; otherwise removes exactly these mappings; the pages are free, or held, and nothing else changed |
| VmCode.Vm.Uvmalloc | kernel/vm.c:232-257 | zeroed pages for exactly the new range, or everything back as it was except page tables, and only for want of pages |
| VmCode.Vm.Uvmdealloc | kernel/vm.c:262-274 | panics exactly if it shrinks and a page between the sizes is not mapped; otherwise frees exactly the pages between the sizes |
| VmProc.DeallocPanics | kernel/vm.c:258-274 | for a process of a given size the pages between are all there exactly if oldsz reaches into no page beyond the process, or none lies between |
| VmProc.DeallocAbove | kernel/vm.c:258-274 | oldsz one page above any process: the kernel panics |
| VmCode.GrownBack | kernel/vm.c:232-257 | what uvmalloc had added before it failed is gone again |
| VmProc.Uvmcopy | kernel/vm.c:312-340 | the child gets each page, contents and flags, on pages of its own, or none at all |
| VmProc.Freewalk | kernel/vm.c:278-294 | the whole subtree of table pages is free afterwards, and nothing else changed |
| VmProc.Uvmfree | kernel/vm.c:298-304 | tables and user pages of this process are free, all others as before |
| VmProc.Uvmcreate | kernel/vm.c:203-213 | an empty page table on a page of its own, or 0 with nothing changed |
| VmProc.ProcPagetable | kernel/proc.c:176-206 | only trampoline and trapframe mapped, or 0 with every page back |
| VmProc.ProcFreepagetable | kernel/proc.c:210-216 | releases the whole page table; the trampoline and trapframe pages stay with their holder |
| VmProc.Growproc | kernel/proc.c:259-275 | for any C int, with 64-bit wrap-around: grown by zeroed pages the user can read and write, shrunk by exactly the pages beyond, or left alone; on failure the old size and mappings |
| VmProc.SizeBound | kernel/proc.c:259-275 | a process never has more pages than there is memory, so its size stays far below TRAPFRAME |
| VmCopy.Kinit | kernel/kalloc.c:26-41 | frees every page from the end of the kernel to PHYSTOP, each once |
| VmCopy.Copyout | kernel/vm.c:358-382 | fails exactly if some page of the range is not the user's to write; the bytes before it are written, nothing else |
| VmCopy.Copyin | kernel/vm.c:388-408 | fails exactly if some page is not the user's to read; otherwise returns the bytes there |
| VmCopy.CopyRoundTrip | kernel/vm.c:358-408 | what copyout wrote, copyin of the range reads back |
| VmCopy.PermAccess | kernel/vm.c:358-382 | the pages growproc adds are the user's to write; text pages only to read; pages without PTE_U neither |
| UmallocCode.Allocator.Search | user/umalloc.c:30-32 | the search from freep ends at the one block after which the freed block belongs |
| UmallocCode.Allocator.Free | user/umalloc.c:24-44 | the block is free, merged with the neighbours it touches; every other allocated block keeps its units; freep is the block it came after |
| UmallocCode.Allocator.Morecore | user/umalloc.c:46-61 | the new units, at least the asked number, join the free list; nothing changes if sbrk refuses |
| UmallocCode.Allocator.TakeUnits | user/umalloc.c:74-83 | the last units of a free block, or all of it; they were free and no other unit changes hands |
| UmallocCode.Allocator.Malloc | user/umalloc.c:63-90 | room for nbytes in units nobody has: the end of the first block after freep that is large enough; one call of morecore exactly if there is none |
| Umalloc.InsertOk | user/umalloc.c:30-43 | inserting and merging keeps the list in address order, free of overlap and of touching neighbours |
| UmallocCode.SbrkExactIff | user/umalloc.c:46-56 | the int argument of sbrk equals the bytes meant exactly for requests of at most 2^31 - 32 bytes |
| UmallocCode.SbrkWraps | user/umalloc.c:46-56 | one byte more: the argument is the most negative int |
| FsCode.Fs.Balloc | kernel/fs.c:65-88 | the lowest free block, marked and zeroed; fails exactly if no block is free; logs it and its bitmap block |
| FsCode.Fs.Bmap | kernel/fs.c:382-421 | the block of the file at this index, added (with an indirect block) if missing; no byte of any file changes; fails exactly if it costs more blocks than are free; every block and every bitmap block it changes is logged |
| FsFile.Readi | kernel/fs.c:471-499 | the file's bytes in the range; holes get blocks; short only if the holes cost more blocks than are free, and then the disk is full; with enough of them, -1 exactly if user memory cannot take the bytes, otherwise all of them and exactly these blocks added; every block it changes is logged, the inode is not |
| FsFile.Writei | kernel/fs.c:505-539 | -1 exactly if not allowed; all written exactly if the missing blocks are free and user memory gives all bytes; otherwise a prefix up to a block boundary; size, other bytes and files as they should be; no holes made; every changed block (the indirect one included, except one in which a copy failed), bitmap block and inode is logged; at most 6 blocks and the bitmap blocks, at most 4, for a chunk |
| FsFile.TornWrite | kernel/fs.c:517-526 | a copy that fails inside a block: nothing reported, nothing logged, but the bytes before the failure are in the buffer |
| FsFile.WroteExact | kernel/fs.c:517-526 | only the reported bytes were written exactly if the others that got into the buffers were there before |
| FsFile.ReadBack | kernel/fs.c:471-539 | what writei wrote, readi of the range reads back |
| FsFile.Filewrite | kernel/file.c:134-182 | the chunks add up to one write of a prefix of the data, from any offset, in exactly as many transactions as there are chunks; each logs at most 6 blocks and the bitmap blocks, at most 4 |
| FsFile.Fileread | kernel/file.c:106-130 | without a transaction of its own a read panics in log_write exactly if there is a hole in the range, a free block, and no operation outstanding; otherwise the bytes, and the offset moved by as many |
| FsFile.BudgetTotal | kernel/file.c:149-155 | data, bitmap, indirect and inode blocks of one chunk add up to at most 10, and to 6 and the bitmap blocks there are |
| FsCapacity.TenBlocks | kernel/file.c:149-155 | a chunk that logs exactly 10 blocks: the file has twelve blocks and the last four free blocks lie under four bitmap blocks |
| FsCapacity.TenDiskFits | kernel/fs.h:1-40 | a disk of four bitmap blocks that this fits, with every other block in use by a file or the system |
| FsCapacity.FileWrites | kernel/param.h:13-23 | with the log mkfs lays out, operations bounded as file writes are can reach log_write's panic exactly on disks of more than 3 * 8192 blocks |
| FsTrunc.Bfree | kernel/fs.c:90-105 | clears the bit of a block in use and logs its bitmap block; its panic cannot happen |
| FsTrunc.Itrunc | kernel/fs.c:424-453 | every block of the file, the indirect one included, is free; size 0; other files as before; logs the inode and exactly the bitmap blocks of those blocks |
| FsTrunc.TruncLogged | kernel/fs.c:424-453 | the bits itrunc changes are in the bitmap blocks it logs, and each of these has one |
| FsCapacity.TruncateTooMuch | kernel/fs.c:424-453 | a file whose truncation logs 13 blocks, more than begin_op has reserved for an operation |
| FsCapacity.TruncateFits | kernel/param.h:13-23 | itrunc logs no more than the bitmap blocks there are and one; on a disk of at most nine bitmap blocks that is within MAXOPBLOCKS |
| FsImage.Image.MapBlock | mkfs/mkfs.c:254-296 | the block at this index, taken from freeblock on, at the exact cost in blocks |
| FsImage.Iappend | mkfs/mkfs.c:253-296 | the bytes are appended, with exactly the blocks the new size needs |
| FsImage.RootHolesIff | mkfs/mkfs.c:165-170 | after the rounding the root directory is free of holes exactly if its entries did not fill whole blocks |
| FsMkfs.AddFile | mkfs/mkfs.c:131-163 | one file: its inode, its entry in the root directory, its bytes; all earlier files as before |
| FsMkfs.Build | mkfs/mkfs.c:108-175 | the image satisfies the kernel's invariant, has this root directory, in which each name leads to an inode that holds its file, uses exactly the blocks needed; its root is free of holes exactly if (files + 2) % 64 != 0 |
| FsMkfs.BootLookup | mkfs/mkfs.c:165-170 | the lookup of an absent name on a new image: panics exactly if (files + 2) % 64 == 0 and the files fill the disk; otherwise the hole gets a block |
| FsMkfs.RootCost | mkfs/mkfs.c:165-170 | such a lookup costs one block exactly if the root directory has its hole, otherwise none |
| FsMkfs.BootRead | kernel/file.c:106-130 | reading the root directory of a new image past its entries: panics exactly if it has its hole, a block is free and no operation is outstanding |
| Dir.AddName | kernel/fs.c:590-603 | writing an entry for a new name in an unused place adds exactly this key to the directory's map |
| Dir.DropName | kernel/sysfile.c:222-224 | clearing an entry removes exactly its key |
| Dir.PlacedReuses | kernel/fs.c:590-603 | entries in use stay in their places, and an unused one is taken before the directory grows |
| Dir.Skipelem | kernel/fs.c:622-645 | returns the next element, cut to 14 bytes, and the rest, with no element exactly at the end |
| Dir.ElemsJoin | kernel/fs.c:609-645 | the elements of a path are the pieces between its slashes, however many, each cut to its first 14 bytes |
| DirTree.PathMeans | kernel/fs.c:651-684 | a path is walked from the root exactly if it begins with a slash, otherwise from the current directory, along its elements |
| DirFile.DecodeEncode | kernel/fs.h:53-59 | an entry's 16 bytes read back as the entry |
| DirFile.Dirlookup | kernel/fs.c:551-575 | on the directory's bytes: panics exactly if the holes up to the entry, or to the end, cost more blocks than are free; otherwise finds the name exactly if an entry has it, and adds exactly those blocks |
| DirFile.Dirlink | kernel/fs.c:579-606 | on the directory's bytes: panics exactly as the lookup does; succeeds exactly if the name is new and an entry is unused or a block for the end can be had; the entries are the old ones with the new one in that place, otherwise no byte and no size changed |
| DirFile.PutEntry | kernel/fs.c:597-603 | the write of one entry fails exactly at the end of the directory when the maximal size or the free blocks do not allow it, and then leaves size and bytes as they were |
| DirFile.PresentNames | kernel/fs.c:551-575 | a name is found exactly if it is in the directory's map |
| DirCode.Tree.constructor | mkfs/mkfs.c:117-128 | the tree mkfs starts with satisfies the invariant |
| DirCode.Tree.Iput | kernel/fs.c:336-362 | one reference fewer; the inode is freed exactly if that was the last one and it has no links |
| DirCode.Tree.Idup | kernel/fs.c:281-288 | a holder's further reference keeps the invariant |
| DirCode.Tree.Release | kernel/fs.c:336-362 | a holder's iput keeps the invariant, and keeps directories from being stranded exactly if it does not free the parent of a removed directory in use |
| DirCode.Tree.Ialloc | kernel/fs.c:198-219 | the first free inode; fails exactly if there is none |
| DirCode.Tree.Dirlookup | kernel/fs.c:551-575 | the inode the directory's map gives for the name, 0 exactly if none |
| DirCode.Tree.Dirlink | kernel/fs.c:579-606 | one key more, or nothing; fails exactly if the name is there or a new block is needed and not to be had |
| DirCode.Tree.Namex | kernel/fs.c:651-684 | equals the fold of lookups over the path, with one reference net on success and none on failure; panics exactly if an inode to be locked on the way is free |
| DirCode.Tree.Create | kernel/sysfile.c:245-302 | a new inode under a new name, the file that was there, or nothing changed; fails, and panics, exactly under the stated conditions; keeps the invariant, strands no directory, and cannot panic if none is stranded |
| DirCode.Tree.Link | kernel/sysfile.c:123-170 | one name and one link more for a file, or nothing changed; fails, and panics, exactly under the stated conditions; keeps the invariant, strands no directory, and cannot panic if none is stranded |
| DirCode.Tree.Unlink | kernel/sysfile.c:188-243 | one name fewer, the inode freed exactly if unlinked and unreferenced, or nothing changed; "nlink < 1" never happens; keeps the invariant; strands a directory exactly under the stated condition, and cannot panic if none is stranded |
| DirCode.Tree.Isdirempty | kernel/sysfile.c:173-186 | true exactly if no entry after the first two is in use |
| DirSound.CreatedSound | kernel/sysfile.c:260-292 | create keeps link counts, parents and names consistent, also inside a removed directory |
| DirSound.RemovedLinked | kernel/sysfile.c:222-235 | sys_unlink takes away one counted name and one link, and the ".." of a removed directory from its parent's count |
| DirSound.FreeLinked | kernel/fs.c:340-357 | freeing an inode without links leaves no counted name that leads to it |
| DirCode.UnlinkedSound | kernel/sysfile.c:222-235 | the whole of sys_unlink, with the inodes it frees, keeps the invariant |
| DirLive.SafeCalls | kernel/fs.c:292-317 | as long as no removed directory in use has lost its parent, no path makes namex, create or sys_link panic |
| DirLive.WholeLive | kernel/fs.c:651-684 | as long as no directory in use was removed, every name leads to an inode in use with links |
| DirLive.UnlinkLiveIff | kernel/sysfile.c:188-243 | sys_unlink keeps that exactly if it does not remove a directory that is referred to |
| DirLive.PanicsWhere | kernel/fs.c:292-317 | a path panics only by walking to a removed directory whose parent is gone, then to its "..", and on |
| DirLive.ThroughPanics | kernel/fs.c:292-317 | and every such path panics |
| DirLive.PanicsIff | kernel/fs.c:651-684 | so a path panics exactly if it goes on through the ".." of such a directory |
| DirLive.UnlinkSafeIff | kernel/sysfile.c:188-243 | from a state without such a directory sys_unlink makes one exactly if it frees the parent of a directory in use that was removed, or is by this call |
| DirLive.FreedSafeIff | kernel/fs.c:336-362 | iput does exactly if it frees the parent of a removed directory in use |
| DirRun.RemovedParent | kernel/fs.c:651-684 | the run: /a/b is somebody's current directory, /a/b and then /a are removed, "../x" panics |
| DirLive.CreateUnlink | kernel/sysfile.c:188-302 | unlinking what was created, once unreferenced, gives back every inode and the parent's map |
| DirLive.LinkUnlink | kernel/sysfile.c:123-243 | unlinking a name that sys_link made gives back every inode and the directory's map |
| Virtio.TripleApart | kernel/virtio_disk.c:200-213 | the three descriptors of a request are distinct and shared with no other request |
| Virtio.AtMostTwo | kernel/virtio_disk.c:200-213 | eight descriptors are never enough for three requests in flight |
| Virtio.Wraps | kernel/virtio_disk.c:264-276 | with at most two entries outstanding the 16-bit ring indices decide as the unbounded counts would |
| VirtioCode.Disk.AllocDesc | kernel/virtio_disk.c:155-166 | the first free descriptor, or none exactly if none is free |
| VirtioCode.Disk.FreeDesc | kernel/virtio_disk.c:168-182 | the descriptor is blank and free; its panics cannot happen |
| VirtioCode.Disk.Alloc3Desc | kernel/virtio_disk.c:199-213 | three distinct free descriptors, or none taken |
| VirtioCode.Disk.Modify | kernel/bio.c:91-112 | a process changes a buffer it holds between requests; no request in flight is affected |
| VirtioCode.Disk.Submit | kernel/virtio_disk.c:215-283 | one request more in flight, formatted and queued, with the buffer as it is now if it is a write; or a sleep exactly for want of descriptors |
| VirtioCode.Disk.DeviceComplete | kernel/virtio_disk.c:231-263 | a device that follows the descriptors, in any order of requests: a write puts the buffer as it was submitted in its block, a read puts its block as it is now in the buffer, nothing else changes |
| VirtioCode.Disk.DeviceTake | kernel/virtio_disk.c:268-276 | the device finds the oldest queued request in the avail ring |
| VirtioCode.Disk.Intr | kernel/virtio_disk.c:294-327 | acknowledges every completed request once and no other; its status panic cannot happen |
| VirtioCode.Disk.Finish | kernel/virtio_disk.c:284-292 | the request's three descriptors, and only they, are free again; the buffer holds the block as it was read on completion, or the bytes submitted, whatever other requests did in between |
| Grep.MatchHere | user/grep.c:84-96 | true exactly if the items of the pattern, and $ if it ends so, match at the beginning of the text |
| Grep.MatchStar | user/grep.c:98-106 | true exactly if some number of accepted characters is followed by a match of the rest |
| Grep.Match | user/grep.c:72-82 | true exactly if the text contains a match, by the meaning of the pattern |
| Grep.PlainFound | user/grep.c:72-82 | a pattern without special characters is found exactly if it is a part of the text |
| Grep.AnchorsFound | user/grep.c:72-96 | with ^ exactly if it begins the text, with $ exactly if it ends it, with both exactly if it is the text |
| Grep.DotsAndStars | user/grep.c:84-106 | . is any one character, c* any number of c, .* anything |
| Grep.SelectLines | user/grep.c:20-27 | the lines to print of a text are exactly its newline-terminated lines that contain a match |
| Grep.ScanLines | user/grep.c:20-27 | the lines complete in the buffer are printed if they match, and only they |
| Grep.GrepFile | user/grep.c:11-35 | the output is a function of the input alone, however read splits it: the matching lines before the first that does not fit |
| Grep.PrintsAll | user/grep.c:11-35 | grep prints exactly the matching lines, for every pattern, exactly if every line fits the buffer |
| Grep.PrintsAllIff | user/grep.c:11-35 | grep prints all matching lines exactly if none matches from the first line on that does not fit the buffer |
| Grep.LongLineLost | user/grep.c:11-35 | a matching line of 1024 bytes, newline included, is not printed |
| Grep.TailDropped | user/grep.c:20-31 | a last line without a newline never changes the output |
| Shell.RoundTrip | user/sh.c:328-447 | every command tree of at most 9 arguments a command is the parse of its printing |
| ShellGrammar.GrammarIff | user/sh.c:328-447 | on every token sequence the parser yields a tree exactly if the tokens spell that tree, by a grammar stated without it: words and redirections mixed in any order, blocks, pipes, &, ; |
| ShellGrammar.OneTree | user/sh.c:328-447 | no line spells two trees |
| ShellText.TextRoundTrip | user/sh.c:262-447 | and so as text, with any white space: the spans parsed hold exactly its words |
| ShellText.TextIff | user/sh.c:262-447 | a line of text, its tokens laid out with any white space or none where they may touch, parses as a tree exactly if the tokens spell it |
| ShellCode.Parser.Gettoken | user/sh.c:266-309 | consumes exactly the next token and returns its kind and span |
| ShellCode.Parser.Peek | user/sh.c:311-321 | tells whether the next token starts with one of the characters, and consumes none |
| ShellCode.Parser.Redirections | user/sh.c:375-398 | parses as the grammar's redirections, fails exactly where it does |
| ShellCode.Parser.Execute | user/sh.c:416-447 | parses as the grammar's simple command or block, fails exactly where it does |
| ShellCode.Parser.Block | user/sh.c:400-414 | parses as the grammar's block, fails exactly where it does |
| ShellCode.Parser.Pipeline | user/sh.c:362-373 | parses as the grammar's pipeline, fails exactly where it does |
| ShellCode.Parser.Line | user/sh.c:345-360 | parses as the grammar's line, fails exactly where it does |
| ShellCode.Nulterminate | user/sh.c:450-494 | a NUL at the end of every word of the command, and nowhere else |
| ShellCode.WordsIntact | user/sh.c:450-494 | the NULs cut no word: each reads back whole and ends in a NUL |
| ShellCode.Parsecmd | user/sh.c:328-343 | fails exactly if the grammar does not parse the line; otherwise every word of the command is there to be read in the buffer |

## Left out

- VmModel.HardwareIsView: user page tables only; the kernel's own page table and copyinstr would add no new kind of argument.
- VmModel.Partition: page contents are typed by role (512 entries or 4096 bytes), so reading a table page as bytes is not expressible.
- ProcsCalls.KilledIff: kill is one step at the slot it finds; its scan over the table, and setkilled, are not modelled.
- ProcsSafety.NoDeadlock: safety only; that a fair scheduler lets every enabled step happen is not stated.
- ProcsSafety.NoLostWakeup: the callers of sleep modelled are sleep-locks and wait; pipes, the console, ticks and the log's own sleep are not.
- FsFile.Filewrite: ret == -1 names its possible causes, and the bound on logged blocks is for files without holes, which writei never makes; pipes, devices and the writable flag are not modelled.
- FsFile.Fileread: what the panicking kernel leaves behind, and the panic when a copy to user memory fails before the hole is reached, are not stated.
- FsCapacity.FileWrites: about operations bounded like a file write; how many blocks create and link log is not counted, and of unlink only itrunc's.
- LogCode.ReadHeaderWords: a header whose count is not between 0 and LOGSIZE, which read_head would follow past its array, is not modelled; every header in a run is within it (`LogSafety.RunInv`).
- LogCode.KernelLog.Commit: one call; the wait of its bread for a buffer of the log's list that a reader holds is not modelled (other buffers may be held).
- LogCode.KernelLog.EndOp: as for commit, if it is the last operation.
- UmallocCode.Allocator.Morecore: requests whose byte count is no C int are left to `UmallocCode.SbrkExactIff`; the heap after a shrinking sbrk is not modelled.
- UmallocCode.Allocator.Malloc: as for morecore.
- VmCode.Vm.Uvmunmap: freeing is for pages below the trapframe; what the panicking kernel leaves behind is not stated.
- VmCode.Vm.Uvmdealloc: as for uvmunmap.
- FsMkfs.Build: bits of the bitmap are booleans, not packed in bytes; contents of boot, super, log and inode blocks are not modelled.
- DirCode.Tree.Create: device numbers (major, minor) are not modelled, and room says whether the block for each new entry can be had; `DirFile.Dirlink` has the condition on the bytes and the free blocks.
- DirCode.Tree.Link: room, as for create.
- DirCode.Tree.Namex: one call at a time; inode locks, the size of the inode table and the valid flag are not modelled.
- DirFile.Dirlink: a name longer than 14 bytes is cut by its callers before it is compared or stored.
- VirtioCode.Disk.DeviceComplete: memory barriers, MMIO registers and negotiation are not modelled; the device sees memory as the driver last wrote it.
- ShellCode.Parser.Execute: the node parseexec fills in place while redirections wrap it is built as a value when it is complete.
- LogCode.KernelLog.TryBeginOp: the loop that sleeps and tries again is one call per round.
- Global equality of link counts and names: it is not kept by the code (a file created in a removed directory keeps its link when the directory is freed); `DirSound.CreatedSound` keeps the inequality, with equality for directories.
- exec, pipes, the console, traps, timers, device interrupts other than the disk's, and the remaining user programs.
