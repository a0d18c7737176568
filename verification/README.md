# A verified model of the xv6 kernel's hard parts

This project models the parts of the kernel and its user programs where a mistake is easy to make and
hard to see, and proves what they are for:

* the write-ahead log over the buffer cache, with a crash allowed between any two block writes;
* the block-level file system: the bitmap, the direct and indirect block map, byte-level reading and
  writing, directories, link counts and the lifetime of inodes;
* Sv39 page tables with lazily allocated heap pages (section 4.4 of the RISC-V Privileged Architecture,
  version 20211203, with the translation algorithm of its section 4.3.2);
* sleep and wakeup, where storing the channel and going to sleep are separate steps and a wakeup visits
  one process at a time, with its clients: sleeplocks, the log's waiters, and fork, exit and wait;
* the user heap allocator;
* the virtio disk driver, its device and its interrupt handler (section 2.6 of VIRTIO 1.1);
* the shell's parser and grep's matcher.

Two forms recur.  A concurrent part is a machine: a state, the steps that processes, the device or a
crash can take, an invariant that every step keeps, and theorems about every state of every run.  The code
itself is a class whose methods have the loops and branches of the source, each proved against a function
of the old state; where a machine exists beside it, the class carries the machine's state as a ghost and
takes one machine step for every locked section, so that what is proved of all runs holds of the code.

| file | part |
|---|---|
| Basics.dfy | options, and sets of the elements of a list |
| Journal.dfy | the log as a machine: operations, commits, crashes, recovery |
| BufferCache.dfy | the cache with its pins, refining the log machine |
| BufferList.dfy | the doubly linked list of buffers |
| Pins.dfy | when bget finds no buffer, and the run in which a full log stops its own commit |
| LogCode.dfy | the code of log.c over the cache |
| DiskBytes.dfy, FileBlocks.dfy, LogShare.dfy | bitmap, block map, file contents, and their share of the log |
| Links.dfy, Sysfile.dfy | names, link counts and inode lifetime; the code of link, unlink, create |
| Transactions.dfy | the same between begin_op and end_op, with crashes, and the restart |
| PageTree.dfy, Vm.dfy, FreeWalk.dfy | page-table trees, user memory, taking trees down |
| Sleep.dfy, Monitor.dfy, Sleeplock.dfy, LogWait.dfy | sleep and wakeup, waiting under a spinlock, sleeplocks, the log's waiters |
| ExitWait.dfy, ProcCode.dfy | fork, exit and wait as a machine and as code |
| Malloc.dfy | malloc and free |
| Virtio.dfy | descriptors, rings, driver threads, device, interrupt handler |
| Shell.dfy, ShellCode.dfy | the grammar, its printer and the round trip; the cursor code and nulterminate |
| Grep.dfy | the matcher and its meaning |

What the source promises but does not keep unconditionally is stated with the exact condition:

* log_write tests for a full log before it looks for the block, so an operation may be refused a block it
  has logged already.  `Journal.FullLogRefusesAbsorption` builds a run that ends there, and
  `Journal.NoOverflow` says when the panic cannot happen.
* There are as many buffers as log blocks, so a full log can pin them all, and then the commit that would
  empty it finds no buffer for the first log block and panics.  `Pins.FullLogStopsCommit` builds such a run
  with the kernel's NBUF buffers.  With nobody holding a buffer, bget panics if and only if the block is not
  pinned and the pinned blocks are as many as the buffers (`Pins.BgetPanicsIff`), so a commit panics if and
  only if the log is not empty and as large as the cache (`LogCode.Log.Commit`).
* sbrk takes an int, so a request reaches it unchanged if and only if it is below 2^27 units; for any larger
  one that malloc can make, sbrk is told to shrink or to add at most one unit (`Malloc.SbrkArgumentExact`).

## Model

| member | source | states |
|---|---|---|
| Journal.EncodeHeader | kernel/log.c:75-87 | decoding the header block written for a list of block numbers gives the list back, and the rest of the block is untouched |
| Journal.Absorb | kernel/log.c:186-194 | logging a block leaves the header duplicate-free and adds that block and nothing else |
| Journal.TotalCreditBounds | kernel/log.c:108-114 | the unused credit of all open operations is at most MAXOPBLOCKS for each |
| Journal.InvKept | kernel/log.c:42-213 | begin_op, log_write, end_op, every block write of commit and recovery, sys_sync and a crash each keep the invariant: what the disk recovers to is the history up to the last commit, and used log space plus open credit fits the log |
| Journal.RunInv | kernel/log.c:42-213 | the invariant holds in every state of every run from a formatted disk |
| Journal.RecoversTo | kernel/log.c:89-96 | reading the header and installing what it names turns any recoverable disk into its image |
| Journal.CrashAtomicity | kernel/log.c:42-96 | in every state of every run, a crash there and a whole recovery leave every non-log block as the writes up to the last commit point made it, and that point splits no operation |
| Journal.RecoveryCompletes | kernel/log.c:89-96 | when a recovery ends, after any number of crashes in the middle of earlier ones, the disk equals the last commit and no history is lost |
| Journal.CommitsStay | kernel/log.c:148-173 | a commit whose header write finished stays a commit point, with the same history before it, through everything later including crashes |
| Journal.WriteAhead | kernel/log.c:42-60 | a home block on disk changes only while the header on disk names it, and only to its committed contents |
| Journal.GroupCommit | kernel/log.c:121-146 | while a commit runs no operation is open and none can open; all writes of one operation lie between the same two commit points |
| Journal.NoOverflow | kernel/log.c:175-196 | in every run an operation with credit left never meets the full-log panic, and end_op never meets its committing panic |
| Journal.FullLogRefusesAbsorption | kernel/log.c:180-194 | a reachable state in which log_write panics on a block that the same operation has already logged |
| Journal.SyncIsDurable | kernel/log.c:198-213 | when sys_sync returns, every write of every operation that ended before the call is in a commit |
| BufferCache.CacheKept | kernel/bio.c:36-123 | every action on buffers (bget, bread, bwrite, brelse, bpin, bunpin, log_write, commit's copies, recovery, power failure) keeps the cache coherent with the log machine |
| BufferCache.ActionRefines | kernel/bio.c:36-123 | every such action is, on the log machine, one of its steps or no step, so eviction and caching are invisible |
| BufferCache.CacheRunInv | kernel/bio.c:36-123 | the cache invariant in every state of every run |
| BufferCache.CacheRefinesJournal | kernel/log.c:42-196 | every run of the cache and log code projects onto a run of the log machine |
| BufferCache.ReadsLatest | kernel/bio.c:66-77 | outside recovery, whatever bread returns for a non-log block is the latest logged contents of that block |
| BufferCache.PinsMatchLog | kernel/log.c:175-196 | a buffer's reference count is its holders and waiters plus one exactly when its block is pinned; pinned blocks are exactly the log header's; at most one buffer caches a block |
| Pins.FreeBuffer | kernel/param.h:9-11 | if pinned blocks and held buffers together are fewer than the buffers, some buffer is unreferenced |
| Pins.FullyPinnedPanics | kernel/bio.c:36-64 | with as many pinned blocks as buffers, bget panics for every block that is not pinned, whoever holds what |
| Pins.BgetPanicsIff | kernel/bio.c:36-64 | with no buffer held, bget panics for a block if and only if it is not pinned and the pinned blocks are as many as the buffers; they are never more |
| Pins.FullLogStopsCommit | kernel/log.c:148-173 | a run with NBUF buffers that ends at the start of a commit whose first bread panics |
| BufferList.Bcache.PushFront | kernel/bio.c:97-104 | the pointer updates put the buffer right after the head and keep the list a doubly linked ring |
| BufferList.Bcache.Unlink | kernel/bio.c:98-99 | the pointer updates take exactly that buffer out of the ring |
| BufferList.Bcache.constructor | kernel/bio.c:18-34 | binit links all buffers into one ring |
| BufferList.Bcache.Bget | kernel/bio.c:36-64 | the forward scan finds the cached block if there is one, else the backward scan recycles the least recently released unreferenced buffer, else it panics; nothing else changes |
| BufferList.Bcache.Brelse | kernel/bio.c:87-107 | the count drops by one and the buffer moves to the front exactly when it reaches zero |
| LogCode.Log.FindSlot | kernel/bio.c:36-64 | the two searches of bget: a buffer that caches the block, else an unreferenced one, else exactly bget's panic |
| LogCode.Log.Bread | kernel/bio.c:36-77 | panics exactly when bget does, with nothing changed; otherwise the buffer returned is locked by the caller, valid, caches the block, and no other buffer changes |
| LogCode.Log.Brelse | kernel/bio.c:87-107 | the step of the cache machine that releases the buffer |
| LogCode.Log.WriteLog | kernel/log.c:148-161 | the loop copies every logged block to its log slot, one write at a time; it panics exactly if its first bread does, and then nothing has changed |
| LogCode.Log.CopyOne | kernel/log.c:154-159 | one turn of that loop, with both buffers released again, or a panic exactly when the log slot has no buffer |
| LogCode.Log.WriteHead | kernel/log.c:75-87 | the header write: the commit point of everything logged; panics exactly when the header block has no buffer |
| LogCode.Log.ClearHead | kernel/log.c:170-171 | the count is zeroed and written, ending the commit; panics exactly when the header block has no buffer |
| LogCode.Log.InstallTrans | kernel/log.c:42-60 | the loop installs every logged block, unpinning unless recovering; a recovery never panics, a commit exactly if the first bread does |
| LogCode.Log.InstallOne | kernel/log.c:51-58 | one turn of that loop, with the same condition |
| LogCode.Log.Commit | kernel/log.c:163-173 | panics, with nothing changed, exactly if something is logged and no buffer can be had for the first log block, which with no buffer held means exactly a log as large as the cache; otherwise every home block on disk equals the logged contents and the log is empty |
| LogCode.Log.ReadHead | kernel/log.c:62-73 | the in-memory header becomes the decoded one |
| LogCode.Log.RecoverFromLog | kernel/log.c:89-96 | after it every home block on disk holds the last committed contents and the log is empty |
| LogCode.Log.constructor | kernel/log.c:30-40 | a formatted disk and an empty cache start a run |
| LogCode.Log.BeginOp | kernel/log.c:98-119 | one pass of the loop: admitted exactly when no commit runs and a whole operation still fits |
| LogCode.Log.Enter | kernel/log.c:186-194 | the scan and the append: the header list after absorption, and whether the block is new |
| LogCode.Log.LogWrite | kernel/log.c:175-196 | panics exactly on a full log or outside an operation; otherwise the absorbed header and one pin for a new block |
| LogCode.Log.LeaveOp | kernel/log.c:126-136 | the operation is closed; the last one out starts the commit |
| LogCode.Log.FinishCommit | kernel/log.c:140-144 | the commit counter moves on and everything ended is durable |
| LogCode.Log.EndOp | kernel/log.c:121-146 | the last operation's end commits, or panics exactly when that commit does: every home block on disk then holds what was logged, and everything ended is durable |
| DiskBytes.SetBit | kernel/fs.c:59-62 | sets that bit of the bitmap block and no other |
| DiskBytes.ClearBit | kernel/fs.c:81-85 | clears that bit and no other |
| DiskBytes.SetWord | kernel/fs.c:318-323 | the little-endian word reads back and every other word of the block is unchanged |
| DiskBytes.Patch | kernel/fs.c:415-417 | the copied bytes are there and all others of the block are unchanged |
| FileBlocks.AllocationInvisible | kernel/fs.c:37-72 | allocating and zeroing a block changes no address and no byte of any file |
| FileBlocks.TruncateDone | kernel/fs.c:333-361 | clearing a file's slots leaves every other file's ownership, addresses and bytes as they were |
| FileBlocks.FlatWrite | kernel/fs.c:400-432 | block-level writes amount to splicing the bytes into the flat contents, growing them only past the end |
| FileBlocks.BudgetTotal | kernel/fs.c:293-331 | a write within one chunk logs at most nine distinct blocks before the inode's: data, bitmap and indirect blocks at any alignment |
| FileBlocks.Fs.constructor | mkfs/mkfs.c:108-111 | a formatted disk with empty inodes, where exactly the blocks before the data are marked, is a valid file system |
| FileBlocks.Fs.FindClear | kernel/fs.c:57-60 | the first clear bit of one bitmap block, if there is one |
| FileBlocks.Fs.Take | kernel/fs.c:61-66 | that block marked and zeroed |
| FileBlocks.Fs.Balloc | kernel/fs.c:49-72 | a block that was free and unowned becomes marked and zeroed; it fails exactly when every data block is marked |
| FileBlocks.Fs.Bfree | kernel/fs.c:74-88 | clears exactly that block's bit; freeing a free block is the panic |
| FileBlocks.Fs.GrowDirect | kernel/fs.c:299-307 | a fresh block becomes the direct slot's and nothing else changes |
| FileBlocks.Fs.GrowEntry | kernel/fs.c:317-326 | a fresh block becomes the indirect entry's and nothing else changes |
| FileBlocks.Fs.Bmap | kernel/fs.c:293-331 | the slot's block, allocated if it was missing; ownership stays one to one, existing slots and all bytes are unchanged, and an existing slot causes no write at all |
| FileBlocks.Fs.BmapIndirect | kernel/fs.c:308-328 | the same for slots behind the indirect block, allocating that block first if needed |
| FileBlocks.Fs.WriteOne | kernel/fs.c:412-423 | one block's worth of bytes written at an offset |
| FileBlocks.Fs.WriteRound | kernel/fs.c:411-424 | one turn of writei's loop: what it wrote, what it logged, and why it stopped |
| FileBlocks.Fs.Writei | kernel/fs.c:400-432 | the contents become the old ones with the written bytes spliced in; size grows only by what was written; no holes; other files unchanged; the blocks logged stay in budget |
| FileBlocks.Fs.Readi | kernel/fs.c:373-398 | returns the matching slice of the flat contents and allocates, logs and changes nothing |
| FileBlocks.Fs.FreeDirect | kernel/fs.c:340-345 | frees exactly the direct blocks |
| FileBlocks.Fs.FreeIndirect | kernel/fs.c:347-357 | frees exactly the indirect blocks and the block that listed them |
| FileBlocks.Fs.Itrunc | kernel/fs.c:333-361 | the file is empty, exactly its blocks are free again, every other file is unchanged, and bfree never meets a free block |
| FileBlocks.Fs.WriteChunk | kernel/file.c:144-149 | one transaction of filewrite: its writes fit the operation's share of the log |
| FileBlocks.Fs.Filewrite | kernel/file.c:122-162 | the chunks together splice the whole buffer at the file offset, and every chunk fits the log |
| LogShare.FilewriteNeverPanics | kernel/file.c:137-155 | in every run, an operation that logs only what one filewrite chunk logs never meets the full-log panic |
| Links.InvKept | kernel/sysfile.c:113-307 | lookup, reference counting, ilock, link in its two transactions steps and its undo, unlink, create with all its failure paths, and freeing keep link counts, the tree and lifetimes right |
| Links.RunInv | kernel/sysfile.c:113-307 | the invariant in every state of every run |
| Links.FreshInv | mkfs/mkfs.c:120-165 | a file system with only a root directory satisfies it |
| Links.LinkCounts | kernel/sysfile.c:113-307 | in every state a file's nlink is its live names plus pending links, a live directory's is one plus its live subdirectories, and names in a directory are unique |
| Links.NoDangling | kernel/fs.c:441-491 | in every state every entry of a live directory names a live inode, and every referenced inode exists |
| Links.FreedExactly | kernel/fs.c:236-261 | an inode disappears only with no link and no reference left, and then it can |
| Links.AllRooted | kernel/sysfile.c:243-307 | from every live directory the parent entries lead to the root in as many steps as its depth |
| Links.UnlinkFinds | kernel/fs.c:441-464 | the entry unlink finds names a live inode other than the directory itself |
| Sysfile.Dirlookup | kernel/fs.c:441-464 | the position of the first entry with the name, or that there is none |
| Sysfile.Dirlink | kernel/fs.c:466-491 | refuses a taken name; otherwise the entry fills the first empty slot or extends the directory if there is room |
| Sysfile.Isdirempty | kernel/sysfile.c:172-185 | true exactly when nothing but the two dot entries is in use |
| Sysfile.NewEntries | kernel/sysfile.c:284-287 | the dot entries of a new directory, as far as they could be written |
| Sysfile.Ireclaim | kernel/fs.c:270-290 | from a tree whose counts are exact with no link pending, the scan frees exactly the allocated inodes without links and leaves the whole invariant; Transactions.DurableTree proves that premise of every disk a crash can leave |
| Sysfile.Tree.Iput | kernel/fs.c:236-261 | drops one reference; frees the inode exactly when it was the last one, it was loaded and it has no link |
| Sysfile.Tree.Unlink | kernel/sysfile.c:187-241 | succeeds exactly for a name other than the dots that exists and is no non-empty directory; then that entry is cleared, the inode's count and for a directory the parent's go down by one, the inode goes exactly if that was its last link and nobody holds it, and no other node changes; the caller's reference to the directory and no other is used up |
| Sysfile.Tree.UnlinkFound | kernel/sysfile.c:209-240 | the part after the lookup, with the same counts and the same frame |
| Sysfile.Tree.Strike | kernel/sysfile.c:209-234 | its locked part as one step of the machine |
| Sysfile.Tree.Link | kernel/sysfile.c:113-170 | the new name exists exactly when every check passes, for any file and any parent, itself included; otherwise every node is as before, but for an unlinked file whose last reference this was |
| Sysfile.Tree.TryEnter | kernel/sysfile.c:145-156 | the parent's reference taken and given back around the entry; without it nothing changes |
| Sysfile.Tree.BumpLink | kernel/sysfile.c:128-143 | refuses directories and counts the new link first |
| Sysfile.Tree.EnterLink | kernel/sysfile.c:147-155 | the entry is made exactly when the parent is live, the name is new and there is room |
| Sysfile.Tree.UndoLink | kernel/sysfile.c:163-170 | takes the counted link back |
| Sysfile.Tree.FinishLink | kernel/sysfile.c:145-170 | the entry is made, or the count is taken back, and the file's reference is dropped |
| Sysfile.Tree.Create | kernel/sysfile.c:243-307 | an existing file is returned when allowed, else a new inode with its entry, else nothing is left behind |
| Sysfile.Tree.CreateFound | kernel/sysfile.c:264-271 | the existing-name branch |
| Sysfile.Tree.CreateNew | kernel/sysfile.c:273-307 | the new inode, its dot entries, its entry in the parent, and the failure path |
| Sysfile.Tree.CreateStep | kernel/sysfile.c:273-307 | the whole branch as one step of the machine |
| Transactions.InvKept | kernel/log.c:98-146 | begin_op, end_op with its commit, every step of Links inside an operation, a crash, and each step of ireclaim keep: pending links and inodes being freed belong to open operations, and the durable tree is whole |
| Transactions.RunInv | kernel/log.c:98-146 | in every state of every run |
| Transactions.NothingOwed | kernel/sysfile.c:113-170 | in every state with no operation open, no link is counted without its name and no truncated inode waits for ifree |
| Transactions.DurableTree | kernel/log.c:121-146 | in every state of every run the committed tree has exact counts with no link pending, and its directories lead to the root |
| Transactions.DurableIsPast | kernel/log.c:121-146 | in every state the committed tree is the tree of an earlier state in which no operation was open |
| Transactions.Restart | kernel/fs.c:270-290 | after a crash at any point of any run, ireclaim keeps exactly the inodes that had a link at the last commit, unchanged, and Links' invariant holds again |
| PageTree.PteRoundTrip | kernel/riscv.h:356-366 | packing and unpacking an entry's page number and flags is the identity |
| PageTree.PathsDistinct | kernel/riscv.h:368-372 | distinct pages below MAXVA have distinct index paths |
| PageTree.WalkFinds | kernel/vm.c:66-84 | the software walk ends at the table the tree's leaf map names, or stops exactly where a table is missing |
| PageTree.TranslateLeaf | kernel/vm.c:66-84 | the hardware algorithm of section 4.3.2 finds what walk finds, where the entry has the flags of a leaf |
| Vm.TranslateAgrees | kernel/vm.c:66-84 | on every page table of every reachable memory, and for every page, the hardware algorithm and walk give the same entry and fault in the same cases |
| PageTree.AddTable | kernel/vm.c:75-81 | hanging an empty table into a tree keeps it a tree and changes no leaf |
| PageTree.SetLeaf | kernel/vm.c:128 | writing one leaf entry changes that page's mapping and no other |
| PageTree.NewRootTree | kernel/vm.c:137-146 | an empty root added beside the others |
| Vm.ClonesSeeSame | kernel/vm.c:235-263 | a copied page table shows the child the same bytes as the parent, lazy pages included |
| Vm.FaultSees | kernel/vm.c:378-398 | mapping a zeroed page where nothing was mapped changes no user-visible byte |
| Vm.CopyinAfterCopyout | kernel/vm.c:276-333 | a copyin of the range a successful copyout filled returns exactly the bytes copied out |
| Vm.Memory.constructor | kernel/kalloc.c:22-36 | kinit: every page of the range is free, the last one first, and the memory is valid |
| Vm.Memory.Kalloc | kernel/kalloc.c:56-70 | takes the head of the free list; pages stay partitioned |
| Vm.Memory.Kfree | kernel/kalloc.c:38-54 | puts the page back; pages stay partitioned |
| Vm.Memory.Walk | kernel/vm.c:66-84 | finds the leaf table, allocating tables if asked; nothing visible changes even when it fails half way |
| Vm.Memory.Mappages | kernel/vm.c:106-135 | maps exactly the range, or on failure exactly a prefix of it |
| Vm.Memory.UnmapOne | kernel/vm.c:157-167 | one page of uvmunmap |
| Vm.Memory.Uvmunmap | kernel/vm.c:148-168 | removes exactly the range; its user pages are freed if asked, else left to the caller, and no other page changes hands |
| Vm.Memory.MapUser | kernel/vm.c:180-192 | a fresh page mapped and owned, or nothing changed but tables |
| Vm.Memory.Uvmalloc | kernel/vm.c:170-195 | grows the user range by fresh zeroed pages, or on failure restores the mapping it started from |
| Vm.Memory.Roll | kernel/vm.c:182-191 | the rollback of a half-finished growth |
| Vm.Memory.Uvmdealloc | kernel/vm.c:197-209 | shrinks to the new size and frees exactly the pages above it |
| Vm.Memory.Walkaddr | kernel/vm.c:86-104 | the page of a user mapping, or none |
| Vm.Memory.Vmfault | kernel/vm.c:378-398 | gives a lazy page below the size a zeroed page; no user-visible byte changes |
| Vm.Memory.Resolve | kernel/vm.c:284-299 | walkaddr, else vmfault, as the copies do |
| Vm.Memory.Copyout | kernel/vm.c:276-308 | on success the user sees exactly its range replaced; on failure only a prefix of it |
| Vm.Memory.Copyin | kernel/vm.c:310-333 | on success returns exactly the bytes the user sees, and changes none |
| Vm.Memory.Uvmcopy | kernel/vm.c:235-263 | the child's mapping is a copy with its own pages, or on failure is what it was |
| Vm.Memory.CloneOne | kernel/vm.c:242-256 | one page of the copy |
| Vm.Memory.RollClone | kernel/vm.c:260-262 | undoing a half-finished copy |
| FreeWalk.Freewalk | kernel/vm.c:211-225 | frees every table under a node exactly once and never meets the leaf panic when no leaf is left |
| FreeWalk.FreeChild | kernel/vm.c:216-222 | one entry of that loop |
| FreeWalk.Uvmfree | kernel/vm.c:227-233 | every user page and every table of the root goes back to the free list, all else unchanged |
| FreeWalk.Uvmcreate | kernel/vm.c:137-146 | an empty root, or nothing changed |
| FreeWalk.ProcFreepagetable | kernel/proc.c:173-179 | trampoline and trapframe unmapped without freeing, then everything freed once |
| FreeWalk.ProcPagetable | kernel/proc.c:148-171 | maps exactly trampoline and trapframe, or on any failure gives back every page it took |
| Sleep.InvKept | kernel/proc.c:447-508 | sleep_prepare, sleep, each visit of a wakeup, kill, scheduling, fork, exit and reuse of a slot keep: a sleeper has a channel, and behind a wakeup's position every stored copy of its channel is younger than the wakeup |
| Sleep.RunInv | kernel/proc.c:447-508 | in every state of every run |
| Sleep.SleeperHasChannel | kernel/proc.c:459-470 | in every state a sleeping process has a nonzero channel |
| Sleep.NoLostWakeup | kernel/proc.c:447-488 | over every interleaving, a process that prepared before a wakeup of its channel began is not asleep once that wakeup has ended, until it prepares anew |
| Sleep.ScanIsWakeAll | kernel/proc.c:472-488 | an undisturbed wakeup of the machine is what the loop computes |
| Sleep.ProcTable.SleepPrepare | kernel/proc.c:447-457 | stores the channel; zero is a panic |
| Sleep.ProcTable.Sleep | kernel/proc.c:459-470 | sleeps exactly if the channel is still stored |
| Sleep.ProcTable.Wakeup | kernel/proc.c:472-488 | clears the channel everywhere, makes exactly its sleepers runnable and changes nobody else |
| Sleep.ProcTable.Kkill | kernel/proc.c:490-508 | fails exactly when no slot has the pid; else marks the first one, which is then not asleep and keeps its channel |
| Monitor.InvKept | kernel/sleeplock.c:20-43 | waiting under a spinlock: whoever waits waits for a condition that fails, or a wakeup that has not passed it is under way |
| Sleeplock.RunInv | kernel/sleeplock.c:20-43 | the invariant in every state of every run |
| Sleeplock.MutualExclusion | kernel/sleeplock.c:20-43 | at most one process is between acquiresleep and releasesleep, and the lock records its pid |
| Sleeplock.FreeHasNoSleeper | kernel/sleeplock.c:20-43 | with its spinlock free, a free sleeplock has no sleeping waiter and none about to sleep |
| Sleeplock.HoldingIsInside | kernel/sleeplock.c:45-54 | with distinct pids, holdingsleep is true exactly for the process inside |
| Sleeplock.InitInv | kernel/sleeplock.c:11-18 | a new lock satisfies the invariant |
| Sleeplock.Lock.AcquireOnce | kernel/sleeplock.c:23-32 | one pass of the loop: takes a free lock, else stores the channel |
| Sleeplock.Lock.Releasesleep | kernel/sleeplock.c:35-43 | frees the lock and wakes exactly its waiters |
| LogWait.InitInv | kernel/log.c:30-40 | an empty log with every process outside it satisfies the invariant |
| LogWait.InvKept | kernel/log.c:98-146 | begin_op, log_write, end_op, the commit's clearing of the header and its end keep the waiting discipline on the log's channel |
| LogWait.NoIdleWaiter | kernel/log.c:98-146 | with the log's spinlock free nobody waits in begin_op while an operation would fit, and nobody waits in sys_sync for a commit already made |
| ExitWait.InvKept | kernel/proc.c:217-357 | every locked section of kfork, kexit and kwait, and everything that can fall between, keeps families, waiting, pids and statuses right |
| ExitWait.RunInv | kernel/proc.c:217-357 | in every state of every run from boot |
| ExitWait.ZombiesHaveParents | kernel/proc.c:261-310 | in every state each zombie has a live parent and no child |
| ExitWait.NoMissedChild | kernel/proc.c:274-357 | whenever wait_lock is free, no parent is asleep in kwait, or about to be, while a child is a zombie |
| ExitWait.PidsUnique | kernel/proc.c:78-146 | in every state slots in use have different nonzero pids |
| ExitWait.ReapedOnce | kernel/proc.c:312-357 | each exit is collected at most once, with its own status, and until then it is in the table as a zombie |
| ExitWait.GivesUpRightly | kernel/proc.c:347-350 | kwait reports failure only if killed or without any child |
| ProcCode.Table.Allocproc | kernel/proc.c:91-108 | the first unused slot with a fresh pid, or that there is none |
| ProcCode.Table.Kfork | kernel/proc.c:217-259 | succeeds exactly if some slot is unused and there is memory for the child; then the first unused slot becomes a runnable child of the caller, otherwise no slot changes its state; a pid is used up exactly if a slot was found |
| ProcCode.Table.AbandonChild | kernel/proc.c:228-232 | the slot is free again |
| ProcCode.Table.LaunchChild | kernel/proc.c:250-256 | the parent is set before the child can run |
| ProcCode.Table.GiveAway | kernel/proc.c:261-272 | exactly the caller's children go to the first process, which is woken if there are any |
| ProcCode.Table.Kexit | kernel/proc.c:274-310 | children handed over, parent woken, status stored, zombie, in that order and nothing else |
| ProcCode.Table.Collect | kernel/proc.c:329-341 | the zombie's pid and status are returned and its slot is freed |
| ProcCode.Table.FindZombie | kernel/proc.c:322-345 | the first zombie child, or whether there is any child |
| ProcCode.Table.KwaitPass | kernel/proc.c:321-356 | one pass of the loop: collects the first zombie child, or fails rightly, or stores the channel with no zombie child around |
| Malloc.Units | user/umalloc.c:67 | one header plus the fewest units that hold the bytes |
| Malloc.SbrkArgumentExact | user/umalloc.c:50-53 | the byte count survives the conversion to int exactly below 2^27 units; any larger count malloc can ask for reaches sbrk as at most one unit |
| Malloc.Fits | user/umalloc.c:27-30 | a live block lies between its neighbours on the free list without overlap |
| Malloc.TiledAbsorb | user/umalloc.c:31-40 | merging two adjacent blocks keeps the blocks an exact tiling |
| Malloc.TiledCarve | user/umalloc.c:76-80 | cutting the tail off a block keeps the blocks an exact tiling |
| Malloc.Heap.FindSlot | user/umalloc.c:28-30 | the search round the ring ends, at the entry the block comes after |
| Malloc.Heap.MergeUp | user/umalloc.c:31-35 | merged with the block above exactly if they touch |
| Malloc.Heap.MergeDown | user/umalloc.c:36-41 | merged with the block below exactly if they touch; the list is circular, ascending and fully coalesced again |
| Malloc.Heap.Free | user/umalloc.c:22-42 | the block joins the free ones, free and live blocks still tile the memory, no other live block's header is written |
| Malloc.Heap.Morecore | user/umalloc.c:44-59 | the granted region is on the free list, in a block of at least the asked size; a refusal changes nothing |
| Malloc.Heap.Take | user/umalloc.c:73-82 | the block or its tail becomes live with exactly the units asked for |
| Malloc.Heap.Malloc | user/umalloc.c:61-88 | the search ends; a live block of the right size disjoint from all others, after at most one request to sbrk and that only if nothing fitted; fails exactly when nothing fits and sbrk refuses |
| Virtio.CountThree | kernel/virtio_disk.c:114-167 | taking or returning three descriptors changes the number of free ones by three |
| Virtio.FewPending | kernel/virtio_disk.c:221-266 | at most two positions of either ring are pending |
| Virtio.InvKept | kernel/virtio_disk.c:169-269 | issuing, the device's taking and serving in any order, the handler's loop and finishing keep descriptors, rings and buffers right |
| Virtio.RunInv | kernel/virtio_disk.c:169-269 | in every state of every run |
| Virtio.ThreeEach | kernel/virtio_disk.c:189-216 | in every state, with any number of requests, each request owns three distinct chained descriptors, no two share one, exactly the descriptors of no request are free, and they number NUM minus three per request |
| Virtio.NoOverwrite | kernel/virtio_disk.c:221-225 | at every value of the 16-bit indices, the next slot written in either ring holds no pending entry |
| Virtio.ClearsIssuer | kernel/virtio_disk.c:254-266 | each completion has status success and clears exactly the buffer whose thread issued it |
| Virtio.WaitsForOwn | kernel/virtio_disk.c:231-239 | a thread's wait ends only after its own request was served |
| Virtio.DeviceServesRequests | kernel/virtio_disk.c:189-216 | what the device reads through a chain is the command, sector, buffer and status byte of the request that owns it |
| Virtio.RequestChain | kernel/virtio_disk.c:198-216 | following the next links from a request's head visits exactly its three descriptors |
| Virtio.Queue.AllocDesc | kernel/virtio_disk.c:114-124 | the lowest free descriptor, or that none is free |
| Virtio.Queue.FreeDesc | kernel/virtio_disk.c:126-139 | frees and clears it; a free one is the panic |
| Virtio.Queue.FreeLink | kernel/virtio_disk.c:145-151 | one turn of free_chain |
| Virtio.Queue.FreeChain | kernel/virtio_disk.c:141-153 | frees and clears exactly the chain's descriptors |
| Virtio.Queue.Fill | kernel/virtio_disk.c:198-216 | the three descriptors describe the request and are chained |
| Virtio.Queue.Alloc3 | kernel/virtio_disk.c:155-167 | three distinct free descriptors taken, or none taken exactly when fewer than three are free |
| Shell.Skip | user/sh.c:268-269 | the first non-blank from the cursor |
| Shell.GetToken | user/sh.c:261-304 | ends past the token and the blanks after it; zero exactly at the end of the line; a word token is a whole word |
| Shell.ParseCmd | user/sh.c:323-338 | every word of the tree it answers with is a whole word of the line, at most nine to a command |
| Shell.RoundTrip | user/sh.c:323-442 | printing any tree with at most nine words per command, with parentheses where needed, and parsing the text gives the tree back |
| Shell.Reparse | user/sh.c:323-442 | for every line that parses, printing its tree and parsing again gives the same tree |
| Shell.LevelBack | user/sh.c:340-442 | the same for each level of the grammar in front of any text that may follow it |
| Shell.EndsMissWords | user/sh.c:444-488 | the byte after a word lies inside no word |
| ShellCode.Parser.GetToken | user/sh.c:261-304 | the cursor code computes the token function |
| ShellCode.Parser.Peek | user/sh.c:306-316 | whether the next non-blank is one of the given characters |
| ShellCode.Parser.ParseRedirs | user/sh.c:370-393 | the loop collects exactly the redirections, or fails for want of a file |
| ShellCode.Parser.ParseWords | user/sh.c:425-441 | the word loop of parseexec |
| ShellCode.Parser.ParseExec | user/sh.c:411-442 | computes the grammar's function, with the same error |
| ShellCode.Parser.ParseBlock | user/sh.c:395-409 | computes the grammar's function, with the same error |
| ShellCode.Parser.ParsePipe | user/sh.c:357-368 | computes the grammar's function, with the same error |
| ShellCode.Parser.ParseLine | user/sh.c:340-355 | computes the grammar's function, with the same error |
| ShellCode.Parser.ParseCmd | user/sh.c:323-338 | terminates on every line with the function's tree or error |
| ShellCode.Nulterminate | user/sh.c:444-488 | writes a zero byte after every word and changes no other byte |
| ShellCode.WordsTerminated | user/sh.c:444-488 | afterwards every word read as a C string from its start is exactly the word of the line |
| Grep.StarMeans | user/grep.c:94-102 | a starred item matches if and only if some run of accepted characters leads to a match of the rest |
| Grep.OneMeans | user/grep.c:89-90 | a single item consumes one accepted character |
| Grep.MatchHere | user/grep.c:80-92 | true exactly when the text from the position can be cut into one piece per item |
| Grep.MatchStar | user/grep.c:94-102 | true exactly when some run of the character leads to a match of the rest |
| Grep.Match | user/grep.c:68-78 | terminates, and is true exactly when the pattern's meaning holds at some position, or at the first with a leading caret |

## Left out

- Bread: a buffer of the block, if there is one, is not held by another thread at the call; waiting for it is acquiresleep, modelled in Sleeplock.
- LogWrite: the caller stays within the MAXOPBLOCKS blocks that begin_op reserved for it; a call past its credit is not modelled.
- Commit: nobody but the committer holds or waits for a buffer of the log area or of a logged block (other buffers may be in use); a reader that holds one makes the commit wait in acquiresleep, modelled in Sleeplock.  The same holds of EndOp and of the parts of a commit.
- CrashAtomicity: a single block write is atomic, and the header block on disk is one that write_head wrote.
- Writei: exact contents are stated for what the user copy delivered; a copy that fails inside a block may change bytes past the returned count, as in the source, and the contract says so.
- NoLostWakeup: says nothing about a kill that lands between the check of the killed flag and sleep; the source does not wake that process.
- Malloc: sbrk either refuses or adds what malloc means, which SbrkArgumentExact shows to be possible exactly below 2^27 units; what a granted request above that does to the heap is not modelled.  The base header lies below the heap, and block sizes are unbounded integers instead of 32-bit ones.
- Morecore: the same condition on sbrk as Malloc.
- Uvmunmap: freeing with the unmapping is for pages below the trapframe, as in every call the kernel makes; kfree of the trampoline would be its panic.
- PidsUnique: pids and the commit counter are unbounded integers; their 32-bit overflow is not modelled.
- FreshInv: the root directory of a new file system is taken with its size exact; mkfs rounds it up, so that it has no hole below its size is an assumption about the image it writes.
- ClearsIssuer: the device always answers success; an error status is the driver's panic.
- Kexit: closing files and releasing the working directory, which precede the locked part, are not part of it.
- Mutual exclusion of spinlocks, memory ordering and interrupt masking: a locked section is one step.
- Scheduler fairness and liveness: only safety is stated.
- The dinode and directory-entry byte layout, iupdate and ilock's loading of it; inodes and entries are records.
- Path strings (skipelem, namex), the inode and file tables' capacity and their panics, device nodes, pipes, console.
- Page contents are typed as table or data; kalloc's and kfree's junk fill, copyinstr, growproc, exec, trap entry and the kernel's own page table.
- grep's line buffering, the shell's running of commands and its built-in cd.
- Waiting for free descriptors and for a buffer in virtio_disk_rw: the same discipline as Monitor, not repeated.
- Boot, device probing, mkfs beyond the initial state, and every part of the design documents that has no code.
