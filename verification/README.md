# Models of the lab kernels and of newfs

Dafny models of six components of the lab repository, with proofs:

- the bucketed buffer cache of the third lab's kernel, as interleaved steps of any number of
  processes (`BcacheSteps.dfy`), what a bget has looked at in any run (`BcacheSweep.dfy`), as linked lists
  in place (`BcacheLists.dfy`), and the agreement of the two (`BcacheAlone.dfy`);
- the Sv39 page tables of the fourth lab's kernel with a kernel page table per process: entry
  format (`Riscv.dfy`), tables as a tree in physical memory against a flat map (`PageTable.dfy`),
  user memory (`UserMemory.dfy`), copies (`UserCopy.dfy`), the memory of a process through allocproc,
  growproc and freeproc (`ProcMemory.dfy`), through userinit, fork and exec (`ForkExec.dfy`), runs into
  the exits that fail half way (`MemoryRunsOut.dfy`), and all processes together (`ProcTable.dfy`);
- the process lifecycle and scheduler of the same kernel, as interleaved steps of the CPUs
  (`ProcSteps.dfy`), with whole calls and a run from boot through all of them (`ProcRuns.dfy`);
- its pipe, in place and as interleaved steps of readers and writers (`Pipe.dfy`), with the bytes of
  each call in any run (`PipeCalls.dfy`);
- the per-CPU page allocator of the third lab, as interleaved steps (`KallocSteps.dfy`), in place
  against the single-list allocator of the second lab (`Kalloc.dfy`), and what a call has seen in any run
  (`KallocCalls.dfy`);
- the disk layer of newfs: unaligned I/O over a block device (`BlockDevice.dfy`), the data bitmap and
  the counting of dentries (`NewfsMap.dfy`), and a directory tree in fixed disk regions (`Newfs.dfy`).

`dafny verify dfyconfig.toml` checks everything.

## How to read the models

*Step machines.* A `State` value, a program counter for every process or CPU, and a function `Do`
that gives the state after one step, or `None` when that step is not possible (a lock that is
held, a sleeper). One step is one access to shared state. A run is any sequence of states joined by
`Do`, so a claim about runs covers every interleaving. Fields called history in the comments are
never read by a step. Spinlocks and sleep locks are atomic acquire and release steps.

*Calls.* What a call as a whole does is stated twice, and neither time through the step functions. Over
every run, a function of the states and moves alone recovers what the call has done so far: the bytes of
`put` that its process appended (`PipeCalls.PartOf`), the buckets it has looked at (`BcacheSweep.Looks`),
the lists it has found empty (`KallocCalls.Found`). And for a process or CPU that moves alone, for every
state in which the locks it needs are free, the state at the end of the call is given field by field.

*Classes.* Code that updates structures in place is a class, or methods over the class
`PageTable.Memory`, with a `Valid` predicate. A panic is a precondition, so that every caller proves
it cannot happen, except where memory may run out inside a call that panics then, or where freewalk
may meet a leaf: those calls return an `Outcome` or a flag, say exactly when they panic, and promise
nothing after that.

*Physical pages* are page numbers, and `Memory.use` records what each allocated page is used for: a
table page's use names its place in its table, and a user page's use names the page it backs. That
a page has one use is what keeps tables and processes apart.

*Counting.* Every page that a call takes from kalloc is accounted for: `PageTable.Lacking` is the set of
places of a table that have no table page yet on the way to a range of pages, and each of them costs
one page. So every call that can run out of memory says before it starts, from the free pages and the
tables there are, how it will end: `ProcMemory.GrowthOf`, `ForkExec.ForkOf`, `ForkExec.InitOf` and
`ForkExec.ExecOf`.

*Folded facts.* A predicate of the form `forall k :: Key(k) ==> ...` is a name to the verifier until a
lemma opens it (see `PageTable.Key`; `StepKey` does the same for single steps).

*Where code and intention part.* The following are proved as they are in the code:

- `bget` with home bucket 0: `findCount` goes 12, 13, 0, 1 and never equals 0 at the loop test. bget run
  alone ends iff its home bucket is not 0, or the block is cached, or some buffer is free
  (`BcacheLists.BgetEndsIff`); otherwise it sweeps on with the cache unchanged after any number of rounds,
  and boot followed by as many gets as there are buffers leads there (`BcacheLists.HangsFromBoot`).
- `growproc` when `kvmcopy` fails: the user table has grown, `sz` has not, and the mirror is as before, or
  empty if memory ran out. This happens exactly when the free pages suffice for the user half of the growth
  but the new size is beyond PLIC or they do not suffice for the kernel half as well
  (`ProcMemory.GrowProc`, and a run in `MemoryRunsOut.GrowIsTorn`).
- `fork` when `kvmcopy` fails: `freeproc` runs with `sz` 0 over a table that has pages, and freewalk panics,
  as it does exactly when there is one (`ForkExec.FreeUnsized`). The numbers of free pages for which fork
  succeeds, fails or panics are exact (`ForkExec.ForkSpace`, and a run in `MemoryRunsOut.ForkPanics`).
- `exec` when `kvmcopy` fails after the commit: `p->pagetable` is a freed table and the old one is leaked.
  This happens exactly when the new image can be paid but is beyond PLIC or the tables that the kernel table
  lacks cannot (`ForkExec.ExecSpace`, and a run in `MemoryRunsOut.ExecDangles`).
- `userinit` does not look at `kvmcopy`'s result, and goes on without a mirror in exactly the like case.
- A pipe writer that returns -1 at a full ring wakes no reader: readers that sleep then stay asleep
  beside a full ring, exactly when there are any (`Pipe.GivingUpStrandsReaders`,
  `Pipe.ReaderIsStranded`).
- `newfs_alloc_dentry` puts a dentry into the list in any case, but counts it only when it also finds a data
  bit whose number is not `max_data`; the size test before that always holds, because the argument of
  NEWFS_ROUND_UP has no parentheses (`NewfsMap.TestIsTrue`). A directory comes back whole from disk exactly
  when its `dir_cnt` counts all its dentries (`Newfs.SyncThenRead`), and with a full map it does not
  (`Newfs.DentryIsLost`).

## Model

| member | source | states |
|---|---|---|
| `BcacheSteps.StepKeepsInv` | 实验三/kernel/bio.c:63-193 | Every step of every process keeps the cache invariant: lock ownership, reference counts, keys and their buckets, and the times at which home locks were taken; what the calls do is stated by `BcacheSweep` and `BcacheAlone` |
| `BcacheSteps.RunKeepsInv` | 实验三/kernel/bio.c:63-193 | The invariant holds in every state of every run |
| `BcacheSteps.WaitedForIsLater` | 实验三/kernel/bio.c:98-103 | Whoever is waited for and itself waits is a thief that took its home lock later than the one who waits |
| `BcacheSteps.NoDeadlock` | 实验三/kernel/bio.c:69-127 | In no state of any run, with any number of processes, is there a cycle of processes waiting for each other's bucket locks |
| `BcacheSteps.HolderCanStep` | 实验三/kernel/bio.c:69-127 | A bucket lock's holder that is not waiting for another lock has an enabled step |
| `BcacheSteps.BlockedHasMover` | 实验三/kernel/bio.c:69-127 | Behind every blocked process there is a lock holder with an enabled step |
| `BcacheSteps.CacheIsKeyed` | 实验三/kernel/bio.c:63-128 | In every run at most one buffer carries a given (dev, blockno) with dev not 0, it is on the list of bucket blockno % 13, and refcnt is the outstanding gets of all processes plus the pins |
| `BcacheSteps.NeverRekeyedInUse` | 实验三/kernel/bio.c:84-122 | A step changes a buffer's key only when its refcnt is 0, no process has a reference and nothing pins it |
| `BcacheSteps.StepKeepsDiskInv` | 实验三/kernel/bio.c:131-177 | Every step keeps: a valid buffer that nobody has changed since holds what the disk holds for its block |
| `BcacheSteps.RunKeepsDiskInv` | 实验三/kernel/bio.c:131-177 | So it holds in every run |
| `BcacheSteps.StepIsFlat` | 实验三/kernel/bio.c:131-151 | A step of the cache is a read, a write or nothing on one flat disk |
| `BcacheSteps.CacheRefinesFlatDisk` | 实验三/kernel/bio.c:84-177 | In every run in which changes are written before release, each bread returns exactly what the flat disk holds for the block, through hits, recycles and steals |
| `BcacheSteps.WritesWhatWasPut` | 实验三/kernel/bio.c:145-151 | In every run what bwrite puts on the disk is what its caller last put into the buffer, whatever others do meanwhile |
| `BcacheSweep.LooksInOrder` | 实验三/kernel/bio.c:84-125 | In every run a bget looks at its home bucket first and its look t is at bucket (home + t) % 13; one that gives up has made at least thirteen looks, so it has looked at every bucket |
| `BcacheSweep.LooksHappened` | 实验三/kernel/bio.c:84-125 | Each look was made in this very call: the lock was seen held at the unlocked test, or no buffer of the bucket was free under its lock |
| `BcacheSweep.PanicSawAll` | 实验三/kernel/bio.c:98-127 | In every run a bget that panics has, for every bucket, seen its lock held by somebody or found no free buffer in it under its lock, since it was called |
| `BcacheSweep.StealIsFirst` | 实验三/kernel/bio.c:98-122 | In every run a buffer is stolen from the bucket right after those that were seen held or found empty, in the order of the sweep |
| `BcacheAlone.SoloStep` | 实验三/kernel/bio.c:63-128 | Every step of bget by a process alone keeps: where it is after n steps, which buckets had no free buffer, which locks it holds and what it has changed |
| `BcacheAlone.GetsIff` | 实验三/kernel/bio.c:63-128 | By steps of its process alone bget can return b iff b has the key, or nothing has it and b is free at home, or nothing is free at home and b is free in the first bucket of the sweep that has a free buffer; every such run changes b as it should and nothing else |
| `BcacheAlone.PanicsIff` | 实验三/kernel/bio.c:98-127 | It panics iff the block is not cached, nothing is free and the home bucket is not 0, with nothing changed |
| `BcacheAlone.StopsIff` | 实验三/kernel/bio.c:63-128 | It stops at all iff its home bucket is not 0, or the block is cached, or some buffer is free |
| `BcacheAlone.GoesOnForEver` | 实验三/kernel/bio.c:98-125 | Otherwise it has runs of every length, with nothing changed |
| `BcacheAlone.EndsAgree` | 实验三/kernel/bio.c:63-128 | The steps of one process alone stop iff the loop over the linked lists does |
| `BcacheAlone.GotIsReached` | 实验三/kernel/bio.c:63-128 | Every outcome of bget over the linked lists is reached by steps of one process alone, with the same buffer and the same contents |
| `BcacheAlone.ReleaseAlone` | 实验三/kernel/bio.c:155-177 | brelse gives up the sleep lock and one reference, and puts the buffer on its home list with the last one |
| `BcacheAlone.PinAlone` | 实验三/kernel/bio.c:180-185 | bpin adds one to the count and nothing else |
| `BcacheAlone.UnpinAlone` | 实验三/kernel/bio.c:188-193 | bunpin takes one from the count and nothing else |
| `BcacheAlone.ReadValid` | 实验三/kernel/bio.c:131-142 | bread of a valid buffer returns it locked with its data as they are |
| `BcacheAlone.ReadInvalid` | 实验三/kernel/bio.c:131-142 | bread of a buffer that is not valid returns it locked and valid with the block of the disk |
| `BcacheLists.UnlinkCycle` | 实验三/kernel/bio.c:107-108 | The two unlinking assignments leave a circular doubly linked list without exactly that node |
| `BcacheLists.LinkCycle` | 实验三/kernel/bio.c:109-112 | The four linking assignments leave a circular doubly linked list with the node right after the head |
| `BcacheLists.UnlinkSound` | 实验三/kernel/bio.c:107-108 | Unlinking keeps all thirteen lists linked both ways, disjoint and ordered, with exactly that buffer on none |
| `BcacheLists.LinkSound` | 实验三/kernel/bio.c:109-112 | Linking puts the buffer on exactly one list again, newest first |
| `BcacheLists.Bcache.constructor` | 实验三/kernel/bio.c:39-58 | binit makes thirteen such lists that partition the buffers, buffer b on list b % 13 |
| `BcacheLists.Bcache.MoveFront` | 实验三/kernel/bio.c:169-174 | The relinking moves one buffer to the head of a list and no other buffer to another list, and keeps every list ordered by time of last head insertion |
| `BcacheLists.Bcache.FindCached` | 实验三/kernel/bio.c:73-80 | Finds a buffer with the key iff the bucket has one |
| `BcacheLists.Bcache.FindFree` | 实验三/kernel/bio.c:84-85 | Finds the free buffer with the oldest head insertion iff the bucket has a free one |
| `BcacheLists.Bcache.Brelse` | 实验三/kernel/bio.c:156-177 | Takes one reference; the lists change iff it was the last, and then the buffer is the newest of its bucket |
| `BcacheLists.Bcache.Bget` | 实验三/kernel/bio.c:64-128 | Run for any number of rounds of its sweep, in any state: returns the cached buffer, else the oldest free one of the home bucket, else the oldest free one of the first bucket of the sweep that has one, moved to the head of the home list; panics only with nothing cached or free; is still sweeping, with the cache unchanged, exactly when it is not over within these rounds |
| `BcacheLists.Bcache.Steal` | 实验三/kernel/bio.c:98-127 | The loop is after each number of rounds where the round function says: it has stolen the oldest free buffer of the first bucket that has one, has left at the test having changed nothing, or goes on |
| `BcacheLists.SweepsForEver` | 实验三/kernel/bio.c:98-125 | With home bucket 0 and no free buffer the sweep goes on after any number of rounds |
| `BcacheLists.SweepIsOver` | 实验三/kernel/bio.c:98-127 | Otherwise it is over within thirteen rounds, with a buffer iff some bucket has a free one |
| `BcacheLists.ThirteenRounds` | 实验三/kernel/bio.c:64-128 | After thirteen rounds bget run alone is over iff its home bucket is not 0, or the block is cached, or some buffer is free |
| `BcacheLists.BgetEndsIff` | 实验三/kernel/bio.c:64-128 | bget run alone ends at all iff its home bucket is not 0, or the block is cached, or some buffer is free |
| `BcacheLists.HangsFromBoot` | 实验三/kernel/bio.c:39-128 | From boot, after as many gets of different blocks as there are buffers, a get of a block of bucket 0 is still sweeping after any number of rounds |
| `BcacheLists.SweepVisitsOnce` | 实验三/kernel/bio.c:98-99 | The twelve rounds look at every other bucket once |
| `BcacheLists.AllSwept` | 实验三/kernel/bio.c:98-127 | A sweep that found nothing, with nothing free at home, means that no buffer is free |
| `ProcSteps.StepKeepsCore` | 实验四/kernel/proc.c:367-653 | Every step of every CPU keeps: process locks follow their holders across swtch, one CPU per running process, loaded kernel tables belong to the thread that runs; that RUNNABLE processes are run is `ProcRuns.PicksFirst` |
| `ProcSteps.StepKeepsFamily` | 实验四/kernel/proc.c:340-482 | Every step keeps: zombies and free slots have no children, and what exit and wait have seen of their children while scanning |
| `ProcSteps.StepKeepsWake` | 实验四/kernel/proc.c:595-653 | Every step keeps: a wakeup under way has left nobody asleep in the slots it has passed |
| `ProcSteps.RunKeepsInv` | 实验四/kernel/proc.c:340-653 | All of it holds in every state of every run, with timer interrupts at every position without locks; `ProcRuns.LifeOfAChild` is a run through all of the calls |
| `ProcSteps.NeverOnTwoCpus` | 实验四/kernel/proc.c:491-559 | In every run two CPUs are never in the same process |
| `ProcSteps.LoadedTableIsAlive` | 实验四/kernel/proc.c:446-559 | In every run the kernel page table a CPU has loaded has not been freed by wait |
| `ProcSteps.NewKid` | 实验四/kernel/proc.c:287-340 | A slot becomes a child of p, p not init, only by p's own fork |
| `ProcSteps.NoNewZombieKid` | 实验四/kernel/proc.c:404-428 | A child becomes a zombie only while its exit holds the parent's lock and the parent is not asleep in wait |
| `ProcSteps.ZombiesAreNoticed` | 实验四/kernel/proc.c:340-482 | In every run a zombie has no children, and a process other than init that is asleep in wait has no zombie child |
| `ProcSteps.FallsAsleep` | 实验四/kernel/proc.c:595-627 | A process is asleep in sleep(ch, x) only from its release of x on |
| `ProcSteps.LeavesWoken` | 实验四/kernel/proc.c:595-653 | It stops being so only by becoming RUNNABLE |
| `ProcSteps.WakeupReachesAll` | 实验四/kernel/proc.c:630-642 | When wakeup(ch) under x has gone through the table nobody is asleep in sleep(ch, x) |
| `ProcSteps.NoWakeupIsLost` | 实验四/kernel/proc.c:595-642 | Whoever was asleep on (ch, x) and no longer is was RUNNABLE in between |
| `ProcSteps.SleeperIsWoken` | 实验四/kernel/proc.c:595-642 | A process that released x inside sleep(ch, x) is made RUNNABLE no later than the end of any later wakeup(ch) under x |
| `ProcSteps.NotEachOthersParent` | 实验四/kernel/proc.c:94-362 | In every run no process is its own parent or its parent's parent |
| `ProcRuns.HaveRuns` | 实验四/kernel/proc.c:505-512 | A CPU that holds the lock of a RUNNABLE slot is three of its steps later in that slot's thread, at the position where it left, with the slot RUNNING and its kernel page table loaded; nothing else has changed |
| `ProcRuns.PicksFirst` | 实验四/kernel/proc.c:491-532 | The scheduler alone runs the first RUNNABLE slot of its round, wherever in the table it stands |
| `ProcRuns.ForkFrom` | 实验四/kernel/proc.c:287-336 | fork makes exactly the first unused slot a RUNNABLE child of its caller with a kernel table, or changes nothing when there is none |
| `ProcRuns.ForkFails` | 实验四/kernel/proc.c:112-132 | Without memory the slot stays unused and empty |
| `ProcRuns.SleepAlone` | 实验四/kernel/proc.c:595-612 | sleep(ch, x) leaves its caller SLEEPING on ch and x free, and the CPU in the scheduler with the global table |
| `ProcRuns.SleepReturns` | 实验四/kernel/proc.c:612-627 | Picked again, it returns holding x and on no channel |
| `ProcRuns.ComesBack` | 实验四/kernel/proc.c:562-570 | After a timer interrupt at any position without locks the thread, when next picked, goes on at that position |
| `ProcRuns.WakeAlone` | 实验四/kernel/proc.c:630-642 | wakeup(ch) makes exactly the slots that sleep on ch RUNNABLE |
| `ProcRuns.KillHits` | 实验四/kernel/proc.c:658-677 | kill marks exactly the slot asked for, and makes it RUNNABLE if it slept |
| `ProcRuns.WaitAlone` | 实验四/kernel/proc.c:432-482 | wait frees exactly the first zombie child; with none it returns if it has no child or is killed, and else sleeps on itself |
| `ProcRuns.WaitKeeps` | 实验四/kernel/proc.c:455-459 | A zombie child whose status cannot be copied out is not freed |
| `ProcRuns.ExitAlone` | 实验四/kernel/proc.c:367-428 | exit leaves a zombie, gives its children to init, and makes init and the parent RUNNABLE if they wait; no other slot changes |
| `ProcRuns.LifeOfAChild` | 实验四/kernel/proc.c:286-653 | From every boot state with two slots and a CPU one run goes through all of it: init forks a child and sleeps on ch under x, the child wakes it and dies, init returns from its sleep holding x and frees the child by wait |
| `Riscv.PgRoundDown` | 实验四/kernel/riscv.h:328 | The greatest multiple of PGSIZE not above the address |
| `Riscv.PgRoundUp` | 实验四/kernel/riscv.h:327 | The least multiple of PGSIZE not below it |
| `Riscv.PxIsPath` | 实验四/kernel/riscv.h:343-352 | The three PX indices of an address below MAXVA are the base-512 digits of its page number |
| `Riscv.PathIsOnto` | 实验四/kernel/riscv.h:343-346 | Three indices below 512 are the indices of exactly one page number |
| `Riscv.WordRoundTrip` | 实验四/kernel/riscv.h:330-341 | The word of an entry decodes to the entry, PTE2PA gives its page and PTE_FLAGS the rest |
| `Riscv.ShiftsLoseNothing` | 实验四/kernel/riscv.h:336-341 | On 64-bit words PTE2PA and PTE_FLAGS undo PA2PTE with flags for an aligned address below 2^56 |
| `PageTable.PathUses` | 实验四/kernel/vm.c:120-131 | A walk down a table passes the table pages of its own places |
| `PageTable.LeafWrite` | 实验四/kernel/vm.c:215-248 | Writing one entry of a lowest table changes the meaning of all tables at exactly one page of one table |
| `PageTable.TableLink` | 实验四/kernel/vm.c:125-128 | Linking a fresh zeroed table page changes no meaning |
| `PageTable.NewRoot` | 实验四/kernel/vm.c:254-263 | A fresh zeroed root maps nothing and leaves other tables alone |
| `PageTable.NothingMapped` | 实验四/kernel/vm.c:398-402 | A table that maps nothing has no leaf entry in any of its pages, so freewalk does not panic |
| `PageTable.TreeGone` | 实验四/kernel/vm.c:384-405 | Without the pages of one table all other tables are whole and mean the same |
| `PageTable.Memory.WalkStep` | 实验四/kernel/vm.c:121-129 | One level of walk leads to the table page of the next place, makes it if asked, or means that the address is not mapped |
| `PageTable.Memory.Walk` | 实验四/kernel/vm.c:115-132 | Leads to the lowest-level entry of va; with alloc it takes one page for each table lacking on the way and fails exactly when there are fewer free pages; changes no mapping |
| `PageTable.Memory.Lookup` | 实验四/kernel/vm.c:115-132 | walk without alloc, and the entry found, is the lookup in the flat map |
| `PageTable.Memory.Mappages` | 实验四/kernel/vm.c:203-222 | Maps exactly the pages of its range to consecutive physical pages, all of them exactly when the free pages suffice for the tables the range lacks, else a prefix; every other mapping of every table is unchanged |
| `PageTable.Memory.UvmunmapKeep` | 实验四/kernel/vm.c:229-250 | Without do_free exactly the range is unmapped and nothing else changes |
| `PageTable.Memory.UvmunmapFree` | 实验四/kernel/vm.c:229-250 | With do_free exactly the range is unmapped and exactly its frames are freed |
| `PageTable.Memory.Uvmcreate` | 实验四/kernel/vm.c:254-263 | A new table with no mapping, or 0 iff memory has run out |
| `PageTable.Memory.FreeTree` | 实验四/kernel/vm.c:384-425 | freewalk and freeallocatewalk free the table pages at and below a page, each once, and nothing else; freewalk panics exactly when there is a leaf |
| `PageTable.Memory.FreeTable` | 实验四/kernel/vm.c:384-433 | Freeing a whole table frees its table pages, forgets its mappings and changes nothing else; freewalk panics exactly when the table maps a page |
| `PageTable.MappedHasLeaf` | 实验四/kernel/vm.c:398-402 | A table that maps a page has a leaf that freewalk meets |
| `PageTable.CannotPay` | 实验四/kernel/vm.c:210-212 | When the table pages for one page of a range cannot be had, the range needs more than there were at its start |
| `UserMemory.Undo` | 实验四/kernel/vm.c:295-304 | Growing and then freeing what was added restores mappings and data, up to table pages |
| `UserMemory.Uvmalloc` | 实验四/kernel/vm.c:284-307 | All new pages, zeroed, in frames that were free before, exactly when the free pages suffice for them and the tables they lack; else no mapping and no data changed; for every newsz |
| `UserMemory.Uvmdealloc` | 实验四/kernel/vm.c:332-343 | Frees exactly the frames between the two sizes, or nothing when newsz is not smaller |
| `UserMemory.Uvmcopy` | 实验四/kernel/vm.c:452-479 | The child has equal bytes and flags in frames that were free before, exactly when the free pages suffice for them and the tables they lack; else no mapping and no data changed |
| `UserMemory.Kvmdealloc` | 实验四/kernel/vm.c:315-325 | Unmaps exactly the pages between the two sizes and frees nothing |
| `UserMemory.Kvmcopy` | 实验四/kernel/vm.c:487-513 | Refuses beyond PLIC; else mirrors exactly pages st to sz without U, exactly when the free pages suffice for the tables lacking; else the kernel table has lost exactly its pages below st; what "without U" is, field by field, is `ProcMemory.MirrorLaw` |
| `UserMemory.Uvmclear` | 实验四/kernel/vm.c:518-526 | Exactly one entry loses its U bit; what that means for the guard page is in `ForkExec.ExecImage` |
| `UserCopy.Walkaddr` | 实验四/kernel/vm.c:138-155 | The physical page of a mapped user page below MAXVA, else 0 |
| `UserCopy.Copyout` | 实验四/kernel/vm.c:532-551 | 0 iff all addresses are accessible; without aliasing exactly these bytes of the flat user memory change, or on failure those before the first page that is not accessible; no other physical byte changes |
| `UserCopy.Copyin` | 实验四/kernel/vm.c:557-576 | 0 iff all addresses are accessible, with their bytes in the flat user memory |
| `UserCopy.OutThenIn` | 实验四/kernel/vm.c:532-576 | copyin after a successful copyout of the same range returns the same bytes |
| `UserCopy.Copyinstr` | 实验四/kernel/vm.c:583-619 | 0 iff a NUL comes within max bytes before any page that is not accessible, having copied exactly up to it |
| `UserCopy.NoNul` | 实验四/kernel/vm.c:588-618 | Text up to max bytes or up to an inaccessible page means that there is no NUL in reach |
| `ProcMemory.Uvmfree` | 实验四/kernel/vm.c:438-443 | Frees every frame and every table page of a table, each once, and nothing else |
| `ProcMemory.FreeUserTable` | 实验四/kernel/proc.c:212-217 | The same for a table with trampoline and trapframe mapped, whose pages are not freed |
| `ProcMemory.ProcPagetable` | 实验四/kernel/proc.c:171-199 | A user table with trampoline and trapframe only, or, exactly when fewer than three pages are free, memory exactly as before |
| `ProcMemory.MapRegion` | 实验四/kernel/vm.c:172-176 | Each region of kvminit_proc, and the kernel stack, is unmapped before and added exactly; it fails only when the free pages do not suffice for the whole kernel table |
| `ProcMemory.KvminitProc` | 实验四/kernel/vm.c:54-82 | The kernel table maps exactly the kernel regions and the stack; a panic exactly when the free pages do not suffice for its tables |
| `ProcMemory.KernelIsHigh` | 实验四/kernel/vm.c:54-82 | No kernel mapping lies below PLIC |
| `ProcMemory.KernelMapsItself` | 实验四/kernel/vm.c:54-82 | Which pages the kernel half maps; all of them but trampoline and stack map to themselves, can be executed iff they are kernel text, and written iff they are not |
| `ProcMemory.MirrorLaw` | 实验四/kernel/vm.c:487-513 | In every whole process the kernel entry of each page below sz has the user entry's page number and V, R, W and X, and not U; no entry of a kernel table has U |
| `ProcMemory.WrapLaw` | 实验四/kernel/proc.c:263-270 | The sizes that growproc computes are those of 32-bit and 64-bit unsigned arithmetic |
| `ProcMemory.NeverRemaps` | 实验四/kernel/vm.c:493-506 | Below PLIC the kernel table has exactly the mirrored pages, so kvmcopy never reaches "remap" |
| `ProcMemory.AllocSpace` | 实验四/kernel/proc.c:112-132 | A whole new process memory apart from all others, memory exactly as before, or a panic, each for exactly the stated numbers of free pages |
| `ProcMemory.FreeSpace` | 实验四/kernel/proc.c:146-166 | freeproc frees the trapframe, every user page and every table page of both tables, each once, and nothing else |
| `ProcMemory.ReleasedIsBack` | 实验四/kernel/proc.c:127-132 | Freeing what was made since an earlier state leads back to exactly that state |
| `ProcMemory.SpaceKept` | 实验四/kernel/proc.c:146-311 | What is confined to other owners leaves a process's tables, mirror and bytes as they are |
| `ProcMemory.MirrorRest` | 实验四/kernel/vm.c:487-513 | kvmcopy after growth completes the mirror exactly when the size is within PLIC and the free pages suffice, and what it leaves when it fails |
| `ProcMemory.GrowProc` | 实验四/kernel/proc.c:260-282 | Grown, refused or torn exactly as the free pages, the tables there are and PLIC say before the call; grown: both tables have the new size and mirror each other, new pages are zero and old ones kept; refused: nothing changes; torn: exactly TornSpace; sizes wrap as 32-bit and 64-bit integers do |
| `ProcMemory.TornIsBroken` | 实验四/kernel/proc.c:272-274 | After the failed kvmcopy the page at the old size is mapped although sz does not cover it |
| `MemoryRunsOut.GrowIsTorn` | 实验四/kernel/proc.c:260-282 | For every layout a run that ends there: growproc(1) of a new process when three pages are left |
| `ForkExec.ForkSpace` | 实验四/kernel/proc.c:294-311 | Succeeds, fails or panics exactly as the number of free pages says before the call; the child is whole, apart from the parent, mirrored, and holds the parent's bytes and flags; a failure leaves memory exactly as before |
| `ForkExec.TwinLaw` | 实验四/kernel/vm.c:452-479 | Page by page the child has the parent's flags and bytes, and its kernel table the same without U |
| `ForkExec.FreeUnsized` | 实验四/kernel/proc.c:305-309 | freeproc of a process whose sz is 0 panics exactly when its user table has a page |
| `MemoryRunsOut.ForkPanics` | 实验四/kernel/proc.c:299-309 | For every layout a run in which fork panics after a failed kvmcopy |
| `ForkExec.InitSpace` | 实验四/kernel/proc.c:237-244 | The first process is whole and mirrored and holds its page, lacks the mirror, or there is a panic, each for exactly the stated numbers of free pages |
| `MemoryRunsOut.InitIsTorn` | 实验四/kernel/proc.c:237-244 | For every layout a run in which userinit goes on without a mirror |
| `ForkExec.LoadSeg` | 实验四/kernel/exec.c:142-163 | Every address of a segment is a user page, so loadseg does not panic |
| `ForkExec.LoadPh` | 实验四/kernel/exec.c:43-58 | One program header is loaded exactly when it is good and the free pages suffice for the image so far; either way the image is a whole user table of the current size |
| `ForkExec.ExecImage` | 实验四/kernel/exec.c:33-98 | A new user table of the size the headers say, apart from everything, exactly when the file is good and the free pages suffice; its pages can be read, written and executed by the user, except the guard page below the stack, which is mapped but not the user's; else memory exactly as before |
| `ForkExec.Commit` | 实验四/kernel/exec.c:111-120 | Exactly when the new size is within PLIC and the free pages suffice for the tables the kernel table lacks, the image is exchanged and mirrored and exactly the old one freed; else the kernel table has no mirror and the new table is freed |
| `ForkExec.ExecSpace` | 实验四/kernel/exec.c:12-135 | Committed, kept or dangling exactly as headers, free pages, tables and PLIC say before the call: a whole process with the new image, memory exactly as before, or the dangling exit |
| `MemoryRunsOut.ExecDangles` | 实验四/kernel/exec.c:111-134 | For every layout a run in which p->pagetable ends as a freed table |
| `ProcTable.OthersKept` | 实验四/kernel/proc.c:260-311 | What one process does leaves all other processes' memory whole |
| `ProcTable.NoSharing` | 实验四/kernel/vm.c:452-479 | Two processes never have a physical page of user memory in common |
| `ProcTable.CopiesSeePlainMemory` | 实验四/kernel/vm.c:528-619 | Every whole process meets what copyout, copyin and copyinstr need: stored pages and no aliasing |
| `ProcTable.Kernel.Userinit` | 实验四/kernel/proc.c:233-256 | Over all calls every process that no call has torn keeps its tables, its mirror and its own pages: userinit, with its end foretold |
| `ProcTable.Kernel.Fork` | 实验四/kernel/proc.c:287-311 | The same for fork, with its end foretold; on failure memory is exactly as before |
| `ProcTable.Kernel.Growproc` | 实验四/kernel/proc.c:260-282 | The same for growproc, with its end foretold: the new size, zeroed new pages and kept old ones on success, and exactly the torn space otherwise |
| `ProcTable.Kernel.Exec` | 实验四/kernel/exec.c:12-135 | The same for exec, with its end foretold; on success the new table is new, nothing of the old image is left, and copyout and copyin can reach every page of the new one but the guard page; on every exit before the commit memory is exactly as before |
| `ProcTable.Kernel.Freeproc` | 实验四/kernel/proc.c:146-166 | The same for freeproc, which frees exactly what belongs to the process |
| `Pipe.FullAndEmpty` | 实验四/kernel/pipe.c:85-122 | The wrapped 32-bit counters tell a full and an empty ring |
| `Pipe.PutKeepsRing` | 实验四/kernel/pipe.c:99 | Storing a byte keeps the ring equal to what was put and not taken |
| `Pipe.TakeKeepsRing` | 实验四/kernel/pipe.c:124 | Removing a byte gives the oldest one not yet taken |
| `Pipe.Fifo.WriteSome` | 实验四/kernel/pipe.c:84-100 | The write loop puts a prefix of the bytes in order, and stops early only at a full ring |
| `Pipe.Fifo.ReadSome` | 实验四/kernel/pipe.c:121-127 | The read loop takes bytes in order, and stops early only at an empty ring |
| `Pipe.StepKeepsInv` | 实验四/kernel/pipe.c:59-131 | Every step of every reader, writer, closer and killer keeps the ring, the lock and the sleepers right, and only appends to what was put and taken |
| `Pipe.RunKeepsInv` | 实验四/kernel/pipe.c:59-131 | So it holds in every run |
| `Pipe.PipeIsFifo` | 实验四/kernel/pipe.c:59-131 | In every run the bytes taken by all readers are a prefix of the bytes put by all writers, with at most 512 in flight, across counter wrap; which bytes writers put is `PipeCalls.WritesItsBytes` |
| `PipeCalls.WritesItsBytes` | 实验四/kernel/pipe.c:77-104 | In every run the bytes of `put` that belong to one write call are a prefix of the bytes it was given, in order; while it goes on they are as many as it has counted, and when it is over they are all of them, unless its own copy failed or it met a full ring with the read end closed or itself killed |
| `PipeCalls.ReadsConsecutively` | 实验四/kernel/pipe.c:107-131 | In every run what one read call takes is a run of at most n consecutive bytes of `taken`; fewer only if it met an empty ring, lost a byte to a failed copy or was killed while it would wait; none only if n is 0, it was killed, or the ring was empty and the write end closed when it left the wait loop |
| `PipeCalls.BytesHaveCalls` | 实验四/kernel/pipe.c:77-131 | In every run no byte is put but by a write call and none is taken but by a read call |
| `PipeCalls.CloseCloses` | 实验四/kernel/pipe.c:59-74 | In every run a close that is over has closed its end for good |
| `PipeCalls.ClosedByCall` | 实验四/kernel/pipe.c:59-74 | In every run an end is closed only by a close of that end |
| `PipeCalls.KilledIff` | 实验四/kernel/proc.c:658-677 | In every run a process is killed iff somebody has killed it |
| `PipeCalls.WriteAlone` | 实验四/kernel/pipe.c:77-104 | pipewrite alone puts as many of its bytes as there is room for, in order, and returns, gives up or sleeps as the read end, the kill flag and the room say; all readers are awake unless it gave up |
| `PipeCalls.ReadAlone` | 实验四/kernel/pipe.c:107-131 | piperead alone sleeps or gives up at an empty ring with writers, and else takes the oldest n bytes or all there are and wakes all writers |
| `PipeCalls.CloseAlone` | 实验四/kernel/pipe.c:59-74 | pipeclose alone closes its end and not the other, and wakes whoever waited for it |
| `Pipe.SleepersAreRight` | 实验四/kernel/pipe.c:84-128 | With the lock free a sleeping writer means a full ring and an open read end, and a sleeping reader an empty ring and an open write end unless a writer has given up |
| `Pipe.GivingUpStrandsReaders` | 实验四/kernel/pipe.c:86-88 | The -1 exit leaves the readers right iff none of them sleeps |
| `Pipe.ReaderIsStranded` | 实验四/kernel/pipe.c:86-88 | A run of two processes that ends with the lock free and a reader asleep beside a full ring |
| `KallocSteps.StepKeepsInv` | 实验三/kernel/kalloc.c:51-104 | Every step of every process keeps every free list linked, every page in one place and every lock with its holder, whichever CPU ids were read, whatever owners write into their pages and whomever they hand them to |
| `KallocSteps.InitHasInv` | 实验三/kernel/kalloc.c:28-44 | So does the state before freerange, in which the booting process owns all pages |
| `KallocSteps.RunKeepsInv` | 实验三/kernel/kalloc.c:51-104 | So it holds in every run, and no page is lost |
| `KallocSteps.EachPageOnce` | 实验三/kernel/kalloc.c:51-104 | In every run each page has one owner and is in no list, or has no owner and is at exactly one position of one list |
| `KallocSteps.AllocatedOnce` | 实验三/kernel/kalloc.c:82-96 | A page that kalloc takes had no owner, and is the caller's from then on |
| `KallocSteps.NobodyIsStuck` | 实验三/kernel/kalloc.c:51-104 | Every process inside that is not waiting for a held lock has an enabled step |
| `KallocCalls.LooksInOrder` | 实验三/kernel/kalloc.c:75-104 | In every run the lists that a kalloc has found empty, under their locks, are those before the one it is at: its own first, then from list 0 on |
| `KallocCalls.EndsWithZero` | 实验三/kernel/kalloc.c:75-104 | In every run a kalloc that ends with 0 has found every list empty under its lock since it was called, and one that ends with a page owns it |
| `KallocCalls.AllocAlone` | 实验三/kernel/kalloc.c:75-104 | The steps of kalloc alone end as the sequential allocator does: the first page of its own list, or of the first other list that has one, goes to the caller, and nothing else changes |
| `KallocCalls.FreeAlone` | 实验三/kernel/kalloc.c:51-69 | The steps of kfree alone put the page first in the caller's list, and nothing else changes |
| `Kalloc.PerCpu.Kalloc` | 实验三/kernel/kalloc.c:75-104 | 0 iff all lists are empty, else the first page of the own list or of the first other list that has one |
| `Kalloc.PerCpu.Kfree` | 实验三/kernel/kalloc.c:51-69 | The page becomes the first of the calling CPU's list, and nothing else changes |
| `Kalloc.PerCpu.Freerange` | 实验三/kernel/kalloc.c:38-44 | Exactly the whole pages of the range go to the calling CPU's list |
| `Kalloc.Single.Kalloc` | 实验二/kernel/kalloc.c:70-83 | 0 iff the list is empty, else its first page |
| `Kalloc.Single.Kfree` | 实验二/kernel/kalloc.c:48-64 | The page becomes the first of the list |
| `Kalloc.Single.Infofreemem` | 实验二/kernel/kalloc.c:86-99 | The number of bytes in the free list |
| `Kalloc.StepRefines` | 实验三/kernel/kalloc.c:75-104 | One call succeeds on per-CPU lists iff it does on a single list with as many pages, and keeps the counts equal |
| `Kalloc.PerCpuRefinesSingle` | 实验三/kernel/kalloc.c:38-104 | Through any sequence of calls from any CPUs every call ends as on the single list, and as many pages stay free |
| `BlockDevice.RoundUp` | 实验五/newfs/include/types.h:41 | NEWFS_ROUND_UP is the least multiple not below its argument |
| `BlockDevice.RoundDown` | 实验五/newfs/include/types.h:40 | NEWFS_ROUND_DOWN is the greatest multiple not above its argument |
| `BlockDevice.BlockSize` | 实验五/newfs/include/types.h:44 | The logical block is a whole number of device blocks of at least 1024 bytes |
| `BlockDevice.BlockSizeIsMacro` | 实验五/newfs/include/types.h:44 | NEWFS_BLKS_SZ is the least such number |
| `BlockDevice.Cover` | 实验五/newfs/src/newfs.c:64-66 | The aligned offset and the aligned size end at the rounded end of the range |
| `BlockDevice.Device.DriverRead` | 实验五/newfs/src/newfs.c:63-81 | Returns exactly the bytes of the range for every offset, size and device block size, and ends |
| `BlockDevice.Device.DriverWrite` | 实验五/newfs/src/newfs.c:90-111 | Changes exactly the bytes of the range for every offset, size and device block size, and ends |
| `Newfs.RegionsApart` | 实验五/newfs/include/types.h:45-46 | The disk regions of different inodes do not meet |
| `Newfs.RegionsAre` | 实验五/newfs/include/types.h:45-46 | Inode records are the 32-byte slots of bytes 3072 to 130047, and data areas the 8192-byte slots behind them |
| `Newfs.HeaderKept` | 实验五/newfs/src/newfs.c:193-240 | A sync leaves the superblock and the two bitmaps, bytes 0 to 3071, alone |
| `Newfs.TypesOnDisk` | 实验五/newfs/include/types.h:57-61 | The four type bytes of a stored inode or dentry are 0, 1 or 2 for a file, a directory or a link |
| `Newfs.ReversedLaw` | 实验五/newfs/src/newfs.c:315-328 | Dentry i of the list read back has the name, the inode number and, by the enum's values, the type of dentry cnt - 1 - i |
| `Newfs.InodeRoundTrip` | 实验五/newfs/include/types.h:106-113 | An inode record decodes to what was encoded, whatever its unused bytes hold |
| `Newfs.DentryRoundTrip` | 实验五/newfs/include/types.h:115-120 | A dentry record decodes to what was encoded |
| `Newfs.StoredKept` | 实验五/newfs/src/newfs.c:193-240 | A tree on disk stays when only other inodes' regions change |
| `Newfs.SyncInode` | 实验五/newfs/src/newfs.c:193-240 | The whole tree is on disk afterwards, and only the regions of its inodes have changed |
| `Newfs.UncachedIsKept` | 实验五/newfs/src/newfs.c:224-226 | Regions of inodes that are not in memory are unchanged |
| `Newfs.NewDentry` | 实验五/newfs/src/newfs.c:113-122 | The text before the first NUL, then zeros; the name is unchanged iff it was of that form |
| `NewfsMap.DataMap.TakeBit` | 实验五/newfs/src/newfs.c:164-178 | The scan takes the first clear bit of the map, if there is one |
| `NewfsMap.DataMap.AllocDentry` | 实验五/newfs/src/newfs.c:151-186 | The dentry becomes the head of the list in any case; it is counted, and the size grown, iff the map has a clear bit and the first one is not number max_data |
| `NewfsMap.TestIsTrue` | 实验五/newfs/src/newfs.c:162-163 | The test on the rounded sizes, as the macro expands, holds for every size |
| `NewfsMap.AllCountedIff` | 实验五/newfs/src/newfs.c:151-186 | Of n dentries all are counted iff n is at most the number of clear bits below max_data, if that bit is clear, or in all |
| `Newfs.DentryIsLost` | 实验五/newfs/src/newfs.c:151-240 | With no data bit left a new dentry is in the list but not counted, and gone after sync and read |
| `Newfs.ReadInode` | 实验五/newfs/src/newfs.c:298-339 | Reads back a stored file's size and bytes; of a stored directory the first dir_cnt dentries in reverse order, each with its name, its type by the enum's values and its inode number, and with the size and dir_cnt that the data map allows |
| `Newfs.EachIsStored` | 实验五/newfs/src/newfs.c:193-240 | In a stored tree every inode is stored |
| `Newfs.SyncThenRead` | 实验五/newfs/src/newfs.c:193-339 | After a sync of the tree every inode of it is read back: files with size and bytes, directories exactly reversed, names, types and inode numbers, iff dir_cnt counts all dentries, with a right count iff the data map has bits enough; other regions are unchanged |

## Left out

- User programs of the first lab, system-call argument fetching and dispatch, trace and sysinfo: easy counts and plumbing.
- Spinlock, sleep lock, log, file and virtio code: locks are atomic steps and the disk is a map or a byte sequence.
- Inline assembly, the SUM bit, TLB flushes, trap entry, the accessed and dirty bits of entries, vmprint and other printing.
- Deadlock freedom of the process locks in exit and wait: original_parent may be reused before it is locked, so the parent-before-child order is not kept in every run.
- Wakeups of init for reparented zombies: the comments in proc.c accept that init may miss one.
- memlayout.h and param.h are not part of this model: device addresses, etext, PHYSTOP and kernel stacks are parameters in the order the kernel lays them out in, and the number of buffers, processes and CPUs is any number.
- The bytes exec loads and the arguments it pushes: only its page tables are modelled; whether reads and copies succeed are parameters.
- ForkExec.ExecSpace: physical memory is taken to be smaller than the user address space, as it must be for walk not to panic on a huge segment.
- ProcMemory.AllocSpace: a failed allocation inside kvminit_proc is a panic, because the code writes through the null pointer.
- UserMemory.Uvmalloc: reaching a mapped page or MAXVA is a panic and excluded; pages beyond the number of free ones are never reached.
- Pipe.PipeIsFifo: a byte whose copy to the reader fails counts as taken, as in the code; the page of the pipe itself and its release are not modelled.
- Kalloc.PerCpu.Kfree: the panic on an address outside memory or not aligned is left to the caller.
- The 32-bit wrap-around of refcnt, of process ids and of newfs offsets.
- newfs path lookup, FUSE callbacks, mount, and the inode bitmap.
- Newfs.SyncInode: in-memory trees are values, since the sync only reads them.
