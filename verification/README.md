# Process kernel, boot path and console of a small teaching system

This project models three parts of a PC teaching kernel written in C and assembly, and proves what they are for.

**The process kernel.** Every IDT entry is an interrupt gate (support.c:145), so a clock tick, a system call by the
current process and a UART event each run to completion, and the kernel is a state machine whose steps are those
events. It is modelled in two layers.

- The *heap layer* keeps the source's form: 57 queue nodes linked through raw pointers, one free list and eight queues
  that share them (`QueuePool`), the PCB table as an array, the handlers as methods that relink and assign
  (`ProcessKernel.Kernel`, `Startup`), and the linear serial buffers as arrays with moving indices (`SerialDriver`).
  Every method is proved equal to the corresponding step of the value layer.
- The *value layer* (`KernelModel`) has one `Step` for the eight queues as sequences. The theorems about single steps
  and whole runs are about it: ownership (`Ownership`, `Safety`), the dispatcher (`Dispatching`), what a waiting process
  keeps (`Lines`, `Progress`), conservation and runs from `_init` (`Runs`), exact wake-up (`Timing`, `SleepOrder`),
  bounded waiting (`Waiting` in ticks, `Turns` in dispatches), what kill and spawn promise (`Killing`, `Spawning`), the
  serial streams (`Streams`), what each system call does for the process that traps with its code (`SystemCalls`), and
  runs from power-up that reach what goes wrong (`Reachable`).

What goes wrong in the source has an outcome of its own instead of being excluded: `Panic` for the two panics of
`_dispatch`, `Overrun` for a byte stored behind the end of a linear buffer, `leaked` for a PCB that a spawn at a bad
level takes out of circulation. The theorems say exactly when each of them can occur.

**The boot path.** `BuildImage` writes padded programs behind two sectors of boot code and a table that grows downwards
from the end of the boot code; `Bootstrap` walks the table back with a CHS counter and a segment:offset pointer;
`BootRoundTrip` proves that together they put every program at its address.

**The console.** `Console` is the scroll region with delayed scroll, `Decimal` the conversion of all 32-bit integers,
`Keyboard` the input ring.

Where the code departs from its comments the model follows the code:

- `_schedule` overwrites ZOMBIE with READY, so a process that is killed while it sleeps or reads comes back
  (scheduler.c:47). `KillFinalIff` says that kill is final exactly for the caller itself and for victims on a ready queue.
- `_spawn` ignores STAT_BAD_LEVEL and loses the PCB and the stack (syscalls.c:313). `SpawnLeaksIff` says exactly when.
- The serial buffers are linear; their pointers only go back when a buffer runs empty (sio.c:155-158, 318-320,
  348-351). `StepInv` gives the exact condition of an overrun, `DribbleOverruns` one that never has more than two
  characters waiting.
- Pids wrap at 16 bits (system.c:60). `DistinctFromBootIff` says that pids in use stay distinct until a process is
  created from a counter that is back at 0; that process has the pid of the idle process (`DuplicatesFromBoot`).
- The clock and wake-up times wrap at 32 bits, and are compared as they are (clock.c:62, syscalls.c:371, queues.c:239). A
  sleep lasts as many ticks as its countdown says (`LastsRemaining`), and `SleepLastsIff` says when that is what the
  caller asked for: if its end is a time that the clock can show, or the clock is at its very last value. Otherwise a
  sleep of less than one round of the clock is over at the next tick.
- A disk filled to its last sector cannot be booted from, although every sector of it can be read (bootstrap.S:163-168).
- An empty program ends the load table for the loader (bootstrap.S:94-96). `WholeImageIff` says exactly when programs
  are left behind in this way.
- A load address that is not a multiple of 16 leaves an offset at which the 64K step never happens
  (bootstrap.S:140-149). `LinearIff` says when the pointer stays linear, `ReadsIntactIff` that a program is loaded in one
  piece exactly then.
- The scan code tables hold unsigned characters, and the test for an undefined key compares them with '\377', which is
  -1 (c_io.c:506, 603). It never holds: a key without a character types a byte like any other, and it reads as -1.
  `TypesNothingIff` and `UndefinedKeyReads` say so.

Verify with `dafny verify dfyconfig.toml`.

## Model

| member | source | states |
|---|---|---|
| `QueuePool.Pool.QnAlloc` | queues.c:71-84 | the head of the free list comes off, cleared, and belongs to no list; null exactly when the free list is empty |
| `QueuePool.Pool.QnDealloc` | queues.c:92-97 | a node in flight becomes the head of the free list and all lists are sound again |
| `QueuePool.Pool.Locate` | queues.c:139-154 | the search finds the neighbours of the one position behind every key not above the new one, or the tail of a FIFO queue |
| `QueuePool.Relink` | queues.c:156-176 | one node is linked in between two neighbours: the chain stays acyclic and `last` is its final node |
| `QueuePool.Pool.Splice` | queues.c:156-176 | relinking one of the queues leaves the free list and all other queues sound, although nodes are shared |
| `QueuePool.Pool.Insert` | queues.c:111-182 | append, or stable insertion by key; it fails exactly when all 57 nodes are in use, and then changes nothing; the pool stays sound |
| `QueuePool.Pool.Remove` | queues.c:192-226 | takes the first item, and the node goes back to the free list; null exactly on an empty queue |
| `QueuePool.Pool.RemoveIfLe` | queues.c:237-245 | takes the first item exactly when its key is at most the given one |
| `QueuePool.Pool.constructor` | queues.c:270-292 | all nodes are free and all queues are empty |
| `QueuePool.SortedInsert` | queues.c:142-145 | an insertion at the found position keeps the keys sorted |
| `QueuePool.RankUnique` | queues.c:142-145 | only one position separates the keys not above a key from the others, so the insertion is stable |
| `QueuePool.Pool.NodesPartitioned` | queues.c:49-97 | free list and queue chains partition the nodes: none is lost and none is in two lists |
| `ProcessKernel.Kernel.NodesConserved` | queues.c:49 | in every state that keeps the kernel invariant the nodes are partitioned and at least five are free |
| `Runs.NodesSuffice` | queues.c:111-120 | five nodes stay free beyond what the ready lines and the PCBs in the kernel's hands may still need, so no insertion of a handler can fail midway |
| `Runs.PcbsConserved` | processes.c:53-89 | queues, leaks and PCBs in the kernel's hands always add up to the 24 of the table |
| `Runs.StacksPartitioned` | stacks.c:48-74 | every stack is free or held by exactly one PCB outside the free pool |
| `ProcessKernel.Kernel.Schedule` | scheduler.c:37-53 | BAD_LEVEL and no change for a bad level, otherwise READY and at the tail of its level; the insertion succeeds |
| `ProcessKernel.Kernel.Dispatch` | scheduler.c:61-135 | refines the dispatch of the value layer, its panics included |
| `ProcessKernel.Kernel.NextReady` | scheduler.c:75-123 | the loop ends, with the first ready process off its queue, or with a panic exactly where the value layer panics |
| `Dispatching.DispatchPicks` | scheduler.c:75-132 | the loop computes a statement without loop: the first ready process in level-then-FIFO order runs, exactly the zombies ahead of it are back in the pools with their stacks in order, and nothing else changes |
| `Dispatching.DispatchMeans` | scheduler.c:61-135 | every dispatch that does not panic has picked such a process |
| `Dispatching.DispatchPanicsIff` | scheduler.c:107-123 | a dispatch panics exactly when no queued process is ready |
| `Dispatching.DispatchCore` | scheduler.c:125-132 | the chosen process leaves its queue, runs with a fresh quantum, and all else stays owned |
| `ProcessKernel.Kernel.Cleanup` | system.c:116-125 | stack and PCB go to the tails of their pools |
| `ProcessKernel.Kernel.PcbAlloc` | processes.c:53-68 | the first free PCB, marked NEW; null exactly when there is none |
| `ProcessKernel.Kernel.PcbDealloc` | processes.c:79-89 | marked FREE and at the tail of the free pool |
| `ProcessKernel.Kernel.StackAlloc` | stacks.c:48-57 | the first free stack; null exactly when there is none |
| `ProcessKernel.Kernel.StackDealloc` | stacks.c:68-74 | the stack goes to the tail of its pool; the insertion succeeds |
| `ProcessKernel.Kernel.MakeProc` | system.c:48-108 | a cleared PCB with stack, level and the next pid; the pid counter wraps at 16 bits |
| `ProcessKernel.Kernel.Spawn` | syscalls.c:278-320 | equals the value layer's spawn; it never panics and none of its insertions fails |
| `ProcessKernel.Kernel.Sleep` | syscalls.c:363-393 | equals the value layer's sleep: a yield for 0, otherwise a place in the sleep queue at the 32-bit wake-up time |
| `ProcessKernel.Kernel.Exit` | syscalls.c:267-272 | cleans up the caller and dispatches |
| `ProcessKernel.Kernel.Kill` | syscalls.c:222-259 | -1 for pid 0 and unknown pids, exit for the caller's own pid, otherwise the first active entry with the pid becomes a zombie and its old state is the answer |
| `ProcessKernel.Kernel.Search` | syscalls.c:251-257 | finds the first active table entry with a pid, if there is one |
| `ProcessKernel.Kernel.Read` | syscalls.c:68-101 | a buffered character, or the caller joins the line of readers and another process runs |
| `ProcessKernel.Kernel.Write` | syscalls.c:109-118 | passes the byte on; reports exactly the overruns of the linear buffer |
| `ProcessKernel.Kernel.GetPidList` | syscalls.c:179-209 | the answer is the number of active processes, the buffer gets the first min(size, number) pids in table order |
| `Runs.CensusAgrees` | syscalls.c:193-207 | the count is 24 minus the free and the leaked PCBs |
| `Runs.PidsInTableOrder` | syscalls.c:193-203 | the list holds the pid of every active entry and of no other, in table order |
| `ProcessKernel.Kernel.IsrClock` | clock.c:56-150 | one tick: time, wake loop, quantum; it never panics |
| `ProcessKernel.Kernel.WakeDue` | clock.c:75-77 | the wake loop ends and refines the value layer's |
| `ProcessKernel.Kernel.NextDue` | clock.c:75 | the first sleeper, exactly when it is due |
| `ProcessKernel.Kernel.IsrReceive` | sio.c:127-160 | a waiting reader gets the character with CR as LF; otherwise it is buffered, dropped when 1024 wait, and an overrun is reported exactly when the linear buffer has run out |
| `ProcessKernel.Kernel.IsrTransmit` | sio.c:113-125 | the next byte goes out, or the output variables are reset |
| `SerialDriver.Serial.Read` | sio.c:300-325 | the first buffered character; the pointers go back when it was the last |
| `SerialDriver.Serial.StoreInput` | sio.c:155-158 | appended to what is buffered, dropped when full, or past the end of the array, exactly as the value layer says |
| `SerialDriver.Serial.SendNext` | sio.c:113-125 | one byte moves from the buffer to the line |
| `SerialDriver.Serial.Write` | sio.c:334-361 | LF as CR LF; the first byte of a burst goes straight out, the others are buffered |
| `Startup.InitModules` | processes.c:98-145 | the initialisation loops put every PCB, stack and segment in its pool, in order, and no insertion fails |
| `Startup.Init` | system.c:134-247 | _init ends without a panic in the state from which all runs start, with a kernel made of new objects only |
| `Startup.IsrSyscall` | syscalls.c:658-696 | every code but the shared-memory ones reaches its handler with truncated arguments, a bad code ends the caller, and the outcome is that of the step asked for |
| `SystemCalls.TrapAsks` | syscalls.c:129-209 | codes 7 to 10 answer the time in seconds, the caller's pid, its parent's pid, and 24 less the free and the lost PCBs, and do nothing else |
| `SystemCalls.TrapSpawns` | syscalls.c:278-354 | codes 0 and 1 create a child with the next pid at level 1 or at the level byte given, whose parent is the caller and gets its pid; without a free PCB the answer is -1 and nothing else happens |
| `SystemCalls.TrapSleeps` | syscalls.c:363-391 | code 2 with n other than 0: the caller is on the sleep queue until n seconds from now in 32 bits, and another process runs |
| `SystemCalls.TrapYields` | syscalls.c:380-391 | code 2 with 0: the caller goes on only if nobody else is ready at its level or above, and is else the last in its line |
| `SystemCalls.TrapKills` | syscalls.c:222-259 | code 4 naming another process: -1 if and only if the pid is 0 or no process in use has it, and then nothing else happens; otherwise 2, 5, 6 or 4 by the place of the victim, or as it was killed there before, and the victim is marked and nothing else changes |
| `SystemCalls.TrapReads` | syscalls.c:68-101 | code 5: the first buffered character, or the caller is the last of the waiting readers and another process runs |
| `SystemCalls.TrapWrites` | syscalls.c:109-118 | code 6: the byte, or CR LF for LF, joins the output stream and nothing else happens |
| `SystemCalls.TrapExits` | syscalls.c:678-682 | code 3 and every code from 17 on: another process runs, and the caller's PCB and stack are back in their pools |
| `SystemCalls.IdentityKept` | system.c:58-61 | over any lawful run a process keeps its pid, its parent's pid, its level and its stack while its PCB is in use |
| `SystemCalls.ChildKnowsParent` | syscalls.c:303-307 | whenever a child runs, getpid answers what spawn answered its parent, and getppid what getpid answers its parent |
| `Startup.Interrupt` | system.c:182-186 | what the hardware signals, shared-memory calls apart, the installed handler does on the heap as the model's step does on values, panics and overruns included |
| `Startup.LawfulInterrupt` | scheduler.c:107-123 | a lawful signal leaves the kernel on the heap owned, wired and without a panic, in the state of the model's step |
| `Startup.Session` | system.c:134-247 | whole runs on the heap: from _init, under any lawful sequence of signals, the kernel stays sound and is where the model's run is |
| `Startup.ShmAlloc` | shared_mem.c:98-113 | the first segment leaves the pool; null exactly when there is none |
| `Startup.ShmFree` | shared_mem.c:123-133 | a segment goes back to the pool; the insertion succeeds |
| `Safety.StepInv` | scheduler.c:107-123 | every event keeps the ownership invariant; the kernel panics exactly when the current process leaves and nobody is ready; a serial buffer overruns exactly when it has no room for what the event stores |
| `Runs.LawfulStep` | scheduler.c:71-73 | while the idle process does not leave, it is running or ready on the lowest level after every step, and no step panics |
| `Runs.RunSafe` | scheduler.c:107-123 | no lawful run of any length panics or loses anything: each PCB is in exactly one place that agrees with its status, and each stack has one owner |
| `Runs.BootedRunSafe` | system.c:186-247 | the same for every lawful run from the state _init leaves |
| `Runs.LoadingSteps` | system.c:194-243 | the three creations of _init find a PCB and a stack each and leave idle on the lowest level and two processes on the default level |
| `Progress.ReadyStays` | scheduler.c:84-96 | a ready process that a step does not kill runs next or stays ready on its level |
| `Progress.ZombieStays` | scheduler.c:102-105 | a killed process on a ready queue stays there, dead, or is back in the pools; it does not run |
| `Progress.OrderStays` | scheduler.c:75-96 | no step lets another process overtake a ready one |
| `Progress.CurrentStays` | clock.c:134-144 | a current process that does not leave keeps the CPU or waits, ready, at its own level |
| `Lines.StepVia` | scheduler.c:37-53 | every step only appends to the ready lines, or marks one entry killed, and then dispatches or not |
| `Timing.WakeMeans` | clock.c:75-77 | the wake loop moves exactly the sleepers that are due to the tails of their own levels, in queue order |
| `Timing.TimedStep` | clock.c:62-77 | no sleeper is overdue between steps, and only ticks move the clock, as long as no wake-up time wraps |
| `Timing.TickTakesIff` | clock.c:75-77 | a tick takes a sleeper off the sleep queue if and only if its countdown, on a clock that wraps, is at its end |
| `Timing.WakesExactlyOnTime` | clock.c:75-77 | with nobody overdue, a tick takes a sleeper off the sleep queue if and only if its wake-up time is the new time |
| `Timing.ReadyOnTime` | clock.c:75-77 | a sleeper whose countdown ends, killed or not, is ready or running after that tick |
| `Timing.SleepsUntilDue` | clock.c:75-77 | over any lawful run a sleeper stays asleep, with its wake-up time, while its countdown has ticks left, and each tick counts down by one |
| `Timing.SleepAsks` | syscalls.c:366-378 | sleep(n) asks for n seconds ahead in 32 bits, behind every sleeper due no later than that and ahead of all others |
| `SleepOrder.LastsRemaining` | clock.c:75-77 | in all lawful runs a sleep has as many ticks to go as its countdown says, and no other number |
| `SleepOrder.SleepLastsIff` | syscalls.c:371 | sleep(n) lasts exactly the ticks of n seconds, whatever happens meanwhile, if and only if its end is a time that the clock can show or the clock is at its last value and goes round at most once; a shorter sleep whose end is beyond the clock is over at the next tick |
| `SleepOrder.WakesInEveryRun` | clock.c:75-77 | in every lawful run the tick that ends a sleeper's countdown leaves it ready or running |
| `SleepOrder.EqualTimesInOrder` | queues.c:142-145 | over every lawful run, of two processes of one level that are due together the one that called sleep first is dispatched first or in line ahead |
| `Timing.SleepLine` | syscalls.c:363-393 | a tick advances the clock and cuts off the due sleepers, a sleep inserts the caller behind every key not above its own, and no other event touches either |
| `Waiting.BoundedWait` | clock.c:134-144 | a ready process at position k of an undisturbed level runs within q + 1 + 3k ticks, whatever sleepers join |
| `Turns.BoundedTurns` | scheduler.c:75-132 | over any lawful run that does not kill it and dispatches nobody more urgent, a ready process at position k of its line is passed over by at most k dispatches |
| `Waiting.NobodyElseRuns` | scheduler.c:77-84 | priorities are strict: with nobody ready at its level or above and nobody asleep the current process keeps the CPU over any number of clock ticks |
| `Turns.SliceKept` | clock.c:134-143 | over clock ticks a process keeps the CPU for what is left of its quantum |
| `Turns.SliceEnds` | clock.c:134-140 | the tick after that gives the CPU to another process if one is ready at its level or above; the process is then last in its line, or runs again with a fresh quantum |
| `Killing.PidsStayDistinctIff` | system.c:60 | pids in use stay distinct in a step if and only if it does not create a process from a counter back at 0 |
| `Killing.DistinctThroughoutIff` | system.c:60 | the same for every lawful run, from any state in which the counter is past all pids in use or back at 0 |
| `Killing.DistinctFromBootIff` | system.c:60 | the same for every lawful run from power-up |
| `Killing.WrapDuplicatesIdle` | system.c:60 | once the counter is back at 0, the next process created shares pid 0 with the idle process, and both are active |
| `Killing.KillReady` | syscalls.c:251-257 | a kill that finds its victim on a ready queue makes its pid dead |
| `Killing.DeadForever` | scheduler.c:102-105 | a dead pid never runs again in any lawful run in which pids stay distinct |
| `Killing.SleeperRevives` | clock.c:75-77 | a killed sleeper has a lawful future in which it is in line to run |
| `Killing.SleeperAlwaysRevives` | clock.c:75-77 | in every lawful run the tick that ends a sleeper's countdown brings its pid back to life, killed or not |
| `Killing.ReceiveRevives` | sio.c:142-146 | any character that comes in makes the first blocked reader ready, killed or not |
| `Killing.ReaderRevives` | sio.c:142-146 | a killed reader has a lawful future in which it is in line to run |
| `Killing.KillSelf` | syscalls.c:239-245 | a kill of the caller itself returns its PCB to the pool at once, and its pid is dead |
| `Killing.KillFinalIff` | scheduler.c:47 | a kill is final if and only if the victim is the caller itself or was on a ready queue |
| `Killing.KillFinalFromBoot` | scheduler.c:47 | the same equivalence for a kill after any lawful run from power-up in which pids stay distinct |
| `Reachable.KilledSleeperFromBoot` | scheduler.c:47 | a lawful run from power-up kills a sleeper that can come back |
| `Reachable.DuplicatesFromBoot` | system.c:60 | a lawful run from power-up leaves two processes with pid 0 |
| `Spawning.SpawnFailsIff` | syscalls.c:284-299 | spawn answers -1 exactly when no PCB is free; the stack allocation behind it cannot fail |
| `Spawning.ParentGetsPid` | syscalls.c:303 | a parent whose spawn succeeds is answered with the child's pid |
| `Spawning.ChildFirst` | syscalls.c:309-318 | after spawn a child no less urgent than its parent runs or is ready ahead of it |
| `Spawning.NeverOvertaken` | syscalls.c:309-318 | over any lawful run nobody behind a ready process runs before it, unless it is killed |
| `Spawning.ParentWaitsForChild` | syscalls.c:309-318 | the parent does not run again before such a child has run, unless the child is killed |
| `Spawning.SpawnLeaksIff` | syscalls.c:313 | spawn loses a PCB exactly when one is free and the level is bad |
| `Streams.InputConserved` | sio.c:127-160 | over any lawful run what was buffered and accepted is what is delivered and still buffered, in order |
| `Streams.ReadersFifo` | syscalls.c:82-98 | blocked readers are served in the order in which they blocked |
| `Streams.NthReaderServed` | sio.c:137-146 | over any lawful run the reader at place j of the line gets the character handed over as number j, or is still that far from it |
| `Streams.OutputConserved` | sio.c:334-361 | over any lawful run bytes sent followed by bytes buffered are the bytes written with LF as CR LF |
| `Streams.OutputProgress` | sio.c:113-125 | over any lawful run without writes every transmitter event puts the next buffered byte on the line, and the one after the last stops the transmission and resets the buffer |
| `Streams.RoomAfterSending` | sio.c:119-125 | after that there is room for any write |
| `Streams.WriteStarts` | sio.c:338-359 | a write while nothing is being sent puts its first byte on the line at once; any other write only queues |
| `Streams.DribbleOverruns` | sio.c:155-158 | a run of alternating input and reads, with never more than two characters waiting, ends in an overrun when 1024 bytes have been stored |
| `Reachable.OverrunFromBoot` | sio.c:155-158 | such a run from power-up overruns the input buffer |
| `BuildImage.Builder.CopyFile` | BuildImage.c:70-95 | the file in full sectors, the last one filled up with nulls, and their number |
| `BuildImage.Builder.ProcessFile` | BuildImage.c:97-172 | the first applicable complaint, or the program's three words in front of the table |
| `BuildImage.Builder.Record` | BuildImage.c:169-171 | offset, segment and count lie in this order in front of the earlier entries |
| `BuildImage.Builder.IsBlank` | BuildImage.c:248-252 | accepts exactly a place for the table that holds only zero bytes |
| `BuildImage.Builder.Build` | BuildImage.c:174-265 | the image of boot code, table and programs, or the complaint that the source makes |
| `BuildImage.AcceptedIff` | BuildImage.c:145-160 | programs are accepted exactly when there are at most 85 and each ends at or below 0x9ffff |
| `BuildImage.BuiltIff` | BuildImage.c:145-252 | an image is built if and only if there are 1 to 85 programs, all end at or below 0x9ffff, and the boot code ends in six zero bytes for each |
| `BuildImage.FirstComplaint` | BuildImage.c:145-160 | the build is rejected for the first program that does not fit, with the complaint that applies to it first |
| `BuildImage.TableComplaint` | BuildImage.c:238-252 | with all programs accepted, the build is rejected exactly if the boot code is shorter than the table or has a non-zero byte where the table goes |
| `BuildImage.BootCodeKept` | BuildImage.c:254-261 | a built image keeps every non-zero byte of the boot code, and every byte in front of the table |
| `BuildImage.TableFormat` | BuildImage.c:169-171 | offset, segment and sector count of program i lie six bytes a program below the end of the boot code |
| `Bootstrap.Loader.BiosRead` | bootstrap.S:122-127 | one attempt at the sector that cylinder, head and sector name |
| `Bootstrap.Loader.Retry` | bootstrap.S:118-135 | up to three attempts at one sector, each from the saved counter |
| `Bootstrap.ThreeAttempts` | bootstrap.S:118-135 | a sector is read if and only if one of three attempts in a row works, and the first that works is the last made |
| `Bootstrap.SectorsRead` | bootstrap.S:174-177 | readprog reads as many sectors as its count says, and one for a count that is 0 or negative as a signed word |
| `Bootstrap.Loader.Advance` | bootstrap.S:151-172 | the counter encodes the next linear sector of the 80x2x18 geometry, and stops at cylinder 80 |
| `Bootstrap.Loader.ReadBlocks` | bootstrap.S:115-182 | refines reading on linear sector numbers, freezes included |
| `Bootstrap.Loader.LoadPrograms` | bootstrap.S:91-107 | refines the table walk on values |
| `Bootstrap.PowerUp` | bootstrap.S:80-107 | from the boot sector in memory to the last program, the loader refines the value layer's boot |
| `Bootstrap.LinearIff` | bootstrap.S:140-149 | the segmented pointer grows by 512 a sector exactly when it starts on a multiple of 512 or never reaches the end of its segment |
| `BootRoundTrip.ReadStraight` | bootstrap.S:115-182 | on such a pointer a program arrives as one piece, whatever is retried, and the counter grows by its sectors |
| `BootRoundTrip.ReadTooFar` | bootstrap.S:161-168 | a program that reaches the end of the last cylinder is never finished |
| `BootRoundTrip.ReadsIntactIff` | bootstrap.S:137-149 | a program arrives in one piece whatever was in memory if and only if its pointer is straight: it starts on a multiple of 512 or its sectors all start within the segment |
| `BootRoundTrip.EntryInMemory` | bootstrap.S:94-103 | the loader finds each program's count, segment and offset where the builder put them |
| `BootRoundTrip.BootLoadsImage` | bootstrap.S:86-107 | the round trip: while the disk's last sector is not needed the loader never freezes for size, and if no read fails it reads exactly the programs in front of the first empty one; every one of them is at its address, and nothing outside them and the two boot sectors has changed |
| `BootRoundTrip.BootsIffRoom` | bootstrap.S:161-168 | without lasting read faults the loader finishes if and only if the disk's last sector is not among those to load, and otherwise freezes for size |
| `BootRoundTrip.LoadingEnds` | bootstrap.S:94-96 | with all programs in front of the first empty one in memory, the loader is done |
| `BootRoundTrip.WholeImageIff` | bootstrap.S:94-96 | without lasting read faults the loader reads the whole image if and only if there are only empty programs behind an empty one |
| `BootRoundTrip.BuildAndBoot` | Makefile:117-118 | the builder and the loader one after the other: what is built, put on a floppy and booted is in memory, unless a read fails, and nothing else has changed there |
| `Console.Screen.SetScroll` | c_io.c:112-120 | every edge of the region is the place nearest to the one asked for, on the screen and not before the first edge; the region shows what is there, with the cursor at its start |
| `Console.Screen.MoveTo` | c_io.c:125-129 | the cursor goes to the place in the region nearest to the one asked for, and a line held back is given up |
| `Console.Screen.Putchar` | c_io.c:163-200 | the region goes on showing the last lines of the transcript, the newest held back while a scroll is pending; no cell outside changes |
| `Console.Screen.Puts` | c_io.c:216-222 | the same for any text |
| `Console.Screen.Scroll` | c_io.c:250-284 | the region moves up and blank lines follow; a scroll by its height or more clears it |
| `Console.Screen.ClearScroll` | c_io.c:225-237 | the region is blank and nothing outside has changed |
| `Console.Screen.PutcharAt` | c_io.c:134-160 | one cell, or for a newline blanks up to the region's edge on the same side |
| `Console.PlainText` | c_io.c:190-197 | plain characters appear in reading order, wrapped at the width, and none is overwritten |
| `Console.ReturnOverwrites` | c_io.c:186-188 | text after a return overwrites the line from its first column and leaves the rest of it |
| `Console.FeedNewline` | c_io.c:173-184 | a newline blanks the rest of the line and goes on to the start of the next, which is added if there is none |
| `Console.CellMeans` | c_io.c:98-108 | a cell holds the character in its low byte, and the attributes given, or white on black, in its high byte |
| `Console.WrittenStays` | c_io.c:163-200 | lines above the writing position never change |
| `Decimal.CvtDec0` | c_io.c:286-299 | the digits of the magnitude, for the negated minimum too, and nothing else in the buffer |
| `Decimal.CvtDec` | c_io.c:301-312 | for every 32-bit integer a decimal that means the integer, a NUL, the length, and at most 12 bytes changed |
| `Decimal.TextIsTheDecimal` | c_io.c:286-312 | a text is what cvtdec stores if and only if it is a decimal without leading zeros that means the integer; it has at most 11 characters |
| `Keyboard.Driver.InputScanCode` | c_io.c:568-616 | modifiers and releases type nothing; every other press queues a byte, for an undefined key too, or drops it exactly when 199 wait |
| `Keyboard.TypesNothingIff` | c_io.c:595-614 | a scan code types nothing if and only if it is a modifier or a release |
| `Keyboard.UndefinedKeyReads` | c_io.c:602-611 | a key without a character takes a place in the ring and reads as -1, or as 0x1f while Ctrl is down |
| `Keyboard.OrdinaryKeyTypes` | c_io.c:601-611 | any other press types the character of its key, the shifted one under Shift, its low five bits under Ctrl |
| `Keyboard.ModifierDownIff` | c_io.c:575-593 | over any events Shift and Ctrl are down exactly between a press and the next release |
| `Keyboard.Driver.Store` | c_io.c:604-612 | the ring grows by the character exactly when there is room |
| `Keyboard.Driver.GetChar` | c_io.c:623-645 | the oldest character leaves the ring and is returned as a signed char, to be echoed unless it is EOT |
| `Keyboard.Driver.InputQueue` | c_io.c:667-674 | the number of characters waiting |
| `Keyboard.KeysConserved` | c_io.c:552-566 | over any interleaving: first in, first out, each accepted byte once, at most 199 waiting |
| `Keyboard.LostIffFull` | c_io.c:606-612 | over any interleaving a typed byte is lost exactly when one is typed while 199 wait |

## Left out

- ata.c, ide.c, pci*.c, pci*.S: device polling and port I/O. The disk request queues are taken as empty.
- ramdisk.c and the RAM-disk block of the clock handler (clock.c:79-129): a requester is queued while it still runs.
- device.c and disk.c: LIFO lists, with a handle that can be released twice.
- shared_mem.c beyond the pool: the segments only consume and give back up to four queue nodes; a segment is released only while it is allocated.
- ShmAlloc: the segment's SHM_NEW mark and its other fields are not modelled.
- ShmFree: the segment's SHM_FREE mark is not modelled.
- IsrSyscall: leaves out the codes 11 to 16, the shared-memory calls, whose handlers work on segments that are not modelled.
- Interrupt: leaves out the same codes.
- LawfulInterrupt: leaves out the same codes.
- Session: leaves out the same codes.
- MakeProc: the stack frame and the saved context that it builds are machine level and not modelled.
- IsrClock: the pinwheel and the RAM-disk block in the middle of the handler are not modelled.
- The PIC and UART registers, `_sio_enable`, messages, and the status checks that print them.
- Machine code stubs and saved contexts; a process' saved EAX is the part of a context that is kept.
- The queue's hash function pointer: an ordered queue takes the key with the call, and the kernel passes the PCB's wake-up time. `_q_reset` on a queue in use, which would lose its nodes, is not modelled.
- TIMER_TICKS_PER_SECOND has no value in the files modelled; it is any positive constant.
- Pending UART events are separate steps, although one interrupt may handle several in a row.
- The idle process: that it neither exits nor sleeps nor reads is an assumption of lawful runs, from its body (RCS/user.c,v:771-785).
- WakesExactlyOnTime: assumes that nobody is overdue, which `TimedStep` keeps; `TickTakesIff` needs no such assumption.
- SliceKept: covers runs of clock ticks only; any call by the process itself may end its slice earlier.
- BoundedWait: covers runs of clock ticks only, in which the clock does not wrap and nothing more urgent becomes ready; `BoundedTurns` covers all events.
- NobodyElseRuns: covers runs of clock ticks only.
- KillFinalIff: assumes distinct pids and a counter past them, which `DistinctThroughoutIff` shows for runs from power-up, and speaks of futures in which pids stay distinct.
- DeadForever: assumes that no process is created from a pid counter back at 0.
- SleeperRevives: gives one future in which the victim is back; `SleeperAlwaysRevives` is about all. ReaderRevives is of the same kind, with `ReceiveRevives` and `NthReaderServed` beside it.
- ProcessFile: the seg:offset form of an address is not modelled, and a file that cannot be opened neither.
- Build: leaves out the check of the argument list for a leftover argument and the errors of the file system. File sizes are not limited to the range of an int.
- BootLoadsImage: the loader's own code, stack and counters are kept apart from the memory that it fills, so a program placed over them has no modelled effect; the same holds for BIOS data and for DMA limits at 64K boundaries.
- Bootstrap: disk reset and status checks, the switch to protected mode and A20.
- GetChar: the wait for a key, with interrupts or by polling, is a result of its own, and the echo to the screen is only announced.
- InputScanCode: the scan code tables are a parameter. Plain char is taken to be signed, as the compiler for this machine has it.
- cvthex, cvtoct, printf's format walk, c_puts_at, c_clearscreen and c_gets.
- SetCursor: the hardware cursor's two port writes are one assignment.
