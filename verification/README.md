# disastrOS kernel model

A model of the disastrOS teaching kernel in Dafny 4.11, with proofs about it. Five parts:

- **The scheduler.** `Processes` holds the PCB buffer, the process lists, the timer queue and the clock as one value
  (`State`); `Syscalls` gives every kernel entry as one atomic step, `Step(State, Call): Outcome`, whose outcome is the next
  state, a null dereference (`Crash`) or an endless loop (`Hang`). The step is total: no argument and no state is ruled out
  beforehand. A PCB pointer is the index of a block in the static buffer, and blocks are recycled last-in first-out as the
  pool does it, so a stale `parent` pointer names whatever process holds the block later. `Invariants` states what holds in
  every reachable state; `Scheduling`, `Family` and `Reachability` prove it for every run from boot. On top of it come bounded
  waiting (`Fairness`), pool capacity and wake times (`SleepTimes`), exactly-once reaping (`Reaping`), lost wake-ups and
  the calls that cause them (`WakeUps`), waits that nothing can end (`Stranded`), crash-free and well-behaved runs
  (`Discipline`), and concrete failing runs (`Counterexamples`). `Answers` says for each call, in terms of the states before
  and after, what the caller gets and what stays as it was.
- **The code.** `KernelCode.Kernel` is the scheduler as the source writes it: the PCB buffer as an array, lists that the
  methods reassign, the loops of the source. Every handler is proved to do exactly the specified step; `WakeTraces` relates the turns
  of the wake loop to the single step that the specification makes of them. `ResourceCode` and
  `SemaphoreCode` do the same for the descriptor tables.
- **The heap.** `LinkedList` is the intrusive doubly linked list on objects with `prev` and `next` pointers, `PoolAllocators`
  the index-linked pool allocator with its address arithmetic. `PointerQueues` runs the timer queue and the whole of
  `internal_schedule` on such lists and proves that they end up holding what the sequence model says.
- **Descriptors and semaphores.** `Resources` and `Semaphores` model the cross-linked descriptor tables, the resource and
  semaphore life cycles, and the semaphore's count and queue, again as total steps from an initial table. `ResourceAnswers`
  and `SemaphoreAnswers` say exactly which call gets which answer.
- **The whole.** `Machines` puts the scheduler, the resource tables and the semaphore tables together: every system call but
  shutdown is one step of the product, which tells exactly which requests leave it in order. `MachineCode` has the handlers
  that work on several parts at once, `MachineAnswers` what each request answers, `MachineCounterexamples` and
  `TableCounterexamples` the runs that break something.

History fields (`births`, `exits`, `reaps`, timer stamps, a semaphore's `initial`, `waits`, `posts`, `queued`, `handed`, and
`readied`, `blocked`) record the past of a run; no step reads them except to extend them.

Where the code and its own comments or error codes disagree, the model follows the code:

- `PCB_alloc` dereferences the block it did not get, so fork and spawn with an exhausted pool crash; the `DSOS_ESPAWN` branch is dead.
- `wait` for a pid that is no child's never returns `DSOS_EWAIT`: the scan leaves its cursor on the last child, which is then
  collected if it is a zombie; otherwise the caller blocks (`Answers.WaitAnswers`, `Counterexamples.UnknownPidBlocks`).
- Reparenting moves a child's cell but not its `parent` pointer. A wake-up can be lost (`Counterexamples.OrphanLost`), and an
  orphan's exit can take the new owner of its dead parent's block for its parent and crash (`Counterexamples.RecycledParentCrash`).
  `WakeUps.KeptIffSafe` and `Discipline.CallsExact` give the exact conditions.
- Init has pid 0 (a comment says 1).
- `DSOS_WRITE` is 0x3 and so includes the `DSOS_CREATE` bit; the model tests the bits as the code does.
- A semaphore wait that blocks lists the caller as waiting and lets it run on (`Machines.SemWaitPartition`,
  `MachineCounterexamples.RunningAndWaiting`).
- Only an exit that the parent waits for releases resource descriptors, and none releases semaphore descriptors; the next
  process in the block inherits the semaphore descriptors, while the resource descriptors are lost (`Machines.WholeKeptIff`,
  `MachineCounterexamples.LeftOpen`).
- `List_insert` accepts the only member of a list again and links it to itself (`LinkedList.ListHead.Insert`).
- The range test for syscall numbers lets 32 pass, one behind the end of both tables (`Machines.WholeKeptIff`).
- The exit path of reaping never frees the child's PCBPtr, and a post never frees the waiter's SemDescriptorPtr
  (`Reaping.PtrLeak`, `Semaphores.CellLeak`).

## Model

| member | source | states |
|---|---|---|
| Reachability.Reachable | src/disastrOS.c:237-239 | Every state that any run of calls from boot reaches satisfies the whole invariant: partition, statuses, timers, family tree, ledger. |
| Reachability.StepKeeps | src/disastrOS.c:102-137 | One call, whatever it is and whoever makes it, keeps the invariant unless it crashes or hangs. |
| Scheduling.ScheduleKeeps | src/disastrOS_schedule.c:8-43 | Waking the due sleepers and rotating the ready list keeps the invariant: each block in one place, status as the place says, one timer per sleeper. |
| Scheduling.BlocksKeeps | src/disastrOS_wait.c:58-65 | Moving the running process to the waiting list and dispatching the ready head keeps the invariant, for wait and for sleep. |
| Family.SpawnKeeps | src/disastrOS_spawn.c:11-34 | A birth keeps the invariant: the recycled block gets a fresh pid and hangs below its parent and nobody else. |
| Family.ReapKeeps | src/disastrOS_wait.c:44-56 | Collecting a zombie child keeps the invariant; its pid moves from the held to the reaped ones. |
| Reachability.ExitKeeps | src/disastrOS_exit.c:15-95 | An exit, with or without children, by either branch, keeps the invariant. |
| Reachability.CellIsMe | src/disastrOS_exit.c:50-52 | The children cell that an exit detaches from its woken parent is the exiting process's own. |
| Reachability.PidsUnique | src/disastrOS_pcb.c:42-60 | No two allocated blocks have the same pid, although blocks are recycled. |
| Answers.ForkAnswers | src/disastrOS_spawn.c:11-34 | Fork and spawn return the pid of the new process, which nobody has or had; it is the last child of the caller and the last in the ready list, and nobody else changes. |
| Answers.WaitAlone | src/disastrOS_wait.c:12-15 | A wait without children returns -5 and changes nothing else. |
| Answers.WaitAnswers | src/disastrOS_wait.c:16-66 | wait(0) collects the first zombie child and blocks if there is none; wait(q) collects or waits for the child q, or for the last child if q is none; whoever collects gets the pid, which is positive, and the exit value, and runs on. |
| Answers.ExitAnswers | src/disastrOS_exit.c:15-95 | An awaited exit makes the parent run, with status Running, the pid and the exit value, and frees the caller; any other leaves a zombie at the tail of its list and runs the ready head. The children go behind init's, and nobody else changes. |
| Answers.SleepAnswers | src/disastrOS_sleep.c:7-33 | A sleeper goes to the waiting tail with a timer for time + cycles, the ready head runs, and nobody else changes. |
| Answers.SwitchAnswers | src/disastrOS_schedule.c:8-43 | A tick or preemption wakes exactly the due sleepers in front of the ready list, runs its head with status Running, and puts the caller behind all, with status Ready. |
| Fairness.StepRank | src/disastrOS_schedule.c:21-37 | The ready index of a process plus the number of timers never grows, and drops by exactly one on each schedule that does not dispatch it. |
| Fairness.BoundedWaiting | src/disastrOS_schedule.c:31-37 | In every run a ready process gets the CPU within that measure plus one schedules, although woken sleepers jump the queue. |
| SleepTimes.BoundedByPool | src/disastrOS_constants.h:3 | So nobody waits in the ready list for MAX_NUM_PROCESSES schedules. |
| SleepTimes.Conservation | src/disastrOS_pcb.c:26-32 | Running, ready, waiting, zombie and free blocks always add up to the pool. |
| SleepTimes.TimersWithinWaiting | src/disastrOS_timer.c:14-21 | There are never more timers than waiting processes. |
| SleepTimes.SleepNeverFails | src/disastrOS_sleep.c:10-25 | Neither error path of sleep is ever taken: the call always goes through and leaves the caller waiting with a timer for time + cycles. |
| SleepTimes.ExitFindsNoTimer | src/disastrOS_exit.c:63-72 | The timer cleanup loop of exit never removes anything. |
| SleepTimes.ScheduleLeavesFuture | src/disastrOS_schedule.c:21-29 | After a schedule all remaining timers lie strictly in the future. |
| SleepTimes.StepTimer | src/disastrOS_schedule.c:21-29 | A sleeper leaves the waiting list at the first schedule whose clock has reached its wake time, and at no other step. |
| SleepTimes.ExactWake | src/disastrOS.c:48-57 | A process that sleeps c >= 1 cycles is waiting in every later state with fewer than c ticks and leaves with the c-th tick. |
| SleepTimes.WakeOrder | src/disastrOS_schedule.c:21-29 | The woken are exactly the due ones, in the order of wake time and then of sleep call, in front of the old ready list; the rest of the waiting list keeps its order. |
| Processes.AddTimerOrdered | src/disastrOS_timer.c:44-61 | Adding a timer keeps the queue ordered by wake time and, within a wake time, by sleep call. |
| Reaping.ReportedExactlyOnce | src/disastrOS_exit.c:54-58 | Every pid that exited is a zombie or in exactly one report, which carries its exit value to the process that spawned it, or to init if that process has exited too. |
| Reaping.Accounting | src/disastrOS_pcb.c:46 | Spawned = alive + zombie + reaped, in every reachable state. |
| Reaping.StepLog | src/disastrOS_wait.c:48-53 | A step reports at most one child: to its spawner if that one has not exited before, else to init; and then the receiver runs with the child's pid and value in its registers. A pid exits once. |
| Reaping.KeeperHasChild | src/disastrOS_exit.c:20-33 | Whoever has a process in its children list spawned it, or is init and the spawner has exited. |
| Reaping.LogGrows | src/disastrOS_wait.c:44-56 | What was reported stays reported, and exit values never change. |
| Reaping.PtrLeak | src/disastrOS_exit.c:51-52 | PCBPtr blocks in use = allocated processes but init + children reported on the exit path. |
| Discipline.SpawnerIsTold | src/disastrOS_exit.c:51-58 | In every run from boot in which processes exit childless, each report went to the process that spawned the child, with its exit value. |
| WakeUps.KeptIffSafe | src/disastrOS_exit.c:35-58 | From a state without lost wake-ups, a call leads to one exactly when it is unsafe: a blocking wait for a pid that is no child's, or an exit that leaves a zombie init waits for below a waiting init. |
| WakeUps.SafeRunsKeep | src/disastrOS_wait.c:20-65 | So in every run of safe calls a process in wait(0) has children and none is a zombie, and one in wait(q) has q as a live child. |
| WakeUps.WaitAnswers | src/disastrOS_wait.c:16-56 | What wait answers when there are children: the child with the given pid if there is one, else the last child, collected if a zombie and waited above otherwise. |
| Discipline.NothingLost | src/disastrOS_wait.c:20-65 | In every run from boot in which processes exit childless and wait only for children, a process in wait(0) has children and none is a zombie, and one in wait(q) has q as a live child; no idle process is asked for. |
| Stranded.WaitEnds | src/disastrOS_exit.c:39-48 | A process leaves its wait exactly with the exit of a process whose parent pointer names it and whose pid it waits for. |
| Stranded.ForEver | src/disastrOS_exit.c:39-48 | A waiting process none of whose children could end the wait stays waiting in every run, whatever anybody calls. |
| Stranded.LostIsLost | src/disastrOS_wait.c:58-65 | A wake-up lost by a process that waits for one pid is lost for ever. |
| Discipline.CallsExact | src/disastrOS_wait.c:64-65 | Exactly which calls crash or hang in a reachable state. |
| Discipline.ChildWakesWaiter | src/disastrOS_exit.c:40-58 | Without orphans, the exit of a child that its parent waits for makes the parent run with the child's pid and value. |
| Discipline.CarefulRunsSucceed | src/disastrOS_test.c:8-35 | Runs of childless exits and waits for children, next to an always-runnable process, never crash or hang, and no wake-up is lost. |
| Discipline.CarefulFromBoot | src/disastrOS_test.c:38-56 | The same from boot, once init has spawned the idle process. |
| Counterexamples.UnknownPidBlocks | src/disastrOS_wait.c:23-42 | Two calls after which the caller is blocked in wait(99), in every continuation. |
| Counterexamples.OrphanLost | src/disastrOS_exit.c:20-33 | A run of waits for 0 after which init is blocked in wait(0) above a zombie. |
| Counterexamples.RecycledParentCrash | src/disastrOS_exit.c:51-52 | A run of waits for 0 that ends in a null dereference. |
| Machines.SemWaitPartition | src/disastrOS_semwait.c:10-31 | A semaphore wait keeps every process in one place exactly when the fd is unknown or the count is positive; else the caller is both running and waiting. |
| MachineCounterexamples.RunningAndWaiting | src/disastrOS_semwait.c:20-29 | Two calls from boot after which init is running and in the waiting list. |
| Machines.WholeKeptIff | src/disastrOS.c:85-124 | From a state in which scheduler and tables are in order, nobody is queued and no free block has open descriptors, a request leads to such a state exactly when it is no semaphore wait at a used-up count, collects no zombie with open descriptors, and is no awaited exit with open semaphores. |
| Machines.HarmlessFromBoot | src/disastrOS.c:235-239 | In every run of such requests from boot the whole stays in order. |
| Machines.BornWithNothing | src/disastrOS_pcb.c:42-61 | After such a run a new process starts with no open descriptor, whoever had its block before. |
| MachineCounterexamples.LeftOpen | src/disastrOS_pcb.c:49-58 | Seven calls from boot after which a new process has the semaphore descriptor of the dead one whose block it got, and a resource descriptor is in no fd list. |
| MachineAnswers.ForkTables | src/disastrOS_pcb.c:42-60 | A birth empties the fd list and sets both fd counters to 0; semaphore descriptors stay. |
| MachineAnswers.OtherTables | src/disastrOS_exit.c:74-82 | Of the other scheduler calls exactly the awaited exit touches the tables: it takes its entries out of them. |
| MachineAnswers.ResourceAnswers | src/disastrOS.c:85-124 | A call on resources returns what the tables answer, is recorded under its number, and changes nobody else. |
| MachineAnswers.SemaphoreAnswers | src/disastrOS.c:85-124 | Opening and closing semaphores, too. |
| MachineAnswers.SemWaitAnswers | src/disastrOS_semwait.c:10-31 | A semaphore wait returns 0, or -17 for an unknown fd, and lists its caller as waiting exactly when the count is not positive. |
| MachineAnswers.SemPostAnswers | src/disastrOS_sempost.c:9-53 | A post on a count below zero takes the process of the first queued descriptor out of the waiting list and puts it, Ready, behind the ready list; any other post moves nobody. It returns 0. |
| MachineAnswers.OtherAnswers | src/disastrOS.c:85-118 | Numbers out of range leave no trace, those without handler are recorded and answered with -2. |
| WakeTraces.ScheduleTrace | src/disastrOS_schedule.c:21-29 | Turn by turn, each sleeper put behind the one woken before it, the loop ends exactly in the state where all due sleepers stand in timer order before the old ready list. |
| KernelCode.Kernel.WakeElapsed | src/disastrOS_schedule.c:18-29 | The wake loop, with insertion behind the previously woken process, does what the specification says in one go. |
| KernelCode.Kernel.InternalSchedule | src/disastrOS_schedule.c:8-43 | The code does exactly the specified schedule. |
| KernelCode.Kernel.InternalSpawn | src/disastrOS_spawn.c:11-34 | The code does exactly the specified birth. |
| KernelCode.Kernel.ScanChildren | src/disastrOS_wait.c:20-31 | The scan ends on the first match or else on the last child. |
| KernelCode.Kernel.InternalWait | src/disastrOS_wait.c:7-66 | The code does exactly the specified wait. |
| KernelCode.Kernel.TimerListAdd | src/disastrOS_timer.c:44-61 | The insertion scan puts the timer behind all that are due no later. |
| KernelCode.Kernel.InternalSleep | src/disastrOS_sleep.c:7-33 | The code does exactly the specified sleep. |
| KernelCode.Kernel.ReparentChildren | src/disastrOS_exit.c:20-33 | The reparent loop moves all children, in order, behind init's. |
| KernelCode.Kernel.ReleaseTimers | src/disastrOS_exit.c:63-72 | The timer cleanup loop removes exactly the timers of the process. |
| KernelCode.Kernel.InternalExit | src/disastrOS_exit.c:15-73 | The code does exactly the specified exit of the scheduler's state; the descriptor cleanup comes with `MachineCode.InternalExit`. |
| MachineCode.InternalExit | src/disastrOS_exit.c:15-95 | The code does exactly the specified exit, and releases the resource descriptors exactly when the parent was waiting. |
| KernelCode.Kernel.TimerInterrupt | src/disastrOS.c:48-57 | The clock advances by one and a schedule follows. |
| KernelCode.Kernel.Syscall | src/disastrOS.c:91-122 | A scheduler call is recorded in the caller's registers and dispatched; the outcome is exactly the specified step. |
| MachineCode.UnservedSyscall | src/disastrOS.c:85-118 | A number out of range is refused and leaves no trace; one without handler is recorded and answered with the error. |
| MachineCode.InternalSemWait | src/disastrOS_semwait.c:10-31 | The code does exactly the specified wait, in the tables, the statuses and the waiting list. |
| MachineCode.InternalSemPost | src/disastrOS_sempost.c:9-53 | The code does exactly the specified post, in the tables, the statuses and both process lists. |
| LinkedList.ListHead.Insert | src/linked_list.c:21-54 | Inserting an unlinked item is sequence insertion behind prev, with both link directions, first, last and size right; a linked item is refused and nothing changes; the only member of the list passes the test and ends up linked to itself, with size 2. |
| LinkedList.ListHead.Detach | src/linked_list.c:56-79 | Detaching a member is sequence removal, and the item comes out unlinked. |
| LinkedList.ListHead.Find | src/linked_list.c:10-19 | The scan returns the item exactly if it is a member. |
| LinkedList.ListHead.GuardSeesMembers | src/linked_list.c:22-23 | The linking test of insert recognises a member exactly when the list has two members or more. |
| LinkedList.InsertThenDetach | src/linked_list.c:21-79 | Detach after insert is the identity on the list. |
| LinkedList.LinksFollowItems | src/linked_list.c:56-79 | So all links are the old ones too: those of a well-formed list are a function of its items. |
| PointerQueues.TimerListAdd | src/disastrOS_timer.c:44-61 | The insertion on the linked timer list is the ordered insertion of the sequence model, and the footprint grows by the new item only. |
| PointerQueues.WakeLoop | src/disastrOS_schedule.c:21-29 | The wake loop on three linked lists leaves in them what the sequence model says, and no list disturbs another. |
| PointerQueues.InternalSchedule | src/disastrOS_schedule.c:8-43 | The same for all of internal_schedule, down to the dispatched item; the lists stay separate from each other and from that item. |
| PointerQueues.TimerInterrupt | src/disastrOS.c:48-57 | One timer interrupt on the linked lists is one tick of the model. |
| PointerQueues.TimerInterrupts | src/disastrOS.c:48-57 | Any number of timer interrupts on the linked lists leaves in them what the run of ticks of the model says. |
| PoolAllocators.PoolAllocator.Init | src/pool_allocator.c:19-47 | The pool starts with all blocks free in index order, or reports that the memory is too small and changes nothing; without items the end mark goes astray. |
| PoolAllocators.PoolAllocator.GetBlock | src/pool_allocator.c:49-65 | Get hands out the first block of the free chain, or null when it is empty. |
| PoolAllocators.PoolAllocator.ReleaseBlock | src/pool_allocator.c:67-91 | Release succeeds exactly for the start of a live block; each other address gets its own error and changes nothing. |
| PoolAllocators.FollowsChain | src/pool_allocator.c:39-46 | Following the index array from first_idx visits exactly the free chain and ends in -1. |
| PoolAllocators.ChainIff | src/pool_allocator.c:39-46 | An index array is threaded by a free chain exactly when the indices met from first_idx on are distinct, end in -1, and are those not marked -2. |
| PoolAllocators.PushChain | src/pool_allocator.c:86-90 | Linking a detached block in front keeps the index array a chain with exactly the live entries marked detached. |
| PoolAllocators.PopChain | src/pool_allocator.c:55-60 | Unlinking the first block keeps it so. |
| PoolAllocators.PoolRunKeeps | src/pool_allocator.c:49-91 | Over any sequence of calls the chain has distinct blocks, and live + free = all. |
| PoolAllocators.NoDoubleGrant | src/pool_allocator.c:49-65 | No block is handed out twice without a release in between. |
| PoolAllocators.GetThenRelease | src/pool_allocator.c:55-90 | A release right after a get restores the allocator exactly. |
| PoolAllocators.Geometry | src/pool_allocator.c:27-37 | Blocks do not overlap, lie in the buffer, and stay clear of the index array, which lies in the given memory. |
| PoolAllocators.AlignedIff | src/pool_allocator.c:70-76 | With C's truncating division the alignment test passes exactly for multiples of the block size, also below the buffer. |
| Resources.OpenKeeps | src/disastrOS_open_resource.c:10-61 | Open keeps the tables; it crashes exactly when it is to create a resource and that pool is empty, never for want of a DescriptorPtr. |
| ResourceAnswers.OpenAnswers | src/disastrOS_open_resource.c:10-47 | Exactly when an open of a resource succeeds, when it returns -8, -9, -10 or -11, and when it crashes, from the listed resources, the pools and the mode bits. |
| ResourceAnswers.OpenGives | src/disastrOS_open_resource.c:45-60 | A successful open returns an fd that was not in use and names a new descriptor on the listed resource with that id and type, at the tail of both lists. |
| ResourceAnswers.OpenFails | src/disastrOS_open_resource.c:16-48 | A failing open changes nothing, except that a creation without descriptor leaves the new resource listed. |
| Resources.CloseKeeps | src/disastrOS_close_resource.c:10-33 | Close keeps the tables. |
| ResourceAnswers.CloseAnswers | src/disastrOS_close_resource.c:10-33 | A close returns 0 and drops exactly the descriptor with that fd, or returns -12 and changes nothing. |
| Resources.DestroyKeeps | src/disastrOS_destroy_resource.c:9-29 | Destroying keeps the tables; a resource in use stays. |
| ResourceAnswers.DestroyAnswers | src/disastrOS_destroy_resource.c:9-29 | A destruction takes an unused resource off the list and frees it; it returns -12 for one that is not there and -13 for one in use. |
| Resources.CleanupExact | src/disastrOS_exit.c:74-82 | The cleanup loop takes exactly the dying process's entries out of every resource, keeps the order of the others, and frees exactly its descriptors. |
| Resources.ForthAndBack | src/disastrOS_open_resource.c:45-57 | From an entry of a process to that of the resource and back; it is in no other resource. |
| Resources.BackAndForth | src/disastrOS_close_resource.c:21-28 | From an entry of a resource to that of the process and back; it is in no other process. |
| Resources.OpenThenClose | src/disastrOS_close_resource.c:21-32 | Closing a just-opened fd restores both tables and both free chains, and the fd is not given out again. |
| Resources.ByFdExact | src/disastrOS_descriptor.c:53-62 | The scan by fd finds the one descriptor of the process with that fd. |
| Resources.ByIdExact | src/disastrOS_resource.c:41-50 | The scan by id finds the one resource with that id. |
| Resources.RecycleIff | src/disastrOS_pcb.c:49-53 | Giving a PCB block to a new process keeps the tables exactly when no descriptor of the old one is open. |
| TableCounterexamples.ReusedWhileOpen | src/disastrOS_pcb.c:49-53 | An open and the reuse of the block after which the tables are broken. |
| Resources.PoolsInLockstep | src/disastrOS_descriptor.c:22-36 | In every clean run the Descriptor and the DescriptorPtr pool have the same free chain. |
| ResourceCode.ResourceKernel.OpenResource | src/disastrOS_open_resource.c:10-61 | The code does exactly the specified open, with its return value. |
| ResourceCode.ResourceKernel.CloseResource | src/disastrOS_close_resource.c:10-33 | The code does exactly the specified close. |
| ResourceCode.ResourceKernel.DestroyResource | src/disastrOS_destroy_resource.c:9-29 | The code does exactly the specified destruction. |
| ResourceCode.ResourceKernel.ReleaseDescriptors | src/disastrOS_exit.c:74-82 | The cleanup loop does exactly the specified cleanup. |
| Semaphores.StepKeeps | src/disastrOS_semwait.c:20-30 | Open, close, wait and post keep the tables, the ledger count = initial + posts - waits, and the queue length. |
| Semaphores.ByFdExact | src/disastrOS_semdescriptor.c:53-62 | The scan by fd finds the one descriptor of the process with that fd. |
| Semaphores.ByIdExact | src/disastrOS_semaphore.c:43-52 | The scan by id finds the one semaphore with that id. |
| Semaphores.RecycleIff | src/disastrOS_pcb.c:57-58 | Giving a PCB block to a new process keeps the tables exactly when no semaphore descriptor of the old one is open. |
| SemaphoreAnswers.OpenAnswers | src/disastrOS_semopen.c:9-47 | Exactly when an open of a semaphore succeeds, when it returns -14, -15, -16 or -11, and when it crashes. |
| SemaphoreAnswers.OpenGives | src/disastrOS_semopen.c:43-59 | A successful open returns an fd that was not in use and names a new descriptor on the listed semaphore with that id; a created one has the count asked for. |
| SemaphoreAnswers.OpenFails | src/disastrOS_semopen.c:17-47 | A failing open changes nothing, except that a creation without descriptor leaves the new semaphore listed. |
| SemaphoreAnswers.CloseAnswers | src/disastrOS_semclose.c:9-42 | A close returns 0 and drops exactly the descriptor with that fd, with the last one the semaphore too; or it returns -19 and changes nothing. |
| SemaphoreAnswers.WaitAnswers | src/disastrOS_semwait.c:13-30 | A wait takes one from the count and queues the descriptor at the tail exactly when the count was not positive; it returns 0, or -17 for an unknown fd. |
| SemaphoreAnswers.PostAnswers | src/disastrOS_sempost.c:12-52 | A post adds one to the count and hands over the head of the queue exactly when the count was negative; it returns 0. |
| Semaphores.CompletedWaits | src/disastrOS_sempost.c:20-23 | In every run at most max(0, initial) + posts waits went through, exactly that many while one is queued, and the queue is empty exactly when the count is not below min(0, initial). |
| Semaphores.PostExact | src/disastrOS_sempost.c:15-32 | A post crashes exactly for an unknown fd, or when the semaphore was created below zero and its queue is empty. |
| Semaphores.OpenExact | src/disastrOS_semopen.c:9-60 | Exactly when an open crashes: no semaphore block to create with, or no SemDescriptorPtr left because waits have blocked. |
| Semaphores.CellLeak | src/disastrOS_sempost.c:27-35 | SemDescriptorPtr blocks free + waits that ever blocked = SemDescriptor blocks free. |
| Semaphores.Fifo | src/disastrOS_sempost.c:25-35 | The descriptors handed over are a prefix of those queued, the rest is the current queue in order, and later states only add. |
| Semaphores.LifetimeKeptIff | src/disastrOS_semclose.c:33-36 | A semaphore is listed exactly while a descriptor on it is open; the one call that breaks this is a creation with no descriptor block left. |
| TableCounterexamples.PoolUsedUp | src/disastrOS_semopen.c:27-49 | A creating open, 1023 plain ones, and a creation that leaves a listed semaphore without descriptor. |
| Semaphores.QueueOpenKeptIff | src/disastrOS_semclose.c:21-39 | Every queue entry names an open descriptor on its semaphore; the one call that breaks this closes a descriptor that is queued. |
| TableCounterexamples.ClosedWhileQueued | src/disastrOS_semclose.c:21-39 | Open, wait, close: the semaphore leaves the list with a waiter queued at a freed descriptor. |
| Semaphores.WaitersKeepItAlive | src/disastrOS_semclose.c:34-37 | In runs without those two calls a semaphore with waiters stays listed. |
| SemaphoreCode.SemaphoreKernel.SemOpen | src/disastrOS_semopen.c:9-60 | The code does exactly the specified open. |
| SemaphoreCode.SemaphoreKernel.SemClose | src/disastrOS_semclose.c:9-42 | The code does exactly the specified close. |
| SemaphoreCode.SemaphoreKernel.SemWait | src/disastrOS_semwait.c:10-24 | The code does exactly the specified wait on the semaphore's own data, and tells whether the caller was queued. |
| SemaphoreCode.SemaphoreKernel.SemPost | src/disastrOS_sempost.c:9-36 | The code does exactly the specified post on the semaphore's own data, and names the process that was handed over. |

## Left out

- ucontext, signals, the interval timer, stacks, varargs and all printing: a call is one atomic step on kernel state.
- SIGHUP and SIGCHLD bits: they are set but never acted on.
- The shutdown call, and what follows once nobody is running: `Sleep` with an empty ready list leads to a state without running process, and every call from there is a `Crash`.
- Overflow of pids, fds and the clock: mathematical integers.
- Call arguments behind the second one: the records keep two, since no handler of the scheduler reads more.
- KernelCode.Kernel: PCBs are records in the array that is the static PCB buffer, and its lists are sequences of buffer indices; that such sequences are what the linked lists hold is proved in `LinkedList` and `PointerQueues`.
- KernelCode.Kernel.InternalExit: leaves out the descriptor cleanup, which works on other data; `MachineCode.InternalExit` has both.
- KernelCode.Kernel.Syscall: asks for a call that does not crash or hang; `Discipline.CallsExact` says which those are.
- PointerQueues.InternalSchedule: covers the lists and the dispatched item; the status and timer fields that the same function writes are in `KernelCode`.
- PoolAllocators.PoolAllocator.Init: does not perform the stray write in front of an empty index array, but reports it.
- The PCBPtr pool is a counter of free blocks: the identity of a children cell is that of the child it names.
- SemaphoreCode.SemaphoreKernel.SemWait: does not update the process lists and statuses; `MachineCode.InternalSemWait` does.
- SemaphoreCode.SemaphoreKernel.SemPost: does not move the process it names; `MachineCode.InternalSemPost` does.
- MachineCode.InternalSemPost: process lists are sequences here; once a blocking wait has put a process into two lists at once, the source's list members, which can be linked into one list only, no longer behave like that.
- The producer/consumer and reader/writer programs.
