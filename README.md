# SE350 RTOS kernel core, modelled in Dafny

This project models the kernel of the SE350 teaching RTOS (SamMaier/se350), a single-core
kernel for the LPC1768 (Cortex-M3), and proves properties of that model. It covers:

- the per-priority FIFO process queues (`src/pq.c`);
- the process table, scheduler, context-switch state logic, priorities, mailboxes and message
  sending (`src/k_process.c`);
- the fixed-block allocator and the stack carver (`src/k_memory.c`);
- the delayed-delivery queue, the set-priority argument check and the keyboard command decoder
  (`src/k_sys_proc.c`);
- the interrupt process table rows and one tick of the timer interrupt process (`src/k_i_proc.c`).

Processes and memory blocks are indices into arenas: pids `0..15`, blocks `0..29`, and `-1` for
`NULL`. The two queues (`PriorityQueue.PQ`), the block pool (`Memory.Pool`), the stack carver
(`Stacks.Stacks`) and the kernel (`Kernel.Kernel`) are classes. Their methods update arrays and
fields in place, as the C code does.

Each queue keeps a ghost list per level. The pool keeps ghost lists for the free list, each mailbox
and the delayed queue, plus an owner tag per block. Every method is proved against those lists.

The scheduling state is a value, `Scheduling.Sched`:

- the PCB fields;
- the current process;
- the pending flags;
- both queues' levels;
- the abstract saved stack pointer (`msp`) that stands for `__get_MSP`/`__set_MSP`.

`Kernel.Kernel.Snap()` reads that value off the kernel object. The kernel's methods are specified
as `(r, Snap()) == F(old(Snap()))`, where `F` is a function of `Scheduling`, `Primitives` or
`Timer`. The invariant the kernel keeps between calls is `Steady` (modules `Scheduling` and
`Primitives`), and lemmas prove that each of these functions preserves it.

Each defect found in the source (see Findings) is modelled twice:

- as written, on values, with a lemma that exhibits the failure;
- corrected. The classes use the corrected definition.

Modules, by file:

| file | module | models |
|---|---|---|
| rtx.dfy | Rtx | constants of `src/common.h` and `src/k_memory.h`, `State`, `ProcInit` |
| chains.dfy | Chains | lists threaded through a link array |
| pq.dfy | PriorityQueue | `src/pq.c` |
| sched.dfy | Scheduling | `scheduler`, `process_switch`, `k_release_processor` on values |
| primitives.dfy | Primitives | send, receive, memory blocking and release, set/get priority on values |
| memory.dfy | Memory | the block pool: free list, mailboxes, delayed queue |
| stacks.dfy | Stacks | `alloc_stack` and the initial exception frame |
| sysprocs.dfy | SysProcs | `set_sys_procs`, `set_i_procs`, the set-priority argument check |
| timer.dfy | Timer | the timer tick on values, as written and corrected |
| kcd.dfy | Kcd | the keyboard command decoder |
| kernel.dfy | Kernel | the kernel object: boot, scheduling, messaging, memory, priorities, timer tick |

## Model

| member | source | states |
|---|---|---|
| PriorityQueue.PQ.constructor | src/k_process.c:72-77 | every level of a new queue is empty and no pid is queued |
| PriorityQueue.PQ.IsPriorityEmpty | src/pq.c:4-8 | true for a priority outside HIGH..HIDDEN, otherwise true exactly when that level is empty |
| PriorityQueue.PQ.Push | src/pq.c:11-22 | the level becomes old level ++ [pid]; every other level is unchanged; the queue stays well formed |
| PriorityQueue.PQ.PushFront | src/pq.c:25-36 | the level becomes [pid] ++ old level; every other level is unchanged |
| PriorityQueue.PQ.PopFront | src/pq.c:39-53 | NULL with nothing changed on an empty or out-of-range level; otherwise the old head is returned with its link cleared, the level becomes its tail, and front and back are both NULL once it is empty |
| PriorityQueue.PQ.FindPredecessor | src/pq.c:58-66 | the walk stops at the element just before pid when the level holds pid, and reports it absent otherwise |
| PriorityQueue.PQ.PopPcb | src/pq.c:56-76 | corrected pq_pop_PCB: if pid is queued at that level, exactly pid is removed and the others keep their order; otherwise NULL and nothing changes; the queue stays well formed, including `back` |
| PriorityQueue.PQ.UnlinkAfter | src/pq.c:72-75 | the element after its predecessor is unlinked and back moves to the predecessor when the element was last |
| PriorityQueue.PQ.Pop | src/pq.c:79-89 | returns and removes the front of the lowest-numbered non-empty level, or NULL with nothing changed, as PopHighest states |
| PriorityQueue.PopHighestSpec | src/pq.c:79-89 | pq_pop returns NULL iff every level is empty, otherwise the front of the first non-empty level, which loses that front |
| PriorityQueue.DrainIsPriorityOrder | src/pq.c:79-89 | popping until empty yields the levels one after another: non-decreasing priority number, FIFO within a level |
| PriorityQueue.PushFrontDrainsFirstAtLevel | src/pq.c:25-36 | a pid pushed at the front is popped after every higher-priority level and before every other pid of its level |
| PriorityQueue.PopPcbAsWrittenAbsent | src/pq.c:63-69 | pq_pop_PCB as written, on a non-empty level without pid, returns NULL and changes nothing |
| PriorityQueue.PopPcbAsWrittenFound | src/pq.c:71-75 | pq_pop_PCB as written unlinks a non-front pid as the corrected PopPcb does, but leaves back as it was |
| PriorityQueue.PopPcbAsWrittenStaleBack | src/pq.c:72-75 | as written, removing the last PCB of a level of two or more leaves back pointing at the removed PCB |
| PriorityQueue.StaleBackLosesPush | src/pq.c:72-75 | as written, pop_PCB(2) then push(3) on level [1, 2] leaves 3 unreachable from the front |
| PriorityQueue.PopPcbEmptyLevelFaults | src/pq.c:64-69 | as written, pq_pop_PCB on an empty level dereferences NULL |
| PriorityQueue.WalkStops | src/pq.c:63-66 | on a well-formed level the bounded walk stops in front of pid, or at the last element when pid is absent |
| Scheduling.Requeue | src/k_process.c:120-131 | the outgoing process goes at the front of its level while a flag is pending, at the back otherwise; other levels are unchanged |
| Scheduling.Pick | src/k_process.c:138-146 | the timer i-process if its flag is set, else the UART i-process if its flag is set, else the ready-queue pop |
| Scheduling.InterruptedResumesFirst | src/k_process.c:123-126 | a process re-queued while an interrupt is pending is picked next iff no higher level is waiting |
| Scheduling.YieldGoesBehindPeers | src/k_process.c:127-129 | a process that yields with nothing pending is picked again iff every level up to its own was otherwise empty |
| Scheduling.Switched | src/k_process.c:199-218 | the target ends in RUN, an outgoing RUN/READY process becomes READY, and every other state is kept |
| Scheduling.Schedule | src/k_process.c:113-147 | scheduler clears the timer flag and keeps the UART flag only when both were set; it changes only the ready queue and the flags |
| Scheduling.Switch | src/k_process.c:161-227 | process_switch succeeds iff the target is NEW, READY or the outgoing process; on error the current process is reverted and nothing else changes; on success the states are Switched, the outgoing sp is saved and the target's sp becomes msp |
| Scheduling.SomethingToRun | src/k_process.c:240-243 | at a yield point scheduler never returns NULL: the branch the source marks "should never occur" cannot occur |
| Scheduling.ReleaseOk | src/k_process.c:236-252 | once scheduler has picked, the switch succeeds and the scheduling invariant holds with the pick current |
| Scheduling.ScheduleOk | src/k_process.c:113-147 | from a yield point scheduler picks a pid that the switch accepts, and the invariant holds after the switch |
| Scheduling.ReleaseKeeps | src/k_process.c:236-252 | k_release_processor from a yield point returns RTX_OK, runs the pick, parks the outgoing process, never re-runs a blocked caller, and keeps the invariant |
| Primitives.Deliver | src/k_process.c:351-357 | after a delivery the receiver is not BLOCKED_MSG and no other process changes that state; priorities and current are kept |
| Primitives.WakeSteady | src/k_process.c:355-357 | waking a process blocked on a message (READY, back of its ready level) keeps the invariant |
| Primitives.SendKeeps | src/k_process.c:351-366 | k_send_message returns RTX_OK and keeps the invariant; a receiver that was not blocked is left alone; one that was blocked and does not preempt becomes READY at the back of its level |
| Primitives.SendPreempts | src/k_process.c:360-362 | a woken receiver that outranks a non-interrupt sender preempts it: the sender becomes READY and a process at least as urgent as the receiver runs |
| Primitives.OutrankedYields | src/k_process.c:360-361 | a yield by a process outranked by a queued one hands over to a process at least as urgent |
| Primitives.AwaitMessageKeeps | src/k_process.c:398-403 | a caller with an empty mailbox becomes BLOCKED_MSG, is on neither queue, gives up the processor, and the invariant holds |
| Primitives.AwaitMemoryKeeps | src/k_memory.c:133-142 | corrected: a caller finding no block becomes BLOCKED_MEMORY at the back of its blocked level, gives up the processor, and the invariant holds |
| Primitives.Shelve | src/k_memory.c:137-138 | the caller becomes BLOCKED_MEMORY on the blocked queue; only the states and the blocked queue change |
| Primitives.AwaitMemoryAsWrittenStrands | src/k_memory.c:137-139 | as written, the caller becomes BLOCKED_MEMORY but neither queue holds it |
| Primitives.UartAwaitMemoryAsWritten | src/k_memory.c:137-139 | as written, the UART i-process finding no block is left BLOCKED_MEMORY whichever process runs next |
| Primitives.ReleaseRefusesBlockedUart | src/k_process.c:199-221 | with the UART i-process BLOCKED_MEMORY, a UART interrupt is picked and cleared but process_switch refuses the i-process, so the interrupted process runs on with all states unchanged |
| Primitives.ScheduleStranded | src/k_process.c:115-136 | scheduler neither picks nor re-queues a stranded process |
| Primitives.ReleaseStranded | src/k_process.c:236-252 | a stranded process stays stranded across k_release_processor |
| Primitives.SendStranded | src/k_process.c:355-357 | no sent message wakes a stranded process |
| Primitives.ReleaseBlockStranded | src/k_memory.c:154-167 | no released block wakes a stranded process |
| Primitives.PopBlockedLevel | src/k_process.c:45-47 | pq_pop_blocked returns NULL iff no process waits, otherwise a waiting pid at the highest waiting priority |
| Primitives.UnblockKeeps | src/k_memory.c:163-165 | the woken process was BLOCKED_MEMORY, becomes READY and leaves the blocked queue, and the kernel is at a yield point |
| Primitives.ReleaseBlockKeeps | src/k_memory.c:153-170 | k_release_memory_block keeps the invariant; with no waiter nothing changes and there is no yield; otherwise the waiter is woken and no longer blocked |
| Primitives.ReleaseBlockWakesHighest | src/k_memory.c:154 | the woken waiter has the highest priority of all processes waiting for memory |
| Primitives.GetPriority | src/k_process.c:303-310 | RTX_ERR for a pid outside 0..NUM_PROCS-1, otherwise a priority in HIGH..INTERRUPT |
| Primitives.UnqueueKeeps | src/k_process.c:274-275 | the lookup finds pid iff a queue holds it, and leaves it on neither |
| Primitives.Unqueue | src/k_process.c:274-275 | the two lookups change only the two queues |
| Primitives.Reposition | src/k_process.c:277-294 | only pid's priority, set to the new one, and the two queues change |
| Primitives.RequeueLevels | src/k_process.c:277-294 | after the re-push, NEW/READY sit on the ready level of the new priority and BLOCKED_MEMORY on the blocked one; other states are on neither |
| Primitives.RepositionYields | src/k_process.c:274-294 | moving a process other than the caller leaves coherent queues and a yield point |
| Primitives.SetPriorityKeeps | src/k_process.c:263-297 | RTX_OK iff pid is in 1..6 and the priority in HIGH..LOWEST, otherwise RTX_ERR and no change; pid gets exactly the new priority, a blocked process stays blocked on its new level, and the invariant holds |
| Primitives.RepositionKeeps | src/k_process.c:274-296 | for another process the yield after the move returns RTX_OK and keeps the invariant |
| Primitives.SetThenGet | src/k_process.c:303-309 | k_get_process_priority after a successful set reads back the new priority |
| Primitives.PopPcbContents | src/pq.c:56-76 | pq_pop_PCB as written on a level's contents: it reads through NULL iff the level is empty or past the array; otherwise it finds pid iff the level holds it, and keeps the entries pids |
| Primitives.SetPriorityAsWrittenFaults | src/k_process.c:274-277 | as written, another user process faults inside pq_pop_PCB_ready whenever its ready level is empty; a BLOCKED_MSG target always faults, inside pq_pop_PCB_blocked on an empty blocked level and at the priority write otherwise; when every searched level is non-empty the source agrees with the corrected SetPriority |
| Primitives.SetPriorityAsWrittenEmptyReadyLevel | src/k_process.c:274 | a process waiting for memory whose ready level is empty makes the source fault, where the corrected call moves it to its new blocked level |
| Timer.Due | src/k_i_proc.c:61-69 | the drain takes the longest prefix of the delayed queue whose expiries, compared as unsigned with g_timer, are at most the tick, and stops at the first that is not |
| Timer.DueSplits | src/k_i_proc.c:62-67 | in a queue sorted by expiry with no negative expiry, every message behind the due prefix has not expired |
| Timer.NegativeExpiryHoldsBack | src/k_i_proc.c:62 | a negative expiry at the front, read as unsigned, is never due while g_timer is below 2^31, so nothing is sent |
| Timer.NegativeExpiryExample | src/k_sys_proc.c:174-179 | a queue sorted as insert_message_delayed sorts it, expiries -5 then 3: at tick 10 the expired second message is held back |
| Timer.Tick | src/k_i_proc.c:59-69 | corrected tick: sent ++ kept == queue, every sent message has expired, and the first kept one has not |
| Timer.TickAsWritten | src/k_i_proc.c:59-69 | as written, a tick sends at most one message and then leaves the queue empty |
| Timer.TickAsWrittenLosesMessages | src/k_i_proc.c:61-68 | blocks 1, 2, 0 expiring at 10, 20, 30, at tick 25: corrected sends [1, 2] and keeps [0]; as written it sends [1] and keeps nothing |
| Timer.RemoveDelayedAsWrittenLoses | src/k_sys_proc.c:197-200 | as written, removing the front loses the message behind it; the corrected removal keeps it |
| Timer.PostFor | src/k_i_proc.c:64 | each mailbox gains exactly the due messages addressed to it, in queue order |
| Timer.DeliverAllKeeps | src/k_i_proc.c:61-69 | delivering the due messages keeps the queues coherent and the invariant |
| Timer.DeliverAllWakes | src/k_i_proc.c:64 | delivery wakes exactly the BLOCKED_MSG receivers that some due message is addressed to |
| Timer.InterruptSend | src/k_process.c:360 | a send from the timer i-process never yields: it is a plain delivery |
| Memory.InitialFree | src/k_memory.c:79-83 | the free list memory_init builds holds all NUM_MEMORY_BLOCKS blocks, the last built first |
| Memory.BlocksDisjoint | src/k_memory.c:77-79 | blocks spaced MEMORY_BLOCK_SIZE bytes apart occupy disjoint ranges |
| Memory.InitialFreeLinked | src/k_memory.c:79-83 | each block linking to the one built before it threads all blocks into one list without repetitions |
| Memory.InitialShape | src/k_memory.c:77-83 | the pool memory_init leaves (all blocks free, mailboxes and delayed queue empty) is well formed |
| Memory.Pool.constructor | src/k_memory.c:77-83 | block b's link is b - 1 (block 0's is NULL), the head is the last block, every block is free, and the mailboxes and delayed queue are empty |
| Memory.Pool.ThreadBlocks | src/k_memory.c:79-82 | the heap loop writes link b - 1 into block b and leaves the head at the last block |
| Memory.Pool.Take | src/k_memory.c:121-129 | on a non-empty free list the old head is returned and the head advances to its link; the block was free and differs from every held block; NULL and no change on an empty list |
| Memory.TakeOk | src/k_memory.c:121-129 | the head of a non-empty free list is free, and taking it keeps the pool well formed with the block held |
| Memory.Pool.Give | src/k_memory.c:155-160 | the released block becomes the head and links to the old head (LIFO) |
| Memory.GiveOk | src/k_memory.c:155-160 | pushing a held block on the free list keeps the pool well formed |
| Memory.Pool.Enqueue | src/k_process.c:313-323 | the block joins the back of pid's mailbox; nothing else changes |
| Memory.EnqueueOk | src/k_process.c:313-323 | appending a held block to a mailbox keeps the pool well formed, with the block tagged to that mailbox |
| Memory.Pool.Dequeue | src/k_process.c:325-340 | the front of pid's mailbox is returned and removed, or NULL with no change when the mailbox is empty |
| Memory.DequeueOk | src/k_process.c:325-340 | the front of a non-empty mailbox belongs to it, is its back iff it is alone, and leaving keeps the pool well formed |
| Memory.Front | src/k_process.c:396-408 | None exactly when the mailbox is empty; otherwise its front block and that block's m_send_pid |
| Memory.PostedFront | src/k_process.c:313-323 | a block added to a non-empty mailbox leaves its front alone; added to an empty one, it is received next and reported with the given sender iff its m_send_pid is that sender |
| Memory.UnstampedSendExample | src/k_process.c:351-366 | as written: block 0, last stamped by process 3 and sent by process 2 to process 1, is reported to process 1 as from 3, not 2 |
| Memory.StampedSendReportsSender | src/k_process.c:373-376 | a block stamped with the sender before it reaches an empty mailbox is reported as from that sender |
| Memory.Pool.SetHeaders | src/k_process.c:342-349 | the block gets a NULL link, the sender, the receiver and expiry 0; no other block changes |
| Memory.HeadersOk | src/k_process.c:342-349 | writing a held block's link and expiry keeps the pool well formed |
| Memory.InsertPos | src/k_sys_proc.c:177-185 | the insertion point: every entry before it expires earlier, and the entry at it expires at the same time or later |
| Memory.Pool.FindInsertPoint | src/k_sys_proc.c:177-185 | the walk stops at the last entry expiring before e, or NULL when the message goes first |
| Memory.Pool.InsertDelayed | src/k_sys_proc.c:170-189 | the message's expiry is g_timer + delay and it is inserted at InsertPos; no other expiry or list changes |
| Memory.InsertByExpirySorted | src/k_sys_proc.c:177-188 | insertion keeps the delayed queue sorted by expiry |
| Memory.InsertByExpiryContents | src/k_sys_proc.c:177-188 | insertion adds exactly the new message to the queue's contents |
| Memory.InsertByExpiryOrder | src/k_sys_proc.c:177-182 | the new message goes after every earlier expiry and before every equal or later one (ties: newest first) |
| Memory.Pool.FindDelayed | src/k_sys_proc.c:192-210 | the walk finds the message iff it is queued, with its predecessor (NULL at the front) |
| Memory.Pool.RemoveDelayed | src/k_sys_proc.c:191-212 | corrected: exactly the message leaves the delayed queue and the rest keep their order; an absent message changes nothing |
| Memory.RemoveDelayedOk | src/k_sys_proc.c:196-204 | unlinking the entry at any index of the delayed queue, the front included, keeps the pool well formed with the block held |
| Memory.Pool.UnlinkDelayed | src/k_sys_proc.c:201-204 | the predecessor takes over the removed message's link |
| Memory.RemoveAtSorted | src/k_sys_proc.c:203 | unlinking an entry keeps the delayed queue sorted |
| Stacks.InitialStackTopIs | src/k_memory.c:67-70 | memory_init leaves gp_stack at the (8-byte aligned) end of RAM |
| Stacks.CarveBounds | src/k_memory.c:93-106 | alloc_stack lowers gp_stack by size + 64 bytes plus at most 4, and keeps it 8-byte aligned for sizes that are multiples of 4 |
| Stacks.Stacks.constructor | src/k_memory.c:67-70 | gp_stack starts at the end of RAM with no stack carved |
| Stacks.Stacks.Alloc | src/k_memory.c:93-106 | returns the old gp_stack and lowers it as CarveBounds states; no stack word changes |
| Stacks.Stacks.PushFrame | src/k_process.c:93-99 | the saved sp is 8 words below the top: six zeros, the entry PC, then xPSR going up; no other word changes |
| Stacks.FrameKept | src/k_process.c:93-99 | a frame built for one process survives the frames built below it |
| SysProcs.ClearedTable | src/k_process.c:63-65 | every row of the table is marked unused |
| SysProcs.SetSysProcs | src/k_sys_proc.c:31-55 | null process at HIDDEN; set-priority, KCD and CRT at HIGH; each with a 0x100 stack; other rows unchanged |
| SysProcs.SetIProcs | src/k_i_proc.c:26-38 | timer and UART i-processes at INTERRUPT with a 0x100 stack; other rows unchanged |
| SysProcs.BootTableShape | src/k_process.c:63-69 | after the three setters every row sits at its pid, the six kernel processes are there, and only the two i-processes gain INTERRUPT |
| SysProcs.CheckSetPriorityCommand | src/k_sys_proc.c:77-85 | a command is accepted only with a space at index 4, a process digit 1..9 at 3 and a priority digit HIGH..LOWEST at 5, and yields exactly those values |
| SysProcs.CheckSetPriorityCommandAccepts | src/k_sys_proc.c:77-81 | every "%C d p" with d in 1..9 and p in 0..3 is accepted as (d, p), whatever follows |
| SysProcs.CheckSetPriorityCommandNeedsSpace | src/k_sys_proc.c:81 | a command without a space at index 4 is refused |
| Kernel.SlotsSpec | src/k_process.c:80-105 | each boot ready level holds exactly the used non-interrupt slots of that priority, in slot order |
| Kernel.BootTableRows | src/k_process.c:67-69 | every used boot row is usable and the null and interrupt processes are present with their priorities |
| Kernel.BootSchedOk | src/k_process.c:58-106 | once process_init has visited every slot, the scheduling invariant holds |
| Kernel.SendReady | src/k_process.c:355-357 | between calls a receiver blocked on a message is on no ready level and is not the sender |
| Kernel.WakeForSend | src/k_process.c:355-362 | the wake keeps the sender's requeue condition, and Send is that wake followed by the yield exactly when it preempts |
| Kernel.Kernel.MemoryInit | src/k_memory.c:44-84 | the pool with all blocks free, empty queues, gp_stack at the end of RAM |
| Kernel.Kernel.ProcessInit | src/k_process.c:58-106 | every used slot is NEW with its table priority, an empty mailbox and its initial frame; exactly the non-interrupt ones are on the ready queue, in slot order; the invariant holds |
| Kernel.Kernel.InitKernel | src/k_process.c:71-105 | process_init from a finished table, with the same guarantees |
| Kernel.Kernel.InitTable | src/k_process.c:80-105 | process_init's loop builds the PCBs, ready queue and stacks and leaves current and the flags alone |
| Kernel.Kernel.BootValid | src/k_process.c:80-105 | after the loop the kernel satisfies its between-calls invariant |
| Kernel.Kernel.InitRows | src/k_process.c:80-105 | the loop over all rows meets PcbBoot, ReadyBoot and StacksBoot |
| Kernel.Kernel.InitRow | src/k_process.c:84-104 | one row: a used row gets NEW, its priority and a frame, and is queued unless INTERRUPT; an unused row is skipped |
| Kernel.Kernel.Scheduler | src/k_process.c:113-147 | the pick and the new state are those Schedule gives |
| Kernel.Kernel.ProcessSwitch | src/k_process.c:161-227 | the result and the new state are those Switch gives |
| Kernel.Kernel.ReleaseProcessor | src/k_process.c:236-252 | the result and the new state are those Release gives |
| Kernel.Kernel.SendMessage | src/k_process.c:351-366 | the block joins the back of the receiver's mailbox, and the scheduling state is Send's; no block's m_send_pid changes, so a receiver whose mailbox was empty is told the block's previous m_send_pid (as written) |
| Kernel.Kernel.Notify | src/k_process.c:355-363 | after the enqueue, the wake-up and possible yield are Send's |
| Kernel.Kernel.Deposit | src/k_process.c:353 | the block joins the back of the receiver's mailbox; the scheduling state is unchanged |
| Kernel.Kernel.WakeUp | src/k_process.c:356-357 | the target becomes READY at the back of its ready level, as Wake states |
| Kernel.Kernel.SendMessageEnvelope | src/k_process.c:373-376 | the block is stamped with sender, receiver and expiry 0, then sent as SendMessage states; a receiver whose mailbox was empty is told the sender |
| Kernel.Kernel.DelayedSend | src/k_process.c:378-390 | delay 0 is an immediate send; any other delay inserts the block in the delayed queue at expiry g_timer + delay and leaves the mailboxes and the scheduling state untouched |
| Kernel.Kernel.Defer | src/k_process.c:386-389 | the stamped block joins the delayed queue by expiry; nothing else changes |
| Kernel.Kernel.Stamp | src/k_process.c:342-349 | the block names the current process as sender and pid as receiver, with expiry 0 |
| Kernel.Kernel.Postpone | src/k_sys_proc.c:170-189 | the block is inserted at expiry g_timer + delay |
| Kernel.Kernel.ReceiveMessage | src/k_process.c:396-408 | with mail waiting: the front block and, when asked, the m_send_pid it carries (Front), which need not be the process that sent it, with no state change; with none: NULL, and the caller blocks on a message and yields as AwaitMessage states |
| Kernel.Kernel.BlockOnMessage | src/k_process.c:400-401 | the caller becomes BLOCKED_MSG and yields |
| Kernel.Kernel.RequestMemoryBlock | src/k_memory.c:115-143 | corrected: the old head of the free list with no state change; on an empty list NULL, with a process queued as BLOCKED_MEMORY and yielded as AwaitMemory states, and with no change at all for an interrupt-priority caller |
| Kernel.Kernel.BlockOnMemory | src/k_memory.c:137-139 | the caller becomes BLOCKED_MEMORY, queued, and yields |
| Kernel.Kernel.ShelveCurrent | src/k_memory.c:138 | the caller becomes BLOCKED_MEMORY at the back of its blocked level |
| Kernel.Kernel.ReleaseMemoryBlock | src/k_memory.c:153-170 | RTX_OK; the block becomes the head of the free list, and the scheduling state is ReleaseBlock's |
| Kernel.Kernel.WakeWaiter | src/k_memory.c:163-167 | the waiter, if any, is woken and the caller yields, as ReleaseBlock states |
| Kernel.Kernel.Reclaim | src/k_memory.c:155-160 | the block becomes the head of the free list |
| Kernel.Kernel.UnblockWaiter | src/k_memory.c:154-165 | the pop from the blocked queue and the push onto the ready queue are Unblock's |
| Kernel.Kernel.TakeWaiter | src/k_process.c:45-47 | the returned pid is PopHighest's; the blocked queue loses it and nothing else changes |
| Kernel.Kernel.SetProcessPriority | src/k_process.c:263-297 | the result and the new state are those SetPriority gives |
| Kernel.Kernel.SetOwnPriority | src/k_process.c:269-272 | the caller's priority is set, then it yields |
| Kernel.Kernel.MoveProcess | src/k_process.c:274-296 | another process is taken off its queue, repositioned, and the caller yields |
| Kernel.Kernel.UnqueueProcess | src/k_process.c:274-275 | both lookups, as Unqueue states |
| Kernel.Kernel.RepositionProcess | src/k_process.c:277-294 | the new priority and the push its state calls for, as Reposition states |
| Kernel.Kernel.GetProcessPriority | src/k_process.c:303-310 | the result is GetPriority's |
| Kernel.Kernel.SetTimerPending | src/k_process.c:410-412 | only the timer flag changes, to set |
| Kernel.Kernel.SetUartPending | src/k_process.c:414-416 | only the UART flag changes, to set |
| Kernel.Kernel.TimerTick | src/k_i_proc.c:55-73 | corrected tick: g_timer grows by exactly 1; the Due messages are posted to their receivers' mailboxes in order and the rest stay queued; blocked receivers wake without a yield, and then the i-process yields |
| Kernel.Kernel.ExpireAll | src/k_i_proc.c:59-72 | the drain, then the yield, at a given tick |
| Kernel.Kernel.DrainExpired | src/k_i_proc.c:59-69 | the loop sends exactly the Due prefix, front first, and stops at the first unexpired message |
| Kernel.Kernel.ExpireStep | src/k_i_proc.c:62-65 | one turn of the loop sends the next due message |
| Kernel.Kernel.ExpireFront | src/k_i_proc.c:62-65 | the front message leaves the delayed queue and joins the back of its receiver's mailbox; the scheduling state is Deliver's |
| Kernel.Kernel.Withdraw | src/k_i_proc.c:63 | the front message leaves the delayed queue and is held; nothing else changes |
| Kernel.Kernel.SetTimer | src/k_i_proc.c:57 | g_timer takes the new tick count; nothing else changes |
| Kernel.Kernel.YieldTimer | src/k_i_proc.c:71-73 | the i-process's k_release_processor: the state is Release's, and the pool is untouched |
| Kcd.KeyStepKeeps | src/k_sys_proc.c:103-117 | below the cap an ordinary character is appended and echoed; '\r', or any character at the cap, finishes the line with "\r\n" (just "\n" when the line was cut), hands it on and empties it; the line never outgrows the cap |
| Kcd.CommandRoutes | src/k_sys_proc.c:118-125 | a finished line is handed on iff it starts with '%' and its letter's registry entry is above -1, and then it goes to that process |
| Kcd.Registration | src/k_sys_proc.c:136-142 | a '%' text points the next letter's entry at the reported sender; every other entry, and any other text, leaves the registry as it was |
| Kcd.RegisteredLineReachesSender | src/k_sys_proc.c:118-125 | once a process registers letter k, a line "%k..." ended by '\r' is handed to that process |
| Kcd.SetPriorityCommandTyped | src/k_sys_proc.c:65-69 | after the "%C" KCD_REG message registers 'C' for the sender it reports, typing "%C 3 2" and Enter hands "%C 3 2\r\n" to that sender, and the set-priority check reads (3, 2); the sender is set_priority_process only if the block was stamped with it |
| Kcd.Writes | src/k_sys_proc.c:103-113 | the buffer indices one character writes, and the new length, which is never negative |
| Kcd.WritesAsWrittenOverrun | src/k_sys_proc.c:103-112 | as written: after 120 ordinary characters, '\r' writes index 122, past the 122-byte buffer; after 122, any key writes indices 122 and 123 |
| Kcd.WritesInBounds | src/k_sys_proc.c:103-112 | with the line cut at 120 characters, every write stays inside the buffer and the length stays at most 120 |
| Kcd.Decoder.constructor | src/k_sys_proc.c:91-95 | the line is empty and every registry entry is -1 |
| Kcd.Decoder.Step | src/k_sys_proc.c:96-146 | DEFAULT is a key as KeyStep states; KCD_REG starting with '%' records the sender for the next letter; any other message changes nothing |
| Kcd.Decoder.Key | src/k_sys_proc.c:99-135 | the line and the messages sent are KeyStep's, and a finished line lies in the buffer followed by '\0' |
| Kcd.Decoder.Register | src/k_sys_proc.c:136-142 | text starting with '%' sets the registry entry for the next letter to the sender; other text changes nothing |

## Left out

- Hardware context switching is not modelled: `__get_MSP`/`__set_MSP`, `__rte`,
  `__new_special_proc_rte` and `push_registers`/`pop_registers`. They become the abstract `msp`
  field of `Sched`. The pid-based choice of return path (`src/k_process.c:190`) is not modelled.
- The UART i-process, the CRT process and UART register I/O are not modelled. The decoder's echoes
  and hand-offs are returned as `Kcd.Action` values instead of being sent.
- The linker-symbol layout in `memory_init` and the placement of the PCBs are not modelled.
  Blocks and PCBs are arena indices. `Memory.BlockAddress` takes the end of the PCBs as a parameter.
- `set_test_procs` (`src/usr_proc.c`) is not part of this model. The rows it leaves in the table
  are a parameter of `Kernel.Kernel.ProcessInit`.
- Boot code, the SVC wrappers, logging and debug output are not modelled. They have no effect on
  kernel state.
- The pending flags are plain booleans, set by `SetTimerPending`/`SetUartPending` between kernel
  calls. Asynchronous interrupts are not modelled.
- The C code shares `mp_next` between the ready and blocked queues. Each `PQ` instead has its own
  link array. This is equivalent because the invariant keeps every PCB in at most one queue.
- Kernel.Kernel.MemoryInit marks every PCB slot NEW, HIGH and unused (`Kernel.Kernel.Pristine`), with
  a stack pointer of 0. `memory_init` writes no PCB field, and `process_init` skips rows
  whose `m_pid` is -1, so in the source an unused slot keeps whatever RAM held. With the rows the
  kernel's own tables fill, pids 1 to 6 are such slots, and they are exactly the pids
  `k_set_process_priority` accepts. Primitives.SetPriority (through Kernel.Kernel.SetProcessPriority)
  then treats an unused slot as a NEW process: it queues the slot on its new ready level, although
  the slot has no stack frame, and the scheduler may later switch to it with a stack pointer of 0.
  The source reads uninitialised memory at that point, which the model does not capture.
- Kernel.Kernel.ReceiveMessage models one pass of the block-and-retry loop. After the process
  wakes, the retry is a second call.
- Kernel.Kernel.RequestMemoryBlock returns NULL after blocking, as the source does. Retrying once
  woken is left to a second call. It requires that the null process not find the free list empty;
  the null process never requests a block.
- Kernel.Kernel.ReleaseMemoryBlock and Kernel.Kernel.SendMessage require a block the caller holds
  and a valid pid. The source accepts any pointer, so double frees and foreign pointers are not
  modelled.
- Kernel.Kernel.TimerTick counts ticks as an unbounded integer, and `Memory.Pool.InsertDelayed`
  computes `g_timer + delay` the same way. The 32-bit wrap-around of `g_timer` and of
  `g_timer + delay` is not modelled. The unsigned comparison of the tick is: a negative expiry (a
  negative delay) is never due and holds back the queue behind it (`Timer.NegativeExpiryHoldsBack`).
- Payload copying (`strcpy` into `mtext`) is not modelled. Messages carry only the characters the
  decoder and the set-priority check read. `Kcd.Decoder.Step` takes `mtext[0]` and `mtext[1]` as
  parameters.
- `Kcd.Decoder.Key` does not model the block request for the forwarded command, nor the
  "Out of memory" branch when that request fails. An `EndLine` action with a destination stands for
  the send.
- Kcd.Decoder.Step drops a message of any other type without modelling its block. The source
  neither releases nor forwards that block, so the block leaks. The `k_release_processor` at the end
  of each decoder pass is not modelled either, since it does not affect the decoder's state.
- `g_KCD_REG` is indexed by a `char` taken as unsigned (ARM's plain `char`). `Kcd.Byte` is a
  character below 256.
- Process bodies are not modelled: `null_process`, the loops of `set_priority_process` and
  `crt_process`, `uart_i_process`, and the test and stress processes. Of these, only the argument
  check of `set_priority_process` is modelled.
- `src/k_memory.c` uses four names that no file of the source defines: `BLOCKED` (line 138), `RDY`
  (line 164), `proc_priority_pop_blocked` (lines 17, 154) and `proc_priority_push` (lines 18, 165).
  The model reads them as `STATE_BLOCKED_MEMORY`, `STATE_READY`, `pq_pop_blocked` and
  `pq_push_ready` of `src/common.h` and `src/k_process.c`. The memory-blocking and release model,
  and the Findings rows on `src/k_memory.c:133-142` and `src/k_process.c:274-277`, rest on that
  reading.
- Primitives.SetPriorityAsWritten tracks the contents of the levels, not their `back` pointers. The
  stale `back` that `pq_pop_PCB` leaves after removing a tail (first Findings row) is not carried
  into it, so its agreement with SetPriority is about contents.
- `PriorityQueue.PopPcbAsWritten` bounds the traversal loop by NUM_PROCS steps. `WalkStops` proves
  this bound is enough on every well-formed level.

## Findings

| source | as written | input that shows it | evidently intended | confidence | as-written member | corrected member |
|---|---|---|---|---|---|---|
| src/pq.c:72-75 | removing the last PCB of a level of two or more leaves `back[p]` pointing at the removed PCB | level 0 holds PCBs 1 then 2; `pq_pop_PCB(2)`, then `pq_push(3)` links 3 behind 2, out of reach from `front[0]` | move `back[p]` to the predecessor when the tail is removed | high, not executed | PriorityQueue.StaleBackLosesPush | PriorityQueue.PQ.PopPcb |
| src/pq.c:64-69 | on an empty level the loop stops with `temp_proc == NULL`, and line 69 dereferences it | `pq_pop_PCB` for any PCB whose own level is empty | return NULL | high, not executed | PriorityQueue.PopPcbEmptyLevelFaults | PriorityQueue.PQ.PopPcb |
| src/k_sys_proc.c:197-200 | removing the front message sets the queue to NULL, dropping every message behind it | delayed queue [a, b]; remove a; b is lost | make the front's successor the new front | high, not executed | Timer.RemoveDelayedAsWrittenLoses | Memory.Pool.RemoveDelayed |
| src/k_i_proc.c:61-68 | after the front removal empties the queue, `enqueue_message` clears `mp_next`, so the loop ends after one message; the rest of the queue is lost | blocks 1, 2, 0 expiring at 10, 20, 30, at tick 25: only 1 is sent, and 2 and 0 are lost | send every expired message and keep the others queued | high, not executed | Timer.TickAsWrittenLosesMessages | Kernel.Kernel.TimerTick |
| src/k_process.c:274-277 | a BLOCKED_MSG process is on neither queue, so the lookups read through NULL: inside `pq_pop_PCB` (pq.c:69) on an empty level, which the blocked level always is since blocked requesters are never queued, or at line 277 when both return NULL; the same fault hits any target whose ready level is empty | `k_set_process_priority(p, 1)` while user process p waits in `k_receive_message`, or while the ready level of p's priority is empty | look the process up safely and just set its priority when no queue holds it | high, not executed | Primitives.SetPriorityAsWrittenFaults | Primitives.SetPriorityKeeps |
| src/k_memory.c:133-142 | a caller finding no free block becomes BLOCKED_MEMORY but joins no queue, so no release ever wakes it | any request while all 30 blocks are out | put the caller on the blocked queue | high, not executed | Primitives.AwaitMemoryAsWrittenStrands | Primitives.AwaitMemoryKeeps |
| src/k_process.c:351-366 | `k_send_message` writes no header, so the receiver's `sender_id` is the block's previous `m_send_pid`; `send_message` (`src/rtx.h:38`) and `set_priority_process`'s "%C" registration (`src/k_sys_proc.c:69`) go through it, so 'C' is registered for whoever last stamped that block | block 0, last sent by process 3 with `k_send_message_envelope`, then sent by process 2 to process 1 with `send_message`: process 1 is told the sender is 3 | stamp the sender on every process's send, as `k_send_message_envelope` does | high, not executed | Memory.UnstampedSendExample | Kernel.Kernel.SendMessageEnvelope |
| src/k_memory.c:133-142 | an interrupt process finding no free block is made BLOCKED_MEMORY and yields, and `process_switch` refuses a BLOCKED_MEMORY target, so every later UART interrupt is cleared without running `uart_i_process`, whose NULL branch (`src/k_i_proc.c:121-122`) is never reached | a key arrives while all 30 blocks are out | return NULL to an interrupt-priority caller without blocking | high, not executed | Primitives.UartAwaitMemoryAsWritten | Kernel.Kernel.RequestMemoryBlock |
| src/k_sys_proc.c:103-112 | a line is cut only when its length reaches the 122-byte buffer size, and the `'\n'` and `'\0'` written after it then land past the end | 120 ordinary keys then Enter writes `'\0'` at index 122; 122 ordinary keys then any key writes indices 122 and 123 | cut the line at 120 characters | high, not executed | Kcd.WritesAsWrittenOverrun | Kcd.WritesInBounds |
