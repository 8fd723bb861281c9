# Verification of the ChCore kernel core

A model of the hard parts of the ChCore microkernel and of its user-level file system and boot loader, with
proofs of what they keep over every input and every run. Scheduling, IPC, notifications and address spaces interleave
at their critical sections; operations on capabilities, and on the heap, the file data and the boot-time map, are
whole steps, except that the two halves of a capability move are taken apart.

- **Memory allocation** (`Bits`, `BuddyTheory`, `BuddyAllocator`, `Kmalloc`). The buddy allocator is first a set
  of free and a set of live blocks; the class with page metadata, free lists and loops is proved against that.
  Slabs and `kmalloc` sit on top and give one theorem about all live allocations.
- **Threads and IPC** (`Handoff`, `HandoffIpc`, `HandoffKernel`, `HandoffFair`, `HandoffSteps`,
  `HandoffRaces`). Threads, CPUs, ready queues, kernel stacks, connections and handler locks as one transition
  system. Giving up a thread, choosing one and switching to it are separate steps, and so are taking a handler's lock
  and entering the handler; the methods are proved to take exactly those steps. `finish_switch` runs on every return to a thread, after a switch or without one
  (kernel/arch/aarch64/irq/irq_entry.S:225-228), and both are steps. Bounded waiting under round robin follows.
- **Priority scheduling** (`Pbrr`, `PbrrFair`, `PbrrStacks`). One queue, with its own lock, for each CPU and priority,
  with the idle thread in the lowest one; the scan of one queue is one step.
- **Notifications** (`Notification`, `NotificationInv`, `NotificationRaces`, `NotificationDirect`,
  `NotificationOrder`, `NotificationKernel`). A semaphore with timeouts; a signaller and the timer each work in several
  critical sections under two kinds of locks.
- **Capabilities** (`SlotTable`, `Capability`, `CapabilityKernel`). Bitmaps and slot tables, reference counts,
  copies lists, moving and revoking.
- **Virtual memory** (`Radix`, `VmSpace`, `VmSpaceInv`, `VmSpaceRaces`, `VmSpaceSteps`, `VmSpaceKernel`). The radix
  tree as a map; regions, demand paging and page tables of several address spaces that share objects.
- **File data** (`Tmpfs`, `TmpfsRanges`, `TmpfsInode`). Sparse pages and a size as a sequence of bytes.
- **EFI runtime map** (`Heapsort`, `EfiMap`). The in-place heapsort and the walk that prepares the input of
  SetVirtualAddressMap, section 7.4 of the UEFI Specification 2.6.

State that the source updates in place is a class; its methods are proved against functions on values, and the
properties are lemmas about those functions. A BUG_ON is a precondition, a result named Bug, or a point proved
unreachable. A lock makes its critical section one step. History fields (requests and stamps, waits, references
held, frames used, spaces that mapped an object) are written and never read by the modelled code. Locks that are
waited for are phases of a CPU. Memory that may run out is a parameter of the operation that allocates.

Where properties turned out not to hold of the code as it stands:

- That at most one CPU is on a kernel stack. `prev_thread` is never cleared, so each interrupt that does not switch
  frees the stack of the thread of the last switch again, wherever that thread now is
  (`HandoffRaces.TwoOnStackReachable` is a run from the start). `HandoffIpc.KeptIff` gives the exact condition, and
  `HandoffIpc.OneCpuPerStack` holds over the runs that meet it. Under the priority scheduler the same holds of the same
  code (`PbrrStacks.KeptIff`, `PbrrStacks.TwoOnStackReachable`).
- `cap_move` copies and frees in separate critical sections, and its BUG_ON fires if the source is gone by then
  (`Capability.MoveBugReachable`); `Capability.MoveBugIff` says exactly when.
- `check_vmr_intersect` misses the overlap of exactly one byte (`VmSpace.HitsExactly`, `VmSpace.MissedOverlap`).
  `VmSpaceInv.KeptIff` gives the exact condition under which a step keeps the address spaces in order; it also
  covers `vmspace_unmap_range` with length 0, which deletes a region and leaves its translations.
- `vmspace_map_range` rounds the address down but keeps the length, so a range that begins inside a page can be cut
  short; `VmSpaceSteps.CoveredWholeIff` says exactly when it is covered whole.
- `vmspace_unmap_range` deletes a region and clears its translations in two critical sections. In between they are
  stale, and another object mapped there is reached through them (`VmSpaceRaces.WrongObject`);
  `VmSpaceRaces.StaleIff` says exactly when a translation is stale.
- Two spaces that fault on the same page of a shared object at the same time can end in a BUG_ON
  (`VmSpaceRaces.CommitBugReachable`); `VmSpaceRaces.CommitBugIff` says exactly when.
- The thread that `pbrr_sched_choose_thread` takes need not have the highest priority, since a thread can be queued
  behind the scan (`Pbrr.LateStart`, up to the thread taken); `Pbrr.ChoiceTheorem` says exactly when it has.
- A write into a hole shows what the fresh page held (`Tmpfs.WriteSpoils`), and a shrinking truncate into a hole can
  pass over the last page (`Tmpfs.ShrinkIsPrefix`); both conditions are exact. A write that runs out of memory
  returns a short count without growing the file, and `Tmpfs.ShortWrite` says exactly when a later growth would show
  the uncounted bytes.
- `fs_insert_range` does not end for an offset in the first page (`TmpfsRanges.InsertEndsIff`), and
  `fs_collapse_range` can leave pages past the end (`TmpfsRanges.CollapseLeaves`), on which a later insertion stops
  (`TmpfsRanges.CollapseThenInsert`; `TmpfsInode.Inode.InsertRange` says exactly when).
- The notification protocol needs that a woken thread does not run before the signaller or the timer is done with it
  (`NotificationRaces.PromptExact`: that is the exact condition).
- The direct switch of `signal_notific` unlocks the notification before it cancels the timeout of the waiter. It goes
  wrong exactly if that timeout is set on another CPU (`NotificationDirect.DirectExact`); on the signaller's own CPU it
  cannot fire meanwhile, since the kernel runs with interrupts off.
- The error exit of an IPC call after the lock is taken leaves the handler locked for good
  (`HandoffIpc.FailedCallSticks`; `HandoffRaces.FailReachable` is a run from the start); `HandoffIpc.StuckIff`
  says exactly when a handler is in that state.
- `handle_trans_fault` and `vmspace_unmap_range` return with the lock of the space taken when there is no region; the
  model follows the code and such a space is stuck for the rest of the run (`VmSpaceRaces.StuckIff`).

Where the code and its own documentation disagree, three places follow the documentation: the full-word test of
`alloc_slot_id` (kernel/object/cap_group.c:141, against the comment at kernel/include/object/cap_group.h:36-39), the
range test of `is_valid_slot_id` (kernel/object/cap_group.c:15), and the failure test of `cap_copy`
(kernel/object/capability.c:222). The search for a free id is right for every sound set of full-word marks. The test
as it is written looks at the wrong array, with a word number as index, and so reads past the end of the marks for
ids of 64 and more; the model does not have that read.

## Model

| member | source | states |
|---|---|---|
| BuddyTheory.RunInv | kernel/mm/buddy.c:138-234 | After every sequence of gets and frees, free and live blocks tile the pages, are aligned to their size and disjoint, and no two buddies below the top order are both free. |
| BuddyTheory.SplitInv | kernel/mm/buddy.c:74-92 | Splitting a block down to an order keeps the tiling and creates no free pair of buddies. |
| BuddyTheory.MergeInv | kernel/mm/buddy.c:193-234 | Giving a block back and merging upwards keeps the tiling and leaves no free pair of buddies. |
| BuddyTheory.FreeIffMaximal | kernel/mm/buddy.c:193-234 | A block is on a free list exactly if all its pages are free and those of its parent block are not all free. |
| BuddyTheory.FreeBlocksDetermined | kernel/mm/buddy.c:193-234 | Free lists are history independent: two states with the same free pages have the same free blocks. |
| BuddyTheory.RunsAgree | kernel/mm/buddy.c:175-234 | Two runs from the same state that end with the same pages in use end with the same free blocks, whatever the order of gets and frees. |
| BuddyTheory.GetThenFree | kernel/mm/buddy.c:94-234 | A get followed by the free of what it returned restores the zone exactly. |
| BuddyTheory.NoneIffNoRun | kernel/mm/buddy.c:94-125 | Some list of sufficient order is non-empty exactly if some aligned run of 2^order pages is wholly free. |
| BuddyTheory.OneBlockPerPage | kernel/mm/buddy.c:46-132 | No page belongs to two blocks, free or live. |
| BuddyTheory.FreePageIffNotLive | kernel/mm/buddy.c:193-234 | A page of the zone is in a free block exactly if it is in no live block. |
| BuddyTheory.PagesConserved | kernel/mm/buddy.c:74-234 | The pages of free blocks and of live blocks always add up to the number of pages, across every split and merge. |
| BuddyTheory.BuddiesInRangeIff | kernel/mm/buddy.c:46-58 | The buddy index of every page and order stays inside the metadata array exactly if the number of pages is a multiple of 2^13. |
| BuddyTheory.AllFreeIsTopBlocks | kernel/mm/buddy.c:138-173 | With nothing live the free blocks are exactly the top-order blocks, as after initialisation. |
| BuddyAllocator.CheckBuddy | kernel/mm/buddy.c:128-132 | The flag and order test decides exactly whether the block is free. |
| BuddyAllocator.MergeStep | kernel/mm/buddy.c:209-226 | One round of the merge loop: the XOR and AND-NOT indices are the buddy and the parent, and metadata, list and count stay in step. |
| BuddyAllocator.SplitStep | kernel/mm/buddy.c:82-91 | One round of the split loop: the right half becomes free with its flag, order, list entry and count. |
| BuddyAllocator.Buddy.constructor | kernel/mm/buddy.c:138-173 | Freeing the pages one by one from zeroed metadata ends with every page free and merged as far as possible. |
| BuddyAllocator.Buddy.GiveAll | kernel/mm/buddy.c:165-170 | The initialisation loop leaves nothing live and touches no slab tag. |
| BuddyAllocator.Buddy.BuddyGetPages | kernel/mm/buddy.c:94-191 | None exactly if no aligned run of 2^order pages is wholly free; otherwise the first pages of a free block of least sufficient order, and the zone of that split. |
| BuddyAllocator.Buddy.TakeFrom | kernel/mm/buddy.c:109-122 | The block found leaves its list, is split, and its first part is tagged and live. |
| BuddyAllocator.Buddy.Split | kernel/mm/buddy.c:74-92 | The loop yields the free blocks of the split specification, with all metadata in step. |
| BuddyAllocator.Buddy.Merge | kernel/mm/buddy.c:209-226 | The loop yields the free blocks of the merge specification. |
| BuddyAllocator.Buddy.BuddyFreePages | kernel/mm/buddy.c:193-234 | The live block becomes free and merged exactly as the specification says; no slab tag changes. |
| Kmalloc.SizeToOrder | kernel/mm/slab.c:17-30 | The least order whose power of two holds the size. |
| Kmalloc.SizeToPageOrder | kernel/mm/kmalloc.c:11-30 | The least order whose page run holds the size. |
| Kmalloc.LiveDisjoint | kernel/mm/kmalloc.c:34-76 | Two different live allocations, slots or page runs, never overlap. |
| Kmalloc.LiveInside | kernel/mm/kmalloc.c:34-50 | Every live allocation lies inside the memory that the allocator was given. |
| Kmalloc.RunTaken | kernel/mm/slab.c:37-62 | Taking a block of an order leaves exactly one free aligned run of that order less. |
| Kmalloc.TagDecides | kernel/mm/kmalloc.c:67-76 | The slab tag of the page of a live allocation is set exactly if it is a slot, and then names its slab. |
| Kmalloc.SlotsConserved | kernel/mm/slab.c:64-134 | In every slab, slots handed out plus slots on the free list are always the same number. |
| Kmalloc.PopSlot | kernel/mm/slab.c:108-118 | Taking the first free slot adds exactly one live allocation. |
| Kmalloc.PushSlot | kernel/mm/slab.c:197-227 | Putting a live slot back removes exactly that allocation. |
| Kmalloc.LinkSlots | kernel/mm/slab.c:64-92 | The free list of a new slab holds each slot once and nothing else. |
| Kmalloc.KernelHeap.constructor | kernel/mm/buddy.c:138-173 | A heap in order over a freshly initialised zone of all the pages given, with no slab and nothing live. |
| Kmalloc.KernelHeap.AllocSlabMemory | kernel/mm/slab.c:37-62 | Succeeds exactly if an aligned run of 512 pages is wholly free; then a block of them becomes live and exactly its pages carry its address as tag. |
| Kmalloc.KernelHeap.NewSlab | kernel/mm/slab.c:64-92 | Succeeds exactly if such a run is free: a new slab with free slots at the head of its chain, one free run less, and no allocation changes. |
| Kmalloc.KernelHeap.InitSlab | kernel/mm/slab.c:140-150 | Every order gets a slab if and only if at least seven aligned runs of 512 pages are wholly free. |
| Kmalloc.KernelHeap.AllocInSlab | kernel/mm/slab.c:94-134 | Fails exactly if no slab of the order has a free slot and no aligned run of 512 pages is wholly free; otherwise adds one live slot, without touching the zone if a slot was free. The retry after a new slab ends. |
| Kmalloc.KernelHeap.FreeInSlab | kernel/mm/slab.c:197-227 | Removes exactly the freed slot. |
| Kmalloc.KernelHeap.Malloc | kernel/mm/kmalloc.c:34-50 | The allocation has the least size that is enough, is apart from every live one, and is the only one added. Up to 2048 bytes it stops exactly if there is neither a slot of the order nor a run for a slab; above, it stops exactly if no order is enough, and is null exactly if no aligned run of the least order is free. A failure changes no allocation. |
| Kmalloc.KernelHeap.GetPages | kernel/mm/kmalloc.c:78-84 | Null exactly if no aligned run is free; otherwise adds exactly that run. |
| Kmalloc.KernelHeap.Free | kernel/mm/kmalloc.c:67-76 | Returns the block to the allocator it came from, removing exactly that allocation. |
| Kmalloc.KernelHeap.FreeRun | kernel/mm/kmalloc.c:86-91 | A page run goes back to the buddy allocator, removing exactly that allocation. |
| Handoff.SwitchInv | kernel/sched/sched.c:75-124 | A switch to a thread that may be entered keeps the whole invariant of threads, stacks, queues, requests and locks. |
| Handoff.EnqueueInv | kernel/sched/policy_rr.c:36-100 | Queueing keeps it: a thread is TS_READY exactly when it is once in the queue its cpuid names. |
| Handoff.SchedInv | kernel/sched/policy_rr.c:183-206 | The first section of rr_sched, which queues the CPU's own thread while the CPU is still on its stack, keeps it. |
| Handoff.ChooseInv | kernel/sched/policy_rr.c:135-165 | The choice under the lock of the ready queue keeps it; what is chosen is reserved until the switch. |
| Handoff.EnterChosenInv | kernel/sched/sched.c:75-124 | The unlocked switch to the chosen thread keeps it, whatever other CPUs did since the choice. |
| Handoff.ParkInv | kernel/ipc/notification.c:90-106 | A thread that starts to wait gives up its CPU, which begins to choose, and the invariant is kept. |
| Handoff.FinishInv | kernel/sched/sched.c:187-201 | The finish_switch of a switch frees only a stack that no CPU is on, and keeps the invariant. |
| Handoff.RepeatIff | kernel/sched/sched.c:187-201 | A finish_switch without a switch, which frees the stack of the last switch once more, keeps the invariant if and only if no CPU is on that stack. |
| HandoffIpc.StepInv | kernel/ipc/connection.c:242-760 | Every careful step of scheduling, IPC and registration keeps the invariant; only a repeated finish_switch can be careless. |
| HandoffIpc.KeptIff | kernel/sched/sched.c:75-201 | A step keeps the invariant if and only if it is careful: it is no finish_switch without a switch, or no CPU is on the stack that it frees. |
| HandoffIpc.RunInv | kernel/ipc/connection.c:242-760 | It holds in every state of every interleaving of careful steps on any number of CPUs. |
| HandoffIpc.OneCpuPerStack | kernel/sched/sched.c:75-201 | Over every run of careful steps at most one CPU is on a given kernel stack, with any number of CPUs between giving up their thread, choosing and switching at once. |
| HandoffRaces.TwoOnStack | kernel/sched/sched.c:75-201 | From every state in which the thread a CPU was switched from runs on another CPU, both with empty queues, an interrupt that does not switch leads to two CPUs on one stack. |
| HandoffRaces.TwoOnStackReachable | kernel/arch/aarch64/irq/irq_entry.c:124-129 | From the start, with any two CPUs and any two plain threads, two CPUs get onto one stack. |
| HandoffIpc.ChainAcyclic | kernel/ipc/connection.c:242-356 | No thread occurs twice in a chain of nested calls, so no handler is entered again while it serves. |
| HandoffIpc.ChainContext | kernel/ipc/connection.c:281-342 | All threads of a chain carry the scheduling context of the thread that started it. |
| HandoffIpc.CallEnters | kernel/ipc/connection.c:281-342 | A call enters the idle handler of the connection and adds exactly the request of its caller. |
| HandoffIpc.ReplyGoesToRequester | kernel/ipc/connection.c:641-675 | A reply switches to exactly the thread whose request is being served and ends only that request. |
| HandoffIpc.RequestStays | kernel/ipc/connection.c:583-675 | A request stays open, with the same requester, until its own server replies. |
| HandoffIpc.FailedCallSticks | kernel/ipc/connection.c:617-621 | The error exit after the lock is taken leaves the handler locked though it serves nobody. |
| HandoffRaces.FailReachable | kernel/ipc/connection.c:372-760 | From the start, with two CPUs and four plain threads, registration and a call are reached that fails and leaves its handler locked for good. |
| HandoffIpc.StuckRefuses | kernel/ipc/connection.c:242-278 | Calls to such a handler fail and change nothing. |
| HandoffIpc.StuckForever | kernel/ipc/connection.c:617-621 | It stays so for the rest of the run unless it is registered anew. |
| HandoffIpc.StuckBegins | kernel/ipc/connection.c:617-621 | Only a call that fails while it holds the lock of a handler leaves that handler so. |
| HandoffIpc.StuckIff | kernel/ipc/connection.c:242-760 | In every state of every run a handler is locked for good exactly if a call to it has failed with its lock taken and it has not been registered since. |
| HandoffFair.FairStep | kernel/sched/policy_rr.c:135-165 | In one step a queued thread with a free stack is chosen, or moves up by one if its CPU chooses, or stays. |
| HandoffFair.ChosenWithin | kernel/sched/policy_rr.c:135-165 | At position k it is chosen within k + 1 choices of its CPU, whatever is queued later, over every run. |
| HandoffFair.ChoiceStands | kernel/sched/policy_rr.c:135-212 | A choice stands through every step of the other CPUs until its CPU switches, and then the thread runs there. |
| HandoffFair.ReadyIffQueued | kernel/sched/policy_rr.c:36-165 | In every run a thread is TS_READY exactly when it is in the queue its cpuid names, and it is in no other. |
| HandoffFair.QueuedAtHome | kernel/sched/policy_rr.c:61-100 | In every run a queued thread with an affinity is in the queue of that CPU and in no other. |
| HandoffSteps.QueueAfter | kernel/sched/policy_rr.c:36-212 | What any step does to the queue of a CPU: a thread whose budget is used up, a woken or a new one goes to the end of the queue of its affinity or of the acting CPU; a choice takes the first that can run, or the idle thread if none can; nothing else changes a queue. |
| HandoffSteps.SwitchFinish | kernel/sched/sched.c:75-201 | A switch and the finish_switch after it free the stack of exactly the thread that was left and lock that of the new one; a CPU that goes on with its own thread frees none, however often finish_switch runs. |
| HandoffSteps.ConnAfter | kernel/ipc/connection.c:281-760 | What any step does to the connections: a registration adds one of the calling thread and ends with the idle handler in it and the client running again; a call notes its client and enters the handler; nothing else changes one. |
| HandoffFair.WaitingInjective | kernel/ipc/connection.c:242-356 | In every run no thread waits for two servers, and every requester is TS_WAITING. |
| HandoffKernel.KernelCore.SwitchToThread | kernel/sched/sched.c:75-124 | The assignments make up exactly the switch of the transition system. |
| HandoffKernel.KernelCore.FindNextRunnable | kernel/sched/sched.c:174-185 | The first thread of the queue whose stack is free or is the CPU's own. |
| HandoffKernel.KernelCore.RrSchedEnqueue | kernel/sched/policy_rr.c:36-100 | Fails exactly for a queued thread; otherwise appends it to the queue of its home CPU. |
| HandoffKernel.KernelCore.RrSchedChooseThread | kernel/sched/policy_rr.c:135-165 | Takes exactly the choice step: the first runnable thread, taken out of the queue, or the idle thread; the invariant is kept. |
| HandoffKernel.KernelCore.RrSchedYield | kernel/sched/policy_rr.c:183-206 | Takes exactly the first step of rr_sched and keeps the invariant. |
| HandoffKernel.KernelCore.SwitchToChosen | kernel/sched/policy_rr.c:208-212 | Takes exactly the switch step and keeps the invariant. |
| HandoffKernel.KernelCore.RrSched | kernel/sched/policy_rr.c:183-212 | The three steps in a row: the CPU ends up switched to the first runnable thread, or nothing changes while the budget lasts. |
| HandoffKernel.KernelCore.FinishSwitch | kernel/sched/sched.c:187-201 | After a switch and without one it frees the stack of the thread of the last switch; the invariant is kept if and only if there was a switch or no CPU is on that stack. |
| HandoffKernel.KernelCore.GrabIpcLock | kernel/ipc/connection.c:242-278 | Succeeds exactly if the handler's lock is free; otherwise -EAGAIN and nothing changes. |
| HandoffKernel.KernelCore.PassRequest | kernel/ipc/connection.c:281-330 | The client waits and the server takes over its context and request. |
| HandoffKernel.KernelCore.ThreadMigrateToServer | kernel/ipc/connection.c:281-342 | Takes exactly one migration step and keeps the invariant. |
| HandoffKernel.KernelCore.SysIpcReturn | kernel/ipc/connection.c:641-675 | The CPU ends up on the requester, and the invariant is kept. |
| HandoffKernel.KernelCore.SysRegisterClient | kernel/ipc/connection.c:372-490 | Migrates to the registration thread with a new connection, keeping the invariant. |
| HandoffKernel.KernelCore.SysIpcRegisterCbReturn | kernel/ipc/connection.c:677-760 | Installs the idle handler in the connection, returns to the client and keeps the invariant. |
| Notification.NoBug | kernel/ipc/notification.c:53-185 | In a state in order no step of wait, signal or timer runs into a BUG_ON, follows a null pointer or queues a thread twice. |
| NotificationInv.NotificationTheorem | kernel/ipc/notification.c:24-185 | Over every interleaving: a blocked wait ends at most once and returns 0 after a signal and -EAGAIN after a timeout; signals sent are immediate successes plus signal wake-ups plus pending; a pending signal means no waiters; no thread is queued twice; no BUG_ON fires. |
| NotificationInv.ReachableInv | kernel/ipc/notification.c:24-185 | The invariant of the protocol holds in every state of every run in which a woken thread does not overtake its waker. |
| NotificationInv.InsertSorted | kernel/irq/timer.c:155-206 | The sleep list stays in the order of wake-up ticks, equal ticks in order of arrival. |
| NotificationInv.WaitInv | kernel/ipc/notification.c:78-122 | wait_notific, blocking or not, with or without timeout, keeps the invariant. |
| NotificationInv.SignalInv | kernel/ipc/notification.c:137-183 | The first section of signal_notific keeps it. |
| NotificationInv.CheckInv | kernel/ipc/notification.c:124-130 | The unlocked look at the callback keeps it. |
| NotificationInv.DequeueInv | kernel/irq/timer.c:209-229 | The locked removal of the timeout keeps it, even if the timer was faster. |
| NotificationInv.ClearInv | kernel/ipc/notification.c:132-135 | Forgetting the notification keeps it. |
| NotificationInv.ExpireInv | kernel/irq/timer.c:91-104 | Taking a sleeper that is due off the list keeps it. |
| NotificationInv.CallInv | kernel/ipc/notification.c:60-75 | The callback wakes the thread only if no signal has, and keeps it. |
| NotificationInv.TimerClearInv | kernel/irq/timer.c:104-105 | Clearing the callback keeps it. |
| NotificationInv.SleepInv | kernel/irq/timer.c:241-263 | sys_clock_nanosleep keeps it. |
| NotificationInv.DirectInv | kernel/ipc/notification.c:163-176 | The direct switch, taken as one step, keeps it. |
| NotificationOrder.WaitersInOrder | kernel/ipc/notification.c:78-183 | In every run the waiters of a notification are the threads of its open waits, in the order in which they began to wait. |
| NotificationOrder.OpenWaitsEnd | kernel/ipc/notification.c:60-75 | The end of a wait, also by a timeout, takes that thread out and leaves the order of the others. |
| NotificationOrder.SignalEndsOldest | kernel/ipc/notification.c:137-183 | In every run a signal ends exactly the oldest open wait on its notification, and the thread of that wait waits no longer; without an open wait it ends none and is kept. |
| NotificationOrder.SignalsConserved | kernel/ipc/notification.c:78-183 | In every run the signals sent are the waits that returned at once plus the blocked waits that a signal ended plus the pending ones, counted over the steps. |
| NotificationOrder.NeverEarly | kernel/irq/timer.c:75-113 | In every run the timer wakes a waiting thread only on the CPU and after the tick that the thread asked for, and never one that asked for none. |
| NotificationOrder.TimeoutIsSet | kernel/irq/timer.c:155-263 | In every run a waiting thread that asked for a timeout is on the sleep list of that CPU with that tick, or that CPU's timer is busy with it; one that did not is on no list. |
| NotificationRaces.TimerOvertaken | kernel/irq/timer.c:91-105 | If a woken thread runs and blocks again while the timer is still busy with it, before or after the callback, there is a way to a BUG_ON. |
| NotificationRaces.SignalOvertaken | kernel/ipc/notification.c:124-135 | The same while a signaller is anywhere between waking the thread and forgetting its timeout. |
| NotificationRaces.InvNeverFails | kernel/ipc/notification.c:24-185 | From a state of the invariant no sequence of prompt steps leads to a BUG_ON. |
| NotificationRaces.PromptExact | kernel/ipc/notification.c:24-185 | Running a woken thread can be continued to a BUG_ON, all other threads waiting their turn, if and only if a signaller or the timer is still busy with it. |
| NotificationRaces.OvertakingReachable | kernel/ipc/notification.c:78-185 | Two steps from the start such a state is reached, and from there a BUG_ON. |
| NotificationDirect.DirectExact | kernel/ipc/notification.c:137-183 | With the direct switch split at its unlock, some continuation leads to a BUG_ON or to a second wake-up of the waiter if and only if the waiter has a timeout set on another CPU than the signaller's. |
| NotificationDirect.ArmedRuins | kernel/irq/timer.c:75-113 | Whatever that other CPU is doing, its timer can still get to the waiter: through the sleepers before it, a signal half done, or a lock that is held. |
| NotificationDirect.FirstComplete | kernel/ipc/notification.c:163-176 | Without such a timeout the split switch, completed at once, is the one step of the protocol. |
| NotificationDirect.SettledStep | kernel/ipc/notification.c:137-183 | Then every step of anyone in the window runs into no BUG_ON, and the switch, completed after it, still gives a state of the invariant. |
| NotificationDirect.SettledNeverRuined | kernel/ipc/notification.c:137-183 | So no sequence of steps in the window goes wrong. |
| NotificationDirect.DirectReachable | kernel/ipc/notification.c:78-183 | One step from the start the bad case is reached: a wait with a timeout on one CPU, signalled from another. |
| NotificationDirect.DirectSwitchRace | kernel/ipc/notification.c:163-176 | What happens then: a BUG_ON if it was the only waiter, otherwise a second wake-up and a count that no longer matches the list. |
| NotificationKernel.NotificationCore.InsertSleeper | kernel/irq/timer.c:155-206 | The loop inserts at the place the sorted-insert specification names. |
| NotificationKernel.NotificationCore.WaitNotific | kernel/ipc/notification.c:78-122 | Returns 0 exactly if a signal is pending, -EAGAIN exactly if none is and it may not block, and otherwise blocks; the new state is the step of the protocol, and the invariant is kept. |
| NotificationKernel.NotificationCore.BlockThread | kernel/ipc/notification.c:90-106 | The thread goes to the end of the waiters and waits. |
| NotificationKernel.NotificationCore.TakeFirst | kernel/irq/timer.c:91-104 | The first sleeper is off the list and its notification forgotten. |
| NotificationKernel.NotificationCore.ClearCallback | kernel/irq/timer.c:104-105 | The callback of a woken sleeper is cleared and the invariant kept. |
| NotificationKernel.NotificationCore.Wake | kernel/ipc/notification.c:178-179 | The thread is queued and its wait ended with the given cause. |
| NotificationKernel.NotificationCore.SignalNotific | kernel/ipc/notification.c:137-183 | Wakes the first waiter exactly if there is one, otherwise the signal is kept; the invariant is kept. |
| NotificationKernel.NotificationCore.TryDequeueSleeper | kernel/irq/timer.c:209-229 | Removes the sleeper exactly if its callback is set. |
| NotificationKernel.NotificationCore.NotificTimerCb | kernel/ipc/notification.c:53-75 | Takes exactly the callback step and keeps the invariant. |
| NotificationKernel.NotificationCore.ExpireFirst | kernel/irq/timer.c:94-105 | The first sleeper is off the list, ready and without callback; no other thread changes. |
| NotificationKernel.NotificationCore.HandleTimerIrq | kernel/irq/timer.c:75-113 | Stopping at the first sleeper that is not due leaves none behind: exactly the sleepers that are due are woken, the rest keep their order. |
| SlotTable.WithBitBits | kernel/include/common/bitops.h:9-28 | Setting or clearing a bit changes that bit and no other. |
| SlotTable.Ctzl | kernel/include/common/bitops.h:30-33 | The lowest set bit of a word that has one; 8 for a zero word. |
| SlotTable.FindNextBit | kernel/include/common/bitops.h:36-61 | The first bit from start on with the wanted value, or size. |
| SlotTable.SkipFull | kernel/include/object/cap_group.h:36-41 | Every id below the first word not marked full is in use. |
| SlotTable.Table.constructor | kernel/object/cap_group.c:24-62 | Size rounded up to whole words and no id in use. |
| SlotTable.Table.Expand | kernel/object/cap_group.c:80-106 | One more word; every slot and bit as before. |
| SlotTable.Table.Search | kernel/object/cap_group.c:117-132 | The two-level search finds the least free id, or that there is none, whatever sound marks there are. |
| SlotTable.Table.AllocSlotId | kernel/object/cap_group.c:109-148 | The least free id; the table grows by one word exactly if no id is free; every slot keeps its id; exactly that id becomes used; out of memory nothing changes. |
| SlotTable.Table.FreeSlotId | kernel/include/object/cap_group.h:79-85 | Exactly that id is free and the marks stay sound. |
| SlotTable.Table.InstallSlot | kernel/include/object/cap_group.h:95-101 | The slot is stored under its allocated id. |
| SlotTable.Table.GetSlot | kernel/include/object/cap_group.h:87-93 | A slot is found only under an id in range and in use. |
| Capability.RunInv | kernel/object/capability.c:16-303 | After every sequence of operations, each taken as a whole, each count is the slots naming the object plus the references held, each copies list is exactly those slots, and no slot names a freed object. |
| Capability.ObjAllocInv | kernel/object/capability.c:16-36 | A new object keeps the accounts. |
| Capability.CapAllocInv | kernel/object/capability.c:75-117 | Its first slot keeps them. |
| Capability.CapCopyInv | kernel/object/capability.c:192-256 | A copy keeps them. |
| Capability.CapFreeInv | kernel/object/capability.c:123-185 | Freeing a slot keeps them, also when it frees the object. |
| Capability.GetInv | kernel/object/cap_group.c:150-182 | Taking a reference keeps them. |
| Capability.PutInv | kernel/object/cap_group.c:198-208 | Giving one back keeps them, also when it frees the object. |
| Capability.ObjectFacts | kernel/object/capability.c:16-36 | A new object has the kind asked for and no reference; every slot and other object is as it was. |
| Capability.AllocFacts | kernel/object/capability.c:75-117 | The first slot names the object with the given rights under a new id of the group; it is the one reference, the object keeps its kind, and nothing else changes. |
| Capability.ReferenceFacts | kernel/object/cap_group.c:150-208 | Taking a reference adds one, giving it back takes one and frees the object exactly at the last; nothing else changes. |
| Capability.KindAfter | kernel/object/capability.c:16-303 | No operation changes the kind of an object, and only obj_alloc makes one. |
| Capability.KindKept | kernel/object/capability.c:16-303 | In every run an object has, as long as it lives, the kind it was allocated with. |
| Capability.CopyFacts | kernel/object/capability.c:192-256 | A copy names the same object with the given or the same rights under a new id; one reference more and nothing else changes. |
| Capability.FreeFacts | kernel/object/capability.c:123-185 | Freeing takes exactly that slot and one reference; the object is freed exactly if it was the last; nothing else changes. |
| Capability.MoveFacts | kernel/object/capability.c:267-280 | If nothing comes between its copy and its free, a move keeps the count and every other slot and object; the new slot replaces the old one. |
| Capability.SlotAfter | kernel/object/capability.c:16-303 | One operation leaves a slot as it was unless it frees it, sweeps its object or revokes a slot of the same object, and fills an empty one only as the least free id of a new slot, with the object and rights given, or of a copy, with the object of the source and its rights or the ones given. |
| Capability.MoveBugIff | kernel/object/capability.c:264-280 | Over runs: the free of a move, any number of operations after its copy, is a BUG_ON if and only if one of them took the source away and its id has not been given out again. |
| Capability.MoveTakesSource | kernel/object/capability.c:264-280 | It takes the very slot that was copied if none of them took that away. |
| Capability.MoveBugReachable | kernel/object/capability.c:264-280 | Four steps from the start reach that BUG_ON. |
| Capability.SweepFacts | kernel/object/capability.c:63-72 | After k rounds of the sweep the object is still allocated, its first k copies are gone and nothing else has changed. |
| Capability.ObjFreeFacts | kernel/object/capability.c:46-73 | An object without references is gone; otherwise all its slots are and it stays with the references held; nothing else changes. |
| Capability.RevokeFacts | kernel/object/capability.c:282-303 | Revoking removes the object from every group, changes nothing else, and frees it exactly if no one else holds a reference. |
| Capability.FreedAtLast | kernel/object/capability.c:158-177 | An object in use is freed by exactly the operation that takes its last slot or reference. |
| Capability.AddNames | kernel/object/capability.c:85-108 | A new slot gets an id that named nothing, and no other slot changes. |
| CapabilityKernel.CapSystem.TakeSlot | kernel/object/capability.c:85-116 | The least free id with the slot installed exactly if there is memory for a slot and an id is free or the table can grow; otherwise -ENOMEM with every capability unchanged. |
| CapabilityKernel.CapSystem.GiveSlot | kernel/include/object/cap_group.h:79-85 | Exactly that slot is gone. |
| CapabilityKernel.CapSystem.Look | kernel/include/object/cap_group.h:87-93 | The slot under an id, if any. |
| CapabilityKernel.CapSystem.ObjAlloc | kernel/object/capability.c:16-36 | A new object, or nothing when memory is short; the accounts are kept. |
| CapabilityKernel.CapSystem.CapAlloc | kernel/object/capability.c:75-117 | The capability of the specification exactly if memory suffices, otherwise -ENOMEM with all capabilities and counts unchanged. |
| CapabilityKernel.CapSystem.CapFree | kernel/object/capability.c:123-185 | -ECAPBILITY exactly for a slot not in use; otherwise slot, list, count and object as specified. |
| CapabilityKernel.CapSystem.CapCopy | kernel/object/capability.c:192-256 | -ECAPBILITY exactly for a source not in use; otherwise the copy of the specification exactly if memory suffices, or -ENOMEM with nothing changed. |
| CapabilityKernel.CapSystem.CapMove | kernel/object/capability.c:267-280 | When nothing comes between its copy and its free: 0 with the move of the specification exactly if the source is in use and memory suffices; otherwise an error with nothing changed. |
| CapabilityKernel.CapSystem.GetOpaque | kernel/object/cap_group.c:150-182 | A reference exactly if the slot is in use and the type fits. |
| CapabilityKernel.CapSystem.ObjPut | kernel/object/cap_group.c:198-208 | One reference less; the last one frees the object. |
| CapabilityKernel.CapSystem.ObjFree | kernel/object/capability.c:46-73 | The sweep of the specification; the object is there after every round. |
| CapabilityKernel.CapSystem.CapRevoke | kernel/object/capability.c:282-303 | -ECAPBILITY exactly for a slot not in use; otherwise the revocation of the specification. |
| Radix.Grow | kernel/lib/radix.c:74-86 | A new empty node in an empty cell keeps the tree shape and every value. |
| Radix.Store | kernel/lib/radix.c:88-96 | Writing a leaf cell changes the value of exactly one key. |
| Radix.DeadEnd | kernel/lib/radix.c:127-135 | If the way of a key ends early the key has no value. |
| Radix.RadixTree.constructor | kernel/lib/radix.c:19-26 | The empty map. |
| Radix.RadixTree.Indices | kernel/lib/radix.c:68-72 | The digits of the key, lowest first. |
| Radix.RadixTree.NewNode | kernel/lib/radix.c:34-45 | An unused node, or none when memory is short. |
| Radix.RadixTree.Descend | kernel/lib/radix.c:74-86 | The child on the way of the key, made if missing; fails exactly if it is missing and memory is used up; no value changes. |
| Radix.RadixTree.EnsureRoot | kernel/lib/radix.c:57-66 | A root; fails exactly if there is none and no memory; no value changes. |
| Radix.RadixTree.Add | kernel/lib/radix.c:48-104 | A map update for every pair of 64-bit keys; it fails exactly if more nodes on the way of the key are missing than memory holds, and then the map is unchanged. |
| Radix.RadixTree.Get | kernel/lib/radix.c:106-144 | The value the map holds, for every key. |
| Radix.RadixTree.Del | kernel/lib/radix.c:147-150 | The key has no value and no other key changes; it fails under the same exact condition, and then the map is unchanged. |
| Radix.RadixTree.FreeNode | kernel/lib/radix.c:152-174 | The deleter is called once for each key under the node that has a value, and for no other. |
| Radix.RadixTree.Free | kernel/lib/radix.c:177-190 | Every stored value is handed to the deleter exactly once; -EINVAL for a tree without root. |
| VmSpace.HitsExactly | kernel/mm/vmregion.c:34-58 | The intersection test sees every overlap except exactly the one where the last new byte is the first old one. |
| VmSpace.HitsExactlyPages | kernel/mm/vmregion.c:34-58 | With page-aligned starts and a length that is not one over whole pages the test is exact. |
| VmSpace.MissedOverlap | kernel/mm/vmregion.c:235-248 | A mapping of one page and one byte right below a region overlaps it unseen. |
| VmSpace.FindRegion | kernel/mm/vmregion.c:219-231 | A region that covers the address, or none does. |
| VmSpace.Index | kernel/mm/pgfault_handler.c:75-95 | The index of a page of an aligned region, times the page size, is its distance in bytes from the start of the region. |
| VmSpaceInv.KeptIff | kernel/mm/vmregion.c:87-567 | Every step keeps regions disjoint, frames unshared and every translation true or inside a range still to be cleared, if and only if it is neither that unseen overlap nor an unmap of length 0 that leaves mapped pages behind. |
| VmSpaceInv.AddInv | kernel/mm/vmregion.c:87-97 | A new region keeps the invariant exactly if it is not the unseen overlap. |
| VmSpaceInv.UnmapInv | kernel/mm/vmregion.c:526-567 | Deleting a region with its translations keeps the invariant. |
| VmSpaceInv.DeletePendingInv | kernel/mm/vmregion.c:311-330 | The first section of vmspace_unmap_range keeps it: what is left mapped is still to be cleared. |
| VmSpaceInv.ClearInv | kernel/mm/vmregion.c:348-352 | The second section keeps it, whatever was mapped there in between and whoever holds the lock of the space. |
| VmSpaceInv.DeleteInv | kernel/mm/vmregion.c:299-362 | Deleting a region without clearing, as with length 0, keeps it exactly if no page of it is left mapped outside the ranges still to be cleared. |
| VmSpaceInv.CommitInv | kernel/mm/pgfault_handler.c:94-123 | A fresh frame for a page without one keeps it, for all spaces at once. |
| VmSpaceInv.VmTheorem | kernel/mm/vmregion.c:34-705 | In every run regions are disjoint, every translation is the page of the backing object or lies in a range still to be cleared, and different pages never share a frame. |
| VmSpaceInv.TranslationOf | kernel/mm/pgfault_handler.c:74-164 | A translation that is not stale is the page of the backing object at the byte offset of the address in the one region it lies in, with that region's permission. |
| VmSpaceInv.SameFrameIff | kernel/mm/vmregion.c:685-705 | Two translations in any two spaces that are not stale lead to the same frame exactly if they are at the same byte offset of the same object. |
| VmSpaceInv.PagesApart | kernel/mm/pgfault_handler.c:74-164 | Two different pages of one region never share a frame. |
| VmSpaceInv.PrivateCommits | kernel/mm/pgfault_handler.c:94-131 | A space that alone maps an object never finds its page committed by someone else. |
| VmSpaceInv.SharedCommitRace | kernel/mm/pgfault_handler.c:97-123 | Two spaces that fault on one page of a shared object at the same time: the second commit is a BUG_ON. |
| VmSpaceRaces.CommitBugStep | kernel/mm/pgfault_handler.c:94-123 | While a space is about to commit a page, its commit becomes a BUG_ON exactly by another space's commit of the same page of the same object. |
| VmSpaceRaces.CommitBugIff | kernel/mm/pgfault_handler.c:94-123 | Over runs: from a fault to its commit, the commit is a BUG_ON if and only if another space has committed that page in between. |
| VmSpaceRaces.CommitBugReachable | kernel/mm/pgfault_handler.c:31-123 | Six steps from the start reach that BUG_ON. |
| VmSpaceRaces.StaleStep | kernel/mm/vmregion.c:299-362 | After a step a translation is stale exactly if the step deleted its region, or it was stale and the step neither cleared nor replaced it nor mapped the same page there again. |
| VmSpaceRaces.StaleIff | kernel/mm/vmregion.c:299-362 | In every state of every run a translation is stale if and only if its region was deleted and it has not been renewed since. |
| VmSpaceRaces.DeleteExact | kernel/mm/vmregion.c:311-330 | The first section of vmspace_unmap_range, for every length, leaves all translations true exactly if no page of the region is mapped. |
| VmSpaceRaces.WrongObject | kernel/mm/vmregion.c:299-362 | Another object mapped at the address before the page table is cleared is reached through a page of the old one. |
| VmSpaceRaces.StaleReachable | kernel/mm/vmregion.c:299-362 | Six steps from the start reach a stale translation. |
| VmSpaceRaces.StuckStep | kernel/mm/pgfault_handler.c:48-66 | A space is stuck after a step exactly if it was before or the step is its fault or its unmapping at an address without a region. |
| VmSpaceRaces.StuckIff | kernel/mm/pgfault_handler.c:48-66 | Over runs: a space is stuck if and only if some earlier fault or unmapping of it found no region; so it never gets free again. |
| VmSpaceRaces.StuckRefuses | kernel/mm/vmregion.c:311-318 | The only step a stuck space still takes is to clear the page table of an unmapping begun before. |
| VmSpaceSteps.RegionAfter | kernel/mm/vmregion.c:87-567 | After any step a region is there exactly if it was and the step did not unmap the address it covers, or the step mapped it: at the page of the address, or at the cursor, with the length, permission and object asked for. |
| VmSpaceSteps.CursorAfter | kernel/mm/vmregion.c:464-510 | The mmap cursor of a space moves by exactly the length of a mapping at it, and by no other step. |
| VmSpaceSteps.EntryAfter | kernel/mm/vmregion.c:299-567 | After any step the page table has the entry of the fault that was handled, nothing where a region was cleared, and everything else as it was. |
| VmSpaceSteps.ObjectAfter | kernel/mm/pgfault_handler.c:94-123 | Any step keeps the size, type and pages of an object, but for a commit, which adds the fresh frame at the byte offset of the page that faulted. |
| VmSpaceSteps.CoveredWholeIff | kernel/mm/vmregion.c:245-257 | A mapped range is covered whole if and only if it begins at a page or ends within the page it begins in. |
| VmSpaceInv.MmapFits | kernel/mm/vmregion.c:464-510 | While every region lies below the cursor, mmap finds no overlap and the cursor stays above. |
| VmSpaceKernel.VmCore.CheckVmrIntersect | kernel/mm/vmregion.c:34-58 | True exactly if the test hits some region. |
| VmSpaceKernel.VmCore.FindVmrForVa | kernel/mm/vmregion.c:219-231 | The first region of the list that covers the address. |
| VmSpaceKernel.VmCore.VmspaceMapRange | kernel/mm/vmregion.c:235-297 | Adds the aligned region; the invariant survives exactly if the overlap is not the unseen one. |
| VmSpaceKernel.VmCore.VmspaceMmapWithPmo | kernel/mm/vmregion.c:464-510 | The region at the cursor, page aligned, keeping the invariant. |
| VmSpaceKernel.VmCore.VmspaceUnmapShmVmr | kernel/mm/vmregion.c:526-567 | Region and translations gone, or -EINVAL; the invariant is kept. |
| VmSpaceKernel.VmCore.UnmapRangeDelete | kernel/mm/vmregion.c:299-330 | The region is deleted, or -1 and the lock stays taken; the invariant survives exactly if nothing mapped is left behind for good. |
| VmSpaceKernel.VmCore.UnmapRangeClear | kernel/mm/vmregion.c:348-352 | No page of the range is mapped afterwards, and the invariant is kept. |
| VmSpaceKernel.VmCore.PageFor | kernel/mm/pgfault_handler.c:94-131 | The page of the object at the byte offset of the fault in its region: the old one if there was one, otherwise the fresh frame, which is then the only change to any object. |
| VmSpaceKernel.VmCore.HandleTransFault | kernel/mm/pgfault_handler.c:31-184 | The faulting page is mapped, with the region's permission, to the page of the object at its byte offset, committed if missing, and nothing else changes; without a region -ENOMAPPING and the lock stays taken. |
| Tmpfs.WriteIsSplice | user/tmpfs/util.c:460-507 | If every page a write fills only in part is there, the write is a splice and only zeros are stored past the end. |
| Tmpfs.WriteSpoils | user/tmpfs/util.c:475-485 | Otherwise there is page memory for which it is not: the condition is exact. |
| Tmpfs.PlainWrite | user/tmpfs/util.c:460-507 | On files without holes every write is a splice, and the file stays without holes. |
| Tmpfs.ReadBack | user/tmpfs/util.c:460-544 | On every file what a complete write wrote is read back; where the partly filled pages are there every other byte is as it was. |
| Tmpfs.ShortWrite | user/tmpfs/util.c:471-507 | A write that runs out of memory splices up to the old end; only zeros are stored past the end afterwards if and only if the uncounted bytes are all zero. |
| Tmpfs.ShrinkIsPrefix | user/tmpfs/util.c:358-383 | A shrinking truncate is a prefix; zeros past the end survive if and only if the loop does not pass over the last page. |
| Tmpfs.PlainShrink | user/tmpfs/util.c:358-383 | On files without holes it is a prefix and the file stays without holes. |
| Tmpfs.GrowIsZeros | user/tmpfs/util.c:354-357 | A growing truncate of a file with only zeros past its end adds zeros, and keeps that. |
| Tmpfs.GrowExposes | user/tmpfs/util.c:354-357 | Otherwise some growing truncate shows a byte that is not zero. |
| TmpfsRanges.InsertContents | user/tmpfs/tmpfs.c:1240-1275 | On a file without pages past the end, inserting puts a gap of zeros at the offset and moves every later byte up by the length, and leaves no page past the end. |
| TmpfsRanges.InsertContentsIff | user/tmpfs/tmpfs.c:1240-1275 | On any file it puts a gap of zeros there exactly if the pages past the end that lie in the gap hold zeros. |
| TmpfsRanges.InsertStep | user/tmpfs/tmpfs.c:1259-1271 | A round of the loop runs into its BUG_ON exactly if the page it moves to lies past the end and was there from the start. |
| TmpfsRanges.CollapseThenInsert | user/tmpfs/tmpfs.c:1159-1275 | Collapsing enough of a file without holes and then inserting one page runs into that BUG_ON. |
| TmpfsRanges.InsertEndsIff | user/tmpfs/tmpfs.c:1257-1272 | The loop with its unsigned counter can end if and only if the offset is at least one page. |
| TmpfsRanges.CollapseContents | user/tmpfs/tmpfs.c:1159-1200 | Collapsing takes the bytes of the range out, on every file. |
| TmpfsRanges.CollapseLeaves | user/tmpfs/tmpfs.c:1175-1197 | It leaves no page past the end exactly if the pages of the range that nothing moves onto are missing. |
| TmpfsRanges.InsertThenCollapse | user/tmpfs/tmpfs.c:1159-1275 | Collapsing the inserted range restores the page map and the size. |
| TmpfsInode.Inode.Write | user/tmpfs/util.c:460-507 | What is stored afterwards, byte by byte, whatever the fresh pages held; a splice on files without holes; complete exactly if memory holds the missing pages, otherwise the short write of the specification. |
| TmpfsInode.Inode.WritePages | user/tmpfs/util.c:471-494 | The loop over the pages: it stops early exactly if the missing pages of the range are more than memory holds. |
| TmpfsInode.Inode.Read | user/tmpfs/util.c:509-544 | The slice of the file, for every file. |
| TmpfsInode.Inode.Truncate | user/tmpfs/util.c:342-386 | Prefix, zero extension or empty file, with the exact pages. |
| TmpfsInode.Inode.Shrink | user/tmpfs/util.c:358-383 | The pages and bytes of the shrinking specification. |
| TmpfsInode.Inode.InsertRange | user/tmpfs/tmpfs.c:1240-1280 | -EINVAL exactly for unaligned arguments or an offset past the end; its BUG_ON fires exactly if a page past the end stands where a page is moved to; otherwise the insertion. |
| TmpfsInode.Inode.CollapseRange | user/tmpfs/tmpfs.c:1159-1205 | -EINVAL exactly for unaligned arguments or a range up to the end; otherwise the collapse. |
| Heapsort.Sort | bootloader/aarch64/lib/sort.c:55-99 | An ascending permutation, in place, for any element size and any comparison that agrees with a ranking. |
| Heapsort.Heapify | bootloader/aarch64/lib/sort.c:73-84 | The first loop makes the whole array a heap, permuting it. |
| Heapsort.Sift | bootloader/aarch64/lib/sort.c:75-83 | The element sinks to its place: the heap is restored, the sorted part untouched, the elements permuted. |
| Heapsort.PickChild | bootloader/aarch64/lib/sort.c:76-79 | The child that ranks highest, in byte offsets. |
| Heapsort.TakeRoot | bootloader/aarch64/lib/sort.c:87-88 | Swapping the root to the end extends the sorted part by one. |
| EfiMap.CmpAgrees | bootloader/aarch64/lib/efi.c:79-84 | The comparison, which never says equal, agrees with the order of physical addresses. |
| EfiMap.NextAddress | bootloader/aarch64/lib/efi.c:145-172 | The address is congruent to the physical one modulo 64K; at the base for a continued run; otherwise in the first 64K page from the base on, or at the first section boundary for a fit region. |
| EfiMap.EfiGetVirtmap | bootloader/aarch64/lib/efi.c:122-177 | Runtime regions get disjoint ascending ranges congruent to physical modulo 64K, continued runs stay together, every other one begins a 64K page of its own, and the copies are the runtime regions. |
| EfiMap.RuntimeFacts | bootloader/aarch64/lib/efi.c:136-175 | The copies are exactly the runtime regions, each as often as it is in the map, and in the same order. |
| EfiMap.TypesApart | bootloader/aarch64/lib/efi.c:153-172 | Runtime regions of different memory type never share a 64K page of the virtual map. |
| EfiMap.NextInOrder | bootloader/aarch64/lib/efi.c:131-140 | In a sorted map without overlaps the region that starts where another ends comes right after it. |
| EfiMap.DistanceKept | bootloader/aarch64/lib/efi.c:131-172 | Any two runtime regions of the original map that touch and have the same memory type keep their physical distance. |
| Pbrr.StepInv | kernel/sched/policy_pbrr.c:34-229 | Every step, with one scan of one queue as a step and a finish_switch without a switch among them, keeps: TS_READY exactly when once in the queue of CPU and priority, a chosen thread is nobody else's, and the idle thread is queued at the lowest priority, chosen or running. |
| Pbrr.InitialInv | kernel/sched/policy_pbrr.c:231-272 | Initialisation establishes it. |
| Pbrr.Best | kernel/sched/policy_pbrr.c:129-153 | The first runnable thread of the highest priority that has one. |
| Pbrr.IdleFound | kernel/sched/policy_pbrr.c:136-155 | The scan of the lowest priority finds a thread. |
| Pbrr.NeverEmptyHanded | kernel/sched/policy_pbrr.c:129-156 | In every run, however the scans of the CPUs interleave, no CPU reaches the BUG_ON after the loop. |
| Pbrr.TakeExact | kernel/sched/policy_pbrr.c:136-152 | A thread that is taken has the highest priority of all runnable ones exactly if no queue already passed has a runnable thread. |
| Pbrr.CleanStep | kernel/sched/policy_pbrr.c:34-157 | The passed queues stay so exactly as long as no step queues a runnable thread in one of them or frees the stack of one. |
| Pbrr.LateStart | kernel/sched/policy_pbrr.c:123-157 | Three steps from the start a thread of the highest priority is queued behind the scan, and the CPU, scanning on, takes another one. |
| Pbrr.NotAgain | kernel/sched/policy_pbrr.c:197-229 | The best thread after a budget is used up is not the one that used it up, if another of at least its priority is queued on the CPU with a free stack. |
| PbrrFair.TakenWithin | kernel/sched/policy_pbrr.c:34-157 | In every run a thread at position p of its queue with a free stack is taken within p + 1 looks of its CPU into that queue, whatever is queued later; it and everyone behind it move up once for each look. |
| PbrrFair.NeverOvertaken | kernel/sched/policy_pbrr.c:34-157 | In every run no thread is taken before one that stood in front of it in its queue with a free stack. |
| PbrrFair.ExpiredWaits | kernel/sched/policy_pbrr.c:197-229 | In every run a thread whose budget is used up is not taken again before a thread that stood in its queue with a free stack. |
| PbrrFair.AffinityKept | kernel/sched/policy_pbrr.c:52-85 | In every run a started thread with an affinity has that CPU. |
| PbrrFair.PinnedThread | kernel/sched/policy_pbrr.c:52-85 | So it is queued, chosen and run on that CPU only. |
| PbrrFair.QueueAfter | kernel/sched/policy_pbrr.c:34-225 | What any step does to the queue of a CPU and a priority: a thread whose budget is used up, a woken or a new one goes to the end of the queue of its CPU and priority; a look takes the first that can run or goes on; nothing else changes a queue. |
| PbrrStacks.KeptIff | kernel/sched/sched.c:75-201 | A step of the priority scheduler keeps every kernel stack to one CPU if and only if it is no finish_switch without a switch, or no CPU is on the stack that it frees. |
| PbrrStacks.SwitchFinish | kernel/sched/sched.c:75-201 | A switch and the finish_switch after it free the stack of exactly the thread that was left and lock that of the new one; a CPU that goes on with its own thread frees none. |
| PbrrStacks.OneCpuPerStack | kernel/sched/sched.c:75-201 | Over every run of such steps at most one CPU is on a given kernel stack. |
| PbrrStacks.TwoOnStack | kernel/sched/sched.c:75-201 | From every state in which the thread that a CPU was switched from runs on another CPU, both with nothing of the highest priority queued, an interrupt that does not switch leads to two CPUs on its stack. |
| PbrrStacks.TwoOnStackReachable | kernel/arch/aarch64/irq/irq_entry.c:124-129 | From the start, with any two CPUs and any two plain threads of the highest priority, two CPUs get onto one stack. |
| Pbrr.TakesLower | kernel/sched/policy_pbrr.c:129-157 | From every state in which a passed queue has a runnable thread the CPU scans on and takes a thread that has not the highest priority. |
| Pbrr.ChoiceTheorem | kernel/sched/policy_pbrr.c:123-229 | In every run the thread taken has the highest priority of all runnable ones at that moment if and only if, since its queue was passed, no runnable thread entered a higher queue or became runnable in one. |
| Pbrr.PbrrCore.PbrrSchedEnqueue | kernel/sched/policy_pbrr.c:34-85 | -EINVAL exactly for a queued thread or a priority above the maximum; otherwise appended to the queue of its CPU and priority. |
| Pbrr.PbrrCore.FindNextRunnable | kernel/sched/sched.c:174-185 | The first runnable thread of a queue. |
| Pbrr.PbrrCore.ScanPriority | kernel/sched/policy_pbrr.c:130-152 | Takes exactly one scan step and keeps the invariant. |
| Pbrr.PbrrCore.PbrrSchedChooseThread | kernel/sched/policy_pbrr.c:123-157 | All scans in a row: the thread taken has the highest priority of the runnable ones, and the end of the loop is not reached. |
| Pbrr.PbrrCore.SwitchToThread | kernel/sched/sched.c:75-124 | Exactly the switch of the specification. |
| Pbrr.PbrrCore.PbrrSchedYield | kernel/sched/policy_pbrr.c:197-225 | Takes exactly the first step of pbrr_sched and keeps the invariant. |
| Pbrr.PbrrCore.PbrrSched | kernel/sched/policy_pbrr.c:197-229 | All steps in a row: the CPU ends up on a thread of the highest priority of the runnable ones, and not on the one whose budget is used up if another of at least its priority could run; nothing changes while the budget lasts. |

## Left out

- BuddyAllocator.Buddy.Merge: a buddy whose index is not below the number of pages counts as not mergeable, although the source reads the metadata there; BuddyTheory.BuddiesInRangeIff says when that read stays in bounds.
- Kmalloc.SizeToOrder: sizes of 2^31 and more are outside its contract, because the source keeps the value in a 32-bit int there.
- Kmalloc.SizeToPageOrder: page counts are not cut to the 32 bits of the shift in the source.
- Kmalloc.KernelHeap.AllocInSlab: the head of the chain is read under the lock, while the source reads it before (kernel/mm/slab.c:162); that two CPUs may then each put a slab in front, of which one falls off the chain, is not modelled.
- SlotTable.Table.AllocSlotId: the full-word test is the documented one, not the written one.
- CapabilityKernel.CapSystem.CapCopy: the failure test after the id is allocated is the documented one, not the written one.
- CapabilityKernel.CapSystem.GetOpaque: the range test of the id is the documented one, not the written one.
- Capability.RevokeFacts: capability operations are steps that do not interleave. The source adds a copy to the list without its lock (kernel/object/capability.c:240), so a copy made behind the cursor of a sweep in progress survives it; the revocation is complete if no copy of the object is made during the sweep.
- Capability.RunInv: an operation is one step, while cap_copy, cap_free and cap_revoke work in several critical sections in the source; of their interleavings only those of the two halves of a move are modelled.
- Capability.MoveFacts: nothing comes between the copy and the free; Capability.MoveBugIff is about what may.
- CapabilityKernel.CapSystem.CapMove: covers a move with nothing between its copy and its free.
- HandoffIpc.StepInv: is about careful steps, which the code does not ensure; HandoffIpc.KeptIff shows that this is the exact condition.
- HandoffIpc.RunInv: is about runs of such steps.
- HandoffIpc.OneCpuPerStack: is about runs of such steps; HandoffRaces.TwoOnStackReachable is a run that is not.
- PbrrStacks.OneCpuPerStack: is about such runs as well; PbrrStacks.TwoOnStackReachable is a run that is not.
- VmSpaceKernel.VmCore.UnmapRangeDelete: the source frees the region and then reads its object from it (kernel/mm/vmregion.c:327-338), and skips the clearing if that reads null; the model clears.
- TmpfsInode.Inode.Write: the source ignores a failure of the radix tree to take a new page (user/tmpfs/util.c:484) and so may report bytes it has lost; in the model memory runs out only for pages.
- TmpfsInode.Inode.WritePages: does not model that ignored failure either.
- Radix.RadixTree.Free: does not state that the source returns -EINVAL with the lock of the tree still taken (kernel/lib/radix.c:179-183).
- Heapsort.Sort: byte offsets do not wrap, while the source keeps them in a 32-bit int.
- EfiMap.EfiGetVirtmap: addresses do not wrap at 64 bits, and the walk counts descriptors instead of bytes.
- TmpfsInode.Inode.InsertRange: a failure of the radix tree in the middle of the loop is not modelled; page distances are not cut to 32 bits.
- TmpfsInode.Inode.CollapseRange: a failure of the radix tree in the middle of the loop is not modelled; page distances are not cut to 32 bits.
- VmSpaceKernel.VmCore.HandleTransFault: covers a fault that no other space interleaves with; the steps in VmSpace interleave freely.
- Radix.RadixTree.FreeNode: is stated for a tree with a deleter; without one nothing is called.
- HandoffKernel.KernelCore.RrSched: covers a call during which no other CPU takes a step; the steps in HandoffIpc interleave freely.
- Pbrr.PbrrCore.PbrrSchedChooseThread: covers a call during which no other CPU takes a step; the steps in Pbrr interleave freely.
- Pbrr.PbrrCore.PbrrSched: covers a call during which no other CPU takes a step; the steps in Pbrr interleave freely.
- HandoffKernel.KernelCore.SysIpcRegisterCbReturn: the handler takes part in nothing when it is registered, because the source replaces its configuration and lock; the registration thread is marked idle again on return.
- HandoffKernel.KernelCore.RrSchedEnqueue: threads have a valid priority and affinity; the -EINVAL for others is not modelled, since round robin does not use priorities.
- HandoffKernel.KernelCore.SysRegisterClient: begins once the registration lock is taken; argument checks and the shared memory of the connection are not modelled.
- NotificationInv.NotificationTheorem: is about runs in which a woken thread does not run before its waker is done with it, which the code does not enforce, and with the direct switch as one step; NotificationRaces.PromptExact and NotificationDirect.DirectExact show what the exact conditions are.
- NotificationInv.ReachableInv: is about the same runs.
- NotificationOrder.WaitersInOrder: is about the same runs.
- NotificationOrder.SignalEndsOldest: is about the same runs.
- NotificationOrder.SignalsConserved: is about the same runs.
- NotificationOrder.NeverEarly: is about the same runs.
- NotificationOrder.TimeoutIsSet: is about the same runs.
- NotificationInv.DirectInv: the direct switch is one step; NotificationDirect.DirectExact says exactly when it is not safe to take it as one.
- NotificationDirect.DirectSwitchRace: is one case, a waiter first on its sleep list; NotificationDirect.DirectExact covers all.
- NotificationDirect.DirectExact: one direct switch is split at a time; those of other CPUs meanwhile are one step each.
- NotificationKernel.NotificationCore.HandleTimerIrq: covers a call during which no other CPU takes a step; the steps in Notification interleave freely.
- NotificationRaces.PromptExact: is stated for states with another notification without pending signals and an idle CPU on which no sleeper has wake-up tick 0.
- The direct switch of signal_notific is not part of the kernel-stack property; waking a thread is allowed as soon as it is parked, which includes the time before its CPU has switched away.
- Deinitialisation functions of objects, groups that are destroyed, and the root group, whose first slot is not in its object's list.
- Recycling of processes (kernel/object/recycle.c, user/procmgr/recycle.c): full and empty look alike in its ring buffer.
- Hole punching and zeroing of file ranges (user/tmpfs/tmpfs.c:1130-1157, 1207-1238), and preallocation.
- Partial munmap and heap growth (kernel/mm/vmregion.c:138-188; kernel/object/memory.c:505-517), the data, device and file-backed memory objects, and freeing of frames.
- Path walking, symbolic links and rename of the file system.
- The capability transfer of an IPC message (kernel/ipc/connection.c:494-551), except for its error exit.
- FPU state, TLB flushing, budgets beyond expired or not, and timer programming.
- Page tables, locks and context switches in assembly; page tables are maps and locks are steps.
- Drivers, printing, image and device-tree decoding, other servers, applications and headers.
