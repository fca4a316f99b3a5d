# The RIOT kernel core

A model of the RIOT kernel core and proofs about it: the preemptive fixed-priority scheduler, the blocking
primitives built on it (messages with request and reply, mutexes, recursive mutexes, thread flags, mailboxes), and
the intrusive lists and buffers they share.

## How it is built

The project has four layers.

- **Containers.** `Bits`, `CircularIndex`, `RingBuffers`, `Links` and `PriorityQueues` model bitarithm, cib,
  ringbuffer, clist, list and priority_queue. Lists are updated in place in one memory of `next` fields, and every
  dereference is proved not to touch NULL or the mutex sentinel.
- **Sections.** `KernelState` is the memory of the kernel. `Scheduler`, `Threads`, `Mutexes`, `ThreadFlags`,
  `Messages` and `Mailboxes` give every interrupts-disabled section of the C code as a function on that memory, which
  returns the new memory and how the section ends (a result, a yield, a switch).
- **The machine.** `Machine` is a step machine. A step is one section of the active thread, one program point between
  sections (before a yield, before the comparison in sched_switch, behind a resumption), or one call in an interrupt
  service routine. Interrupts may come between any two steps, also between a blocking section and its yield. Runs
  start at a booted kernel. Numbers of threads, priorities, mutexes, mailboxes and steps are unbounded. The machine
  also records what happened (messages accepted, entered and delivered, mutexes given, requests open), for use in
  statements only. `Separation`, `PlainSteps`, `Requests`, `Buffers`, `Conservation`, `Flags`, `Priority`,
  `Exclusion`, `WaitOrder`, `Boxes`, `Traces` and `TraceSteps` prove what every step keeps. `Theorems` extends that
  to runs. `Results`, `FlagLives`, `Lifecycles`, `SendOrder`, `RequestLives`, `RoundRobin`, `Overrun`, `LostReader`,
  `LateFlag` and `QueueRun` state what follows. `Answers`, `MutexAnswers`, `FlagAnswers`, `MessageAnswers` and
  `MailboxAnswers` state of every step of every run what the call answers, exactly when, and what it leaves: who is
  runnable and where in its level, who waits where, what the queues hold, who was told to have a mutex.
- **The code.** `KernelCode.Kernel` is the kernel with its thread control blocks, list heads, link fields and bit
  cache updated in place; each method is proved to do to the memory what its section says. `KernelRuns` closes the
  circle: the code can perform every step of every run, and ends in the memory the machine is in.

`RecursiveMutex` is a machine of its own, at the grain of the atomic accesses of core/rmutex.c.

## What is assumed

- Interrupt service routines do not nest, and only threads make calls that block.
- On leaving an interrupt, a port either runs the scheduler or goes through thread_yield, which also rotates the run
  queue (cpu/cortexm_common/include/cpu.h:118-123). Both are allowed in every run.
- The idle thread calls nothing (core/kernel_init.c:63-72). sched_task_exit and the sched_run behind it are one step.
- core_thread_flags is on. thread_create leaves the flags word as it was in memory, so it is a parameter.
- The callers keep to the interface: a thread exits only when nobody waits to send to it; msg_send_receive goes to
  another live thread; msg_reply goes to a live thread, and to an unanswered request only once the request was
  delivered; a message queue is given once, before anybody waits.
- The write counter of a message queue has not wrapped. Mailboxes have a power of two of slots, at least one.
- core/msg.c:116 reads the status of a requester again after irq_restore, and yields only if it is still blocked. The
  model yields in either case: if an interrupt has brought the reply in between, this is one more run of the
  scheduler, which takes the best runnable thread.
- Assertions are compiled out. Those of rmutex_unlock hold in the run that loses the mutex (core/rmutex.c:129-130).
- A message carries a number that the C struct lacks. It numbers the sending calls of a run and is never read by
  the code.

## Findings

Where a property fails of the code, the exact condition is proved beside it.

- **Mailbox overflow and lost reader.** A blocking _mbox_put does not look at the mailbox again after its wait
  (core/mbox.c:72-88). If the freed slot was taken meanwhile, an older message is overwritten
  (`Overrun.MailboxOverflows`). If a reader came to wait meanwhile, it sleeps beside the message
  (`LostReader.ReaderSleepsBesideMessage`, two threads of one priority and no interrupt). Mailboxes are bounded
  first-in first-out queues in a run if and only if every such late store finds a free slot and no reader
  (`Theorems.InOrderIff`).
- **cib_get at the wrap.** It compares the counters instead of their difference, and reports a full buffer as empty
  when only the write counter has wrapped (`CircularIndex.WrappedGetMissesMessage`, `GetAgreesIffNotWrapped`).
- **ringbuffer_remove.** Its comparison is strict, so the read position is left one past the end when start + n is
  the size; after one more add the next single read is outside the buffer (`RingBuffers.RemoveThenReadOutside`). The
  conditions are in the contracts of `Remove`, `GetHead` and `Get`.
- **msg_send_receive to a missing target.** It returns to a caller that is off the run queue, exactly then
  (`Messages.SendReceiveNeedsTarget`).
- **msg_reply before the receive.** It corrupts the receiver's list of waiting senders, exactly if the request is
  still in it (`Messages.ReplyIsGoodIff`).
- **The blind pop.** sched_set_status removes whoever is first. That is right exactly for the first of its level
  (`Scheduler.BlindPopIsRightIff`); in every run it is only used on such a thread
  (`Results.BlindPopTakesTheThread`).
- **A late flag.** An interrupt between the read and the clear of thread_flags_wait_one can set a lower flag of the
  mask; the call still returns the one it read (`LateFlag.LowerFlagComesTooLate`, a run). What it returns is the lowest
  flag at the clear if and only if no thread_flags_set in between has set a lower one
  (`FlagLives.WaitOneReturnsTheLowest`).
- **Recursive mutex count.** The 16-bit count wraps. After 2^16 + 1 locks one unlock releases the mutex, and two
  threads have it locked at once (`RecursiveMutex.WrappedCountReleases`, a run). In a run with any depths, every
  release is at depth zero if and only if no unlock leaves a positive multiple of 2^16 locks
  (`RecursiveMutex.ReleasesAtZeroIff`); as long as none does, everything else stated about it holds.
- **Exit with waiting senders.** They stay in the list of a thread that is gone; the lists stay right exactly if nobody
  waits to send to the thread that exits (`Threads.ExitKeepsLists`).

## Model

| member | source | states |
|---|---|---|
| `Bits.Lsb` | core/bitarithm.c:47-57 | the shift loop ends for every nonzero word, at the lowest set bit |
| `Bits.BitOfPow2` | core/sched.c:168 | the word shifted by a priority has that bit and no other |
| `Bits.BitOfOr` | core/sched.c:168-168 | the or on the bit cache sets the bits of both words |
| `Bits.BitOfAndNot` | core/sched.c:178 | the and-not on the bit cache clears just the bits of the second word |
| `CircularIndex.InitIsEmpty` | core/include/cib.h:53-60 | a new index buffer of any legal size is valid and empty |
| `CircularIndex.FullIffAvailIsSize` | core/include/cib.h:69-84 | cib_full, with its signed comparison, holds exactly if all slots are in use, size zero included, and then cib_put refuses |
| `CircularIndex.PutAppends` | core/include/cib.h:139-163 | a put takes the slot behind the live ones, also when the counter wraps, and appends to the contents |
| `CircularIndex.GetTakesHead` | core/include/cib.h:127-130 | a get takes the oldest element |
| `CircularIndex.GetAgreesIffNotWrapped` | core/include/cib.h:93-100 | cib_get finds the buffer empty exactly when it is, if and only if the write counter has not wrapped below the read counter |
| `CircularIndex.WrappedGetMissesMessage` | core/include/cib.h:93-96 | a full buffer that cib_get reports as empty |
| `CircularIndex.LiveSlotsDiffer` | core/include/cib.h:127-163 | no two live elements share a slot |
| `CircularIndex.GuardedCallsAreFifo` | core/include/cib.h:69-163 | for any counters and any sequence of guarded puts and gets, across any number of wraps, the slots come out in the order they went in |
| `Links.Memory.ListAdd` | core/include/list.h:53-57 | puts exactly the new node behind the given place of a linear list, and changes no other link |
| `Links.Memory.ListRemoveHead` | core/include/list.h:67-75 | takes the first node, or returns NULL and changes nothing |
| `Links.Memory.ListRemove` | core/include/list.h:86-96 | takes exactly the given node out, wherever it is, and ends on every list |
| `Links.Memory.RPush` | core/include/clist.h:108-118 | appends to the sequence that the circle holds |
| `Links.Memory.LPush` | core/include/clist.h:130-140 | prepends to it |
| `Links.Memory.LPop` | core/include/clist.h:150-165 | takes the first, also of one node and of none |
| `Links.Memory.LPopRPush` | core/include/clist.h:180-185 | moves the first to the end |
| `Links.Memory.LPeek` | core/include/clist.h:195-201 | returns the first or NULL |
| `Links.Memory.RPeek` | core/include/clist.h:211-214 | returns the last or NULL |
| `Links.Memory.RPop` | core/include/clist.h:224-236 | takes the last, by rotating once around |
| `Links.Memory.FindBefore` | core/include/clist.h:250-264 | the walk ends and returns a predecessor exactly if the node is in the circle |
| `Links.Memory.Find` | core/include/clist.h:278-287 | returns the node exactly if it is in the circle |
| `Links.Memory.Remove` | core/include/clist.h:301-320 | takes exactly the given node out, first, middle, last or only one |
| `PriorityQueues.PriorityQueueMemory.Add` | core/priority_queue.c:53-72 | inserts behind all nodes of the same or a better priority: sorted, stable, exactly one more |
| `PriorityQueues.PriorityQueueMemory.RemoveHead` | core/priority_queue.c:44-51 | takes the first, or returns NULL and changes nothing |
| `PriorityQueues.PriorityQueueMemory.Remove` | core/priority_queue.c:28-42 | takes exactly the given node out and keeps the order of the rest |
| `RingBuffers.BulkGetIsRepeatedGet` | core/ringbuffer.c:87-111 | n single reads of a FIFO return and leave its first and its last part, for every n |
| `RingBuffers.RingBuffer.AddTail` | core/ringbuffer.c:30-37 | appends one byte, wherever the read position stands |
| `RingBuffers.RingBuffer.GetHead` | core/ringbuffer.c:46-53 | reads inside the buffer if and only if the read position is inside, and then takes the oldest byte |
| `RingBuffers.RingBuffer.Add` | core/ringbuffer.c:55-65 | stores the longest prefix that fits |
| `RingBuffers.RingBuffer.AddOne` | core/ringbuffer.c:67-75 | appends, and when full drops and returns the oldest byte |
| `RingBuffers.RingBuffer.GetOne` | core/ringbuffer.c:77-85 | the oldest byte or -1, unless the read is outside, with the exact condition |
| `RingBuffers.RingBuffer.Get` | core/ringbuffer.c:87-111 | the two-part copy returns and leaves what n single reads do, and says exactly when the read position is inside afterwards |
| `RingBuffers.RingBuffer.Advance` | core/ringbuffer.c:93-108 | the new read position drops the first k bytes, and exactly when it is inside |
| `RingBuffers.RingBuffer.Remove` | core/ringbuffer.c:113-130 | leaves what n discarded reads leave; the read position is inside if and only if start + n is neither the size nor twice the size |
| `RingBuffers.RingBuffer.PeekOne` | core/ringbuffer.c:132-136 | returns what a read would and changes nothing |
| `RingBuffers.RingBuffer.Peek` | core/ringbuffer.c:138-142 | likewise for n bytes |
| `RingBuffers.RemoveThenReadOutside` | core/ringbuffer.c:124-126 | add two, remove two, add one: the next single read is outside the buffer |
| `KernelState.OfferAppends` | core/msg.c:42-52 | a message is appended to a queue, or refused exactly when the queue is full |
| `KernelState.TakeRemovesHead` | core/msg.c:299-313 | before the wrap, the oldest queued message is taken, or none exactly if there is none |
| `Scheduler.BlindPopIsRightIff` | core/sched.c:171-184 | taking a thread off by popping its level keeps all lists right if and only if it is the first of its level |
| `Scheduler.PushKeepsLists` | core/sched.c:163-170 | a thread in no list may be made runnable |
| `Scheduler.NextThreadIsBest` | core/sched.c:88-101 | the thread sched_run picks is runnable, first of its level, and no runnable thread is better |
| `Scheduler.RunKeepsLists` | core/sched.c:82-152 | sched_run keeps all lists, who is runnable, and starts the first of the best level |
| `Scheduler.AddKeepsLists` | core/thread.c:108-125 | insertion keeps every wait list sorted by priority and every thread in one list |
| `Threads.CreateKeepsLists` | core/thread.c:192-255 | a new thread gets a free pid, is in no list but its run queue, and disturbs nobody |
| `Threads.ExitKeepsLists` | core/sched.c:211-223 | an exiting thread hands over to the best of the others; the lists stay right exactly if nobody waits to send to it |
| `Mutexes.LockIsGood` | core/mutex.c:35-71 | locking blocks only its caller, in the mutex queue, and wakes nobody |
| `Mutexes.UnlockIsGood` | core/mutex.c:73-108 | unlocking wakes at most one waiter of the mutex and disturbs nobody else |
| `Mutexes.UnlockAndSleepIsGood` | core/mutex.c:110-136 | the same, with the caller asleep |
| `ThreadFlags.LowestFlagIsLowest` | core/thread_flags.c:80-82 | the bit trick yields exactly one bit, set, with none set below |
| `Messages.SendIsGood` | core/msg.c:60-183 | sending blocks at most its caller, in the receiver's list, and wakes at most the receiver |
| `Messages.SendReceiveNeedsTarget` | core/msg.c:220-233 | a request leaves the kernel in order if and only if its target exists |
| `Messages.ReplyIsGoodIff` | core/msg.c:235-260 | a reply keeps the lists right if and only if the request has left the list of waiting senders |
| `Messages.ReceiveIsGood` | core/msg.c:289-373 | receiving blocks at most its caller and takes at most the first waiting sender out |
| `Mailboxes.PutIsGood` | core/mbox.c:58-91 | a put wakes at most the first reader or blocks at most its caller |
| `Mailboxes.GetIsGood` | core/mbox.c:93-122 | a get wakes at most the first writer or blocks at most its caller |
| `Separation.CallKeepsCore` | core/thread.c:55-106 | every call keeps the list separation and the match of program counters and statuses, and wakes and blocks only as stated for it |
| `Separation.InnerKeepsCore` | core/sched.c:186-209 | so does every program point between sections, with interrupts in between |
| `Conservation.CallKeepsMessages` | core/msg.c:42-373 | every call keeps the account of each receiver: entered = delivered then queued; accepted = entered and held; senders wait only for a full queue; a waiting receiver has nothing |
| `Theorems.StepIsSafe` | core/sched.c:82-223 | every possible step of a safe kernel leads to a safe kernel |
| `Theorems.RunIsSafe` | core/kernel_init.c:80-95 | every state of every run is safe: lists, requests, buffers, accounts, numbers, flags, priorities, mutex words |
| `Results.BlindPopTakesTheThread` | core/sched.c:171-180 | in every run, whoever leaves the run queue is the active thread and the first of its level |
| `Results.EveryThreadIsInOneList` | core/thread.c:108-125 | in every run a thread is in at most one list, and its status says which: run queue of its priority iff runnable, one mutex queue iff mutex blocked, one list of senders if send blocked and at most one if reply blocked, a mailbox list iff mailbox blocked |
| `Results.NeverStuck` | core/sched.c:88-92 | in every run some thread is runnable, so sched_run finds a level, and the next program point can be executed |
| `Results.CallsArePossible` | core/include/thread.h:330-470 | in every state of every run a thread in user code, and an interrupt, can make each of its calls with any arguments in order |
| `Results.NoPriorityInversion` | core/sched.c:186-209 | in every run a thread in user code is as good as any runnable one, unless a switch is requested or a thread was just created without yield |
| `Answers.ScheduleAnswers` | core/sched.c:82-152 | in every run the first thread of the best level runs behind each yield, the statuses of both threads follow, and no switch is requested any more |
| `Answers.IsrExitAnswers` | cpu/cortexm_common/include/cpu.h:118-123 | leaving an interrupt runs the scheduler exactly if a switch is requested, and resets the request |
| `Answers.CompareAnswers` | core/sched.c:186-209 | sched_switch yields exactly if the active thread is not runnable or worse than the woken one |
| `Answers.WakeupAnswers` | core/thread.c:67-94 | thread_wakeup makes a thread runnable exactly if it sleeps, as the last of its level, with a switch asked for; else it returns STATUS_NOT_FOUND and changes nothing |
| `Answers.SleepAnswers` | core/thread.c:55-65 | thread_sleep takes its caller, and nobody else, off the run queue |
| `Answers.YieldAnswers` | core/thread.c:96-106 | thread_yield moves its caller behind its equals |
| `Answers.MoveToTailAnswers` | core/thread.c:98-103 | behind a wait it rotates the level exactly if the thread is runnable, whoever is first |
| `Answers.CreateAnswers` | core/thread.c:143-255 | thread_create returns -EINVAL exactly for a bad priority, -EOVERFLOW exactly if no pid is free, else makes a thread with the smallest free pid, asleep or the last of its level |
| `Answers.ExitAnswers` | core/sched.c:211-223 | an exiting thread is gone, gives up its mutex records, and the first of the best of the others runs |
| `Results.EveryMessageIsInOnePlace` | core/msg.c:82-172 | in every run the deliveries, queue places and waiting senders of a message add up to one if it was accepted and to none if not |
| `MessageAnswers.InitQueueAnswers` | core/msg.c:391-396 | in every run msg_init_queue gives its caller an empty queue of just these slots and changes nothing else |
| `MessageAnswers.SendAnswers` | core/msg.c:60-183 | a send returns -1 exactly for a missing thread, hands over exactly to a waiting receiver, else queues and returns 1 exactly if a slot is free; if not, msg_try_send and a send to itself return 0, and msg_send waits by priority; a queued or waiting message sets THREAD_FLAG_MSG_WAITING and wakes on it |
| `MessageAnswers.SendIntAnswers` | core/msg.c:185-218 | msg_send_int likewise, never waiting, with a switch requested for a receiver |
| `MessageAnswers.RequestAnswers` | core/msg.c:220-233 | msg_send_receive takes its caller off the run queue and hands over, queues or waits with the request |
| `MessageAnswers.ReplyAnswers` | core/msg.c:235-277 | msg_reply and msg_reply_int copy the reply and make a requester runnable, or return -1 and change nothing |
| `MessageAnswers.ReceiveAnswers` | core/msg.c:279-373 | a receive takes the first of the queued messages and of those of the waiting senders, the first of which enters; with nothing to take msg_try_receive returns -1 and msg_receive waits |
| `QueueRun.MessageIsQueued` | core/msg.c:42-58 | a run from any booted kernel in which a message enters a queue |
| `Results.ReceiversSeeFifo` | core/msg.c:309-355 | in every run what entered a queue is delivered in that order; a waiting receiver has an empty queue and no waiting senders; senders wait only if the queue is full or absent |
| `Results.BufferHoldsTheResult` | core/msg.c:162-168 | in every run a message copied to a blocked thread is in its buffer, unchanged, when the thread resumes |
| `Results.MutexWordsMatch` | core/mutex.c:41-60 | in every run a mutex word is not NULL exactly if the mutex was given to somebody, and nobody waits for a free one |
| `Results.MutualExclusion` | core/mutex.c:73-108 | in every run where only holders unlock, a mutex has one holder, also across the direct handover |
| `MutexAnswers.LockAnswers` | core/mutex.c:35-71 | in every run mutex_lock and mutex_trylock return 1 at once exactly if nobody has the mutex, which the caller is then given; mutex_trylock returns 0 exactly if somebody has it, and changes nothing; mutex_lock waits exactly then, by priority |
| `MutexAnswers.UnlockAnswers` | core/mutex.c:73-108 | mutex_unlock frees the mutex, or gives it to the first waiter, who becomes the last of its level with a switch to its priority asked for |
| `MutexAnswers.UnlockSleepAnswers` | core/mutex.c:110-136 | mutex_unlock_and_sleep does the same, and its caller sleeps |
| `MutexAnswers.OwnersAreTheTold` | core/mutex.c:35-108 | at every step, who is recorded to have a mutex is exactly who was returned 1 by a lock and has not unlocked it or exited since |
| `MutexAnswers.OnlyOneIsTold` | core/mutex.c:35-108 | in every run where only holders unlock: while a thread that was returned 1 has not unlocked, no other is returned 1 |
| `Results.FlagsLoseNoWakeup` | core/thread_flags.c:57-121 | in every run nobody waits for bits that are set, and who goes on after a wait finds the bits it waited for |
| `FlagAnswers.WaitsBlockIff` | core/thread_flags.c:57-96 | in every run wait_any and wait_one block exactly if no bit of the mask is set, wait_all exactly if one is not |
| `FlagAnswers.SetAnswers` | core/thread_flags.c:101-135 | thread_flags_set sets exactly the bits of its mask, and wakes the thread exactly if they now meet its condition |
| `FlagAnswers.ClearAnswers` | core/thread_flags.c:29-55 | thread_flags_clear clears the bits of its mask and returns those that were set |
| `FlagAnswers.RestAnswers` | core/thread_flags.c:69-99 | behind the wait the mask, or the lowest bit read, is cleared |
| `FlagAnswers.ReturnAnswers` | core/mutex.c:61-65 | behind any other wait the call returns; a lock is then told to have the mutex |
| `Results.MailboxIsBoundedFifo` | core/mbox.c:58-122 | in every run in which a woken writer stores before the mailbox is used again, occupancy is within capacity, messages leave in put order once, and no reader waits beside a message |
| `MailboxAnswers.PutAnswers` | core/mbox.c:58-91 | in every run a put reports success at once exactly if a reader waits or a slot is free, and exactly then its message counts as put; mbox_try_put returns 0 exactly if neither holds, and changes nothing; mbox_put waits then |
| `MailboxAnswers.GetAnswers` | core/mbox.c:93-122 | a get reports success at once exactly if the mailbox is not empty, and exactly then the oldest message counts as got; mbox_try_get returns 0 exactly for an empty one, and changes nothing; mbox_get waits then |
| `MailboxAnswers.StoreAnswers` | core/mbox.c:85-88 | a writer that has waited adds its message whatever the mailbox holds |
| `Theorems.InOrderIff` | core/mbox.c:72-88 | in every run whatsoever, mailboxes are such queues if and only if every store behind a wait finds a free slot and no reader |
| `Boxes.StoreFitsIff` | core/mbox.c:85-87 | one store keeps one mailbox in order if and only if there is a free slot and no reader waits |
| `Overrun.MailboxOverflows` | core/mbox.c:72-87 | nine steps after which a mailbox of one slot holds two messages |
| `Overrun.BootIsPossible` | core/kernel_init.c:80-95 | there is a booted kernel with such a mailbox |
| `LostReader.ReaderSleepsBesideMessage` | core/mbox.c:72-88 | eleven steps of two threads, without interrupt, after which a reader sleeps beside a message |
| `TraceSteps.StepTraced` | core/msg.c:107-169 | every step keeps the record of requests right: parked, queued or delivered exactly as the memory says |
| `RequestLives.RequestIsWhereItSays` | core/msg.c:111-145 | in every run an unanswered request is parked iff its sender stands in the receiver's list with the message, queued iff it is in the receiver's queue, and seen iff it was delivered to the receiver |
| `RequestLives.SeenIffDelivered` | core/msg.c:353-363 | the last part, by induction over the run |
| `RequestLives.RequestersWaitForTheirReply` | core/msg.c:220-260 | in every run a requester becomes runnable only by a reply, after its request was delivered to the thread it was sent to, and with the reply in its buffer |
| `RequestLives.ReplyAllowedIffDelivered` | core/msg.c:239-247 | the interface rule on replies allows exactly the replies to delivered requests |
| `RequestLives.RequestsEndOnce` | core/msg.c:242-254 | no request is answered twice |
| `FlagLives.FlagsStayUntilReturned` | core/thread_flags.c:29-36 | in every run a flag stays set until a clear of its thread returns it, and gets set only by thread_flags_set or by a message that is queued or waits; the new flags are given exactly |
| `FlagLives.WaitsReturnWhatTheyWaitedFor` | core/thread_flags.c:69-99 | wait_any returns a non-empty part of its mask, wait_all its mask, wait_one the lowest flag of its mask that it read |
| `FlagLives.WaitOneReturnsTheLowest` | core/thread_flags.c:76-84 | in every run what wait_one returns is one bit of its mask, the lowest that was set at an earlier step of the same call; it is the lowest when it is cleared if and only if no step in between has set a lower one |
| `LateFlag.LowerFlagComesTooLate` | core/thread_flags.c:80-83 | a run from any booted kernel in which wait_one returns a flag that is not the lowest of its mask |
| `Lifecycles.FailedSendLeavesNoTrace` | core/msg.c:94-127 | in every run a send that returns 0 or -1 leaves the whole kernel as it was, and any other has its message accepted, once |
| `Lifecycles.FailedSendIntLeavesNoTrace` | core/msg.c:185-218 | likewise from an interrupt |
| `Lifecycles.TryReceiveNeverBlocks` | core/msg.c:279-307 | msg_try_receive never blocks, fails exactly with an empty queue and no waiting sender, and then changes nothing |
| `Lifecycles.RefillNeverFails` | core/msg.c:346-355 | in every run the slot just freed takes the waiting sender's message |
| `Lifecycles.NoOvertaking` | core/thread.c:115-121 | in every run a waiting thread is overtaken in its list only by threads of strictly better priority |
| `SendOrder.SendersAreServedInOrder` | core/msg.c:318-373 | in every run, of two threads waiting to send to the same receiver, the message of the second is not delivered unless that of the first was delivered before |
| `SendOrder.LaterSendersComeLater` | core/msg.c:145 | so a sender that comes while another of the same or a better priority waits is served after it |
| `ReadyQueue.FlatIsTheRunnable` | core/sched.c:161-184 | the run queues, best level first, are a sequence of exactly the runnable threads, each once, sorted by priority |
| `ReadyQueue.PushInserts` | core/sched.c:163-170 | becoming runnable is a stable insertion into it |
| `ReadyQueue.PopRemoves` | core/sched.c:171-180 | leaving the run queue removes exactly that thread from it |
| `ReadyQueue.RunPicksTheFirst` | core/sched.c:88-101 | sched_run picks its first element |
| `RoundRobin.YieldsTakeTurns` | core/thread.c:96-106 | in every run segment of nothing but yields, with k threads on the best level, the thread in user code after y yields is thread y mod k |
| `RecursiveMutex.RunKeepsInv` | core/rmutex.c:35-150 | the invariant under every interleaving of the atomic steps, for any depths, up to the first unlock that leaves a positive multiple of 2^16 locks |
| `RecursiveMutex.OwnerTellsTheHolder` | core/rmutex.c:41-86 | after a failed trylock a thread reads its own pid exactly if it has the mutex |
| `RecursiveMutex.CountIsTheDepth` | core/rmutex.c:111-112 | the count is the holder's nesting depth modulo 2^16, and nobody else has any |
| `RecursiveMutex.HeldExactlyWhileLocked` | core/rmutex.c:127-150 | between calls a thread has the mutex exactly if it has locked more often than unlocked |
| `RecursiveMutex.ReleasedAtDepthZero` | core/rmutex.c:137-149 | the mutex leaves its holder only at depth zero, to a waiter if there is one |
| `RecursiveMutex.LockEnds` | core/rmutex.c:35-115 | a lock returns with the mutex, locked once more; only rmutex_trylock returns without it, and only if another thread had it when it tried |
| `RecursiveMutex.TryLockNeverWaits` | core/rmutex.c:88-97 | rmutex_trylock never waits for the mutex |
| `RecursiveMutex.ReleaseIffMultiple` | core/rmutex.c:134-138 | up to and including the first early release, an unlock releases exactly if the locks left are a multiple of 2^16 |
| `RecursiveMutex.ReleasesAtZeroIff` | core/rmutex.c:134-149 | in a run with any depths, every release is at depth zero if and only if no unlock leaves a positive multiple of 2^16 locks |
| `RecursiveMutex.WrappedCountReleases` | core/rmutex.c:134-149 | a run of 2^16 + 1 locks and one unlock, after which two threads have it locked |
| `KernelCode.Kernel.constructor` | core/kernel_init.c:80-95 | links, heads and bit cache of a booted kernel |
| `KernelCode.Kernel.SetStatus` | core/sched.c:161-184 | status, run queue links and bit cache together do what the section says; a bit is set iff its queue is not empty |
| `KernelCode.Kernel.PickNext` | core/sched.c:91-92 | the lowest bit, then two links, lead to the first thread of the best level |
| `KernelCode.Kernel.SchedRun` | core/sched.c:82-152 | the section of sched_run |
| `KernelCode.Kernel.SchedSwitch` | core/sched.c:186-209 | in an interrupt, requests a switch exactly if the woken thread is better or the active one is off the run queue |
| `KernelCode.Kernel.RotateActive` | core/thread.c:98-103 | the section of thread_yield, on the links |
| `KernelCode.Kernel.FindPlace` | core/thread.c:115-121 | the walk ends behind all threads of the same or a better priority |
| `KernelCode.Kernel.AddToList` | core/thread.c:108-125 | inserts the thread by priority into the linked wait list and changes no other list |
| `KernelCode.Kernel.RemoveHead` | core/include/list.h:67-75 | takes the first waiter out of a linked wait list |
| `KernelCode.Kernel.MutexLock` | core/mutex.c:35-71 | all three encodings of the mutex word; the sentinel is never followed |
| `KernelCode.Kernel.MutexUnlock` | core/mutex.c:73-108 | hands over to the first waiter and restores the sentinel behind the last one |
| `KernelCode.Kernel.MutexUnlockAndSleep` | core/mutex.c:110-136 | the same, then puts the caller to sleep |
| `KernelCode.Kernel.ThreadSleep` | core/thread.c:55-65 | the caller leaves the run queue |
| `KernelCode.Kernel.ThreadWakeup` | core/thread.c:67-94 | wakes exactly a sleeping thread, or returns STATUS_NOT_FOUND |
| `KernelCode.Kernel.ThreadYield` | core/thread.c:96-106 | rotates the caller's level if it is runnable |
| `KernelCode.Kernel.FlagsWake` | core/thread_flags.c:101-121 | wakes exactly if the wait condition is met, and requests a switch |
| `KernelCode.Kernel.ThreadFlagsSet` | core/thread_flags.c:123-135 | sets the flags and wakes the thread if they meet its condition |
| `KernelCode.Kernel.FlagsClear` | core/thread_flags.c:29-36 | clears and returns the part of the mask that is set |
| `KernelCode.Kernel.FlagsWaitAny` | core/thread_flags.c:57-67 | goes on if any flag of the mask is set, else blocks |
| `KernelCode.Kernel.FlagsWaitAll` | core/thread_flags.c:86-96 | goes on if all flags of the mask are set, else blocks |
| `KernelCode.Kernel.QueueMsg` | core/msg.c:42-58 | queues the message and sets the flag, or changes nothing |
| `KernelCode.Kernel.SendSection` | core/msg.c:82-172 | every branch of _msg_send, for plain senders and requesters |
| `KernelCode.Kernel.MsgSend` | core/msg.c:60-80 | to itself or to another thread, blocking or not |
| `KernelCode.Kernel.MsgSendInt` | core/msg.c:185-218 | direct copy, queue or refusal, with a switch request |
| `KernelCode.Kernel.MsgSendReceive` | core/msg.c:220-233 | the caller waits for the reply with the request in its reply buffer |
| `KernelCode.Kernel.MsgReply` | core/msg.c:235-260 | copies the reply to the requester and wakes it, or returns -1 |
| `KernelCode.Kernel.MsgReplyInt` | core/msg.c:262-277 | the same from an interrupt |
| `KernelCode.Kernel.MsgReceive` | core/msg.c:289-373 | queue, refill from the first waiting sender, direct receive, block or fail |
| `KernelCode.Kernel.MsgInitQueue` | core/msg.c:391-396 | gives the caller an empty queue |
| `KernelCode.Kernel.MboxPut` | core/mbox.c:58-91 | hands over, waits, refuses or stores |
| `KernelCode.Kernel.MboxStore` | core/mbox.c:85-87 | the unguarded store behind the wait |
| `KernelCode.Kernel.MboxGet` | core/mbox.c:93-122 | takes and wakes a writer, waits or fails |
| `KernelCode.Kernel.FindFreePid` | core/thread.c:194-200 | the scan returns the smallest free pid or none |
| `KernelCode.Kernel.ThreadCreate` | core/thread.c:143-255 | invalid priority, no pid left, sleeping, lazy and plain creation |
| `KernelCode.Kernel.TaskExit` | core/sched.c:211-223 | the thread is forgotten and the best of the others runs |
| `KernelRuns.Perform` | core/sched.c:82-223 | any possible step of a safe machine can be performed by the code and leaves the machine's memory |
| `KernelRuns.Replay` | core/kernel_init.c:80-95 | so can every run from its booted memory |

## Left out

- Register setup, vector tables, assembly context switching and the native port: `thread_yield_higher` is a step that runs the scheduler.
- Stack layout, stack painting, the stack guard and scheduler statistics in thread_create and sched_run: no part of the scheduling state.
- core/atomic_c11.c, core/atomic_sync.c, core/lifo.c, byte order helpers, bitarithm_msb, bitarithm_bits_set, cib_peek, clist_foreach: would only add easy members.
- core/panic.c, core/assert.c, logging, msg_queue_print, priority_queue_print: output.
- msg_avail, thread_getstatus, ringbuffer_get_free: plain reads.
- Stale pids, a repeated msg_init_queue, thread_wakeup on pids out of range: left to the caller, as the interface does.
- Liveness: no fairness is assumed, so a request is proved to be answered at most once, not at least once.
- Message buffers are one per thread: two calls that pass the same buffer address are not modelled.
- cib counters inside queues and mailboxes are values, not an object of their own: the two counters are only reached through their owner.
- RecursiveMutex: the inner mutex is given to any one of its waiters; that it goes to the first one is proved for mutexes themselves.
- KernelCode.Kernel.SendSection: decides inside the section whether a requester yields, where core/msg.c:116 reads the status again behind it.
- KernelCode.Kernel.SetStatus: requires a thread outside the wait lists that is the first of its level if it leaves the run queue; `Scheduler.BlindPopIsRightIff` is the exact condition, and `Results.BlindPopTakesTheThread` proves it of every run.
- KernelCode.Kernel.TaskExit: requires that nobody waits to send to the exiting thread; `Threads.ExitKeepsLists` shows that the lists are wrong otherwise.
- KernelCode.Kernel.MsgReplyInt: requires a requester outside all lists, as MsgReply does; `Messages.ReplyIsGoodIff` shows that the list is corrupted otherwise.
- KernelCode.Kernel.MsgReply: requires a requester outside all lists, which `Requests.ReplyIsSafe` proves of every reply the interface allows.
