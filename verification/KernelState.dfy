/** The memory of the kernel core: what the C globals, the thread control
    blocks, the mutexes and the mailboxes hold. Every interrupts-disabled
    section of the kernel is a function on this memory. */
module KernelState {
  import opened Names
  import opened Bits
  import opened Sequences
  import opened CircularIndex

  /** core/include/thread.h:149-167 */
  datatype Status =
    | Stopped
    | Sleeping
    | MutexBlocked
    | ReceiveBlocked
    | SendBlocked
    | ReplyBlocked
    | FlagBlockedAny
    | FlagBlockedAll
    | MboxBlocked
    | Running
    | Pending

  predicate OnRunqueue(s: Status) {
    s.Running? || s.Pending?
  }

  /** msg_t. The kernel never reads `typ` and `content`. `id` numbers the send
      calls of a run, so that two messages are equal only if they are one. */
  datatype Msg = Msg(sender: Pid, typ: nat, content: nat, id: nat)

  /** What the one `wait_data` pointer of a thread stands for. */
  datatype WaitData = NoData | Buffer | Mask(mask: bv16)

  /** A circular index buffer with its array: a message queue or a mailbox. */
  datatype Fifo = Fifo(cib: Cib, slots: seq<Msg>)

  ghost predicate FifoOk(f: Fifo) {
    Valid(f.cib, |f.slots|)
  }

  /** A mailbox has at least one slot. Its occupancy is not bounded here: that
      it stays within the slots is a theorem about well-behaved runs. */
  ghost predicate BoxOk(f: Fifo) {
    f.slots != [] && IsSize(|f.slots|) && |f.slots| < U32 && f.cib.mask == MaskOf(|f.slots|)
  }

  /** The queue of a thread that has none: size zero, always full. */
  const NO_QUEUE: Fifo := Fifo(Cib(0, 0, U32 - 1), [])

  type MsgQueue = f: Fifo | FifoOk(f) ghost witness NO_QUEUE

  type Mailbox = f: Fifo | BoxOk(f) ghost witness (assert 1 == Pow2(0); Fifo(Cib(0, 0, 0), [Msg(0, 0, 0, 0)]))

  /** prio, status, at, flags, wait, buf, queue: one field of the thread control
      blocks each; a thread exists if it has a priority. `at` tells which wait
      list a thread is in, which the C code does not store. `buf` is the message
      a thread in a messaging call has handed to the kernel by address. `lists`
      holds the wait lists front to back, `rq` the run queues likewise, `locked`
      the mutexes whose word is not NULL. */
  datatype Mem = Mem(
    prio: map<Pid, nat>,
    status: map<Pid, Status>,
    at: map<Pid, Option<ListId>>,
    flags: map<Pid, bv16>,
    wait: map<Pid, WaitData>,
    buf: map<Pid, Msg>,
    queue: map<Pid, MsgQueue>,
    rq: seq<seq<Pid>>,
    lists: map<ListId, seq<Pid>>,
    locked: set<nat>,
    mbox: map<nat, Mailbox>,
    active: Pid,
    csr: bool,
    maxPid: nat)

  /** What a thread still has to do when it resumes after a yield. */
  datatype Cont =
    | Return
    | LockDone(mutex: nat)
    | SendDone
    | RecvDone
    | ReplyDone
    | ClearAny(mask: bv16)
    | ClearAll(mask: bv16)
    | ReadOne(mask: bv16)
    | ClearOne(mask: bv16, read: bv16)
    | PutDone(mbox: nat, msg: Msg)
    | GetDone(mbox: nat)

  /** How a section ends: a return value, a thread_yield_higher, a thread_yield,
      or a sched_switch to a woken thread's priority, all with interrupts
      enabled again. */
  datatype Out =
    | Done(result: int)
    | YieldHigher(k: Cont)
    | Yield(k: Cont)
    | SwitchTo(prio: nat)

  function Lst(lists: map<ListId, seq<Pid>>, l: ListId): seq<Pid> {
    if l in lists then lists[l] else []
  }

  /** Every thread has this field. */
  ghost predicate Covers<V>(prio: map<Pid, nat>, f: map<Pid, V>) {
    forall t :: t in prio ==> t in f
  }

  ghost predicate LevelsOk(prio: map<Pid, nat>, levels: nat) {
    forall t {:trigger prio[t]} :: t in prio ==> prio[t] < levels
  }

  ghost predicate ListsKeyed(lists: map<ListId, seq<Pid>>, prio: map<Pid, nat>) {
    forall l :: Keyed(Lst(lists, l), prio)
  }

  ghost predicate RunQueuesKeyed(rq: seq<seq<Pid>>, prio: map<Pid, nat>) {
    forall p, t {:trigger t in rq[p]} :: 0 <= p < |rq| && t in rq[p] ==> t in prio
  }

  /** Enough for every section to be defined. */
  ghost predicate Shape(m: Mem) {
    && m.active in m.prio
    && LevelsOk(m.prio, |m.rq|)
    && Covers(m.prio, m.status) && Covers(m.prio, m.at) && Covers(m.prio, m.flags)
    && Covers(m.prio, m.wait) && Covers(m.prio, m.buf) && Covers(m.prio, m.queue)
    && ListsKeyed(m.lists, m.prio) && RunQueuesKeyed(m.rq, m.prio)
  }

  // Message queues

  function Items(f: MsgQueue): seq<Msg> {
    Contents(f.cib, f.slots)
  }

  /** cib_put, then the copy into the slot. */
  function Offer(f: MsgQueue, msg: Msg): (MsgQueue, bool) {
    if Put(f.cib).1 < 0 then (f, false)
    else
      FullIffAvailIsSize(f.cib, |f.slots|);
      PutKeepsValid(f.cib, |f.slots|);
      (Fifo(Put(f.cib).0, f.slots[Put(f.cib).1 := msg]), true)
  }

  /** cib_get, then the copy out of the slot. */
  function Take(f: MsgQueue): (MsgQueue, Option<Msg>) {
    if Get(f.cib).1 < 0 then (f, None)
    else
      GetKeepsValid(f.cib, |f.slots|);
      (Fifo(Get(f.cib).0, f.slots), Some(f.slots[Get(f.cib).1]))
  }

  function NewQueue(slots: seq<Msg>): MsgQueue
    requires IsSize(|slots|) && |slots| < U32
  {
    InitIsEmpty(|slots|);
    Fifo(Init(|slots|), slots)
  }

  /** An offer appends, or is refused exactly when the queue is full. */
  lemma OfferAppends(f: MsgQueue, msg: Msg)
    ensures Offer(f, msg).1 <==> |Items(f)| < |f.slots|
    ensures |Items(f)| <= |f.slots| == |Offer(f, msg).0.slots|
    ensures Offer(f, msg).1 ==> Items(Offer(f, msg).0) == Items(f) + [msg]
    ensures !Offer(f, msg).1 ==> Offer(f, msg).0 == f
    ensures f.cib.read <= f.cib.write && f.cib.write + 1 < U32 ==>
              Offer(f, msg).0.cib.read <= Offer(f, msg).0.cib.write
  {
    FullIffAvailIsSize(f.cib, |f.slots|);
    if Offer(f, msg).1 {
      PutAppends(f.cib, f.slots, msg);
      PutKeepsValid(f.cib, |f.slots|);
    }
  }

  /** Before the write counter wraps, a take removes the oldest item, or fails
      exactly when there is none. */
  lemma TakeRemovesHead(f: MsgQueue)
    requires f.cib.read <= f.cib.write
    ensures Take(f).1.Some? <==> Items(f) != []
    ensures Take(f).1.Some? ==> Items(f) == [Take(f).1.value] + Items(Take(f).0)
    ensures Take(f).1.None? ==> Take(f).0 == f
    ensures Take(f).0.cib.read <= Take(f).0.cib.write == f.cib.write
    ensures |Take(f).0.slots| == |f.slots|
  {
    if Take(f).1.Some? {
      GetTakesHead(f.cib, f.slots);
    }
  }

  // Mailbox rings, with the unguarded put and get

  function PutSlot(f: Mailbox, msg: Msg): Mailbox {
    MaskedIndex(f.cib.write, |f.slots|);
    Fifo(AdvanceWrite(f.cib), f.slots[WriteIndex(f.cib) := msg])
  }

  function GetSlot(f: Mailbox): (Mailbox, Msg) {
    MaskedIndex(f.cib.read, |f.slots|);
    (Fifo(AdvanceRead(f.cib), f.slots), f.slots[ReadIndex(f.cib)])
  }
}
