/** Names for the things the kernel links together. */
module Names {

  /** kernel_pid_t; 0 is KERNEL_PID_UNDEF. */
  type Pid = nat

  const KERNEL_PID_UNDEF: Pid := 0
  const KERNEL_PID_FIRST: Pid := 1

  /** The lists a blocked thread can wait in: `msg_waiters` of a thread, the
      queue of a mutex, the two lists of a mailbox. */
  datatype ListId =
    | MsgWaiters(pid: Pid)
    | MutexQueue(mutex: nat)
    | Readers(mbox: nat)
    | Writers(mbox: nat)

  /** Addresses of `list_node_t`: list heads, the one `rq_entry` of each thread,
      nodes of other lists; and the two values that are no node at all. */
  datatype Ref =
    | Null
    | Locked
    | RqHead(prio: nat)
    | WaitHead(list: ListId)
    | Entry(thread: Pid)
    | Other(node: nat)

  datatype Option<+T> = None | Some(value: T)
}
