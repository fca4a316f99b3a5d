/** What the calls of messages answer and do in every run. */
module MessageAnswers {
  import opened Names
  import opened Sequences
  import opened CircularIndex
  import opened KernelState
  import opened Scheduler
  import opened Threads
  import opened Mutexes
  import F = ThreadFlags
  import opened Messages
  import opened Effects
  import opened Machine
  import opened Separation
  import opened Requests
  import opened Buffers
  import opened Conservation
  import opened Flags
  import opened Priority
  import opened Exclusion
  import opened Theorems
  import opened Answers
  import opened FlagAnswers

  // Giving a queue

  /** msg_init_queue gives the caller a queue of just these slots, empty, and
      changes nothing else. */
  lemma InitQueueAnswers(tr: seq<K>, steps: seq<Step>, i: nat)
    requires Run(tr, steps) && i < |steps| && steps[i].DoInitQueue?
    ensures var s, a, r := tr[i], tr[i].m.active, tr[i + 1].m;
            && a in r.queue && r.queue[a].slots == steps[i].slots && Items(r.queue[a]) == []
            && tr[i + 1] == s.(m := s.m.(queue := s.m.queue[a := r.queue[a]]))
  {
    hide Run, Safe, ListsInv, Shape, Items, NewQueue, IsSize;
    RunLengths(tr, steps);
    StepOfRun(tr, steps, i);
    NewIsEmpty(steps[i].slots);
  }

  lemma NewIsEmpty(slots: seq<Msg>)
    requires IsSize(|slots|) && |slots| < U32
    ensures NewQueue(slots).slots == slots && Items(NewQueue(slots)) == []
  {
    InitIsEmpty(|slots|);
  }

  // What becomes of a message

  /** A slot of the queue is free. */
  ghost predicate Room(q: MsgQueue) {
    |Items(q)| < |q.slots|
  }

  lemma RoomIs(q: MsgQueue, msg: Msg)
    ensures Put(q.cib).1 >= 0 <==> Room(q)
    ensures Offer(q, msg).1 <==> Room(q)
  {
    OfferSucceedsIff(q, msg);
    OfferAppends(q, msg);
  }

  /** The message was copied to `t`, who waited for it and is runnable now. */
  ghost predicate HandedTo(m: Mem, r: Mem, t: Pid, msg: Msg)
    requires Shape(m) && t in m.prio
  {
    r == Readied(m.(buf := m.buf[t := msg]), t, Pending)
  }

  /** The message is the last in the queue of `t`, whose THREAD_FLAG_MSG_WAITING is set. */
  ghost predicate EnteredAt(m: Mem, r: Mem, t: Pid, msg: Msg)
    requires Shape(m) && t in m.prio
  {
    && t in r.queue && Items(r.queue[t]) == Items(m.queue[t]) + [msg] && |r.queue[t].slots| == |m.queue[t].slots|
    && r == Signalled(m.(queue := m.queue[t := r.queue[t]]), t, 0x8000)
  }

  /** The active thread, off the run queue, waits with the message to send it to `t`. */
  ghost predicate ParkedAt(m: Mem, r: Mem, t: Pid, msg: Msg)
    requires Shape(m) && t in m.prio
  {
    var a := m.active;
    && Keyed(Lst(m.lists, MsgWaiters(t)), m.prio)
    && r == Signalled(Enlisted(m.(wait := m.wait[a := Buffer], buf := m.buf[a := msg]), a, MsgWaiters(t)), t, 0x8000)
  }

  lemma HandIs(m: Mem, t: Pid, msg: Msg)
    requires Shape(m) && t in m.prio && !On(m.status, t)
    ensures HandedTo(m, HandOver(m, t, msg), t, msg)
  {
    hide ListsKeyed, RunQueuesKeyed, SetStatus;
    ReadyIs(m.(buf := m.buf[t := msg]), t, Pending);
  }

  lemma EnterIs(m: Mem, t: Pid, msg: Msg)
    requires Shape(m) && t in m.prio && Masked(m, t)
    ensures var (r, ok) := QueueMsg(m, t, msg);
            (ok <==> Room(m.queue[t])) && (if ok then EnteredAt(m, r, t, msg) else r == m)
  {
    hide ListsKeyed, RunQueuesKeyed, F.SetAndWake, Offer, Items, Put, Signalled, Masked;
    RoomIs(m.queue[t], msg);
    OfferAppends(m.queue[t], msg);
    var q := m.(queue := m.queue[t := Offer(m.queue[t], msg).0]);
    MaskedSame(m, q, t);
    SetAndWakeIs(q, t, F.MSG_WAITING);
    SignalledQueues(q, t, 0x8000);
    assert m.queue[t := q.queue[t]] == q.queue;
  }

  lemma MaskedSame(m: Mem, q: Mem, t: Pid)
    requires Shape(m) && Shape(q) && t in m.prio && t in q.prio && Masked(m, t)
    requires q.status[t] == m.status[t] && q.wait[t] == m.wait[t]
    ensures Masked(q, t)
  {
    hide Shape;
  }

  lemma SignalledQueues(m: Mem, t: Pid, mask: bv16)
    requires Shape(m) && t in m.prio
    ensures Signalled(m, t, mask).queue == m.queue
  {
    hide ListsKeyed, RunQueuesKeyed, Meets, Plus;
  }

  lemma ParkIs(m: Mem, t: Pid, msg: Msg)
    requires ActiveRuns(m) && t in m.prio && t != m.active && Masked(m, t)
    ensures var n := Dequeued(m, m.active, SendBlocked);
            Shape(n) && ParkedAt(n, Park(m, t, msg), t, msg)
  {
    hide RunQueuesOk, WaitListsOk, PlacesOk, ListsKeyed, RunQueuesKeyed, F.SetAndWake, SetStatus, AddToList, Signalled,
      Masked, Insert;
    var a, n := m.active, m.(wait := m.wait[m.active := Buffer], buf := m.buf[m.active := msg]);
    DequeueIs(m, SendBlocked);
    DequeueIs(n, SendBlocked);
    var d := SetStatus(n, a, SendBlocked);
    EnlistIs(d, MsgWaiters(t));
    MaskedSame(m, Listed(m, t, msg), t);
    SetAndWakeIs(Listed(m, t, msg), t, F.MSG_WAITING);
  }

  lemma ParkAgainIs(m: Mem, t: Pid, msg: Msg)
    requires Shape(m) && Requesting(m) && t in m.prio && t != m.active && Masked(m, t)
    ensures ParkedAt(m, Park(m, t, msg), t, msg)
  {
    hide ListsKeyed, RunQueuesKeyed, F.SetAndWake, SetStatus, AddToList, Signalled, Masked, Insert;
    var a, n := m.active, m.(wait := m.wait[m.active := Buffer], buf := m.buf[m.active := msg]);
    RelabelIs(n, a, ReplyBlocked);
    assert n.status[a := ReplyBlocked] == n.status;
    EnlistIs(n, MsgWaiters(t));
    MaskedSame(m, Listed(m, t, msg), t);
    SetAndWakeIs(Listed(m, t, msg), t, F.MSG_WAITING);
  }

  // msg_send and msg_try_send

  /** msg_send and msg_try_send */
  ghost predicate SendDid(s: K, out: Out, s': K, to: Pid, msg: Msg, blocking: bool)
    requires Defined(s.m, s.c)
  {
    var m, a, r := s.m, s.m.active, s'.m;
    if to !in m.prio then out == Done(-1) && s' == s.(nextId := s.nextId + 1)
    else if to != a && m.status[to] == ReceiveBlocked then
      out == YieldHigher(Return) && HandedTo(m, r, to, msg) && Yields(s, s', Return)
    else if Room(m.queue[to]) then out == Done(1) && EnteredAt(m, r, to, msg) && s'.c == s.c
    else if to == a || !blocking then out == Done(0) && s' == s.(nextId := s.nextId + 1)
    else
      && out == YieldHigher(SendDone) && Yields(s, s', SendDone) && ActiveFirst(m)
      && var n := Dequeued(m, a, SendBlocked); Shape(n) && ParkedAt(n, r, to, msg)
  }

  ghost predicate SectionDid(m: Mem, r: Mem, out: Out, to: Pid, msg: Msg, blocking: bool)
    requires Shape(m)
  {
    if to !in m.prio then out == Done(-1) && r == m
    else if to != m.active && m.status[to] == ReceiveBlocked then
      out == YieldHigher(Return) && HandedTo(m, r, to, msg)
    else if Room(m.queue[to]) then out == Done(1) && EnteredAt(m, r, to, msg)
    else if to == m.active || !blocking then out == Done(0) && r == m
    else
      && out == YieldHigher(SendDone) && ActiveFirst(m)
      && var n := Dequeued(m, m.active, SendBlocked); Shape(n) && ParkedAt(n, r, to, msg)
  }

  lemma SendIs(m: Mem, to: Pid, msg: Msg, blocking: bool)
    requires ActiveRuns(m) && msg.sender == m.active && (to in m.prio ==> Masked(m, to))
    ensures var (r, out) := Send(m, to, msg, blocking); SectionDid(m, r, out, to, msg, blocking)
  {
    hide RunQueuesOk, WaitListsOk, PlacesOk, ListsKeyed, RunQueuesKeyed, QueueMsg, HandOver, Park, Room, EnteredAt,
      HandedTo, ParkedAt, Masked, Dequeued;
    assert msg.(sender := m.active) == msg;
    if to in m.prio {
      EnterIs(m, to, msg);
      if to != m.active {
        if m.status[to] == ReceiveBlocked { HandIs(m, to, msg); }
        ParkIs(m, to, msg);
      }
    }
  }

  lemma SendSettles(s: K, to: Pid, typ: nat, content: nat, blocking: bool)
    requires Defined(s.m, s.c) && ActiveRuns(s.m) && !s.c.isr
    requires var msg := Msg(s.m.active, typ, content, s.nextId);
             var (r, out) := Send(s.m, to, msg, blocking);
             SectionDid(s.m, r, out, to, msg, blocking)
    ensures var msg := Msg(s.m.active, typ, content, s.nextId);
            SendDid(s, Send(s.m, to, msg, blocking).1, StepSend(s, to, typ, content, blocking), to, msg, blocking)
  {
    hide ListsInv, Send, Room, EnteredAt, HandedTo, ParkedAt, Dequeued, LevelsOk, ListsKeyed, RunQueuesKeyed, FateOf,
      AtHead;
    var msg := Msg(s.m.active, typ, content, s.nextId);
    var (r, out) := Send(s.m, to, msg, blocking);
    FateIsRaw(s.m, to, to == s.m.active, blocking);
  }

  /** The fate of a message, by what its receiver is doing. */
  lemma FateIsRaw(m: Mem, to: Pid, toSelf: bool, blocking: bool)
    requires Shape(m)
    ensures FateOf(m, to, toSelf, blocking)
            == (if to !in m.prio then Refused
                else if !toSelf && m.status[to] == ReceiveBlocked then Handed
                else if Room(m.queue[to]) then Enqueued
                else if toSelf || !blocking then Refused
                else Waits)
  {
    hide LevelsOk, ListsKeyed, RunQueuesKeyed, Room, Put;
    if to in m.prio { RoomIs(m.queue[to], BLANK); }
  }

  /** A message to a missing thread is refused with -1. A waiting receiver gets
      it at once. Else it is queued, and 1 returned, exactly if a slot is free;
      if not, msg_try_send and a thread that sends to itself get 0, and msg_send
      waits. */
  lemma SendAnswers(tr: seq<K>, steps: seq<Step>, i: nat)
    requires Run(tr, steps) && i < |steps| && steps[i].DoSend?
    ensures var s, step := tr[i], steps[i];
            var msg := Msg(s.m.active, step.typ, step.content, s.nextId);
            && Defined(s.m, s.c)
            && SendDid(s, Send(s.m, step.to, msg, step.blocking).1, tr[i + 1], step.to, msg, step.blocking)
  {
    hide Run, Core, RequestsOk, BuffersOk, MessagesOk, NumbersOk, FlagStateOk, PriorityOk, EncodingOk, ListsInv, Shape,
      Send, StepSend, SendDid, SectionDid, CountersFresh, Masked;
    RunLengths(tr, steps);
    StepOfRun(tr, steps, i);
    var s, step := tr[i], steps[i];
    ReadyIsUser(s);
    if step.to in s.m.prio { MaskedOf(s, step.to); }
    SendIs(s.m, step.to, Msg(s.m.active, step.typ, step.content, s.nextId), step.blocking);
    SendSettles(s, step.to, step.typ, step.content, step.blocking);
  }

  // msg_send_int

  ghost predicate SendIntDid(s: K, out: Out, s': K, to: Pid, msg: Msg)
    requires Defined(s.m, s.c)
  {
    && s'.c == s.c
    && if to !in s.m.prio then out == Done(-1) && s' == s.(nextId := s.nextId + 1)
       else if s.m.status[to] == ReceiveBlocked then
         out == Done(1) && s'.m.csr && HandedTo(s.m, s'.m.(csr := s.m.csr), to, msg)
       else if Room(s.m.queue[to]) then out == Done(1) && EnteredAt(s.m, s'.m, to, msg)
       else out == Done(0) && s' == s.(nextId := s.nextId + 1)
  }

  lemma SendIntIs(m: Mem, to: Pid, msg: Msg)
    requires Shape(m) && msg.sender == m.maxPid + 1 && (to in m.prio ==> Masked(m, to))
    ensures var (r, out) := SendInt(m, to, msg);
            if to !in m.prio then out == Done(-1) && r == m
            else if m.status[to] == ReceiveBlocked then
              out == Done(1) && r.csr && HandedTo(m, r.(csr := m.csr), to, msg)
            else if Room(m.queue[to]) then out == Done(1) && EnteredAt(m, r, to, msg)
            else out == Done(0) && r == m
  {
    hide ListsKeyed, RunQueuesKeyed, QueueMsg, Room, EnteredAt, Masked, SetStatus;
    assert msg.(sender := m.maxPid + 1) == msg;
    if to in m.prio {
      EnterIs(m, to, msg);
      if m.status[to] == ReceiveBlocked { ReadyIs(m.(buf := m.buf[to := msg]), to, Pending); }
    }
  }

  lemma SendIntStep(s: K, to: Pid, typ: nat, content: nat)
    requires Defined(s.m, s.c) && (to in s.m.prio ==> Masked(s.m, to))
    ensures var msg := Msg(s.m.maxPid + 1, typ, content, s.nextId);
            SendIntDid(s, SendInt(s.m, to, msg).1, StepSendInt(s, to, typ, content), to, msg)
  {
    hide SendInt, Room, EnteredAt, HandedTo, LevelsOk, ListsKeyed, RunQueuesKeyed, FateOf, Masked;
    SendIntIs(s.m, to, Msg(s.m.maxPid + 1, typ, content, s.nextId));
    FateIsRaw(s.m, to, false, false);
  }

  /** msg_send_int never waits: it hands the message over, queues it or returns 0,
      or -1 for a missing thread. */
  lemma SendIntAnswers(tr: seq<K>, steps: seq<Step>, i: nat)
    requires Run(tr, steps) && i < |steps| && steps[i].DoSendInt?
    ensures var s, step := tr[i], steps[i];
            var msg := Msg(s.m.maxPid + 1, step.typ, step.content, s.nextId);
            Defined(s.m, s.c) && SendIntDid(s, SendInt(s.m, step.to, msg).1, tr[i + 1], step.to, msg)
  {
    hide Run, Core, RequestsOk, BuffersOk, MessagesOk, NumbersOk, FlagStateOk, PriorityOk, EncodingOk, ListsInv, Shape,
      SendInt, StepSendInt, SendIntDid, CountersFresh, Masked;
    RunLengths(tr, steps);
    StepOfRun(tr, steps, i);
    if steps[i].to in tr[i].m.prio { MaskedOf(tr[i], steps[i].to); }
    SendIntStep(tr[i], steps[i].to, steps[i].typ, steps[i].content);
  }

  // msg_send_receive

  /** The caller waits for its reply, with the request in its buffer. */
  function AwaitingReply(m: Mem, msg: Msg): Mem
    requires m.active in m.prio && m.prio[m.active] < |m.rq| && m.rq[m.prio[m.active]] != []
  {
    Dequeued(m, m.active, ReplyBlocked).(wait := m.wait[m.active := Buffer], buf := m.buf[m.active := msg])
  }

  /** msg_send_receive */
  ghost predicate RequestDid(s: K, out: Out, s': K, to: Pid, msg: Msg) {
    && out == YieldHigher(ReplyDone) && Yields(s, s', ReplyDone) && ActiveFirst(s.m)
    && var n := AwaitingReply(s.m, msg);
       && Shape(n) && to in n.prio
       && if s.m.status[to] == ReceiveBlocked then HandedTo(n, s'.m, to, msg)
          else if Room(s.m.queue[to]) then EnteredAt(n, s'.m, to, msg)
          else ParkedAt(n, s'.m, to, msg)
  }

  lemma RequestIs(m: Mem, to: Pid, msg: Msg)
    requires ActiveRuns(m) && msg.sender == m.active && to in m.prio && to != m.active && Masked(m, to)
    ensures var (r, out), n := SendReceive(m, to, msg), AwaitingReply(m, msg);
            && out == YieldHigher(ReplyDone) && Shape(n) && to in n.prio
            && if m.status[to] == ReceiveBlocked then HandedTo(n, r, to, msg)
               else if Room(m.queue[to]) then EnteredAt(n, r, to, msg)
               else ParkedAt(n, r, to, msg)
  {
    hide RunQueuesOk, WaitListsOk, PlacesOk, ListsKeyed, RunQueuesKeyed, QueueMsg, HandOver, Park, Room, EnteredAt,
      HandedTo, ParkedAt, Masked, SetStatus;
    assert msg.(sender := m.active) == msg;
    DequeueIs(m, ReplyBlocked);
    var n := Requested(m, msg);
    assert n == AwaitingReply(m, msg);
    MaskedSame(m, n, to);
    EnterIs(n, to, msg);
    if m.status[to] == ReceiveBlocked { HandIs(n, to, msg); }
    ParkAgainIs(n, to, msg);
  }

  lemma RequestStep(s: K, to: Pid, typ: nat, content: nat)
    requires Defined(s.m, s.c) && ActiveRuns(s.m) && !s.c.isr && to in s.m.prio && to != s.m.active && Masked(s.m, to)
    ensures var msg := Msg(s.m.active, typ, content, s.nextId);
            RequestDid(s, SendReceive(s.m, to, msg).1, StepRequest(s, to, typ, content), to, msg)
  {
    hide RunQueuesOk, WaitListsOk, PlacesOk, ListsKeyed, RunQueuesKeyed, SendReceive, Room, EnteredAt, HandedTo,
      ParkedAt, Masked, FateOf, SendLog, GivenLog, PhaseOf;
    RequestIs(s.m, to, Msg(s.m.active, typ, content, s.nextId));
  }

  /** msg_send_receive hands its request over, queues it or waits with it, like
      msg_send, and its caller is off the run queue until it is answered. */
  lemma RequestAnswers(tr: seq<K>, steps: seq<Step>, i: nat)
    requires Run(tr, steps) && i < |steps| && steps[i].DoRequest?
    ensures var s, step := tr[i], steps[i];
            var msg := Msg(s.m.active, step.typ, step.content, s.nextId);
            Shape(s.m) && RequestDid(s, SendReceive(s.m, step.to, msg).1, tr[i + 1], step.to, msg)
  {
    hide Run, Core, RequestsOk, BuffersOk, MessagesOk, NumbersOk, FlagStateOk, PriorityOk, EncodingOk, ListsInv, Shape,
      SendReceive, StepRequest, RequestDid, CountersFresh, Masked;
    RunLengths(tr, steps);
    StepOfRun(tr, steps, i);
    ReadyIsUser(tr[i]);
    MaskedOf(tr[i], steps[i].to);
    RequestStep(tr[i], steps[i].to, steps[i].typ, steps[i].content);
  }

  // msg_reply and msg_reply_int

  ghost predicate ReplyDid(s: K, out: Out, s': K, t: Pid, reply: Msg)
    requires Defined(s.m, s.c) && t in s.m.prio
  {
    if s.m.status[t] != ReplyBlocked then out == Done(-1) && s' == s
    else
      && HandedTo(s.m, s'.m.(csr := s.m.csr), t, reply)
      && (if s.c.isr then out == Done(1) && s'.m.csr && s'.c == s.c
          else out == SwitchTo(s.m.prio[t]) && Asks(s, s', s.m.prio[t]))
  }

  lemma HandBackIs(m: Mem, t: Pid, reply: Msg)
    requires Shape(m) && t in m.prio && m.status[t] == ReplyBlocked
    ensures HandedTo(m, HandOver(m, t, reply), t, reply)
    ensures var r := HandOver(m, t, reply); r.active == m.active && r.prio == m.prio && r.csr == m.csr
  {
    hide ListsKeyed, RunQueuesKeyed, SetStatus;
    ReadyIs(m.(buf := m.buf[t := reply]), t, Pending);
  }

  lemma ReplyStep(s: K, t: Pid, reply: Msg)
    requires Defined(s.m, s.c) && t in s.m.prio
    ensures var out := if s.c.isr then ReplyInt(s.m, t, reply).1 else Reply(s.m, t, reply).1;
            ReplyDid(s, out, StepReply(s, t, reply), t, reply)
  {
    hide LevelsOk, ListsKeyed, RunQueuesKeyed, HandOver, HandedTo, Ended, Asks;
    var r := HandOver(s.m, t, reply);
    if s.m.status[t] != ReplyBlocked {
      EndedDone(s, s.m, -1);
    } else {
      HandBackIs(s.m, t, reply);
      if s.c.isr {
        EndedDone(s, r.(csr := true), 1);
      } else {
        EndedAsks(s, r, s.m.prio[t]);
        AsksElsewhere(s, Ended(s, r, SwitchTo(s.m.prio[t])), StepReply(s, t, reply), s.m.prio[t]);
      }
    }
  }

  /** Asking for a switch does not depend on the records. */
  lemma AsksElsewhere(s: K, s1: K, s2: K, p: nat)
    requires s.m.active in s.m.prio && Asks(s, s1, p) && s2.m == s1.m && s2.c == s1.c
    ensures Asks(s, s2, p)
  {
  }

  /** msg_reply copies the reply to a thread that waits for one and makes it
      runnable; for any other it returns -1 and changes nothing. */
  lemma ReplyAnswers(tr: seq<K>, steps: seq<Step>, i: nat)
    requires Run(tr, steps) && i < |steps| && steps[i].DoReply?
    ensures var s, t, reply := tr[i], steps[i].t, steps[i].reply;
            && Defined(s.m, s.c) && t in s.m.prio
            && ReplyDid(s, if s.c.isr then ReplyInt(s.m, t, reply).1 else Reply(s.m, t, reply).1, tr[i + 1], t, reply)
  {
    hide Run, Safe, ListsInv, Shape, Reply, ReplyInt, StepReply, ReplyDid, Ready;
    RunLengths(tr, steps);
    StepOfRun(tr, steps, i);
    ReplyStep(tr[i], steps[i].t, steps[i].reply);
  }

  // msg_receive and msg_try_receive

  /** The first waiting sender is let go; one that waits for a reply stays blocked. */
  ghost function LetGo(m: Mem, l: ListId): Mem
    requires ListsInv(m) && Lst(m.lists, l) != []
  {
    var h := Lst(m.lists, l)[0];
    assert Keyed(Lst(m.lists, l), m.prio);
    if m.status[h] == ReplyBlocked then Released(m, l)
    else Readied(Released(m, l), h, Pending).(wait := m.wait[h := NoData])
  }

  /** The queue of the caller changed, and whether it waits for a copy. */
  function Requeued(m: Mem, q: MsgQueue, waits: bool): Mem {
    m.(queue := m.queue[m.active := q], wait := if waits then m.wait[m.active := Buffer] else m.wait)
  }

  /** msg_receive and msg_try_receive, on the memory */
  ghost predicate ReceiveMemDid(m: Mem, r: Mem, out: Out, got: Option<Msg>, blocking: bool)
    requires ListsInv(m)
  {
    var a, items, w := m.active, Items(m.queue[m.active]), Lst(m.lists, MsgWaiters(m.active));
    && a in r.queue && |r.queue[a].slots| == |m.queue[a].slots|
    && if w == [] then
         if items != [] then
           && got == Some(items[0]) && out == Done(1)
           && Items(r.queue[a]) == items[1..] && r == Requeued(m, r.queue[a], false)
         else if blocking then
           && got == None && out == YieldHigher(RecvDone) && ActiveFirst(m)
           && r == Dequeued(m, a, ReceiveBlocked).(wait := m.wait[a := Buffer])
         else got == None && out == Done(-1) && r == m
       else
         var h := w[0];
         && h in m.buf && h in m.prio && h in m.status
         && got == Some((items + [m.buf[h]])[0]) && Items(r.queue[a]) == (items + [m.buf[h]])[1..]
         && ListsInv(Requeued(m, r.queue[a], items == []))
         && r == LetGo(Requeued(m, r.queue[a], items == []), MsgWaiters(a))
         && out == (if m.status[h] != ReplyBlocked && m.prio[h] + 1 < |m.rq| then SwitchTo(m.prio[h]) else Done(1))
  }

  lemma LetGoIs(m: Mem, l: ListId)
    requires ListsInv(m) && Lst(m.lists, l) != []
    ensures ReleaseSender(m, l) == LetGo(m, l)
  {
    hide RunQueuesOk, WaitListsOk, PlacesOk, LevelsOk, RunQueuesKeyed, WakeFirst, Readied;
    WakeFirstIs(m, l);
  }

  lemma ReceiveAloneIs(m: Mem, blocking: bool)
    requires ActiveRuns(m) && m.queue[m.active].cib.read <= m.queue[m.active].cib.write
    requires Lst(m.lists, MsgWaiters(m.active)) == []
    ensures var (r, out, got) := Receive(m, blocking); ReceiveMemDid(m, r, out, got, blocking)
  {
    hide RunQueuesOk, WaitListsOk, PlacesOk, LevelsOk, ListsKeyed, RunQueuesKeyed, Items, Take, SetStatus, LetGo;
    var a, q := m.active, m.queue[m.active];
    TakeRemovesHead(q);
    var n := m.(wait := m.wait[a := Buffer]);
    DequeueIs(n, ReceiveBlocked);
    assert m.queue[a := q] == m.queue;
  }

  lemma RefilledItems(q: MsgQueue, msg: Msg)
    requires q.cib.read <= q.cib.write && |Items(q)| == |q.slots|
    ensures Items(Refilled(q, msg)) == (Items(q) + [msg])[1..] && |Refilled(q, msg).slots| == |q.slots|
    ensures (Take(q).1.Some? <==> Items(q) != []) && (Items(q) != [] ==> Take(q).1.value == Items(q)[0])
  {
    TakeRemovesHead(q);
    OfferAppends(Take(q).0, msg);
    hide Take, Offer, Items;
    if Take(q).1.Some? {
      var got, rest := Take(q).1.value, Items(Take(q).0);
      assert ([got] + rest + [msg])[1..] == rest + [msg];
    }
  }

  lemma RequeuedKeepsLists(m: Mem, q: MsgQueue, waits: bool)
    requires ListsInv(m)
    ensures ListsInv(Requeued(m, q, waits))
  {
  }

  lemma ReceivePulls(m: Mem, blocking: bool)
    requires ListsInv(m) && m.queue[m.active].cib.read <= m.queue[m.active].cib.write
    requires Lst(m.lists, MsgWaiters(m.active)) != [] && |Items(m.queue[m.active])| == |m.queue[m.active].slots|
    ensures var (r, out, got) := Receive(m, blocking); ReceiveMemDid(m, r, out, got, blocking)
  {
    hide RunQueuesOk, WaitListsOk, PlacesOk, LevelsOk, RunQueuesKeyed, Items, Take, Refilled, ReleaseSender, LetGo;
    var a, q, l := m.active, m.queue[m.active], MsgWaiters(m.active);
    var h := Lst(m.lists, l)[0];
    assert Keyed(Lst(m.lists, l), m.prio);
    RefilledItems(q, m.buf[h]);
    var n := Requeued(m, Refilled(q, m.buf[h]), Items(q) == []);
    assert m.wait[a := m.wait[a]] == m.wait;
    RequeuedKeepsLists(m, Refilled(q, m.buf[h]), Items(q) == []);
    LetGoIs(n, l);
    LetGoQueues(n, l);
  }

  lemma LetGoQueues(m: Mem, l: ListId)
    requires ListsInv(m) && Lst(m.lists, l) != []
    ensures LetGo(m, l).queue == m.queue && LetGo(m, l).active == m.active && LetGo(m, l).prio == m.prio
    ensures LetGo(m, l).csr == m.csr
  {
    hide RunQueuesOk, WaitListsOk, PlacesOk, RunQueuesKeyed;
  }

  /** msg_receive and msg_try_receive */
  ghost predicate ReceiveDid(s: K, out: Out, got: Option<Msg>, s': K, blocking: bool)
    requires ListsInv(s.m)
  {
    && ReceiveMemDid(s.m, s'.m, out, got, blocking)
    && match out
       case Done(_) => s'.c == s.c
       case SwitchTo(p) => Asks(s, s', p)
       case YieldHigher(k) => Yields(s, s', k)
       case _ => false
  }

  lemma ReceiveOut(m: Mem, r: Mem, out: Out, got: Option<Msg>, blocking: bool)
    requires ListsInv(m) && ReceiveMemDid(m, r, out, got, blocking)
    ensures !out.Yield? && (out.SwitchTo? ==> r.active == m.active && r.prio == m.prio && r.csr == m.csr)
  {
    hide RunQueuesOk, WaitListsOk, PlacesOk, ListsKeyed, RunQueuesKeyed, Items, LetGo, Dequeued;
    var w := Lst(m.lists, MsgWaiters(m.active));
    if w != [] { LetGoQueues(Requeued(m, r.queue[m.active], Items(m.queue[m.active]) == []), MsgWaiters(m.active)); }
  }

  lemma ReceiveStep(s: K, blocking: bool)
    requires Defined(s.m, s.c) && ListsInv(s.m) && !s.c.isr
    requires var (r, out, got) := Receive(s.m, blocking); ReceiveMemDid(s.m, r, out, got, blocking)
    ensures var (_, out, got) := Receive(s.m, blocking); ReceiveDid(s, out, got, StepReceive(s, blocking), blocking)
  {
    hide ListsInv, Shape, Receive, ReceiveMemDid, ReceiveLog, ReceiveOpen;
    var (r, out, got) := Receive(s.m, blocking);
    ReceiveOut(s.m, r, out, got, blocking);
    ActiveLives(s);
  }

  /** The queue of the caller before a receive. */
  lemma QueueBefore(s: K)
    requires MessagesOk(s) && Shape(s.m)
    ensures var q := s.m.queue[s.m.active];
            && q.cib.read <= q.cib.write
            && (Lst(s.m.lists, MsgWaiters(s.m.active)) != [] ==> |Items(q)| == |q.slots|)
  {
    hide Items, LevelsOk, ListsKeyed, RunQueuesKeyed;
    var w := Lst(s.m.lists, MsgWaiters(s.m.active));
    assert |Held(w, s.m.buf)| == |w|;
  }

  /** A receive takes the first of the queued messages and of those of the waiting
      senders; the first of these enters the queue, and its sender goes on unless
      it waits for a reply. With nothing to take msg_receive waits and
      msg_try_receive returns -1. */
  lemma ReceiveAnswers(tr: seq<K>, steps: seq<Step>, i: nat)
    requires Run(tr, steps) && i < |steps| && steps[i].DoReceive?
    ensures ListsInv(tr[i].m)
    ensures var (_, out, got) := Receive(tr[i].m, steps[i].blocking);
            ReceiveDid(tr[i], out, got, tr[i + 1], steps[i].blocking)
  {
    hide Run, Core, RequestsOk, BuffersOk, MessagesOk, NumbersOk, FlagStateOk, PriorityOk, EncodingOk, RunQueuesOk,
      WaitListsOk, PlacesOk, LevelsOk, ListsKeyed, RunQueuesKeyed, Items, Receive, StepReceive, ReceiveDid,
      ReceiveMemDid, CountersFresh;
    RunLengths(tr, steps);
    StepOfRun(tr, steps, i);
    var s := tr[i];
    ReadyIsUser(s);
    QueueBefore(s);
    if Lst(s.m.lists, MsgWaiters(s.m.active)) == [] { ReceiveAloneIs(s.m, steps[i].blocking); }
    else { ReceivePulls(s.m, steps[i].blocking); }
    ReceiveStep(s, steps[i].blocking);
  }
}
