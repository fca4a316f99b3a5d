/** core/msg.c: the sections of sending, receiving, requesting and replying,
    with the thread flags of core_thread_flags. */
module Messages {
  import opened Names
  import opened Sequences
  import opened CircularIndex
  import opened KernelState
  import opened Scheduler
  import opened Threads
  import opened Mutexes
  import F = ThreadFlags

  /** queue_msg */
  ghost function QueueMsg(m: Mem, t: Pid, msg: Msg): (r: (Mem, bool))
    requires Shape(m) && t in m.prio
    ensures Shape(r.0)
  {
    var (f, ok) := Offer(m.queue[t], msg);
    if ok then (F.SetAndWake(m.(queue := m.queue[t := f]), t, F.MSG_WAITING), true) else (m, false)
  }

  ghost predicate Requesting(m: Mem)
    requires Shape(m)
  {
    m.status[m.active] == ReplyBlocked
  }

  /** The receiver is not waiting and has no room: the sender waits in its list. */
  ghost function Park(m: Mem, t: Pid, msg: Msg): (r: Mem)
    requires Shape(m) && t in m.prio
    ensures Shape(r) && r.active == m.active
  {
    F.SetAndWake(Listed(m, t, msg), t, F.MSG_WAITING)
  }

  /** The receiver waits: the message is copied to its buffer. */
  ghost function HandOver(m: Mem, t: Pid, msg: Msg): (r: Mem)
    requires Shape(m) && t in m.prio
    ensures Shape(r) && r.active == m.active
  {
    SetStatus(m.(buf := m.buf[t := msg]), t, Pending)
  }

  /** _msg_send */
  ghost function SendSection(m: Mem, t: Pid, msg: Msg, block: bool): (r: (Mem, Out))
    requires Shape(m)
    ensures Shape(r.0) && r.0.active == m.active
  {
    if t !in m.prio then (m, Done(-1))
    else if m.status[t] != ReceiveBlocked then
      var (q, queued) := QueueMsg(m, t, msg);
      if queued then (q, if Requesting(m) then YieldHigher(ReplyDone) else Done(1))
      else if !block then (m, Done(0))
      else (Park(m, t, msg), YieldHigher(if Requesting(m) then ReplyDone else SendDone))
    else (HandOver(m, t, msg), YieldHigher(if Requesting(m) then ReplyDone else Return))
  }

  /** msg_send and msg_try_send from a thread. */
  ghost function Send(m: Mem, t: Pid, msg: Msg, block: bool): (r: (Mem, Out))
    requires Shape(m)
    ensures Shape(r.0) && r.0.active == m.active
  {
    var stamped := msg.(sender := m.active);
    if t == m.active then
      var (q, queued) := QueueMsg(m, t, stamped);
      (q, Done(if queued then 1 else 0))
    else SendSection(m, t, stamped, block)
  }

  /** msg_send_int; KERNEL_PID_ISR is one more than the last pid. */
  ghost function SendInt(m: Mem, t: Pid, msg: Msg): (r: (Mem, Out))
    requires Shape(m)
    ensures Shape(r.0) && r.0.active == m.active
  {
    var stamped := msg.(sender := m.maxPid + 1);
    if t !in m.prio then (m, Done(-1))
    else if m.status[t] == ReceiveBlocked then (HandOver(m, t, stamped).(csr := true), Done(1))
    else
      var (q, queued) := QueueMsg(m, t, stamped);
      (q, Done(if queued then 1 else 0))
  }

  /** The caller is blocked and its buffer holds the request. */
  ghost function Requested(m: Mem, msg: Msg): (r: Mem)
    requires Shape(m)
    ensures Shape(r) && r.active == m.active
  {
    var a := m.active;
    SetStatus(m, a, ReplyBlocked).(wait := m.wait[a := Buffer], buf := m.buf[a := msg.(sender := a)])
  }

  /** msg_send_receive */
  ghost function SendReceive(m: Mem, t: Pid, msg: Msg): (r: (Mem, Out))
    requires Shape(m)
    ensures Shape(r.0) && r.0.active == m.active
  {
    SendSection(Requested(m, msg), t, msg.(sender := m.active), true)
  }

  /** msg_reply */
  ghost function Reply(m: Mem, t: Pid, reply: Msg): (r: (Mem, Out))
    requires Shape(m) && t in m.prio
    ensures Shape(r.0) && r.0.active == m.active
  {
    if m.status[t] != ReplyBlocked then (m, Done(-1))
    else (HandOver(m, t, reply), SwitchTo(m.prio[t]))
  }

  /** msg_reply_int */
  ghost function ReplyInt(m: Mem, t: Pid, reply: Msg): (r: (Mem, Out))
    requires Shape(m) && t in m.prio
    ensures Shape(r.0) && r.0.active == m.active
  {
    if m.status[t] != ReplyBlocked then (m, Done(-1))
    else (HandOver(m, t, reply).(csr := true), Done(1))
  }

  /** The queue after its head was taken and the first waiter's message put in
      the slot just freed, or as it was if it was empty. */
  function Refilled(f: MsgQueue, msg: Msg): MsgQueue {
    if Take(f).1.Some? then Offer(Take(f).0, msg).0 else f
  }

  /** The first waiting sender, taken out of the list; a plain sender becomes runnable. */
  ghost function ReleaseSender(m: Mem, l: ListId): (r: Mem)
    requires Shape(m) && Lst(m.lists, l) != []
    ensures Shape(r) && r.active == m.active
  {
    var h := Lst(m.lists, l)[0];
    assert Keyed(Lst(m.lists, l), m.prio);
    if m.status[h] != ReplyBlocked then WakeFirst(m, l).(wait := m.wait[h := NoData]) else RemoveHead(m, l)
  }

  /** _msg_receive: the memory, how it ends, and the message received if any. */
  ghost function Receive(m: Mem, block: bool): (r: (Mem, Out, Option<Msg>))
    requires Shape(m)
    ensures Shape(r.0) && r.0.active == m.active
  {
    var a := m.active;
    var l := MsgWaiters(a);
    var (f, got) := Take(m.queue[a]);
    if Lst(m.lists, l) == [] then
      if got.Some? then (m.(queue := m.queue[a := f]), Done(1), got)
      else if !block then (m, Done(-1), None)
      else (SetStatus(m.(wait := m.wait[a := Buffer]), a, ReceiveBlocked), YieldHigher(RecvDone), None)
    else
      var h := Lst(m.lists, l)[0];
      assert Keyed(Lst(m.lists, l), m.prio);
      var w := if got.Some? then m.wait[a] else Buffer;
      var pulled := m.(queue := m.queue[a := Refilled(m.queue[a], m.buf[h])], wait := m.wait[a := w]);
      (ReleaseSender(pulled, l),
       if m.status[h] != ReplyBlocked && m.prio[h] < |m.rq| - 1 then SwitchTo(m.prio[h]) else Done(1),
       Some(if got.Some? then got.value else m.buf[h]))
  }

  /** msg_init_queue */
  ghost function InitQueue(m: Mem, slots: seq<Msg>): (r: Mem)
    requires Shape(m) && IsSize(|slots|) && |slots| < U32
    ensures Shape(r) && r.active == m.active
  {
    m.(queue := m.queue[m.active := NewQueue(slots)])
  }

  /** What becomes of a message sent to `t`. */
  datatype Fate = Refused | Enqueued | Handed | Waits

  ghost function FateOf(m: Mem, t: Pid, toSelf: bool, block: bool): Fate
    requires Shape(m)
  {
    if t !in m.prio then Refused
    else if !toSelf && m.status[t] == ReceiveBlocked then Handed
    else if Put(m.queue[t].cib).1 >= 0 then Enqueued
    else if toSelf || !block then Refused
    else Waits
  }

  // The sections are good

  /** Whom setting a flag, and whom sending may wake. */
  const FLAG_WAITERS: set<Status> := {FlagBlockedAny, FlagBlockedAll}
  const RECEIVERS: set<Status> := {FlagBlockedAny, FlagBlockedAll, ReceiveBlocked}

  lemma QueueMsgIsGood(m: Mem, t: Pid, msg: Msg)
    requires ListsInv(m) && t in m.prio
    ensures GoodIsrSection(m, QueueMsg(m, t, msg).0, FLAG_WAITERS)
  {
    hide RunQueuesOk, WaitListsOk, PlacesOk, F.SetAndWake, Moves, ListsKept;
    var (f, ok) := Offer(m.queue[t], msg);
    var queued := m.(queue := m.queue[t := f]);
    if ok {
      DataIsGood(m, queued, FLAG_WAITERS);
      F.SetAndWakeIsGood(queued, t, F.MSG_WAITING);
      IsrSectionsCompose(m, queued, F.SetAndWake(queued, t, F.MSG_WAITING), FLAG_WAITERS);
    } else {
      DataIsGood(m, m, FLAG_WAITERS);
    }
  }

  /** Handing over is right for any blocked thread that stands in no list. */
  lemma HandOverIsGood(m: Mem, t: Pid, msg: Msg, w: set<Status>)
    requires ListsInv(m) && t in m.prio && m.status[t] in w && !On(m.status, t) && m.at[t] == None
    ensures GoodIsrSection(m, HandOver(m, t, msg), w)
  {
    var copied := m.(buf := m.buf[t := msg]);
    DataIsGood(m, copied, w);
    PushIsGood(copied, t, Pending, w);
    IsrSectionsCompose(m, copied, SetStatus(copied, t, Pending), w);
  }

  /** The caller of `o` is about to send in `m`: it runs, or has just become
      ReplyBlocked in msg_send_receive. */
  ghost predicate Sending(o: Mem, m: Mem) {
    && ActiveRuns(o) && ListsInv(m)
    && (m == o || (Caller(o, m, RECEIVERS, {SendBlocked, ReplyBlocked}) && m.lists == o.lists
                   && Requesting(m) && m.at[m.active] == None && m.wait[m.active] == Buffer))
  }

  /** How a sender may end up blocked. */
  ghost function Parking(m: Mem): set<Status>
    requires Shape(m)
  {
    if Requesting(m) then {SendBlocked, ReplyBlocked} else {SendBlocked}
  }

  /** The sender off the run queue and in the receiver's list. */
  ghost function Listed(m: Mem, t: Pid, msg: Msg): (r: Mem)
    requires Shape(m) && t in m.prio
    ensures Shape(r) && r.active == m.active && t in r.prio
  {
    var a := m.active;
    var st := if Requesting(m) then ReplyBlocked else SendBlocked;
    AddToList(SetStatus(m.(wait := m.wait[a := Buffer], buf := m.buf[a := msg]), a, st), MsgWaiters(t), a)
  }

  /** A sender is in no list, and off the run queue or the first of its level. */
  lemma SenderUnlisted(o: Mem, m: Mem)
    requires Sending(o, m)
    ensures ListsInv(m) && m.at[m.active] == None
    ensures if Requesting(m) then !On(m.status, m.active) else On(m.status, m.active) && AtHead(m, m.active)
  {
    if m == o { UnlistedStatus(m, m.active); }
    hide RunQueuesOk, WaitListsOk, PlacesOk, Moves, ListsKept;
  }

  lemma ListedKeepsLists(o: Mem, m: Mem, t: Pid, msg: Msg)
    requires Sending(o, m) && t in m.prio && t != m.active
    ensures ListsInv(Listed(m, t, msg))
  {
    hide RunQueuesOk, WaitListsOk, PlacesOk, LevelsOk, ListsKeyed, RunQueuesKeyed, Moves, ListsKept, Caller;
    SenderUnlisted(o, m);
    var a := m.active;
    var before := m.(wait := m.wait[a := Buffer], buf := m.buf[a := msg]);
    var st := if Requesting(m) then ReplyBlocked else SendBlocked;
    if Requesting(m) { RelabelKeepsLists(before, a, st); } else { PopKeepsLists(before, a, st); }
    AddKeepsLists(SetStatus(before, a, st), MsgWaiters(t), a);
  }

  /** What listing the caller changes about threads. */
  lemma ListedMoves(m: Mem, t: Pid, msg: Msg)
    requires Shape(m) && t in m.prio
    ensures var r, a := Listed(m, t, msg), m.active;
            && r.status == m.status[a := if Requesting(m) then ReplyBlocked else SendBlocked]
            && r.at == m.at[a := Some(MsgWaiters(t))] && r.wait == m.wait[a := Buffer]
            && ListsKept(RECEIVERS + Parking(m), m.lists, r.lists)
            && r.mbox == m.mbox && r.prio == m.prio && |r.rq| == |m.rq| && r.csr == m.csr
            && r.locked == m.locked
  {
  }

  /** A sender has so far only been a caller. */
  lemma SenderIsCaller(o: Mem, m: Mem)
    requires Sending(o, m)
    ensures Caller(o, m, RECEIVERS, Parking(m)) && m.lists == o.lists
  {
    hide RunQueuesOk, WaitListsOk, PlacesOk, Moves, ListsKept;
    DataIsGood(o, o, RECEIVERS);
    Widen(o, o, RECEIVERS, {}, RECEIVERS, Parking(m));
  }

  lemma ListedBlocks(m: Mem, t: Pid, msg: Msg)
    requires Shape(m) && t in m.prio
    ensures var r := Listed(m, t, msg);
            Blocked(r, if Requesting(m) then ReplyDone else SendDone) && r.status[m.active] !in RECEIVERS
  {
    hide Listed, LevelsOk, ListsKeyed, RunQueuesKeyed, ListsKept;
    ListedMoves(m, t, msg);
  }

  lemma ListedIsCaller(o: Mem, m: Mem, t: Pid, msg: Msg)
    requires Sending(o, m) && t in m.prio && t != m.active
    ensures Caller(o, Listed(m, t, msg), RECEIVERS, Parking(m))
  {
    hide RunQueuesOk, WaitListsOk, PlacesOk, Listed, Moves, ListsKept;
    ListedKeepsLists(o, m, t, msg);
    ListedMoves(m, t, msg);
    SenderIsCaller(o, m);
    var st := if Requesting(m) then ReplyBlocked else SendBlocked;
    CallerMoves(RECEIVERS, Parking(m), o, m, st, Some(MsgWaiters(t)), Buffer);
  }

  lemma ParkIsGood(o: Mem, m: Mem, t: Pid, msg: Msg)
    requires Sending(o, m) && t in m.prio && t != m.active
    ensures GoodSection(o, Park(m, t, msg), YieldHigher(if Requesting(m) then ReplyDone else SendDone),
                        RECEIVERS, Parking(m))
  {
    hide Listed, F.SetAndWake, RunQueuesOk, WaitListsOk, PlacesOk, Moves, ListsKept;
    var listed := Listed(m, t, msg);
    ListedIsCaller(o, m, t, msg);
    ListedBlocks(m, t, msg);
    F.SetAndWakeIsGood(listed, t, F.MSG_WAITING);
    var r := F.SetAndWake(listed, t, F.MSG_WAITING);
    Widen(listed, r, FLAG_WAITERS, {}, RECEIVERS, {});
    CallerThenIsr(o, listed, r, RECEIVERS, Parking(m));
    StaysBlocked(listed, r, RECEIVERS, if Requesting(m) then ReplyDone else SendDone);
  }

  /** After another section, which only woke threads, a sender is a caller still. */
  lemma SenderThenIsr(o: Mem, m: Mem, r: Mem, w: set<Status>)
    requires Sending(o, m) && GoodIsrSection(m, r, w) && w <= RECEIVERS
    ensures Caller(o, r, RECEIVERS, Parking(m))
    ensures Blocked(r, if Requesting(m) then ReplyDone else Return)
    ensures !Requesting(m) ==> ActiveRuns(r)
  {
    hide RunQueuesOk, WaitListsOk, PlacesOk, Moves, ListsKept, LevelsOk, ListsKeyed, RunQueuesKeyed, Caller, Blocked;
    Widen(m, r, w, {}, RECEIVERS, {});
    SenderThenIsrIsCaller(o, m, r);
    SenderStaysBlocked(o, m, r);
  }

  lemma SenderThenIsrIsCaller(o: Mem, m: Mem, r: Mem)
    requires Sending(o, m) && GoodIsrSection(m, r, RECEIVERS)
    ensures Caller(o, r, RECEIVERS, Parking(m))
  {
    hide RunQueuesOk, WaitListsOk, PlacesOk, Moves, ListsKept, LevelsOk, ListsKeyed, RunQueuesKeyed;
    SenderIsCaller(o, m);
    CallerThenIsr(o, m, r, RECEIVERS, Parking(m));
  }

  lemma SenderStaysBlocked(o: Mem, m: Mem, r: Mem)
    requires Sending(o, m) && GoodIsrSection(m, r, RECEIVERS)
    ensures Blocked(r, if Requesting(m) then ReplyDone else Return)
    ensures !Requesting(m) ==> ActiveRuns(r)
  {
    hide ListsInv, Moves, ListsKept, LevelsOk, ListsKeyed, RunQueuesKeyed, SameThreads, Blocked;
    SenderIsBlocked(o, m);
    StaysBlocked(m, r, RECEIVERS, if Requesting(m) then ReplyDone else Return);
  }

  lemma SenderIsBlocked(o: Mem, m: Mem)
    requires Sending(o, m)
    ensures Shape(m) && Blocked(m, if Requesting(m) then ReplyDone else Return) && (!Requesting(m) ==> ActiveRuns(m))
    ensures m.status[m.active] !in RECEIVERS
  {
    hide RunQueuesOk, WaitListsOk, PlacesOk, Moves, ListsKept, LevelsOk, ListsKeyed, RunQueuesKeyed, Caller;
  }

  lemma SendSectionIsGood(o: Mem, m: Mem, t: Pid, msg: Msg, block: bool)
    requires Sending(o, m) && t != m.active && (Requesting(m) ==> t in m.prio && block)
    ensures GoodSection(o, SendSection(m, t, msg, block).0, SendSection(m, t, msg, block).1, RECEIVERS, Parking(m))
  {
    hide QueueMsg, Park, HandOver, RunQueuesOk, WaitListsOk, PlacesOk, Moves, ListsKept;
    DataIsGood(m, m, RECEIVERS);
    if t in m.prio {
      if m.status[t] == ReceiveBlocked {
        UnlistedStatus(m, t);
        HandOverIsGood(m, t, msg, RECEIVERS);
        SenderThenIsr(o, m, HandOver(m, t, msg), RECEIVERS);
      } else if QueueMsg(m, t, msg).1 {
        QueueMsgIsGood(m, t, msg);
        SenderThenIsr(o, m, QueueMsg(m, t, msg).0, FLAG_WAITERS);
      } else if block {
        ParkIsGood(o, m, t, msg);
      } else {
        SenderThenIsr(o, m, m, RECEIVERS);
      }
    } else {
      SenderThenIsr(o, m, m, RECEIVERS);
    }
  }

  lemma SendIsGood(m: Mem, t: Pid, msg: Msg, block: bool)
    requires ActiveRuns(m)
    ensures GoodSection(m, Send(m, t, msg, block).0, Send(m, t, msg, block).1, RECEIVERS, {SendBlocked})
  {
    hide QueueMsg, SendSection, RunQueuesOk, WaitListsOk, PlacesOk, Moves, ListsKept;
    var stamped := msg.(sender := m.active);
    assert !Requesting(m);
    if t == m.active {
      QueueMsgIsGood(m, t, stamped);
      SenderThenIsr(m, m, QueueMsg(m, t, stamped).0, FLAG_WAITERS);
    } else {
      SendSectionIsGood(m, m, t, stamped, block);
    }
  }

  lemma SendIntIsGood(m: Mem, t: Pid, msg: Msg)
    requires ListsInv(m)
    ensures GoodIsrSection(m, SendInt(m, t, msg).0, RECEIVERS)
    ensures SendInt(m, t, msg).1.Done?
  {
    hide QueueMsg, HandOver, RunQueuesOk, WaitListsOk, PlacesOk;
    var stamped := msg.(sender := m.maxPid + 1);
    if t !in m.prio {
      DataIsGood(m, m, RECEIVERS);
    } else if m.status[t] == ReceiveBlocked {
      UnlistedStatus(m, t);
      HandOverIsGood(m, t, stamped, RECEIVERS);
      SwitchRequestIsGood(m, HandOver(m, t, stamped), RECEIVERS);
    } else {
      QueueMsgIsGood(m, t, stamped);
      Widen(m, QueueMsg(m, t, stamped).0, FLAG_WAITERS, {}, RECEIVERS, {});
    }
  }

  /** Setting sched_context_switch_request as well. */
  lemma SwitchRequestIsGood(m: Mem, r: Mem, w: set<Status>)
    requires GoodIsrSection(m, r, w)
    ensures GoodIsrSection(m, r.(csr := true), w)
  {
    hide RunQueuesOk, WaitListsOk, PlacesOk;
  }

  lemma RequestedIsSending(m: Mem, msg: Msg)
    requires ActiveRuns(m)
    ensures Sending(m, Requested(m, msg)) && Requesting(Requested(m, msg))
  {
    PopIsGood(m, ReplyBlocked, RECEIVERS, {SendBlocked, ReplyBlocked});
    hide RunQueuesOk, WaitListsOk, PlacesOk;
  }

  /** With a live target msg_send_receive keeps the lists and leaves the caller
      waiting for its reply. */
  lemma SendReceiveIsGood(m: Mem, t: Pid, msg: Msg)
    requires ActiveRuns(m) && t in m.prio && t != m.active
    ensures GoodSection(m, SendReceive(m, t, msg).0, SendReceive(m, t, msg).1, RECEIVERS, {SendBlocked, ReplyBlocked})
  {
    hide SendSection, ListsInv, ActiveRuns;
    RequestedIsSending(m, msg);
    SendSectionIsGood(m, Requested(m, msg), t, msg.(sender := m.active), true);
  }

  /** With a missing target it returns to a caller that is off the run queue. */
  lemma SendReceiveNeedsTarget(m: Mem, t: Pid, msg: Msg)
    requires ActiveRuns(m) && t != m.active
    ensures GoodSection(m, SendReceive(m, t, msg).0, SendReceive(m, t, msg).1, RECEIVERS, {SendBlocked, ReplyBlocked})
            <==> t in m.prio
  {
    if t in m.prio { SendReceiveIsGood(m, t, msg); }
  }

  /** A reply keeps the lists exactly when the request was already taken out of
      the receiver's list of waiting senders. */
  lemma ReplyIsGoodIff(m: Mem, t: Pid, reply: Msg)
    requires ListsInv(m) && t in m.prio && m.status[t] == ReplyBlocked
    ensures GoodIsrSection(m, HandOver(m, t, reply), {ReplyBlocked}) <==> m.at[t] == None
  {
    if m.at[t] == None {
      HandOverIsGood(m, t, reply, {ReplyBlocked});
    } else {
      var r := HandOver(m, t, reply);
      assert r.at[t].Some? && r.status[t] == Pending;
    }
  }

  lemma RemoveRequestIsGood(m: Mem, l: ListId)
    requires ListsInv(m) && Lst(m.lists, l) != [] && m.status[Lst(m.lists, l)[0]] == ReplyBlocked
    ensures GoodIsrSection(m, RemoveHead(m, l), {SendBlocked})
  {
    RemoveKeepsLists(m, l);
  }

  lemma ReleaseSenderIsGood(m: Mem, p: Pid)
    requires ListsInv(m) && Lst(m.lists, MsgWaiters(p)) != []
    ensures GoodIsrSection(m, ReleaseSender(m, MsgWaiters(p)), {SendBlocked})
  {
    var l := MsgWaiters(p);
    var h := Lst(m.lists, l)[0];
    RemoveKeepsLists(m, l);
    assert Fits(m.status[h], l);
    hide RunQueuesOk, WaitListsOk, PlacesOk, Caller;
    if m.status[h] == ReplyBlocked {
      RemoveRequestIsGood(m, l);
    } else {
      WakeFirstIsGood(m, l);
      WaitDataIsFree(m, WakeFirst(m, l), h, NoData, {SendBlocked});
    }
  }

  /** The queue refilled and the caller's wait_data set, if it is. */
  lemma PulledIsCaller(m: Mem, q: MsgQueue, d: WaitData)
    requires ActiveRuns(m)
    ensures var r := m.(queue := m.queue[m.active := q], wait := m.wait[m.active := d]);
            Caller(m, r, {SendBlocked}, {ReceiveBlocked}) && ActiveRuns(r)
  {
    hide RunQueuesOk, WaitListsOk, PlacesOk;
  }

  lemma ReceiveIsGood(m: Mem, block: bool)
    requires ActiveRuns(m)
    ensures GoodSection(m, Receive(m, block).0, Receive(m, block).1, {SendBlocked}, {ReceiveBlocked})
  {
    hide ReleaseSender, Take, Refilled, RunQueuesOk, WaitListsOk, PlacesOk, Moves, ListsKept, SetStatus;
    var a, l := m.active, MsgWaiters(m.active);
    var (r, out, _) := Receive(m, block);
    var got := Take(m.queue[a]).1;
    if Lst(m.lists, l) != [] {
      var h := Lst(m.lists, l)[0];
      assert Keyed(Lst(m.lists, l), m.prio);
      var d := if got.Some? then m.wait[a] else Buffer;
      PullIsGood(m, Refilled(m.queue[a], m.buf[h]), d);
    } else if got.None? && block {
      ReceiveBlocks(m);
    } else {
      DataIsGood(m, r, {SendBlocked});
      IsrSectionIsGood(m, r, out, {SendBlocked}, {ReceiveBlocked});
    }
  }

  lemma PullIsGood(m: Mem, q: MsgQueue, d: WaitData)
    requires ActiveRuns(m) && Lst(m.lists, MsgWaiters(m.active)) != []
    ensures var pulled := m.(queue := m.queue[m.active := q], wait := m.wait[m.active := d]);
            var r := ReleaseSender(pulled, MsgWaiters(m.active));
            Caller(m, r, {SendBlocked}, {ReceiveBlocked}) && ActiveRuns(r)
  {
    hide ReleaseSender, RunQueuesOk, WaitListsOk, PlacesOk, Moves, ListsKept;
    var pulled := m.(queue := m.queue[m.active := q], wait := m.wait[m.active := d]);
    PulledIsCaller(m, q, d);
    ReleaseSenderIsGood(pulled, m.active);
    CallerThenIsr(m, pulled, ReleaseSender(pulled, MsgWaiters(m.active)), {SendBlocked}, {ReceiveBlocked});
  }

  lemma ReceiveBlocks(m: Mem)
    requires ActiveRuns(m)
    ensures var r := SetStatus(m.(wait := m.wait[m.active := Buffer]), m.active, ReceiveBlocked);
            Caller(m, r, {SendBlocked}, {ReceiveBlocked}) && Blocked(r, RecvDone)
  {
    hide RunQueuesOk, WaitListsOk, PlacesOk, Moves, ListsKept;
    var waits := m.(wait := m.wait[m.active := Buffer]);
    CallersWaitDataIsFree(m, Buffer, SetStatus(waits, m.active, ReceiveBlocked), {SendBlocked}, {ReceiveBlocked});
    PopIsGood(waits, ReceiveBlocked, {SendBlocked}, {ReceiveBlocked});
  }
}
