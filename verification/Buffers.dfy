/** A message copied straight into a blocked thread's buffer is still there when
    the thread runs again. */
module Buffers {
  import opened Names
  import opened Sequences
  import opened CircularIndex
  import opened KernelState
  import opened Scheduler
  import opened Threads
  import F = ThreadFlags
  import opened Messages
  import opened Mailboxes
  import opened Effects
  import opened Machine
  import opened PlainSteps
  import opened Separation
  import opened Requests

  /** The thread will find the result of its call in its buffer. */
  predicate Awaits(pc: Pc) {
    (pc.Gap? || pc.Rotating? || pc.Do?) && (pc.k.RecvDone? || pc.k.ReplyDone? || pc.k.GetDone?)
  }

  /** It will find a received message there. */
  predicate Receives(pc: Pc) {
    (pc.Gap? || pc.Rotating? || pc.Do?) && pc.k.RecvDone?
  }

  predicate EndsWith(s: seq<Msg>, msg: Msg) {
    s != [] && s[|s| - 1] == msg
  }

  type Log = map<Pid, seq<Msg>>

  /** The buffer of a woken thread holds what was last copied into it, and that
      of a woken receiver the last message delivered to it. */
  ghost predicate BufOk(prio: map<Pid, nat>, pc: map<Pid, Pc>, status: map<Pid, Status>, buf: map<Pid, Msg>,
                        given: map<Pid, Msg>, del: Log) {
    forall t :: t in prio && t in pc && Awaits(pc[t]) && On(status, t) ==>
      t in buf && t in given && buf[t] == given[t] && (Receives(pc[t]) ==> EndsWith(Of(del, t), given[t]))
  }

  ghost predicate BuffersOk(s: K) {
    BufOk(s.m.prio, s.c.pc, s.m.status, s.m.buf, s.given, s.ms.delivered)
  }

  /** The log grew for `t` at most. */
  ghost predicate SameBut(t: Pid, del: Log, del': Log) {
    forall u :: u != t ==> Of(del', u) == Of(del, u)
  }

  lemma BufHanded(prio: map<Pid, nat>, pc: map<Pid, Pc>, status: map<Pid, Status>, buf: map<Pid, Msg>,
                  given: map<Pid, Msg>, del: Log, t: Pid, msg: Msg, del': Log)
    requires BufOk(prio, pc, status, buf, given, del) && SameBut(t, del, del')
    requires t in pc && Receives(pc[t]) ==> EndsWith(Of(del', t), msg)
    ensures BufOk(prio, pc, status[t := Pending], buf[t := msg], given[t := msg], del')
  {
  }

  lemma BufLogged(prio: map<Pid, nat>, pc: map<Pid, Pc>, status: map<Pid, Status>, buf: map<Pid, Msg>,
                  given: map<Pid, Msg>, del: Log, t: Pid, del': Log)
    requires BufOk(prio, pc, status, buf, given, del) && SameBut(t, del, del') && t in pc && !Awaits(pc[t])
    ensures BufOk(prio, pc, status, buf, given, del')
  {
  }

  lemma BufBlocked(prio: map<Pid, nat>, pc: map<Pid, Pc>, status: map<Pid, Status>, buf: map<Pid, Msg>,
                   given: map<Pid, Msg>, del: Log, t: Pid, st: Status, msg: Msg)
    requires BufOk(prio, pc, status, buf, given, del) && !OnRunqueue(st)
    ensures BufOk(prio, pc, status[t := st], buf, given, del)
    ensures BufOk(prio, pc, status[t := st], buf[t := msg], given, del)
  {
  }

  lemma BufWoken(prio: map<Pid, nat>, pc: map<Pid, Pc>, status: map<Pid, Status>, buf: map<Pid, Msg>,
                 given: map<Pid, Msg>, del: Log, t: Pid)
    requires BufOk(prio, pc, status, buf, given, del) && t in pc && !Awaits(pc[t])
    ensures BufOk(prio, pc, status[t := Pending], buf, given, del)
  {
  }

  /** Wake-ups by flags and by wait lists without messages. */
  lemma BufFrame(m: Mem, r: Mem, w: set<Status>, b: set<Status>, pc: map<Pid, Pc>, given: map<Pid, Msg>, del: Log)
    requires Caller(m, r, w, b) && AllAgree(m.prio, pc, m.status, m.at, m.wait)
    requires ReceiveBlocked !in w && ReplyBlocked !in w && MboxBlocked !in w
    requires BufOk(m.prio, pc, m.status, m.buf, given, del)
    ensures BufOk(r.prio, pc, r.status, m.buf, given, del)
  {
    hide ListsInv, ListsKept;
  }

  /** A runnable caller's program counter awaits nothing. */
  lemma BufPc(c: Ctl, c': Ctl, a: Pid, b: set<Status>, prio: map<Pid, nat>, status: map<Pid, Status>,
              buf: map<Pid, Msg>,
              given: map<Pid, Msg>, del: Log)
    requires BufOk(prio, c.pc, status, buf, given, del) && PcMoves(c, c', a, status, b)
    requires forall t :: t in prio ==> t in c.pc
    ensures BufOk(prio, c'.pc, status, buf, given, del)
  {
  }

  // Sending

  lemma FlaggedKeepsBuf(m: Mem, status: map<Pid, Status>, r: Mem, t: Pid, pc: map<Pid, Pc>, buf: map<Pid, Msg>,
                        given: map<Pid, Msg>, del: Log)
    requires Shape(m) && t in m.prio && t in status && Flagged(m, status, r, t)
    requires BufOk(m.prio, pc, status, buf, given, del)
    requires t in pc && (status[t].FlagBlockedAny? || status[t].FlagBlockedAll? ==> !Awaits(pc[t]))
    ensures BufOk(m.prio, pc, r.status, buf, given, del)
  {
    hide BufOk, Awaits;
    if F.Met(status[t], F.With(m.flags[t], F.MSG_WAITING), m.wait[t]) {
      BufWoken(m.prio, pc, status, buf, given, del, t);
    }
  }

  lemma SentKeepsBuf(m: Mem, r: Mem, t: Pid, msg: Msg, fate: Fate, st: Status, pc: map<Pid, Pc>, given: map<Pid, Msg>,
                     ms: MsgLog)
    requires Shape(m) && (fate != Refused ==> t in m.prio) && Sent(m, r, t, msg, fate, st)
    requires BufOk(m.prio, pc, m.status, m.buf, given, ms.delivered) && !OnRunqueue(st)
    requires t in m.prio ==> t in pc && (m.status[t].FlagBlockedAny? || m.status[t].FlagBlockedAll? ==> !Awaits(pc[t]))
    ensures BufOk(m.prio, pc, r.status, r.buf, GivenLog(given, t, msg, fate), SendLog(ms, t, msg, fate).delivered)
  {
    hide BufOk, Awaits, Flagged;
    var del := ms.delivered;
    match fate
    case Refused =>
    case Enqueued => FlaggedKeepsBuf(m, m.status, r, t, pc, m.buf, given, del);
    case Handed => BufHanded(m.prio, pc, m.status, m.buf, given, del, t, msg, SendLog(ms, t, msg, fate).delivered);
    case Waits =>
      BufBlocked(m.prio, pc, m.status, m.buf, given, del, m.active, st, msg);
      FlaggedKeepsBuf(m, m.status[m.active := st], r, t, pc, m.buf[m.active := msg], given, del);
  }

  /** A thread that waits for flags awaits no message. */
  lemma FlagWaiterAwaitsNothing(m: Mem, c: Ctl, t: Pid)
    requires CoreInv(m, c)
    ensures t in m.prio ==>
              t in c.pc && (m.status[t].FlagBlockedAny? || m.status[t].FlagBlockedAll? ==> !Awaits(c.pc[t]))
  {
    hide ListsInv, ActiveOk, IdleOk, BoxesNamed;
  }

  ghost predicate Buffered(m: Mem, pc: map<Pid, Pc>, given: map<Pid, Msg>, del: Log) {
    BufOk(m.prio, pc, m.status, m.buf, given, del)
  }

  lemma SendKeepsBuf(m: Mem, c: Ctl, to: Pid, msg: Msg, block: bool, given: map<Pid, Msg>, ms: MsgLog)
    requires CoreInv(m, c) && ActiveRuns(m) && Buffered(m, c.pc, given, ms.delivered)
    ensures var r, fate := Send(m, to, msg, block).0, FateOf(m, to, to == m.active, block);
            BufOk(m.prio, c.pc, r.status, r.buf, GivenLog(given, to, msg.(sender := m.active), fate),
                  SendLog(ms, to, msg.(sender := m.active), fate).delivered)
  {
    FlagWaiterAwaitsNothing(m, c, to);
    SendEffect(m, to, msg, block);
    hide CoreInv, Send, Sent, BufOk, GivenLog, SendLog, Awaits;
    SentKeepsBuf(m, Send(m, to, msg, block).0, to, msg.(sender := m.active), FateOf(m, to, to == m.active, block),
                 SendBlocked, c.pc, given, ms);
  }

  lemma SendIntKeepsBuf(m: Mem, c: Ctl, to: Pid, msg: Msg, given: map<Pid, Msg>, ms: MsgLog)
    requires CoreInv(m, c) && Buffered(m, c.pc, given, ms.delivered)
    ensures var r, fate := SendInt(m, to, msg).0, FateOf(m, to, false, false);
            BufOk(m.prio, c.pc, r.status, r.buf, GivenLog(given, to, msg.(sender := m.maxPid + 1), fate),
                  SendLog(ms, to, msg.(sender := m.maxPid + 1), fate).delivered)
  {
    FlagWaiterAwaitsNothing(m, c, to);
    SendIntEffect(m, to, msg);
    hide CoreInv, SendInt, Sent, BufOk, GivenLog, SendLog, Awaits;
    SentKeepsBuf(m, SendInt(m, to, msg).0, to, msg.(sender := m.maxPid + 1), FateOf(m, to, false, false),
                 SendBlocked, c.pc, given, ms);
  }

  lemma RequestKeepsBuf(m: Mem, c: Ctl, to: Pid, msg: Msg, given: map<Pid, Msg>, ms: MsgLog)
    requires CoreInv(m, c) && Buffered(m, c.pc, given, ms.delivered) && to in m.prio && to != m.active
    ensures var r, fate := SendReceive(m, to, msg).0, FateOf(m, to, false, true);
            BufOk(m.prio, c.pc, r.status, r.buf, GivenLog(given, to, msg.(sender := m.active), fate),
                  SendLog(ms, to, msg.(sender := m.active), fate).delivered)
  {
    FlagWaiterAwaitsNothing(m, c, to);
    RequestEffect(m, to, msg);
    hide CoreInv, SendReceive, Requested, Sent, BufOk, GivenLog, SendLog, Awaits;
    var stamped := msg.(sender := m.active);
    BufBlocked(m.prio, c.pc, m.status, m.buf, given, ms.delivered, m.active, ReplyBlocked, stamped);
    SentKeepsBuf(Requested(m, msg), SendReceive(m, to, msg).0, to, stamped, FateOf(m, to, false, true),
                 ReplyBlocked, c.pc, given, ms);
  }

  // Receiving and replying

  /** The thread in front of a wait list of senders or writers awaits no message. */
  lemma HeadAwaitsNothing(m: Mem, c: Ctl, l: ListId)
    requires CoreInv(m, c) && Lst(m.lists, l) != [] && (l.MsgWaiters? || l.Writers?)
    ensures var h := Lst(m.lists, l)[0]; h in m.prio && h in c.pc && (m.status[h] != ReplyBlocked ==> !Awaits(c.pc[h]))
  {
    var h := Lst(m.lists, l)[0];
    RemoveKeepsLists(m, l);
    assert Fits(m.status[h], l);
    assert Agree(c.pc[h], m.status[h], m.at[h], m.wait[h]);
  }

  lemma ReceiveKeepsBuf(m: Mem, c: Ctl, block: bool, given: map<Pid, Msg>, ms: MsgLog)
    requires CoreInv(m, c) && Buffered(m, c.pc, given, ms.delivered) && !Awaits(c.pc[m.active])
    ensures var (r, _, got) := Receive(m, block);
            BufOk(m.prio, c.pc, r.status, r.buf, given, ReceiveLog(ms, m, got).delivered)
  {
    hide Receive, BufOk, Awaits, Take, Refilled, ListsInv, LevelsOk, ListsKeyed, RunQueuesKeyed;
    CoreLists(m, c);
    var l, del := MsgWaiters(m.active), ms.delivered;
    ReceiveEffect(m, block);
    var (r, _, got) := Receive(m, block);
    if Lst(m.lists, l) != [] {
      HeadAwaitsNothing(m, c, l);
      var h := Lst(m.lists, l)[0];
      if m.status[h] != ReplyBlocked { BufWoken(m.prio, c.pc, m.status, m.buf, given, del, h); }
    } else {
      BufBlocked(m.prio, c.pc, m.status, m.buf, given, del, m.active, ReceiveBlocked, m.buf[m.active]);
    }
    BufLogged(m.prio, c.pc, r.status, m.buf, given, del, m.active, ReceiveLog(ms, m, got).delivered);
  }

  lemma ReplyKeepsBuf(m: Mem, c: Ctl, t: Pid, reply: Msg, given: map<Pid, Msg>, del: Log)
    requires CoreInv(m, c) && t in m.prio && m.status[t] == ReplyBlocked && Buffered(m, c.pc, given, del)
    ensures var r := HandOver(m, t, reply); BufOk(m.prio, c.pc, r.status, r.buf, given[t := reply], del)
  {
    HandOverEffect(m, t, reply, SendBlocked);
    assert Agree(c.pc[t], m.status[t], m.at[t], m.wait[t]);
    hide HandOver, BufOk;
    BufHanded(m.prio, c.pc, m.status, m.buf, given, del, t, reply, del);
  }

  // Mailboxes

  lemma ReaderAwaitsGet(m: Mem, c: Ctl, b: nat)
    requires CoreInv(m, c) && Lst(m.lists, Readers(b)) != []
    ensures var h := Lst(m.lists, Readers(b))[0]; h in c.pc && !Receives(c.pc[h])
  {
    var h := Lst(m.lists, Readers(b))[0];
    RemoveKeepsLists(m, Readers(b));
    assert Agree(c.pc[h], m.status[h], m.at[h], m.wait[h]);
  }

  lemma PutKeepsBuf(m: Mem, c: Ctl, b: nat, msg: Msg, blocking: bool, given: map<Pid, Msg>, del: Log)
    requires CoreInv(m, c) && b in m.mbox && Buffered(m, c.pc, given, del)
    ensures var r, s := PutMsg(m, b, msg, blocking).0, Lst(m.lists, Readers(b));
            BufOk(m.prio, c.pc, r.status, r.buf, if s != [] then given[s[0] := msg] else given, del)
  {
    hide CoreInv, PutMsg, BufOk, Full, PutSlot, Insert, Receives;
    CoreLists(m, c);
    PutEffect(m, b, msg, blocking);
    var s := Lst(m.lists, Readers(b));
    if s != [] {
      ReaderAwaitsGet(m, c, b);
      BufHanded(m.prio, c.pc, m.status, m.buf, given, del, s[0], msg, del);
    }
    BufBlocked(m.prio, c.pc, m.status, m.buf, given, del, m.active, MboxBlocked, msg);
  }

  lemma GetKeepsBuf(m: Mem, c: Ctl, b: nat, blocking: bool, given: map<Pid, Msg>, del: Log)
    requires CoreInv(m, c) && b in m.mbox && Buffered(m, c.pc, given, del)
    ensures var r := GetMsg(m, b, blocking).0; BufOk(m.prio, c.pc, r.status, r.buf, given, del)
  {
    hide CoreInv, GetMsg, BufOk, Avail, GetSlot, Insert, Awaits;
    CoreLists(m, c);
    GetEffect(m, b, blocking);
    var s := Lst(m.lists, Writers(b));
    if s != [] {
      HeadAwaitsNothing(m, c, Writers(b));
      WritersAreMboxBlocked(m, b);
      BufWoken(m.prio, c.pc, m.status, m.buf, given, del, s[0]);
    }
    BufBlocked(m.prio, c.pc, m.status, m.buf, given, del, m.active, MboxBlocked, m.buf[m.active]);
  }

  lemma WritersAreMboxBlocked(m: Mem, b: nat)
    requires ListsInv(m) && Lst(m.lists, Writers(b)) != []
    ensures var h := Lst(m.lists, Writers(b))[0]; h in m.prio && m.status[h] == MboxBlocked
  {
    RemoveKeepsLists(m, Writers(b));
    assert Fits(m.status[Lst(m.lists, Writers(b))[0]], Writers(b));
  }

  // The steps

  /** The new buffers agree with the old program counters. */
  ghost predicate BufBeforePc(s: K, s': K) {
    BufOk(s.m.prio, s.c.pc, s'.m.status, s'.m.buf, s'.given, s'.ms.delivered)
  }

  lemma SendStepKeepsBuf(s: K, to: Pid, typ: nat, content: nat, blocking: bool)
    requires Core(s) && BuffersOk(s) && Defined(s.m, s.c) && Ready(s.m, s.c)
    ensures BufBeforePc(s, StepSend(s, to, typ, content, blocking))
  {
    hide BufOk, Send, SettlePc, GivenLog, FateOf, SendLog;
    ReadyRuns(s.m, s.c);
    SendKeepsBuf(s.m, s.c, to, Msg(s.m.active, typ, content, s.nextId), blocking, s.given, s.ms);
  }

  lemma SendIntStepKeepsBuf(s: K, to: Pid, typ: nat, content: nat)
    requires Core(s) && BuffersOk(s)
    ensures BufBeforePc(s, StepSendInt(s, to, typ, content))
  {
    hide BufOk, SendInt, SettlePc, GivenLog, FateOf, SendLog;
    SendIntKeepsBuf(s.m, s.c, to, Msg(s.m.maxPid + 1, typ, content, s.nextId), s.given, s.ms);
  }

  lemma RequestStepKeepsBuf(s: K, to: Pid, typ: nat, content: nat)
    requires Core(s) && BuffersOk(s) && to in s.m.prio && to != s.m.active
    ensures BufBeforePc(s, StepRequest(s, to, typ, content))
  {
    hide BufOk, SendReceive, SettlePc, GivenLog, FateOf, SendLog;
    RequestKeepsBuf(s.m, s.c, to, Msg(s.m.active, typ, content, s.nextId), s.given, s.ms);
  }

  lemma ReceiveStepKeepsBuf(s: K, blocking: bool)
    requires Core(s) && BuffersOk(s) && Defined(s.m, s.c) && Ready(s.m, s.c)
    ensures BufBeforePc(s, StepReceive(s, blocking))
  {
    hide BufOk, Receive, SettlePc, ReceiveLog, ReceiveOpen;
    ReceiveKeepsBuf(s.m, s.c, blocking, s.given, s.ms);
  }

  lemma ReplyStepKeepsBuf(s: K, t: Pid, reply: Msg)
    requires Core(s) && BuffersOk(s) && t in s.m.prio
    ensures BufBeforePc(s, StepReply(s, t, reply))
  {
    hide BufOk, HandOver, SettlePc, CoreInv;
    CoreLists(s.m, s.c);
    if s.m.status[t] == ReplyBlocked { ReplyKeepsBuf(s.m, s.c, t, reply, s.given, s.ms.delivered); }
  }

  lemma PutStepKeepsBuf(s: K, b: nat, typ: nat, content: nat, blocking: bool)
    requires Core(s) && BuffersOk(s) && b in s.m.mbox
    ensures BufBeforePc(s, StepPut(s, b, typ, content, blocking))
  {
    hide BufOk, PutMsg, SettlePc, PutLog;
    PutKeepsBuf(s.m, s.c, b, Msg(KERNEL_PID_UNDEF, typ, content, s.nextId), blocking, s.given, s.ms.delivered);
  }

  lemma GetStepKeepsBuf(s: K, b: nat, blocking: bool)
    requires Core(s) && BuffersOk(s) && b in s.m.mbox
    ensures BufBeforePc(s, StepGet(s, b, blocking))
  {
    hide BufOk, GetMsg, SettlePc, GetLog;
    GetKeepsBuf(s.m, s.c, b, blocking, s.given, s.ms.delivered);
  }

  lemma PlainKeepsBuf(s: K, step: Step)
    requires Core(s) && RequestsOk(s) && BuffersOk(s) && Enabled(s, step) && Plain(step)
    ensures BufBeforePc(s, Apply(s, step))
  {
    hide RequestsOk, Enabled, Apply, Caller, PcMoves, BufOk, CoreInv, AllAgree;
    CoreAgrees(s.m, s.c);
    ReplyIsSafe(s, step);
    CallKeepsCore(s, step);
    BufFrame(s.m, Apply(s, step).m, Wakes(step), Blocks(step), s.c.pc, s.given, s.ms.delivered);
    PlainBuf(s, step);
  }

  lemma PlainBuf(s: K, step: Step)
    requires Enabled(s, step) && Plain(step)
    ensures Apply(s, step).m.buf == s.m.buf && Apply(s, step).given == s.given && Apply(s, step).ms == s.ms
    ensures Stepped(s, Apply(s, step), Wakes(step), Blocks(step)) ==> Apply(s, step).m.prio == s.m.prio
  {
    if !step.DoInitQueue? {
      hide Enabled, Apply;
      PlainKeepsMessages(s, step);
    }
  }

  lemma CallKeepsBuf(s: K, step: Step)
    requires Core(s) && RequestsOk(s) && BuffersOk(s) && Enabled(s, step) && !Inner(step)
    requires !step.DoCreate? && !step.DoExit?
    ensures BufBeforePc(s, Apply(s, step))
  {
    if Plain(step) {
      hide Enabled, Apply, Core, BuffersOk, BufBeforePc, RequestsOk;
      PlainKeepsBuf(s, step);
    } else {
      hide Core, RequestsOk, BuffersOk, BufBeforePc, Defined, Ready, StepSend, StepRequest, StepReceive, StepReply,
        StepPut, StepGet, StepSendInt, CountersFresh, ExitOk;
      match step
      case DoSend(to, typ, content, blocking) => SendStepKeepsBuf(s, to, typ, content, blocking);
      case DoRequest(to, typ, content) => RequestStepKeepsBuf(s, to, typ, content);
      case DoReceive(blocking) => ReceiveStepKeepsBuf(s, blocking);
      case DoReply(t, reply) => ReplyStepKeepsBuf(s, t, reply);
      case DoPut(b, typ, content, blocking) => PutStepKeepsBuf(s, b, typ, content, blocking);
      case DoGet(b, blocking) => GetStepKeepsBuf(s, b, blocking);
      case DoSendInt(to, typ, content) => SendIntStepKeepsBuf(s, to, typ, content);
    }
  }

  lemma CallKeepsBuffers(s: K, step: Step)
    requires Core(s) && RequestsOk(s) && BuffersOk(s) && Enabled(s, step) && !Inner(step)
    requires !step.DoCreate? && !step.DoExit?
    ensures BuffersOk(Apply(s, step))
  {
    hide RequestsOk, Enabled, Apply, CoreInv, Moves, ListsKept, ListsInv, PcMoves, BufOk;
    ReplyIsSafe(s, step);
    CallKeepsCore(s, step);
    CallKeepsBuf(s, step);
    CoreKeys(s.m, s.c);
    var s' := Apply(s, step);
    BufPc(s.c, s'.c, s.m.active, Blocks(step), s.m.prio, s'.m.status, s'.m.buf, s'.given, s'.ms.delivered);
  }

  lemma BufNew(prio: map<Pid, nat>, pc: map<Pid, Pc>, status: map<Pid, Status>, buf: map<Pid, Msg>,
               given: map<Pid, Msg>, del: Log, t: Pid, p: nat, st: Status, msg: Msg)
    requires BufOk(prio, pc, status, buf, given, del)
    ensures BufOk(prio[t := p], pc[t := User], status[t := st], buf[t := msg], given, del[t := []])
  {
  }

  lemma BufUser(prio: map<Pid, nat>, pc: map<Pid, Pc>, status: map<Pid, Status>, buf: map<Pid, Msg>,
                given: map<Pid, Msg>, del: Log, a: Pid, p: Pc)
    requires BufOk(prio, pc, status, buf, given, del) && !Awaits(p)
    ensures BufOk(prio, pc[a := p], status, buf, given, del)
  {
  }

  lemma CreateKeepsBuffers(s: K, prio: nat, sleeping: bool, wout: bool, flags: bv16)
    requires Shape(s.m) && BuffersOk(s)
    ensures BuffersOk(StepCreate(s, prio, sleeping, wout, flags))
  {
    hide BufOk, Create;
    CreateAddsOne(s.m, prio, sleeping, wout, flags);
    CreateAddsData(s.m, prio, sleeping, wout, flags);
    var free := FreePid(s.m.prio, KERNEL_PID_FIRST, s.m.maxPid);
    if prio < |s.m.rq| && free.Some? {
      var t, st := free.value, if sleeping then Sleeping else Pending;
      BufNew(s.m.prio, s.c.pc, s.m.status, s.m.buf, s.given, s.ms.delivered, t, prio, st, BLANK);
      BufUser(s.m.prio[t := prio], s.c.pc[t := User], s.m.status[t := st], s.m.buf[t := BLANK], s.given,
              s.ms.delivered[t := []], s.m.active, Switch(prio));
    }
  }

  lemma BufFewer(prio: map<Pid, nat>, pc: map<Pid, Pc>, status: map<Pid, Status>, buf: map<Pid, Msg>,
                 given: map<Pid, Msg>, del: Log, prio': map<Pid, nat>, pc': map<Pid, Pc>, status': map<Pid, Status>)
    requires BufOk(prio, pc, status, buf, given, del)
    requires forall t :: t in prio' ==> t in prio && (On(status', t) ==> On(status, t))
    requires forall t :: t in pc' && t in prio' ==>
               t in pc && (Awaits(pc'[t]) ==> Awaits(pc[t])) && (Receives(pc'[t]) ==> Receives(pc[t]))
    ensures BufOk(prio', pc', status', buf, given, del)
  {
  }

  lemma ExitKeepsBuffers(s: K)
    requires Core(s) && BuffersOk(s) && Defined(s.m, s.c) && Ready(s.m, s.c) && ExitOk(s.m)
    ensures BuffersOk(StepExit(s))
  {
    ReadyRuns(s.m, s.c);
    PopKeepsLists(s.m, s.m.active, Stopped);
    NextThreadIsBest(SetStatus(s.m, s.m.active, Stopped));
    hide RunQueuesOk, WaitListsOk, PlacesOk, BufOk, CoreInv;
    var s' := StepExit(s);
    BufFewer(s.m.prio, s.c.pc, s.m.status, s.m.buf, s.given, s.ms.delivered, s'.m.prio, s'.c.pc, s'.m.status);
  }

  lemma InnerAwaits(s: K, step: Step)
    requires Enabled(s, step) && Inner(step)
    ensures var pc := Apply(s, step).c.pc;
            forall t :: t in pc ==>
              t in s.c.pc && (Awaits(pc[t]) ==> Awaits(s.c.pc[t])) && (Receives(pc[t]) ==> Receives(s.c.pc[t]))
  {
    hide SchedRun, RotateActive, ResumeMem, Shape;
  }

  lemma UnmovedOn(m: Mem, r: Mem)
    requires Unmoved(m, r)
    ensures r.prio == m.prio && r.buf == m.buf && forall t :: t in r.prio ==> (On(r.status, t) <==> On(m.status, t))
  {
  }

  lemma InnerKeepsBuffers(s: K, step: Step)
    requires Core(s) && BuffersOk(s) && Enabled(s, step) && Inner(step)
    ensures BuffersOk(Apply(s, step))
  {
    hide Apply, Unmoved, CoreInv, BufOk, Awaits, Receives;
    CoreLists(s.m, s.c);
    InnerEffect(s, step);
    InnerKeepsLogs(s, step);
    InnerAwaits(s, step);
    var s' := Apply(s, step);
    UnmovedOn(s.m, s'.m);
    BufFewer(s.m.prio, s.c.pc, s.m.status, s.m.buf, s.given, s.ms.delivered, s'.m.prio, s'.c.pc, s'.m.status);
  }
}
