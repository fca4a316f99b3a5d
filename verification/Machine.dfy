/** The kernel as a step machine. One step is one interrupts-disabled section
    of the active thread, one of the program points between sections, or one
    call inside an interrupt service routine, which may start between any two
    steps. The pids, priorities, list lengths and run lengths are unbounded. */
module Machine {
  import opened Names
  import opened Sequences
  import opened CircularIndex
  import opened KernelState
  import opened Scheduler
  import opened Threads
  import opened Mutexes
  import F = ThreadFlags
  import opened Messages
  import opened Mailboxes

  /** Where a thread is: in user code; before a thread_yield_higher; before the
      section of a thread_yield; before the comparison of a sched_switch; or
      resumed with the rest of a kernel call to do. */
  datatype Pc =
    | User
    | Gap(k: Cont)
    | Rotating(k: Cont)
    | Switch(prio: nat)
    | Do(k: Cont)

  /** Where an unanswered request is: in its sender's buffer, in the receiver's
      queue, or received; or lost, because the receiver exited with it in its queue. */
  datatype Phase = Parked | Queued | Seen | Lost

  datatype Request = Request(msg: Msg, to: Pid, phase: Phase)

  /** Program counters; whether an interrupt service routine runs; whether a
      thread was created with THREAD_CREATE_WOUT_YIELD since the scheduler last
      ran. */
  datatype Ctl = Ctl(pc: map<Pid, Pc>, isr: bool, idle: Pid, lazy: bool)

  /** Which thread a mutex was given to, and which threads were told that they
      have it. */
  datatype MutexLog = MutexLog(holder: map<nat, Pid>, owns: set<(Pid, nat)>)

  /** Per receiver the messages accepted, those that entered its queue or its
      buffer, and those delivered. */
  datatype MsgLog = MsgLog(
    accepted: map<Pid, seq<Msg>>,
    entered: map<Pid, seq<Msg>>,
    delivered: map<Pid, seq<Msg>>)

  /** What went into and came out of each mailbox. */
  datatype BoxLog = BoxLog(puts: map<nat, seq<Msg>>, gets: map<nat, seq<Msg>>)

  /** The kernel, and a record of what happened: `given` is the message last
      copied into a blocked thread's buffer, `open` the unanswered requests. */
  datatype K = K(
    m: Mem,
    c: Ctl,
    mx: MutexLog,
    ms: MsgLog,
    bx: BoxLog,
    given: map<Pid, Msg>,
    open: map<Pid, Request>,
    nextId: nat)

  datatype Step =
    // calls from a thread
    | DoSleep
    | DoYield
    | DoCreate(prio: nat, sleeping: bool, wout: bool, flags: bv16)
    | DoExit
    | DoLock(x: nat, blocking: bool)
    | DoUnlockSleep(x: nat)
    | DoSend(to: Pid, typ: nat, content: nat, blocking: bool)
    | DoRequest(to: Pid, typ: nat, content: nat)
    | DoReceive(blocking: bool)
    | DoInitQueue(slots: seq<Msg>)
    | DoFlagsClear(mask: bv16)
    | DoWaitAny(mask: bv16)
    | DoWaitOne(mask: bv16)
    | DoWaitAll(mask: bv16)
    // calls from a thread or from an interrupt service routine
    | DoWakeup(t: Pid)
    | DoUnlock(x: nat)
    | DoReply(t: Pid, reply: Msg)
    | DoFlagsSet(t: Pid, mask: bv16)
    | DoPut(b: nat, typ: nat, content: nat, blocking: bool)
    | DoGet(b: nat, blocking: bool)
    // msg_send_int
    | DoSendInt(to: Pid, typ: nat, content: nat)
    // between sections
    | Schedule
    | MoveToTail
    | Compare
    | Resume
    // interrupt entry and exit; some ports leave through thread_yield
    | IsrEnter
    | IsrExit(rotate: bool)

  function Of<T>(h: map<T, seq<Msg>>, k: T): seq<Msg> {
    if k in h then h[k] else []
  }

  function Logged<T>(h: map<T, seq<Msg>>, k: T, msg: Msg): map<T, seq<Msg>> {
    h[k := Of(h, k) + [msg]]
  }

  // How a section ends for its caller. In an interrupt service routine,
  // sched_switch sets sched_context_switch_request instead of yielding.

  ghost function SettleMem(m: Mem, isr: bool, out: Out): Mem
    requires m.active in m.prio
  {
    if isr && out.SwitchTo? && ShouldYield(m, out.prio) then m.(csr := true) else m
  }

  function SettlePc(pc: map<Pid, Pc>, isr: bool, a: Pid, out: Out): map<Pid, Pc> {
    if isr then pc
    else
      match out
      case Done(_) => pc
      case YieldHigher(k) => pc[a := Gap(k)]
      case Yield(k) => pc[a := Rotating(k)]
      case SwitchTo(p) => pc[a := Switch(p)]
  }

  /** The kernel after a section, records aside. */
  ghost function Ended(s: K, m: Mem, out: Out): K
    requires m.active in m.prio
  {
    s.(m := SettleMem(m, s.c.isr, out), c := s.c.(pc := SettlePc(s.c.pc, s.c.isr, m.active, out)))
  }

  // Records of mutexes

  /** A free mutex is given to the caller; a caller that is returned 1 was told. */
  function LockLog(mx: MutexLog, m: Mem, x: nat, out: Out): MutexLog {
    MutexLog(if x in m.locked then mx.holder else mx.holder[x := m.active],
             if out == Done(1) then mx.owns + {(m.active, x)} else mx.owns)
  }

  /** The mutex passes to the first waiter, or to nobody. */
  function UnlockLog(mx: MutexLog, m: Mem, x: nat, isr: bool): MutexLog {
    var w := Lst(m.lists, MutexQueue(x));
    var owns := if isr then mx.owns else mx.owns - {(m.active, x)};
    if x !in m.locked then mx
    else MutexLog(if w == [] then mx.holder - {x} else mx.holder[x := w[0]], owns)
  }

  // Records of messages

  function SendLog(ms: MsgLog, t: Pid, msg: Msg, fate: Fate): MsgLog {
    match fate
    case Refused => ms
    case Enqueued => MsgLog(Logged(ms.accepted, t, msg), Logged(ms.entered, t, msg), ms.delivered)
    case Handed => MsgLog(Logged(ms.accepted, t, msg), Logged(ms.entered, t, msg), Logged(ms.delivered, t, msg))
    case Waits => MsgLog(Logged(ms.accepted, t, msg), ms.entered, ms.delivered)
  }

  function GivenLog(given: map<Pid, Msg>, t: Pid, msg: Msg, fate: Fate): map<Pid, Msg> {
    if fate == Handed then given[t := msg] else given
  }

  function PhaseOf(fate: Fate): Phase {
    match fate
    case Handed => Seen
    case Enqueued => Queued
    case _ => Parked
  }

  function MarkQueued(open: map<Pid, Request>, t: Pid): map<Pid, Request> {
    if t in open then open[t := open[t].(phase := Queued)] else open
  }

  function MarkSeen(open: map<Pid, Request>, msg: Msg): map<Pid, Request> {
    var t := msg.sender;
    if t in open && open[t] == Request(msg, open[t].to, Queued) then open[t := open[t].(phase := Seen)] else open
  }

  function MarkLost(open: map<Pid, Request>, a: Pid): map<Pid, Request> {
    map t | t in open :: if open[t].to == a && open[t].phase == Queued then open[t].(phase := Lost) else open[t]
  }

  /** The first waiting sender's message enters, then a message is delivered. */
  ghost function ReceiveLog(ms: MsgLog, m: Mem, got: Option<Msg>): MsgLog
    requires Shape(m)
  {
    var a := m.active;
    var w := Lst(m.lists, MsgWaiters(a));
    assert Keyed(w, m.prio);
    MsgLog(ms.accepted,
           if w == [] then ms.entered else Logged(ms.entered, a, m.buf[w[0]]),
           if got.None? then ms.delivered else Logged(ms.delivered, a, got.value))
  }

  function ReceiveOpen(open: map<Pid, Request>, m: Mem, got: Option<Msg>): map<Pid, Request> {
    var w := Lst(m.lists, MsgWaiters(m.active));
    var pulled := if w == [] then open else MarkQueued(open, w[0]);
    if got.None? then pulled else MarkSeen(pulled, got.value)
  }

  // Records of mailboxes

  /** The call reports success at once. */
  predicate Succeeds(out: Out) {
    out == Done(1) || out.SwitchTo?
  }

  /** A message counts as put if its caller was told so; a waiting reader gets it. */
  function PutLog(bx: BoxLog, m: Mem, b: nat, msg: Msg, out: Out): BoxLog {
    if !Succeeds(out) then bx
    else if Lst(m.lists, Readers(b)) != [] then BoxLog(Logged(bx.puts, b, msg), Logged(bx.gets, b, msg))
    else BoxLog(Logged(bx.puts, b, msg.(sender := m.active)), bx.gets)
  }

  function GetLog(bx: BoxLog, b: nat, got: Option<Msg>): BoxLog {
    if got.None? then bx else BoxLog(bx.puts, Logged(bx.gets, b, got.value))
  }

  // The steps

  ghost function StepCreate(s: K, prio: nat, sleeping: bool, wout: bool, flags: bv16): K
    requires Shape(s.m)
  {
    var (m, out) := Create(s.m, prio, sleeping, wout, flags);
    var free := FreePid(s.m.prio, KERNEL_PID_FIRST, s.m.maxPid);
    if prio >= |s.m.rq| || free.None? then s
    else
      var t := free.value;
      Ended(s.(c := Ctl(s.c.pc[t := User], s.c.isr, s.c.idle, s.c.lazy || (wout && !sleeping)),
               ms := MsgLog(s.ms.accepted[t := []], s.ms.entered[t := []], s.ms.delivered[t := []])),
            m, out)
  }

  ghost function StepExit(s: K): K
    requires ExitOk(s.m)
  {
    var a := s.m.active;
    s.(m := Exit(s.m), c := Ctl(s.c.pc - {a}, s.c.isr, s.c.idle, false),
       mx := MutexLog(s.mx.holder, set o | o in s.mx.owns && o.0 != a), open := MarkLost(s.open, a))
  }

  ghost function StepLock(s: K, x: nat, blocking: bool): K
    requires Shape(s.m)
  {
    var (m, out) := Lock(s.m, x, blocking);
    Ended(s, m, out).(mx := LockLog(s.mx, s.m, x, out))
  }

  ghost function StepUnlock(s: K, x: nat): K
    requires Shape(s.m)
  {
    var (m, out) := Unlock(s.m, x);
    Ended(s, m, out).(mx := UnlockLog(s.mx, s.m, x, s.c.isr))
  }

  ghost function StepUnlockSleep(s: K, x: nat): K
    requires Shape(s.m)
  {
    var (m, out) := UnlockAndSleep(s.m, x);
    Ended(s, m, out).(mx := UnlockLog(s.mx, s.m, x, s.c.isr))
  }

  ghost function StepSend(s: K, to: Pid, typ: nat, content: nat, blocking: bool): K
    requires Shape(s.m)
  {
    var msg := Msg(s.m.active, typ, content, s.nextId);
    var (m, out) := Send(s.m, to, msg, blocking);
    var fate := FateOf(s.m, to, to == s.m.active, blocking);
    Ended(s, m, out).(ms := SendLog(s.ms, to, msg, fate), given := GivenLog(s.given, to, msg, fate),
                      nextId := s.nextId + 1)
  }

  ghost function StepSendInt(s: K, to: Pid, typ: nat, content: nat): K
    requires Shape(s.m)
  {
    var msg := Msg(s.m.maxPid + 1, typ, content, s.nextId);
    var (m, out) := SendInt(s.m, to, msg);
    var fate := FateOf(s.m, to, false, false);
    Ended(s, m, out).(ms := SendLog(s.ms, to, msg, fate), given := GivenLog(s.given, to, msg, fate),
                      nextId := s.nextId + 1)
  }

  ghost function StepRequest(s: K, to: Pid, typ: nat, content: nat): K
    requires Shape(s.m)
  {
    var msg := Msg(s.m.active, typ, content, s.nextId);
    var (m, out) := SendReceive(s.m, to, msg);
    var fate := FateOf(s.m, to, false, true);
    Ended(s, m, out).(ms := SendLog(s.ms, to, msg, fate), given := GivenLog(s.given, to, msg, fate),
                      open := s.open[s.m.active := Request(msg, to, PhaseOf(fate))],
                      nextId := s.nextId + 1)
  }

  ghost function StepReceive(s: K, blocking: bool): K
    requires Shape(s.m)
  {
    var (m, out, got) := Receive(s.m, blocking);
    Ended(s, m, out).(ms := ReceiveLog(s.ms, s.m, got), open := ReceiveOpen(s.open, s.m, got))
  }

  ghost function StepReply(s: K, t: Pid, reply: Msg): K
    requires Shape(s.m) && t in s.m.prio
  {
    var (m, out) := if s.c.isr then ReplyInt(s.m, t, reply) else Reply(s.m, t, reply);
    if s.m.status[t] == ReplyBlocked
    then Ended(s, m, out).(given := s.given[t := reply], open := s.open - {t})
    else Ended(s, m, out)
  }

  /** A wait for flags that are set already goes on without yielding. */
  ghost function StepWait(s: K, m: Mem, out: Out, k: Cont): K
    requires m.active in m.prio
  {
    if out.Done? then s.(m := m, c := s.c.(pc := s.c.pc[m.active := Do(k)])) else Ended(s, m, out)
  }

  ghost function StepPut(s: K, b: nat, typ: nat, content: nat, blocking: bool): K
    requires Shape(s.m) && b in s.m.mbox
  {
    var msg := Msg(KERNEL_PID_UNDEF, typ, content, s.nextId);
    var (m, out) := PutMsg(s.m, b, msg, blocking);
    var r := Lst(s.m.lists, Readers(b));
    Ended(s, m, out).(bx := PutLog(s.bx, s.m, b, msg, out), given := if r != [] then s.given[r[0] := msg] else s.given,
                      nextId := s.nextId + 1)
  }

  ghost function StepGet(s: K, b: nat, blocking: bool): K
    requires Shape(s.m) && b in s.m.mbox
  {
    var (m, out, got) := GetMsg(s.m, b, blocking);
    Ended(s, m, out).(bx := GetLog(s.bx, b, got))
  }

  /** The memory after the rest of a kernel call, once its thread runs again. */
  ghost function ResumeMem(m: Mem, k: Cont): (r: Mem)
    requires Shape(m) && (k.PutDone? ==> k.mbox in m.mbox)
    ensures Shape(r)
  {
    match k
    case ClearAny(mask) => F.Clear(m, m.active, mask).0
    case ClearAll(mask) => F.Clear(m, m.active, mask).0
    case ClearOne(_, read) => F.Clear(m, m.active, F.LowestFlag(read)).0
    case PutDone(b, msg) => Store(m, b, msg)
    case _ => m
  }

  ghost function ResumePc(m: Mem, k: Cont): Pc
    requires Shape(m)
  {
    if k.ReadOne? then Do(ClearOne(k.mask, F.Part(m.flags[m.active], k.mask))) else User
  }

  ghost function StepResume(s: K, k: Cont): K
    requires Shape(s.m) && (k.PutDone? ==> k.mbox in s.m.mbox)
  {
    var a := s.m.active;
    s.(m := ResumeMem(s.m, k), c := s.c.(pc := s.c.pc[a := ResumePc(s.m, k)]),
       mx := if k.LockDone? then s.mx.(owns := s.mx.owns + {(a, k.mutex)}) else s.mx,
       bx := if k.PutDone? then s.bx.(puts := Logged(s.bx.puts, k.mbox, k.msg.(sender := a))) else s.bx)
  }

  ghost predicate CanRun(m: Mem) {
    Shape(m) && Runnable(m)
  }

  ghost function StepSchedule(s: K): K
    requires CanRun(s.m) && s.m.active in s.c.pc && s.c.pc[s.m.active].Gap?
  {
    var a := s.m.active;
    s.(m := SchedRun(s.m), c := Ctl(s.c.pc[a := Do(s.c.pc[a].k)], s.c.isr, s.c.idle, false))
  }

  ghost function StepMoveToTail(s: K): K
    requires Shape(s.m) && s.m.active in s.c.pc && s.c.pc[s.m.active].Rotating?
  {
    var a := s.m.active;
    s.(m := RotateActive(s.m), c := s.c.(pc := s.c.pc[a := Gap(s.c.pc[a].k)]))
  }

  ghost function StepCompare(s: K): K
    requires s.m.active in s.m.prio && s.m.active in s.c.pc && s.c.pc[s.m.active].Switch?
  {
    var a := s.m.active;
    s.(c := s.c.(pc := s.c.pc[a := if ShouldYield(s.m, s.c.pc[a].prio) then Gap(Return) else User]))
  }

  ghost function StepIsrExit(s: K, rotate: bool): K
    requires CanRun(s.m)
  {
    if s.m.csr then s.(m := SchedRun(if rotate then RotateActive(s.m) else s.m),
                       c := Ctl(s.c.pc, false, s.c.idle, false))
    else s.(c := s.c.(isr := false))
  }

  // When a step can happen

  ghost predicate Defined(m: Mem, c: Ctl) {
    Shape(m) && m.active in c.pc
  }

  /** The active thread is in user code. The idle thread calls nothing. */
  ghost predicate Ready(m: Mem, c: Ctl)
    requires Defined(m, c)
  {
    !c.isr && m.active != c.idle && c.pc[m.active] == User
  }

  /** No write counter of a message queue is about to wrap. */
  ghost predicate CountersFresh(m: Mem) {
    forall t :: t in m.prio ==> t in m.queue && m.queue[t].cib.write + 1 < U32
  }

  /** The steps that are not calls of the kernel. */
  predicate Inner(step: Step) {
    step.Schedule? || step.MoveToTail? || step.Compare? || step.Resume? || step.IsrEnter? || step.IsrExit?
  }

  /** The caller keeps to the API: an exiting thread leaves no waiting senders;
      a request goes to another live thread; a reply goes to a live thread, and
      to an unanswered request only after the request was received; a queue is
      given once, before anybody waits; only threads block. */
  ghost predicate CallEnabled(s: K, step: Step)
    requires Defined(s.m, s.c) && !Inner(step)
  {
    var ready, isr := Ready(s.m, s.c), s.c.isr;
    match step
    case DoExit => ready && ExitOk(s.m) && Lst(s.m.lists, MsgWaiters(s.m.active)) == []
    case DoSend(_, _, _, _) => ready && CountersFresh(s.m)
    case DoRequest(to, _, _) => ready && CountersFresh(s.m) && to in s.m.prio && to != s.m.active
    case DoReceive(_) => ready && CountersFresh(s.m)
    case DoInitQueue(slots) =>
      && ready && IsSize(|slots|) && |slots| < U32
      && Lst(s.m.lists, MsgWaiters(s.m.active)) == [] && s.m.queue[s.m.active].slots == []
    case DoWakeup(_) => ready || isr
    case DoUnlock(_) => ready || isr
    case DoReply(t, _) =>
      && (ready || isr) && t in s.m.prio
      && (s.m.status[t] == ReplyBlocked ==> t in s.open && s.open[t].phase == Seen)
    case DoFlagsSet(t, _) => (ready || isr) && t in s.m.prio
    case DoPut(b, _, _, blocking) => (ready || (isr && !blocking)) && b in s.m.mbox
    case DoGet(b, blocking) => (ready || (isr && !blocking)) && b in s.m.mbox
    case DoSendInt(_, _, _) => isr && CountersFresh(s.m)
    case _ => ready
  }

  ghost predicate InnerEnabled(m: Mem, c: Ctl, step: Step)
    requires Defined(m, c) && Inner(step)
  {
    var pc := c.pc[m.active];
    match step
    case Schedule => !c.isr && pc.Gap? && CanRun(m)
    case MoveToTail => !c.isr && pc.Rotating?
    case Compare => !c.isr && pc.Switch?
    case Resume => !c.isr && pc.Do? && (pc.k.PutDone? ==> pc.k.mbox in m.mbox)
    case IsrEnter => !c.isr
    case IsrExit(_) => c.isr && CanRun(m)
  }

  ghost function ApplyInner(s: K, step: Step): K
    requires Defined(s.m, s.c) && Inner(step) && InnerEnabled(s.m, s.c, step)
  {
    match step
    case Schedule => StepSchedule(s)
    case MoveToTail => StepMoveToTail(s)
    case Compare => StepCompare(s)
    case Resume => StepResume(s, s.c.pc[s.m.active].k)
    case IsrEnter => s.(c := s.c.(isr := true))
    case IsrExit(rotate) => StepIsrExit(s, rotate)
  }

  ghost function ApplyCall(s: K, step: Step): K
    requires Defined(s.m, s.c) && !Inner(step) && CallEnabled(s, step)
  {
    var m := s.m;
    match step
    case DoSleep => Ended(s, Sleep(m).0, Sleep(m).1)
    case DoYield => Ended(s, YieldThread(m).0, YieldThread(m).1)
    case DoCreate(prio, sleeping, wout, flags) => StepCreate(s, prio, sleeping, wout, flags)
    case DoExit => StepExit(s)
    case DoLock(x, blocking) => StepLock(s, x, blocking)
    case DoUnlockSleep(x) => StepUnlockSleep(s, x)
    case DoSend(to, typ, content, blocking) => StepSend(s, to, typ, content, blocking)
    case DoRequest(to, typ, content) => StepRequest(s, to, typ, content)
    case DoReceive(blocking) => StepReceive(s, blocking)
    case DoInitQueue(slots) => s.(m := InitQueue(m, slots))
    case DoFlagsClear(mask) => s.(m := F.Clear(m, m.active, mask).0)
    case DoWaitAny(mask) => StepWaitAny(s, mask, ClearAny(mask))
    case DoWaitOne(mask) => StepWaitAny(s, mask, ReadOne(mask))
    case DoWaitAll(mask) => StepWait(s, F.WaitAll(m, mask).0, F.WaitAll(m, mask).1, ClearAll(mask))
    case DoWakeup(t) => Ended(s, Wakeup(m, t).0, Wakeup(m, t).1)
    case DoUnlock(x) => StepUnlock(s, x)
    case DoReply(t, reply) => StepReply(s, t, reply)
    case DoFlagsSet(t, mask) => Ended(s, F.Set(m, t, mask).0, F.Set(m, t, mask).1)
    case DoPut(b, typ, content, blocking) => StepPut(s, b, typ, content, blocking)
    case DoGet(b, blocking) => StepGet(s, b, blocking)
    case DoSendInt(to, typ, content) => StepSendInt(s, to, typ, content)
  }

  ghost function StepWaitAny(s: K, mask: bv16, k: Cont): K
    requires Shape(s.m)
  {
    StepWait(s, F.WaitAny(s.m, mask, k).0, F.WaitAny(s.m, mask, k).1, k)
  }

  ghost predicate Enabled(s: K, step: Step) {
    && Defined(s.m, s.c)
    && if Inner(step) then InnerEnabled(s.m, s.c, step) else CallEnabled(s, step)
  }

  ghost function Apply(s: K, step: Step): K
    requires Enabled(s, step)
  {
    if Inner(step) then ApplyInner(s, step) else ApplyCall(s, step)
  }

  ghost predicate Next(s: K, step: Step, s': K) {
    Enabled(s, step) && s' == Apply(s, step)
  }

  /** kernel_init has created the idle thread and the main thread, and the
      scheduler has picked the main thread. Mailboxes are empty. */
  ghost predicate Boot(s: K) {
    exists main, idle, lowest, mainPrio :: Booted(s, main, idle, lowest, mainPrio)
  }

  ghost predicate BootedMem(m: Mem, main: Pid, idle: Pid, lowest: nat, mainPrio: nat) {
    && idle != main && mainPrio < lowest
    && m.active == main && |m.rq| == lowest + 1
    && m.prio == map[idle := lowest, main := mainPrio]
    && m.status == map[idle := Pending, main := Running]
    && m.at == map[idle := None, main := None]
    && m.wait == map[idle := NoData, main := NoData]
    && m.buf == map[idle := BLANK, main := BLANK]
    && m.queue == map[idle := NO_QUEUE, main := NO_QUEUE]
    && idle in m.flags && main in m.flags
    && m.rq[mainPrio] == [main] && m.rq[lowest] == [idle]
    && (forall p :: 0 <= p < lowest && p != mainPrio ==> m.rq[p] == [])
    && m.lists == map[] && m.locked == {} && !m.csr
    && (forall b :: b in m.mbox ==> Avail(m.mbox[b].cib) == 0)
  }

  ghost predicate Booted(s: K, main: Pid, idle: Pid, lowest: nat, mainPrio: nat) {
    && BootedMem(s.m, main, idle, lowest, mainPrio)
    && s.c == Ctl(map[idle := User, main := User], false, idle, false)
    && s.mx == MutexLog(map[], {}) && s.ms == MsgLog(map[], map[], map[]) && s.bx == BoxLog(map[], map[])
    && s.given == map[] && s.open == map[]
  }

  /** A run: from a booted kernel, any steps that can happen. */
  ghost predicate Run(tr: seq<K>, steps: seq<Step>) {
    && |tr| == |steps| + 1 && Boot(tr[0])
    && forall i :: 0 <= i < |steps| ==> Next(tr[i], steps[i], tr[i + 1])
  }
}
