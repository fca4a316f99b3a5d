/** The kernel code performs every step of the step machine: whatever a safe
    kernel can do next, the matching code can be called and leaves the memory
    that the machine has after the step. */
module KernelRuns {
  import opened Names
  import opened CircularIndex
  import opened KernelState
  import S = Scheduler
  import F = ThreadFlags
  import opened Threads
  import opened Mutexes
  import opened Messages
  import opened Mailboxes
  import opened Machine
  import opened Separation
  import opened Requests
  import opened Buffers
  import opened Conservation
  import opened Flags
  import opened Priority
  import opened Exclusion
  import opened Theorems
  import KernelLinks
  import opened KernelSteps
  import opened KernelCode

  /** The kernel code is where the machine is. */
  ghost predicate Matches(k: Kernel, s: K)
    reads k, k.links
  {
    k.Valid() && k.Abs() == s.m
  }

  /** The mutex or mailbox that the step is about has its list heads. */
  predicate HasHeads(nodes: set<Ref>, step: Step) {
    && (step.DoLock? || step.DoUnlock? || step.DoUnlockSleep? ==> WaitHead(MutexQueue(step.x)) in nodes)
    && (step.DoPut? || step.DoGet? ==> WaitHead(Readers(step.b)) in nodes && WaitHead(Writers(step.b)) in nodes)
  }

  // What the machine's steps do to memory

  lemma SleepMem(s: K)
    requires Enabled(s, DoSleep)
    ensures Apply(s, DoSleep).m == SettleMem(Sleep(s.m).0, s.c.isr, Sleep(s.m).1)
  {
    hide Sleep, SettleMem, Ended, Ready, LevelsOk, ListsKeyed, RunQueuesKeyed;
    EndedMem(s, Sleep(s.m).0, Sleep(s.m).1);
  }

  lemma YieldMem(s: K)
    requires Enabled(s, DoYield)
    ensures Apply(s, DoYield).m == SettleMem(YieldThread(s.m).0, s.c.isr, YieldThread(s.m).1)
  {
    hide YieldThread, SettleMem, Ended, Ready, LevelsOk, ListsKeyed, RunQueuesKeyed;
    EndedMem(s, YieldThread(s.m).0, YieldThread(s.m).1);
  }

  lemma WakeupMem(s: K, t: Pid)
    requires Enabled(s, DoWakeup(t))
    ensures Apply(s, DoWakeup(t)).m == SettleMem(Wakeup(s.m, t).0, s.c.isr, Wakeup(s.m, t).1)
  {
    hide Wakeup, SettleMem, Ended, Ready, LevelsOk, ListsKeyed, RunQueuesKeyed;
    EndedMem(s, Wakeup(s.m, t).0, Wakeup(s.m, t).1);
  }

  lemma FlagsSetMem(s: K, t: Pid, mask: bv16)
    requires Enabled(s, DoFlagsSet(t, mask))
    ensures t in s.m.prio
    ensures Apply(s, DoFlagsSet(t, mask)).m == SettleMem(F.Set(s.m, t, mask).0, s.c.isr, F.Set(s.m, t, mask).1)
  {
    hide F.Set, SettleMem, Ended, Ready, LevelsOk, ListsKeyed, RunQueuesKeyed;
    EndedMem(s, F.Set(s.m, t, mask).0, F.Set(s.m, t, mask).1);
  }

  lemma EndedMem(s: K, m: Mem, out: Out)
    requires m.active in m.prio
    ensures Ended(s, m, out).m == SettleMem(m, s.c.isr, out)
  {
  }

  lemma MutexCallMem(s: K, step: Step)
    requires Enabled(s, step) && (step.DoLock? || step.DoUnlock? || step.DoUnlockSleep?)
    ensures step.DoLock? ==>
              Apply(s, step).m == SettleMem(Lock(s.m, step.x, step.blocking).0, s.c.isr, Lock(s.m, step.x,
                  step.blocking).1)
    ensures step.DoUnlock? ==> Apply(s, step).m == SettleMem(Unlock(s.m, step.x).0, s.c.isr, Unlock(s.m, step.x).1)
    ensures step.DoUnlockSleep? ==>
              Apply(s, step).m == SettleMem(UnlockAndSleep(s.m, step.x).0, s.c.isr, UnlockAndSleep(s.m, step.x).1)
  {
    hide Lock, Unlock, UnlockAndSleep, LockLog, UnlockLog, SettleMem, SettlePc, Ready, CountersFresh, ExitOk, LevelsOk,
      ListsKeyed,
      RunQueuesKeyed;
  }

  /** The message that the call is about. */
  ghost predicate Carries(s: K, step: Step, msg: Msg) {
    && (step.DoSend? || step.DoRequest? ==> msg == Msg(s.m.active, step.typ, step.content, s.nextId))
    && (step.DoSendInt? ==> msg == Msg(s.m.maxPid + 1, step.typ, step.content, s.nextId))
    && (step.DoPut? ==> msg == Msg(KERNEL_PID_UNDEF, step.typ, step.content, s.nextId))
  }

  lemma SendCallMem(s: K, step: Step, msg: Msg)
    requires Enabled(s, step) && Carries(s, step, msg) && (step.DoSend? || step.DoRequest? || step.DoSendInt?)
    ensures step.DoSend? ==>
              var (m, out) := Send(s.m, step.to, msg, step.blocking); Apply(s, step).m == SettleMem(m, s.c.isr, out)
    ensures step.DoRequest? ==>
              var (m, out) := SendReceive(s.m, step.to, msg); Apply(s, step).m == SettleMem(m, s.c.isr, out)
    ensures step.DoSendInt? ==>
              var (m, out) := SendInt(s.m, step.to, msg); Apply(s, step).m == SettleMem(m, s.c.isr, out)
  {
    hide Send, SendReceive, SendInt, SendLog, GivenLog, FateOf, PhaseOf, SettleMem, SettlePc, Ready, CountersFresh,
      ExitOk, LevelsOk,
      ListsKeyed, RunQueuesKeyed;
  }

  lemma ReceiveMem(s: K, blocking: bool)
    requires Enabled(s, DoReceive(blocking))
    ensures var (m, out, _) := Receive(s.m, blocking); Apply(s, DoReceive(blocking)).m == SettleMem(m, s.c.isr, out)
  {
    hide Receive, StepReceive, SettleMem, Ready, CountersFresh, LevelsOk, ListsKeyed, RunQueuesKeyed;
    ReceiveStepMem(s, blocking);
  }

  lemma ReplyMem(s: K, t: Pid, reply: Msg)
    requires Enabled(s, DoReply(t, reply))
    ensures t in s.m.prio
    ensures var (m, out) := if s.c.isr then ReplyInt(s.m, t, reply) else Reply(s.m, t, reply);
            Apply(s, DoReply(t, reply)).m == SettleMem(m, s.c.isr, out)
  {
    hide Reply, ReplyInt, StepReply, SettleMem, Ready, LevelsOk, ListsKeyed, RunQueuesKeyed;
    ReplyStepMem(s, t, reply);
  }

  lemma InitQueueMem(s: K, slots: seq<Msg>)
    requires Enabled(s, DoInitQueue(slots))
    ensures IsSize(|slots|) && |slots| < U32 && Apply(s, DoInitQueue(slots)).m == InitQueue(s.m, slots)
  {
    hide InitQueue, Ready, LevelsOk, ListsKeyed, RunQueuesKeyed, IsSize;
  }

  lemma ReceiveStepMem(s: K, blocking: bool)
    requires Shape(s.m)
    ensures var (m, out, _) := Receive(s.m, blocking); StepReceive(s, blocking).m == SettleMem(m, s.c.isr, out)
  {
    hide Receive, ReceiveLog, ReceiveOpen, SettleMem, SettlePc, LevelsOk, ListsKeyed, RunQueuesKeyed;
  }

  lemma ReplyStepMem(s: K, t: Pid, reply: Msg)
    requires Shape(s.m) && t in s.m.prio
    ensures var (m, out) := if s.c.isr then ReplyInt(s.m, t, reply) else Reply(s.m, t, reply);
            StepReply(s, t, reply).m == SettleMem(m, s.c.isr, out)
  {
    hide Reply, ReplyInt, SettleMem, SettlePc, LevelsOk, ListsKeyed, RunQueuesKeyed;
  }

  lemma PutMem(s: K, step: Step, msg: Msg)
    requires Enabled(s, step) && Carries(s, step, msg) && step.DoPut?
    ensures step.b in s.m.mbox
    ensures var (m, out) := PutMsg(s.m, step.b, msg, step.blocking); Apply(s, step).m == SettleMem(m, s.c.isr, out)
  {
    hide PutMsg, StepPut, SettleMem, Ready, LevelsOk, ListsKeyed, RunQueuesKeyed;
    PutStepMem(s, step.b, step.typ, step.content, step.blocking);
  }

  lemma GetMem(s: K, b: nat, blocking: bool)
    requires Enabled(s, DoGet(b, blocking))
    ensures b in s.m.mbox
    ensures var (m, out, _) := GetMsg(s.m, b, blocking); Apply(s, DoGet(b, blocking)).m == SettleMem(m, s.c.isr, out)
  {
    hide GetMsg, StepGet, SettleMem, Ready, LevelsOk, ListsKeyed, RunQueuesKeyed;
    GetStepMem(s, b, blocking);
  }

  lemma PutStepMem(s: K, b: nat, typ: nat, content: nat, blocking: bool)
    requires Shape(s.m) && b in s.m.mbox
    ensures var (m, out) := PutMsg(s.m, b, Msg(KERNEL_PID_UNDEF, typ, content, s.nextId), blocking);
            StepPut(s, b, typ, content, blocking).m == SettleMem(m, s.c.isr, out)
  {
    hide PutMsg, PutLog, SettleMem, SettlePc, LevelsOk, ListsKeyed, RunQueuesKeyed;
  }

  lemma GetStepMem(s: K, b: nat, blocking: bool)
    requires Shape(s.m) && b in s.m.mbox
    ensures var (m, out, _) := GetMsg(s.m, b, blocking); StepGet(s, b, blocking).m == SettleMem(m, s.c.isr, out)
  {
    hide GetMsg, GetLog, SettleMem, SettlePc, LevelsOk, ListsKeyed, RunQueuesKeyed;
  }

  lemma ClearMem(s: K, mask: bv16)
    requires Enabled(s, DoFlagsClear(mask))
    ensures Apply(s, DoFlagsClear(mask)).m == F.Clear(s.m, s.m.active, mask).0
  {
    hide F.Clear, Ready, LevelsOk, ListsKeyed, RunQueuesKeyed;
  }

  lemma WaitMem(s: K, step: Step)
    requires Enabled(s, step) && (step.DoWaitAny? || step.DoWaitOne? || step.DoWaitAll?)
    ensures step.DoWaitAny? ==> Apply(s, step).m == F.WaitAny(s.m, step.mask, ClearAny(step.mask)).0
    ensures step.DoWaitOne? ==> Apply(s, step).m == F.WaitAny(s.m, step.mask, ReadOne(step.mask)).0
    ensures step.DoWaitAll? ==> Apply(s, step).m == F.WaitAll(s.m, step.mask).0
  {
    hide F.WaitAny, F.WaitAll, StepWaitAny, StepWait, Ready, LevelsOk, ListsKeyed, RunQueuesKeyed;
    if step.DoWaitAny? {
      WaitStepMem(s, step.mask, ClearAny(step.mask));
    } else {
      WaitStepMem(s, step.mask, ReadOne(step.mask));
    }
  }

  lemma WaitStepMem(s: K, mask: bv16, k: Cont)
    requires Shape(s.m)
    ensures StepWaitAny(s, mask, k).m == F.WaitAny(s.m, mask, k).0
    ensures var (m, out) := F.WaitAll(s.m, mask); StepWait(s, m, out, ClearAll(mask)).m == m
  {
    hide SettlePc, LevelsOk, ListsKeyed, RunQueuesKeyed, F.HasAny, F.HasAll;
  }

  lemma LifeCallMem(s: K, step: Step)
    requires Enabled(s, step) && (step.DoCreate? || step.DoExit?)
    ensures step.DoCreate? ==>
              var (m, out) := Create(s.m, step.prio, step.sleeping, step.wout, step.flags);
              Apply(s, step).m == SettleMem(m, s.c.isr, out)
    ensures step.DoExit? ==> ExitOk(s.m) && Apply(s, step).m == Exit(s.m)
  {
    hide SettlePc, Ready, CountersFresh, ExitOk, Exit, LevelsOk, ListsKeyed, RunQueuesKeyed, FreePid, MarkLost;
    if step.DoCreate? {
      CreateAddsOne(s.m, step.prio, step.sleeping, step.wout, step.flags);
      hide Create;
    }
  }

  lemma InnerMem(s: K, step: Step)
    requires Enabled(s, step) && Inner(step)
    ensures step.Schedule? ==> CanRun(s.m) && Apply(s, step).m == S.SchedRun(s.m)
    ensures step.MoveToTail? ==> Apply(s, step).m == S.RotateActive(s.m)
    ensures step.Compare? || step.IsrEnter? ==> Apply(s, step).m == s.m
    ensures step.Resume? ==>
              var k := s.c.pc[s.m.active].k;
              (k.PutDone? ==> k.mbox in s.m.mbox) && Apply(s, step).m == ResumeMem(s.m, k)
    ensures step.IsrExit? ==>
              CanRun(s.m) && Apply(s, step).m == if !s.m.csr then s.m
                                                 else S.SchedRun(if step.rotate then S.RotateActive(s.m) else s.m)
  {
    hide S.SchedRun, S.RotateActive, ResumeMem, ResumePc, LevelsOk, ListsKeyed, RunQueuesKeyed, S.Best;
  }

  // The code performs them

  method PerformMutex(k: Kernel, ghost s: K, step: Step, isr: bool)
    requires Matches(k, s) && Safe(s) && Enabled(s, step) && isr == s.c.isr && HasHeads(k.links.next.Keys, step)
    requires step.DoLock? || step.DoUnlock? || step.DoUnlockSleep?
    modifies k, k.links
    ensures Matches(k, Apply(s, step)) && k.links.next.Keys == old(k.links.next.Keys)
  {
    hide Core, RequestsOk, BuffersOk, MessagesOk, NumbersOk, FlagStateOk, PriorityOk, EncodingOk, S.ListsInv, Lock,
      Unlock,
      UnlockAndSleep, SettleMem, Apply, Enabled, LevelsOk, ListsKeyed, RunQueuesKeyed, KernelLinks.Linked;
    MutexCallMem(s, step);
    if !step.DoUnlock? { CallerRuns(s, step); }
    var out;
    if step.DoLock? {
      out := k.MutexLock(step.x, step.blocking);
    } else if step.DoUnlock? {
      out := k.MutexUnlock(step.x);
    } else {
      out := k.MutexUnlockAndSleep(step.x);
    }
    ShapeOfLists(k.Abs());
    k.SchedSwitch(out, isr);
  }

  method PerformThread(k: Kernel, ghost s: K, step: Step, isr: bool)
    requires Matches(k, s) && Safe(s) && Enabled(s, step) && isr == s.c.isr
    requires step.DoSleep? || step.DoYield? || step.DoWakeup? || step.DoFlagsSet?
    modifies k, k.links
    ensures Matches(k, Apply(s, step)) && k.links.next.Keys == old(k.links.next.Keys)
  {
    hide Core, RequestsOk, BuffersOk, MessagesOk, NumbersOk, FlagStateOk, PriorityOk, EncodingOk, S.ListsInv, SettleMem,
      Apply,
      Enabled, LevelsOk, ListsKeyed, RunQueuesKeyed, KernelLinks.Linked, Sleep, YieldThread,
      Wakeup, F.Set;
    var out;
    if step.DoSleep? {
      SleepMem(s);
      CallerRuns(s, step);
      out := k.ThreadSleep();
    } else if step.DoYield? {
      YieldMem(s);
      out := k.ThreadYield();
    } else if step.DoWakeup? {
      WakeupMem(s, step.t);
      out := k.ThreadWakeup(step.t);
    } else {
      FlagsSetMem(s, step.t, step.mask);
      out := k.ThreadFlagsSet(step.t, step.mask);
    }
    ShapeOfLists(k.Abs());
    k.SchedSwitch(out, isr);
  }

  method PerformFlags(k: Kernel, ghost s: K, step: Step)
    requires Matches(k, s) && Safe(s) && Enabled(s, step)
    requires step.DoFlagsClear? || step.DoWaitAny? || step.DoWaitOne? || step.DoWaitAll?
    modifies k, k.links
    ensures Matches(k, Apply(s, step)) && k.links.next.Keys == old(k.links.next.Keys)
  {
    hide Core, RequestsOk, BuffersOk, MessagesOk, NumbersOk, FlagStateOk, PriorityOk, EncodingOk, S.ListsInv, SettleMem,
      Apply,
      Enabled, LevelsOk, ListsKeyed, RunQueuesKeyed, KernelLinks.Linked, F.Clear, F.WaitAny,
      F.WaitAll;
    CallerRuns(s, step);
    ShapeOfLists(k.Abs());
    if !step.DoFlagsClear? { WaitMem(s, step); }
    if step.DoFlagsClear? {
      ClearMem(s, step.mask);
      var _ := k.FlagsClear(k.active, step.mask);
    } else if step.DoWaitAny? {
      var _ := k.FlagsWaitAny(step.mask, ClearAny(step.mask));
    } else if step.DoWaitOne? {
      var _ := k.FlagsWaitAny(step.mask, ReadOne(step.mask));
    } else {
      var _ := k.FlagsWaitAll(step.mask);
    }
  }

  method PerformSend(k: Kernel, ghost s: K, step: Step, isr: bool, msg: Msg)
    requires Matches(k, s) && Safe(s) && Enabled(s, step) && isr == s.c.isr && Carries(s, step, msg)
    requires step.DoSend? || step.DoRequest? || step.DoSendInt?
    modifies k, k.links
    ensures Matches(k, Apply(s, step)) && k.links.next.Keys == old(k.links.next.Keys)
  {
    hide Core, RequestsOk, BuffersOk, MessagesOk, NumbersOk, FlagStateOk, PriorityOk, EncodingOk, S.ListsInv, SettleMem,
      Apply,
      Enabled, LevelsOk, ListsKeyed, RunQueuesKeyed, KernelLinks.Linked, Send, SendReceive,
      SendInt;
    SendCallMem(s, step, msg);
    if !step.DoSendInt? { CallerRuns(s, step); }
    if step.DoRequest? { RequestGuard(s, step); }
    var out;
    if step.DoSend? {
      out := k.MsgSend(step.to, msg, step.blocking);
    } else if step.DoRequest? {
      out := k.MsgSendReceive(step.to, msg);
    } else {
      out := k.MsgSendInt(step.to, msg);
    }
    ShapeOfLists(k.Abs());
    k.SchedSwitch(out, isr);
  }

  lemma RequestGuard(s: K, step: Step)
    requires Enabled(s, step) && step.DoRequest?
    ensures step.to != s.m.active
  {
    hide CountersFresh, Shape, Ready;
  }

  method PerformReceive(k: Kernel, ghost s: K, step: Step, isr: bool)
    requires Matches(k, s) && Safe(s) && Enabled(s, step) && isr == s.c.isr
    requires step.DoReceive? || step.DoReply? || step.DoInitQueue?
    modifies k, k.links
    ensures Matches(k, Apply(s, step)) && k.links.next.Keys == old(k.links.next.Keys)
  {
    hide Core, RequestsOk, BuffersOk, MessagesOk, NumbersOk, FlagStateOk, PriorityOk, EncodingOk, S.ListsInv, SettleMem,
      Apply,
      Enabled, LevelsOk, ListsKeyed, RunQueuesKeyed, KernelLinks.Linked, Receive, Reply, ReplyInt,
      InitQueue, IsSize;
    ShapeOfLists(k.Abs());
    if step.DoReceive? {
      ReceiveMem(s, step.blocking);
      CallerRuns(s, step);
      var out, _ := k.MsgReceive(step.blocking);
      ShapeOfLists(k.Abs());
      k.SchedSwitch(out, isr);
    } else if step.DoReply? {
      PerformReply(k, s, step.t, step.reply, isr);
    } else {
      InitQueueMem(s, step.slots);
      k.MsgInitQueue(step.slots);
    }
  }

  method PerformReply(k: Kernel, ghost s: K, t: Pid, reply: Msg, isr: bool)
    requires Matches(k, s) && Safe(s) && Enabled(s, DoReply(t, reply)) && isr == s.c.isr
    modifies k, k.links
    ensures Matches(k, Apply(s, DoReply(t, reply))) && k.links.next.Keys == old(k.links.next.Keys)
  {
    hide Core, RequestsOk, BuffersOk, MessagesOk, NumbersOk, FlagStateOk, PriorityOk, EncodingOk, S.ListsInv, SettleMem,
      Apply,
      Enabled, LevelsOk, ListsKeyed, RunQueuesKeyed, KernelLinks.Linked, Reply, ReplyInt;
    ReplyMem(s, t, reply);
    ReplyIsSafe(s, DoReply(t, reply));
    ShapeOfLists(k.Abs());
    var out;
    if isr {
      out := k.MsgReplyInt(t, reply);
    } else {
      out := k.MsgReply(t, reply);
    }
    ShapeOfLists(k.Abs());
    k.SchedSwitch(out, isr);
  }

  method PerformBox(k: Kernel, ghost s: K, step: Step, isr: bool, msg: Msg)
    requires Matches(k, s) && Safe(s) && Enabled(s, step) && isr == s.c.isr && Carries(s, step, msg)
    requires HasHeads(k.links.next.Keys, step) && (step.DoPut? || step.DoGet?)
    modifies k, k.links
    ensures Matches(k, Apply(s, step)) && k.links.next.Keys == old(k.links.next.Keys)
  {
    hide Core, RequestsOk, BuffersOk, MessagesOk, NumbersOk, FlagStateOk, PriorityOk, EncodingOk, S.ListsInv, SettleMem,
      Apply,
      Enabled, LevelsOk, ListsKeyed, RunQueuesKeyed, KernelLinks.Linked, PutMsg, GetMsg;
    if step.blocking { CallerRuns(s, step); }
    var out;
    if step.DoPut? {
      PutMem(s, step, msg);
      out := k.MboxPut(step.b, msg, step.blocking);
    } else {
      GetMem(s, step.b, step.blocking);
      var got;
      out, got := k.MboxGet(step.b, step.blocking);
    }
    ShapeOfLists(k.Abs());
    k.SchedSwitch(out, isr);
  }

  lemma ExitGuard(s: K)
    requires Core(s) && Enabled(s, DoExit)
    ensures Lst(s.m.lists, MsgWaiters(s.m.active)) == []
    ensures s.c.idle in s.m.prio && S.On(s.m.status, s.c.idle) && s.c.idle != s.m.active
  {
    hide ExitOk, S.ListsInv, LevelsOk, ListsKeyed, RunQueuesKeyed;
  }

  method PerformLife(k: Kernel, ghost s: K, step: Step, isr: bool)
    requires Matches(k, s) && Safe(s) && Enabled(s, step) && isr == s.c.isr && (step.DoCreate? || step.DoExit?)
    modifies k, k.links
    ensures Matches(k, Apply(s, step)) && old(k.links.next.Keys) <= k.links.next.Keys
  {
    hide Core, RequestsOk, BuffersOk, MessagesOk, NumbersOk, FlagStateOk, PriorityOk, EncodingOk, S.ListsInv, SettleMem,
      Apply,
      Enabled, LevelsOk, ListsKeyed, RunQueuesKeyed, KernelLinks.Linked, Create, Exit, ExitOk;
    LifeCallMem(s, step);
    CallerRuns(s, step);
    if step.DoCreate? {
      var out := k.ThreadCreate(step.prio, step.sleeping, step.wout, step.flags);
      ShapeOfLists(k.Abs());
      k.SchedSwitch(out, isr);
    } else {
      ExitGuard(s);
      k.TaskExit(s.c.idle);
    }
  }

  /** The rest of a call, once its thread runs again. */
  method PerformRest(k: Kernel, rest: Cont)
    requires k.Valid() && Shape(k.Abs()) && (rest.PutDone? ==> rest.mbox in k.mbox)
    modifies k`flags, k`mbox
    ensures k.Valid() && k.Abs() == ResumeMem(old(k.Abs()), rest)
  {
    hide S.ListsInv, KernelLinks.Linked, LevelsOk, ListsKeyed, RunQueuesKeyed, F.Clear, Store;
    if rest.ClearAny? {
      var _ := k.FlagsClear(k.active, rest.mask);
    } else if rest.ClearAll? {
      var _ := k.FlagsClear(k.active, rest.mask);
    } else if rest.ClearOne? {
      var _ := k.FlagsClear(k.active, F.LowestFlag(rest.read));
    } else if rest.PutDone? {
      k.MboxStore(rest.mbox, rest.msg);
    }
  }

  method PerformInner(k: Kernel, ghost s: K, step: Step, rest: Cont)
    requires Matches(k, s) && Safe(s) && Enabled(s, step) && Inner(step)
    requires step.Resume? ==> s.m.active in s.c.pc && s.c.pc[s.m.active] == Do(rest)
    modifies k, k.links
    ensures Matches(k, Apply(s, step)) && k.links.next.Keys == old(k.links.next.Keys)
  {
    hide Core, RequestsOk, BuffersOk, MessagesOk, NumbersOk, FlagStateOk, PriorityOk, EncodingOk, S.ListsInv, SettleMem,
      Apply,
      Enabled, LevelsOk, ListsKeyed, RunQueuesKeyed, KernelLinks.Linked, S.SchedRun,
      S.RotateActive, ResumeMem, S.Runnable;
    InnerMem(s, step);
    ShapeOfLists(k.Abs());
    if step.Schedule? {
      k.SchedRun();
    } else if step.MoveToTail? {
      k.RotateActive();
    } else if step.Resume? {
      PerformRest(k, rest);
    } else if step.IsrExit? && k.csr {
      RotateStaysRunnable(s.m);
      if step.rotate {
        k.RotateActive();
      }
      k.SchedRun();
    }
  }

  lemma RotateStaysRunnable(m: Mem)
    requires Shape(m) && S.Runnable(m)
    ensures S.Runnable(S.RotateActive(m))
  {
    hide LevelsOk, ListsKeyed, RunQueuesKeyed;
  }

  /** A call that may block comes from the running thread. */
  lemma CallerRuns(s: K, step: Step)
    requires Core(s) && Enabled(s, step) && !Inner(step) && !step.DoWakeup? && !step.DoUnlock? && !step.DoReply?
    requires !step.DoFlagsSet?
    requires !step.DoSendInt? && (step.DoPut? || step.DoGet? ==> step.blocking)
    ensures S.ActiveRuns(s.m)
  {
    hide CountersFresh, ExitOk, CoreInv, LevelsOk, ListsKeyed, RunQueuesKeyed, S.ActiveRuns, Ready;
    ReadyRuns(s.m, s.c);
  }

  /** What the code has at hand in a step: whether an interrupt runs, the rest
      of the call that is resumed, the message that is sent. */
  datatype Input = Input(isr: bool, rest: Cont, msg: Msg)

  ghost predicate Supplies(s: K, step: Step, now: Input) {
    && now.isr == s.c.isr && Carries(s, step, now.msg)
    && (step.Resume? ==> s.m.active in s.c.pc && s.c.pc[s.m.active] == Do(now.rest))
  }

  /** One step of the machine, performed by the code. */
  method Perform(k: Kernel, ghost s: K, step: Step, now: Input)
    requires Matches(k, s) && Safe(s) && Enabled(s, step) && Supplies(s, step, now) && HasHeads(k.links.next.Keys, step)
    modifies k, k.links
    ensures Matches(k, Apply(s, step)) && old(k.links.next.Keys) <= k.links.next.Keys
  {
    hide Safe, Enabled, Apply, Carries, HasHeads, Matches;
    if Inner(step) {
      PerformInner(k, s, step, now.rest);
    } else if step.DoCreate? || step.DoExit? {
      PerformLife(k, s, step, now.isr);
    } else if step.DoLock? || step.DoUnlock? || step.DoUnlockSleep? {
      PerformMutex(k, s, step, now.isr);
    } else if step.DoSend? || step.DoRequest? || step.DoSendInt? {
      PerformSend(k, s, step, now.isr, now.msg);
    } else if step.DoReceive? || step.DoReply? || step.DoInitQueue? {
      PerformReceive(k, s, step, now.isr);
    } else if step.DoPut? || step.DoGet? {
      PerformBox(k, s, step, now.isr, now.msg);
    } else if step.DoSleep? || step.DoYield? || step.DoWakeup? || step.DoFlagsSet? {
      PerformThread(k, s, step, now.isr);
    } else {
      PerformFlags(k, s, step);
    }
  }

  /** Every run of the machine, performed by the code. */
  method Replay(k: Kernel, ghost tr: seq<K>, steps: seq<Step>, inputs: seq<Input>)
    requires Run(tr, steps) && Matches(k, tr[0]) && |inputs| == |steps|
    requires forall i :: 0 <= i < |steps| ==>
               Supplies(tr[i], steps[i], inputs[i]) && HasHeads(k.links.next.Keys, steps[i])
    modifies k, k.links
    ensures Matches(k, tr[|steps|])
  {
    hide Safe, Enabled, Apply, Supplies, Matches, Boot, Inner;
    for i := 0 to |steps|
      invariant Matches(k, tr[i]) && old(k.links.next.Keys) <= k.links.next.Keys
    {
      RunIsSafe(tr, steps, i);
      assert Next(tr[i], steps[i], tr[i + 1]);
      Perform(k, tr[i], steps[i], inputs[i]);
    }
  }
}
