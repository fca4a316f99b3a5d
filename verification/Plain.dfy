/** Which steps leave messages, buffers and mailboxes alone. */
module PlainSteps {
  import opened Names
  import opened Sequences
  import opened CircularIndex
  import opened KernelState
  import opened Scheduler
  import opened Threads
  import opened Mutexes
  import F = ThreadFlags
  import opened Messages
  import opened Machine

  /** Calls that neither carry a message nor create or end a thread. */
  predicate Plain(step: Step) {
    step.DoSleep? || step.DoYield? || step.DoLock? || step.DoUnlockSleep? || step.DoInitQueue? || step.DoFlagsClear?
    || step.DoWaitAny? || step.DoWaitOne? || step.DoWaitAll? || step.DoWakeup? || step.DoUnlock? || step.DoFlagsSet?
  }

  ghost predicate SameData(m: Mem, r: Mem) {
    r.buf == m.buf && r.queue == m.queue && r.mbox == m.mbox
  }

  ghost predicate SameLogs(s: K, s': K) {
    s'.ms == s.ms && s'.bx == s.bx && s'.given == s.given && s'.open == s.open && s'.nextId == s.nextId
  }

  lemma WakeupData(m: Mem, t: Pid)
    requires Shape(m)
    ensures SameData(m, Sleep(m).0) && SameData(m, Wakeup(m, t).0)
  {
  }

  lemma YieldData(m: Mem)
    requires Shape(m)
    ensures SameData(m, YieldThread(m).0)
  {
  }

  lemma LockData(m: Mem, x: nat, blocking: bool)
    requires Shape(m)
    ensures SameData(m, Lock(m, x, blocking).0)
  {
    hide Insert;
  }

  lemma UnlockData(m: Mem, x: nat)
    requires Shape(m)
    ensures SameData(m, Unlock(m, x).0) && SameData(m, UnlockAndSleep(m, x).0)
  {
  }

  lemma WaitForData(m: Mem, mask: bv16, st: Status, k: Cont)
    requires Shape(m)
    ensures SameData(m, F.WaitFor(m, mask, st, k).0)
  {
  }

  lemma WaitData(m: Mem, mask: bv16, k: Cont)
    requires Shape(m)
    ensures SameData(m, F.WaitAny(m, mask, k).0) && SameData(m, F.WaitAll(m, mask).0)
  {
    hide F.WaitFor;
    WaitForData(m, mask, FlagBlockedAny, k);
    WaitForData(m, mask, FlagBlockedAll, ClearAll(mask));
  }

  lemma ClearData(m: Mem, t: Pid, mask: bv16)
    requires Shape(m) && t in m.prio
    ensures SameData(m, F.Clear(m, t, mask).0)
  {
  }

  lemma SetData(m: Mem, t: Pid, mask: bv16)
    requires Shape(m) && t in m.prio
    ensures SameData(m, F.Set(m, t, mask).0)
  {
    hide F.Met;
  }

  lemma EndedSame(s: K, r: Mem, out: Out)
    requires r.active in r.prio && SameData(s.m, r)
    ensures SameData(s.m, Ended(s, r, out).m) && SameLogs(s, Ended(s, r, out))
  {
  }

  lemma LockSame(s: K, x: nat, blocking: bool)
    requires Defined(s.m, s.c)
    ensures SameData(s.m, StepLock(s, x, blocking).m) && SameLogs(s, StepLock(s, x, blocking))
  {
    hide Lock, Ended, SameData;
    LockData(s.m, x, blocking);
    EndedSame(s, Lock(s.m, x, blocking).0, Lock(s.m, x, blocking).1);
  }

  lemma UnlockSame(s: K, x: nat)
    requires Defined(s.m, s.c)
    ensures SameData(s.m, StepUnlock(s, x).m) && SameLogs(s, StepUnlock(s, x))
    ensures SameData(s.m, StepUnlockSleep(s, x).m) && SameLogs(s, StepUnlockSleep(s, x))
  {
    hide Unlock, UnlockAndSleep, Ended, SameData;
    UnlockData(s.m, x);
    EndedSame(s, Unlock(s.m, x).0, Unlock(s.m, x).1);
    EndedSame(s, UnlockAndSleep(s.m, x).0, UnlockAndSleep(s.m, x).1);
  }

  lemma WaitSame(s: K, r: Mem, out: Out, k: Cont)
    requires r.active in r.prio && SameData(s.m, r)
    ensures SameData(s.m, StepWait(s, r, out, k).m) && SameLogs(s, StepWait(s, r, out, k))
  {
    hide Ended, SameData;
    EndedSame(s, r, out);
  }

  lemma WaitAnySame(s: K, mask: bv16, k: Cont)
    requires Defined(s.m, s.c)
    ensures SameData(s.m, StepWaitAny(s, mask, k).m) && SameLogs(s, StepWaitAny(s, mask, k))
  {
    hide F.WaitAny, StepWait, SameData, SameLogs;
    WaitData(s.m, mask, k);
    WaitSame(s, F.WaitAny(s.m, mask, k).0, F.WaitAny(s.m, mask, k).1, k);
  }

  lemma WaitAllSame(s: K, mask: bv16)
    requires Defined(s.m, s.c)
    ensures var e := StepWait(s, F.WaitAll(s.m, mask).0, F.WaitAll(s.m, mask).1, ClearAll(mask));
            SameData(s.m, e.m) && SameLogs(s, e)
  {
    hide F.WaitAll, StepWait, SameData, SameLogs;
    WaitData(s.m, mask, Return);
    WaitSame(s, F.WaitAll(s.m, mask).0, F.WaitAll(s.m, mask).1, ClearAll(mask));
  }

  lemma SleepSame(s: K, t: Pid)
    requires Defined(s.m, s.c)
    ensures var e := Ended(s, Sleep(s.m).0, Sleep(s.m).1); SameData(s.m, e.m) && SameLogs(s, e)
    ensures var e := Ended(s, Wakeup(s.m, t).0, Wakeup(s.m, t).1); SameData(s.m, e.m) && SameLogs(s, e)
    ensures var e := Ended(s, YieldThread(s.m).0, YieldThread(s.m).1); SameData(s.m, e.m) && SameLogs(s, e)
  {
    hide Sleep, Wakeup, YieldThread, Ended, SameData, SameLogs;
    WakeupData(s.m, t);
    YieldData(s.m);
    EndedSame(s, Sleep(s.m).0, Sleep(s.m).1);
    EndedSame(s, Wakeup(s.m, t).0, Wakeup(s.m, t).1);
    EndedSame(s, YieldThread(s.m).0, YieldThread(s.m).1);
  }

  lemma ClearStepSame(s: K, mask: bv16)
    requires Enabled(s, DoFlagsClear(mask))
    ensures SameData(s.m, Apply(s, DoFlagsClear(mask)).m) && SameLogs(s, Apply(s, DoFlagsClear(mask)))
  {
    hide Ready, F.Clear, SameData, LevelsOk, ListsKeyed, RunQueuesKeyed;
    ClearData(s.m, s.m.active, mask);
  }

  lemma SetStepSame(s: K, t: Pid, mask: bv16)
    requires Enabled(s, DoFlagsSet(t, mask))
    ensures SameData(s.m, Apply(s, DoFlagsSet(t, mask)).m) && SameLogs(s, Apply(s, DoFlagsSet(t, mask)))
  {
    hide Ready, F.Set, Ended, SameData, SameLogs, LevelsOk, ListsKeyed, RunQueuesKeyed;
    SetData(s.m, t, mask);
    EndedSame(s, F.Set(s.m, t, mask).0, F.Set(s.m, t, mask).1);
  }

  lemma WaitStepSame(s: K, step: Step)
    requires Enabled(s, step) && (step.DoWaitAny? || step.DoWaitOne? || step.DoWaitAll?)
    ensures SameData(s.m, Apply(s, step).m) && SameLogs(s, Apply(s, step))
  {
    hide Ready, F.WaitAll, StepWaitAny, StepWait, SameData, SameLogs, LevelsOk, ListsKeyed, RunQueuesKeyed;
    if step.DoWaitAny? {
      WaitAnySame(s, step.mask, ClearAny(step.mask));
    } else if step.DoWaitOne? {
      WaitAnySame(s, step.mask, ReadOne(step.mask));
    } else {
      WaitAllSame(s, step.mask);
    }
  }

  lemma FlagStepSame(s: K, step: Step)
    requires Enabled(s, step)
    requires step.DoFlagsClear? || step.DoFlagsSet? || step.DoWaitAny? || step.DoWaitOne? || step.DoWaitAll?
    ensures SameData(s.m, Apply(s, step).m) && SameLogs(s, Apply(s, step))
  {
    hide Enabled, Apply, SameData, SameLogs;
    if step.DoFlagsClear? {
      ClearStepSame(s, step.mask);
    } else if step.DoFlagsSet? {
      SetStepSame(s, step.t, step.mask);
    } else {
      WaitStepSame(s, step);
    }
  }

  lemma PlainKeepsMessages(s: K, step: Step)
    requires Enabled(s, step) && Plain(step) && !step.DoInitQueue?
    ensures SameData(s.m, Apply(s, step).m) && SameLogs(s, Apply(s, step))
  {
    hide Ready, Sleep, Wakeup, YieldThread, Ended, StepLock, StepUnlock, StepUnlockSleep, SameData, SameLogs,
      CountersFresh;
    if step.DoSleep? || step.DoYield? {
      SleepSame(s, 0);
    } else if step.DoWakeup? {
      SleepSame(s, step.t);
    } else if step.DoLock? {
      LockSame(s, step.x, step.blocking);
    } else if step.DoUnlock? || step.DoUnlockSleep? {
      UnlockSame(s, step.x);
    } else {
      hide Enabled, Apply;
      FlagStepSame(s, step);
    }
  }

  // Steps that leave the flags alone

  predicate Quiet(step: Step) {
    step.DoSleep? || step.DoYield? || step.DoLock? || step.DoUnlockSleep? || step.DoInitQueue? || step.DoWakeup?
    || step.DoUnlock?
  }

  lemma QuietFlags(m: Mem, x: nat, blocking: bool, t: Pid)
    requires Shape(m)
    ensures Sleep(m).0.flags == m.flags && Wakeup(m, t).0.flags == m.flags
    ensures Lock(m, x, blocking).0.flags == m.flags
  {
    hide Insert;
  }

  lemma UnlockFlags(m: Mem, x: nat)
    requires Shape(m)
    ensures Unlock(m, x).0.flags == m.flags && UnlockAndSleep(m, x).0.flags == m.flags
  {
  }

  lemma YieldFlags(m: Mem)
    requires Shape(m)
    ensures YieldThread(m).0.flags == m.flags
  {
  }

  ghost predicate SameFlags(m: Mem, r: Mem) {
    r.flags == m.flags
  }

  lemma InitQueueFlags(s: K, slots: seq<Msg>)
    requires Defined(s.m, s.c) && IsSize(|slots|) && |slots| < U32
    ensures SameFlags(s.m, InitQueue(s.m, slots))
  {
  }

  lemma MutexFlags(s: K, x: nat, blocking: bool)
    requires Defined(s.m, s.c)
    ensures SameFlags(s.m, StepLock(s, x, blocking).m)
    ensures SameFlags(s.m, StepUnlock(s, x).m) && SameFlags(s.m, StepUnlockSleep(s, x).m)
  {
    hide Lock, Unlock, UnlockAndSleep, SettlePc, LockLog, UnlockLog;
    QuietFlags(s.m, x, blocking, 0);
    UnlockFlags(s.m, x);
  }

  lemma SleepFlags(s: K, t: Pid)
    requires Defined(s.m, s.c)
    ensures SameFlags(s.m, Ended(s, Sleep(s.m).0, Sleep(s.m).1).m)
    ensures SameFlags(s.m, Ended(s, Wakeup(s.m, t).0, Wakeup(s.m, t).1).m)
    ensures SameFlags(s.m, Ended(s, YieldThread(s.m).0, YieldThread(s.m).1).m)
  {
    hide Sleep, Wakeup, YieldThread, SettlePc;
    QuietFlags(s.m, 0, false, t);
    YieldFlags(s.m);
  }

  lemma QuietKeepsFlags(s: K, step: Step)
    requires Enabled(s, step) && Quiet(step)
    ensures SameFlags(s.m, Apply(s, step).m)
  {
    hide Shape, Ready, Sleep, YieldThread, Wakeup, Ended, StepLock, StepUnlock, StepUnlockSleep, InitQueue, SameFlags,
      IsSize;
    if step.DoSleep? || step.DoYield? {
      SleepFlags(s, 0);
    } else if step.DoWakeup? {
      SleepFlags(s, step.t);
    } else if step.DoLock? {
      MutexFlags(s, step.x, step.blocking);
    } else if step.DoInitQueue? {
      InitQueueFlags(s, step.slots);
    } else {
      MutexFlags(s, step.x, false);
    }
  }

  // Steps between sections

  /** Nobody was blocked or woken. */
  ghost predicate StillOn(prio: map<Pid, nat>, status: map<Pid, Status>, status': map<Pid, Status>) {
    forall t :: t in prio ==>
      && t in status && t in status'
      && (status'[t] == status[t] || (OnRunqueue(status[t]) && OnRunqueue(status'[t])))
  }

  ghost predicate SamePlaces(m: Mem, r: Mem) {
    r.prio == m.prio && r.lists == m.lists && r.at == m.at && r.wait == m.wait
  }

  ghost predicate SameStores(m: Mem, r: Mem) {
    r.buf == m.buf && r.queue == m.queue && r.locked == m.locked
  }

  lemma RunEffect(m: Mem)
    requires ListsInv(m) && Runnable(m)
    ensures var r := SchedRun(m); StillOn(m.prio, m.status, r.status) && SamePlaces(m, r) && SameStores(m, r)
  {
    NextThreadIsBest(m);
    hide RunQueuesOk, WaitListsOk, PlacesOk;
  }

  lemma RotateEffect(m: Mem)
    requires Shape(m)
    ensures var r := RotateActive(m); r.status == m.status && SamePlaces(m, r) && SameStores(m, r)
  {
    hide Rotate;
  }

  lemma ResumeEffect(m: Mem, k: Cont)
    requires Shape(m) && (k.PutDone? ==> k.mbox in m.mbox)
    ensures var r := ResumeMem(m, k); r.status == m.status && SamePlaces(m, r) && SameStores(m, r)
  {
    hide Shape, PutSlot;
  }

  lemma StillOnSame(prio: map<Pid, nat>, status: map<Pid, Status>)
    requires Covers(prio, status)
    ensures StillOn(prio, status, status)
  {
  }

  lemma ScheduleEffect(s: K)
    requires ListsInv(s.m) && CanRun(s.m) && s.m.active in s.c.pc && s.c.pc[s.m.active].Gap?
    ensures Unmoved(s.m, StepSchedule(s).m)
  {
    hide SchedRun, SamePlaces, SameStores;
    RunEffect(s.m);
  }

  lemma IsrExitEffect(s: K, rotate: bool)
    requires ListsInv(s.m) && CanRun(s.m)
    ensures Unmoved(s.m, StepIsrExit(s, rotate).m)
  {
    RotateKeepsLists(s.m);
    RotateEffect(s.m);
    hide SchedRun, RotateActive, RunQueuesOk, WaitListsOk, PlacesOk;
    if s.m.csr { RunEffect(if rotate then RotateActive(s.m) else s.m); }
  }

  ghost predicate Unmoved(m: Mem, r: Mem) {
    StillOn(m.prio, m.status, r.status) && SamePlaces(m, r) && SameStores(m, r)
  }

  lemma SelfUnmoved(m: Mem)
    requires Shape(m)
    ensures Unmoved(m, m)
  {
  }

  lemma MoveToTailEffect(s: K)
    requires Shape(s.m) && s.m.active in s.c.pc && s.c.pc[s.m.active].Rotating?
    ensures Unmoved(s.m, StepMoveToTail(s).m)
  {
    hide RotateActive, SamePlaces, SameStores;
    RotateEffect(s.m);
    StillOnSame(s.m.prio, s.m.status);
  }

  lemma ResumeStepEffect(s: K, k: Cont)
    requires Shape(s.m) && (k.PutDone? ==> k.mbox in s.m.mbox)
    ensures Unmoved(s.m, StepResume(s, k).m)
  {
    hide ResumeMem, SamePlaces, SameStores;
    ResumeEffect(s.m, k);
    StillOnSame(s.m.prio, s.m.status);
  }

  /** No step between sections blocks, wakes or moves anybody. */
  lemma InnerEffect(s: K, step: Step)
    requires ListsInv(s.m) && Enabled(s, step) && Inner(step)
    ensures Unmoved(s.m, Apply(s, step).m)
  {
    hide StepSchedule, StepIsrExit, StepMoveToTail, StepResume, ListsInv, Unmoved;
    SelfUnmoved(s.m);
    match step
    case Schedule => ScheduleEffect(s);
    case MoveToTail => MoveToTailEffect(s);
    case Resume => ResumeStepEffect(s, s.c.pc[s.m.active].k);
    case IsrExit(rotate) => IsrExitEffect(s, rotate);
    case _ =>
  }

  lemma InnerKeepsLogs(s: K, step: Step)
    requires Enabled(s, step) && Inner(step)
    ensures var s' := Apply(s, step); s'.ms == s.ms && s'.given == s.given && s'.open == s.open && s'.nextId == s.nextId
  {
    hide SchedRun, RotateActive, ResumeMem, Shape;
  }
}
