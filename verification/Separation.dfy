/** What every step keeps about threads, lists and the active thread. */
module Separation {
  import opened Names
  import opened CircularIndex
  import opened KernelState
  import opened Scheduler
  import opened Threads
  import opened Mutexes
  import F = ThreadFlags
  import opened Messages
  import opened Mailboxes
  import opened Machine

  /** A thread's program counter and status agree. */
  predicate Agree(pc: Pc, st: Status, at: Option<ListId>, wait: WaitData) {
    || OnRunqueue(st)
    || match pc
       case User => st.Sleeping? && at == None
       case Switch(_) => false
       case Gap(k) => Waiting(k, st, at, wait)
       case Rotating(k) => Waiting(k, st, at, wait)
       case Do(k) => Waiting(k, st, at, wait)
  }

  ghost predicate AllAgree(prio: map<Pid, nat>, pc: map<Pid, Pc>, status: map<Pid, Status>,
                           at: map<Pid, Option<ListId>>, wait: map<Pid, WaitData>) {
    forall t :: t in prio ==>
      t in pc && t in status && t in at && t in wait && Agree(pc[t], status[t], at[t], wait[t])
  }

  /** Outside the gap between a blocking section and its yield, the active
      thread is runnable and the first of its level. */
  ghost predicate ActiveOk(m: Mem, pc: map<Pid, Pc>)
    requires Shape(m) && m.active in pc
  {
    pc[m.active].Gap? || pc[m.active].Rotating? || (On(m.status, m.active) && AtHead(m, m.active))
  }

  ghost predicate IdleOk(m: Mem, pc: map<Pid, Pc>, idle: Pid) {
    idle in m.prio && On(m.status, idle) && idle in pc && pc[idle] == User
  }

  /** Put continuations name mailboxes that exist. */
  ghost predicate BoxesNamed(prio: map<Pid, nat>, pc: map<Pid, Pc>, mbox: map<nat, Mailbox>) {
    forall t :: t in prio && t in pc && (pc[t].Gap? || pc[t].Rotating? || pc[t].Do?) && pc[t].k.PutDone?
      ==> pc[t].k.mbox in mbox
  }

  ghost predicate CoreInv(m: Mem, c: Ctl) {
    && ListsInv(m)
    && AllAgree(m.prio, c.pc, m.status, m.at, m.wait)
    && ActiveOk(m, c.pc)
    && IdleOk(m, c.pc, c.idle)
    && BoxesNamed(m.prio, c.pc, m.mbox)
  }

  lemma CoreLists(m: Mem, c: Ctl)
    requires CoreInv(m, c)
    ensures ListsInv(m)
  {
  }

  lemma CoreShape(m: Mem, c: Ctl)
    requires CoreInv(m, c)
    ensures Shape(m)
  {
  }

  lemma CoreAgrees(m: Mem, c: Ctl)
    requires CoreInv(m, c)
    ensures AllAgree(m.prio, c.pc, m.status, m.at, m.wait)
  {
  }

  lemma CoreKeys(m: Mem, c: Ctl)
    requires CoreInv(m, c)
    ensures forall t :: t in m.prio ==> t in c.pc
  {
  }

  lemma ReadyRuns(m: Mem, c: Ctl)
    requires CoreInv(m, c) && Defined(m, c) && Ready(m, c)
    ensures ActiveRuns(m)
  {
  }

  lemma ReadyIsUser(s: K)
    requires Core(s) && Defined(s.m, s.c) && Ready(s.m, s.c)
    ensures On(s.m.status, s.m.active) && ActiveRuns(s.m) && s.c.pc[s.m.active] == User
  {
  }

  // One lemma for all sections

  lemma StillAgree(m: Mem, r: Mem, w: set<Status>, b: set<Status>, pc: map<Pid, Pc>, pc': map<Pid, Pc>)
    requires Shape(m) && Shape(r) && r.prio == m.prio
    requires Moves(w, b, m.active, m.prio, m.status, m.at, m.wait, r.status, r.at, r.wait)
    requires AllAgree(m.prio, pc, m.status, m.at, m.wait)
    requires forall t :: t in pc && t != m.active ==> t in pc' && pc'[t] == pc[t]
    requires m.active in pc' && Agree(pc'[m.active], r.status[m.active], r.at[m.active], r.wait[m.active])
    ensures AllAgree(r.prio, pc', r.status, r.at, r.wait)
  {
    hide Agree, Moves, LevelsOk, ListsKeyed, RunQueuesKeyed;
    forall t | t in r.prio
      ensures t in pc' && t in r.status && t in r.at && t in r.wait
      ensures Agree(pc'[t], r.status[t], r.at[t], r.wait[t])
    {
      if t != m.active { StillAgrees(m, r, w, b, pc[t], t); }
    }
  }

  lemma StillAgrees(m: Mem, r: Mem, w: set<Status>, b: set<Status>, pc: Pc, t: Pid)
    requires Moves(w, b, m.active, m.prio, m.status, m.at, m.wait, r.status, r.at, r.wait)
    requires t in m.prio && t != m.active && t in m.status && t in m.at && t in m.wait
    requires t in r.status && t in r.at && t in r.wait && Agree(pc, m.status[t], m.at[t], m.wait[t])
    ensures Agree(pc, r.status[t], r.at[t], r.wait[t])
  {
  }

  lemma IdleStays(m: Mem, r: Mem, w: set<Status>, b: set<Status>, pc: map<Pid, Pc>, idle: Pid)
    requires Shape(m) && Shape(r) && r.prio == m.prio && (idle != m.active || b == {})
    requires Moves(w, b, m.active, m.prio, m.status, m.at, m.wait, r.status, r.at, r.wait)
    requires IdleOk(m, pc, idle)
    ensures IdleOk(r, pc, idle)
  {
    assert r.status[idle] in r.status.Values;
  }

  /** A good section of a running thread, however it ends. */
  lemma SectionKeepsCore(m: Mem, c: Ctl, r: Mem, out: Out, w: set<Status>, b: set<Status>)
    requires CoreInv(m, c) && Defined(m, c) && Ready(m, c) && GoodSection(m, r, out, w, b)
    ensures CoreInv(r, c.(pc := SettlePc(c.pc, c.isr, r.active, out)))
  {
    hide RunQueuesOk, WaitListsOk, PlacesOk, Moves, AllAgree, LevelsOk, ListsKeyed, RunQueuesKeyed, ListsKept;
    var pc := SettlePc(c.pc, c.isr, r.active, out);
    SectionEnds(m, c, r, out, w, b);
    StillAgree(m, r, w, b, c.pc, pc);
    IdleStays(m, r, w, b, c.pc, c.idle);
    assert IdleOk(r, pc, c.idle);
  }

  /** The caller's program counter behind the section. */
  lemma SectionEnds(m: Mem, c: Ctl, r: Mem, out: Out, w: set<Status>, b: set<Status>)
    requires CoreInv(m, c) && Defined(m, c) && Ready(m, c) && GoodSection(m, r, out, w, b)
    ensures var pc := SettlePc(c.pc, c.isr, r.active, out);
            && Agree(pc[r.active], r.status[r.active], r.at[r.active], r.wait[r.active])
            && ActiveOk(r, pc) && BoxesNamed(r.prio, pc, r.mbox)
  {
    hide RunQueuesOk, WaitListsOk, PlacesOk, Moves, AllAgree, LevelsOk, ListsKeyed, RunQueuesKeyed, ListsKept;
  }

  lemma IsrSectionKeepsCore(m: Mem, c: Ctl, r: Mem, w: set<Status>)
    requires CoreInv(m, c) && GoodIsrSection(m, r, w)
    ensures CoreInv(r, c)
  {
    hide RunQueuesOk, WaitListsOk, PlacesOk, Moves, AllAgree;
    StillAgreeAll(m, r, w, c.pc);
    assert AllAgree(r.prio, c.pc, r.status, r.at, r.wait);
    IdleStays(m, r, w, {}, c.pc, c.idle);
    assert ActiveOk(r, c.pc);
    assert BoxesNamed(r.prio, c.pc, r.mbox);
  }

  lemma StillAgreeAll(m: Mem, r: Mem, w: set<Status>, pc: map<Pid, Pc>)
    requires Shape(m) && AllAgree(m.prio, pc, m.status, m.at, m.wait) && GoodIsrSection(m, r, w)
    ensures AllAgree(r.prio, pc, r.status, r.at, r.wait)
  {
    assert Agree(pc[m.active], m.status[m.active], m.at[m.active], m.wait[m.active]);
    assert Agree(pc[m.active], r.status[m.active], r.at[m.active], r.wait[m.active]);
    StillAgree(m, r, w, {}, pc, pc);
  }

  /** Going on without yielding. */
  lemma GoOnKeepsCore(m: Mem, c: Ctl, pc: Pc)
    requires CoreInv(m, c) && ActiveRuns(m) && m.active != c.idle
    requires pc == User || (pc.Do? && !pc.k.PutDone?)
    ensures CoreInv(m, c.(pc := c.pc[m.active := pc]))
  {
    hide RunQueuesOk, WaitListsOk, PlacesOk;
  }

  ghost predicate Core(s: K) {
    CoreInv(s.m, s.c)
  }

  /** A call moves only its caller's program counter, and leaves a runnable
      caller with nothing to wait for, unless it waits for flags that are set. */
  ghost predicate PcMoves(c: Ctl, c': Ctl, a: Pid, status: map<Pid, Status>, b: set<Status>) {
    && c'.isr == c.isr && c'.idle == c.idle && c'.lazy == c.lazy
    && (forall t :: t in c.pc && t != a ==> t in c'.pc && c'.pc[t] == c.pc[t])
    && if c.isr then c'.pc == c.pc
       else a in c'.pc && match c'.pc[a]
                          case User => true
                          case Switch(_) => true
                          case Gap(k) => On(status, a) ==> k == Return
                          case Rotating(k) => On(status, a) ==> k == Return
                          case Do(k) => (k.ClearAny? || k.ReadOne? || k.ClearAll?) && b * FLAG_WAITERS != {}
  }

  /** The step kept the invariant and woke and blocked only as stated. */
  ghost predicate Stepped(s: K, s': K, w: set<Status>, b: set<Status>) {
    Core(s') && Caller(s.m, s'.m, w, b) && PcMoves(s.c, s'.c, s.m.active, s'.m.status, b)
  }

  lemma SettleKeepsAll(s: K, r: Mem, c: Ctl, isr: bool, out: Out, w: set<Status>, b: set<Status>)
    requires CoreInv(r, c) && Caller(s.m, r, w, b)
    ensures CoreInv(SettleMem(r, isr, out), c) && Caller(s.m, SettleMem(r, isr, out), w, b)
  {
    hide RunQueuesOk, WaitListsOk, PlacesOk, Moves, AllAgree;
  }

  /** The step ends like a section with result `r`, records aside. */
  ghost predicate EndsAs(s: K, r: Mem, out: Out, s': K)
    requires r.active in r.prio
  {
    s'.m == SettleMem(r, s.c.isr, out) && s'.c == s.c.(pc := SettlePc(s.c.pc, s.c.isr, r.active, out))
  }

  lemma ThreadCall(s: K, r: Mem, out: Out, s': K, w: set<Status>, b: set<Status>)
    requires Core(s) && Defined(s.m, s.c) && Ready(s.m, s.c)
    requires GoodSection(s.m, r, out, w, b) && EndsAs(s, r, out, s')
    ensures Stepped(s, s', w, b)
  {
    SectionMovesPc(s, r, out, s', w, b);
    hide CoreInv, Caller, PcMoves;
    SectionKeepsCore(s.m, s.c, r, out, w, b);
    SettleKeepsAll(s, r, s'.c, s.c.isr, out, w, b);
  }

  lemma SectionMovesPc(s: K, r: Mem, out: Out, s': K, w: set<Status>, b: set<Status>)
    requires Defined(s.m, s.c) && Ready(s.m, s.c) && GoodSection(s.m, r, out, w, b) && EndsAs(s, r, out, s')
    ensures PcMoves(s.c, s'.c, s.m.active, s'.m.status, b)
  {
    hide RunQueuesOk, WaitListsOk, PlacesOk, Moves, ListsKept;
  }

  lemma SharedCall(s: K, r: Mem, out: Out, s': K, w: set<Status>)
    requires Core(s) && Defined(s.m, s.c) && (Ready(s.m, s.c) || s.c.isr)
    requires GoodIsrSection(s.m, r, w) && !out.Yield? && (out.YieldHigher? ==> out.k == Return)
    requires EndsAs(s, r, out, s')
    ensures Stepped(s, s', w, {})
  {
    if s.c.isr {
      hide CoreInv, Caller;
      IsrSectionKeepsCore(s.m, s.c, r, w);
      SettleKeepsAll(s, r, s'.c, s.c.isr, out, w, {});
    } else {
      ReadyRuns(s.m, s.c);
      ThreadCall(s, r, out, s', w, {});
    }
  }

  // Calls of threads

  lemma SleepKeepsCore(s: K)
    requires Core(s) && Defined(s.m, s.c) && Ready(s.m, s.c)
    ensures Stepped(s, Ended(s, Sleep(s.m).0, Sleep(s.m).1), {}, {Sleeping})
  {
    hide Sleep, GoodSection, Stepped;
    ReadyRuns(s.m, s.c);
    SleepIsGood(s.m);
    ThreadCall(s, Sleep(s.m).0, Sleep(s.m).1, Ended(s, Sleep(s.m).0, Sleep(s.m).1), {}, {Sleeping});
  }

  lemma YieldKeepsCore(s: K)
    requires Core(s) && Defined(s.m, s.c) && Ready(s.m, s.c)
    ensures Stepped(s, Ended(s, YieldThread(s.m).0, YieldThread(s.m).1), {}, {})
  {
    hide YieldThread, GoodSection, Stepped;
    ReadyRuns(s.m, s.c);
    YieldIsGood(s.m);
    ThreadCall(s, YieldThread(s.m).0, YieldThread(s.m).1, Ended(s, YieldThread(s.m).0, YieldThread(s.m).1), {}, {});
  }

  lemma LockKeepsCore(s: K, x: nat, blocking: bool)
    requires Core(s) && Defined(s.m, s.c) && Ready(s.m, s.c)
    ensures Stepped(s, StepLock(s, x, blocking), {}, {MutexBlocked})
  {
    hide Lock, GoodSection, Stepped;
    ReadyRuns(s.m, s.c);
    LockIsGood(s.m, x, blocking);
    ThreadCall(s, Lock(s.m, x, blocking).0, Lock(s.m, x, blocking).1, StepLock(s, x, blocking), {}, {MutexBlocked});
  }

  lemma UnlockSleepKeepsCore(s: K, x: nat)
    requires Core(s) && Defined(s.m, s.c) && Ready(s.m, s.c)
    ensures Stepped(s, StepUnlockSleep(s, x), {MutexBlocked}, {Sleeping})
  {
    hide UnlockAndSleep, GoodSection, Stepped;
    ReadyRuns(s.m, s.c);
    UnlockAndSleepIsGood(s.m, x);
    ThreadCall(s, UnlockAndSleep(s.m, x).0, UnlockAndSleep(s.m, x).1, StepUnlockSleep(s, x), {MutexBlocked},
               {Sleeping});
  }

  lemma SendKeepsCore(s: K, to: Pid, typ: nat, content: nat, blocking: bool)
    requires Core(s) && Defined(s.m, s.c) && Ready(s.m, s.c)
    ensures Stepped(s, StepSend(s, to, typ, content, blocking), RECEIVERS, {SendBlocked})
  {
    hide Send, GoodSection, Stepped;
    ReadyRuns(s.m, s.c);
    var msg := Msg(s.m.active, typ, content, s.nextId);
    SendIsGood(s.m, to, msg, blocking);
    ThreadCall(s, Send(s.m, to, msg, blocking).0, Send(s.m, to, msg, blocking).1,
               StepSend(s, to, typ, content, blocking), RECEIVERS, {SendBlocked});
  }

  lemma RequestKeepsCore(s: K, to: Pid, typ: nat, content: nat)
    requires Core(s) && Defined(s.m, s.c) && Ready(s.m, s.c) && to in s.m.prio && to != s.m.active
    ensures Stepped(s, StepRequest(s, to, typ, content), RECEIVERS, {SendBlocked, ReplyBlocked})
  {
    hide SendReceive, GoodSection, Stepped;
    ReadyRuns(s.m, s.c);
    var msg := Msg(s.m.active, typ, content, s.nextId);
    SendReceiveIsGood(s.m, to, msg);
    ThreadCall(s, SendReceive(s.m, to, msg).0, SendReceive(s.m, to, msg).1, StepRequest(s, to, typ, content), RECEIVERS,
               {SendBlocked, ReplyBlocked});
  }

  lemma ReceiveKeepsCore(s: K, blocking: bool)
    requires Core(s) && Defined(s.m, s.c) && Ready(s.m, s.c)
    ensures Stepped(s, StepReceive(s, blocking), {SendBlocked}, {ReceiveBlocked})
  {
    hide Receive, GoodSection, Stepped;
    ReadyRuns(s.m, s.c);
    ReceiveIsGood(s.m, blocking);
    ThreadCall(s, Receive(s.m, blocking).0, Receive(s.m, blocking).1, StepReceive(s, blocking), {SendBlocked},
               {ReceiveBlocked});
  }

  /** A section that changes data only. */
  lemma DataCall(s: K, r: Mem)
    requires Core(s) && Defined(s.m, s.c) && Ready(s.m, s.c) && SameThreads(s.m, r)
    requires r.rq == s.m.rq && r.lists == s.m.lists
    requires r.status == s.m.status && r.at == s.m.at && r.wait == s.m.wait && r.locked == s.m.locked
    requires r.mbox == s.m.mbox
    ensures Stepped(s, s.(m := r), {}, {})
  {
    hide GoodIsrSection, Stepped;
    CoreLists(s.m, s.c);
    DataIsGood(s.m, r, {});
    SharedCall(s, r, Done(0), s.(m := r), {});
  }

  lemma InitQueueKeepsCore(s: K, slots: seq<Msg>)
    requires Core(s) && Defined(s.m, s.c) && Ready(s.m, s.c) && IsSize(|slots|) && |slots| < U32
    ensures Stepped(s, s.(m := InitQueue(s.m, slots)), {}, {})
  {
    hide CoreInv, NewQueue, Stepped;
    DataCall(s, InitQueue(s.m, slots));
  }

  lemma FlagsClearKeepsCore(s: K, mask: bv16)
    requires Core(s) && Defined(s.m, s.c) && Ready(s.m, s.c)
    ensures Stepped(s, s.(m := F.Clear(s.m, s.m.active, mask).0), {}, {})
  {
    hide CoreInv, Stepped;
    DataCall(s, F.Clear(s.m, s.m.active, mask).0);
  }

  lemma WaitKeepsCore(s: K, r: Mem, out: Out, k: Cont, b: set<Status>)
    requires Core(s) && Defined(s.m, s.c) && Ready(s.m, s.c) && (k.ClearAny? || k.ClearAll? || k.ReadOne?)
    requires b * FLAG_WAITERS != {}
    requires if out.Done? then r == s.m else GoodSection(s.m, r, out, {}, b)
    ensures Stepped(s, StepWait(s, r, out, k), {}, b)
  {
    hide CoreInv, RunQueuesOk, WaitListsOk, PlacesOk, Moves, ListsKept, LevelsOk, ListsKeyed, RunQueuesKeyed;
    ReadyRuns(s.m, s.c);
    CoreLists(s.m, s.c);
    if out.Done? {
      GoOnKeepsCore(s.m, s.c, Do(k));
      DataIsGood(s.m, s.m, {});
      Widen(s.m, s.m, {}, {}, {}, b);
    } else {
      ThreadCall(s, r, out, StepWait(s, r, out, k), {}, b);
    }
  }

  lemma WaitAnyKeepsCore(s: K, mask: bv16, k: Cont)
    requires Core(s) && Defined(s.m, s.c) && Ready(s.m, s.c) && (k == ClearAny(mask) || k == ReadOne(mask))
    ensures Stepped(s, StepWaitAny(s, mask, k), {}, {FlagBlockedAny})
  {
    ReadyRuns(s.m, s.c);
    hide GoodSection, CoreInv, F.WaitAny, StepWait, Stepped;
    F.WaitAnyIsGood(s.m, mask, k);
    assert FlagBlockedAny in {FlagBlockedAny} * FLAG_WAITERS;
    WaitKeepsCore(s, F.WaitAny(s.m, mask, k).0, F.WaitAny(s.m, mask, k).1, k, {FlagBlockedAny});
  }

  lemma WaitAllKeepsCore(s: K, mask: bv16)
    requires Core(s) && Defined(s.m, s.c) && Ready(s.m, s.c)
    ensures Stepped(s, StepWait(s, F.WaitAll(s.m, mask).0, F.WaitAll(s.m, mask).1, ClearAll(mask)), {},
        {FlagBlockedAll})
  {
    ReadyRuns(s.m, s.c);
    hide GoodSection, CoreInv, F.WaitAll, StepWait, Stepped;
    F.WaitAllIsGood(s.m, mask);
    assert FlagBlockedAll in {FlagBlockedAll} * FLAG_WAITERS;
    WaitKeepsCore(s, F.WaitAll(s.m, mask).0, F.WaitAll(s.m, mask).1, ClearAll(mask), {FlagBlockedAll});
  }

  /** A new thread is in no wait list and agrees with its program counter. */
  lemma NewThreadKeepsCore(m: Mem, c: Ctl, r: Mem, t: Pid, prio: nat, st: Status)
    requires CoreInv(m, c) && t !in m.prio && ActiveRuns(r) && (st == Sleeping || st == Pending)
    requires r.active == m.active && r.mbox == m.mbox && r.prio == m.prio[t := prio]
    requires r.status == m.status[t := st] && r.at == m.at[t := None] && r.wait == m.wait[t := NoData]
    ensures CoreInv(r, c.(pc := c.pc[t := User]))
  {
    hide RunQueuesOk, WaitListsOk, PlacesOk;
    var pc := c.pc[t := User];
    assert AllAgree(r.prio, pc, r.status, r.at, r.wait);
    assert IdleOk(r, pc, c.idle);
    assert BoxesNamed(r.prio, pc, r.mbox);
  }

  lemma CreateKeepsCore(s: K, prio: nat, sleeping: bool, wout: bool, flags: bv16)
    requires Core(s) && Defined(s.m, s.c) && Ready(s.m, s.c)
    ensures Core(StepCreate(s, prio, sleeping, wout, flags))
  {
    ReadyRuns(s.m, s.c);
    CreateKeepsLists(s.m, prio, sleeping, wout, flags);
    CreateAddsOne(s.m, prio, sleeping, wout, flags);
    hide ListsInv, Create, ActiveRuns, AllAgree, BoxesNamed, IdleOk;
    var free := FreePid(s.m.prio, KERNEL_PID_FIRST, s.m.maxPid);
    if prio < |s.m.rq| && free.Some? {
      var t, st := free.value, if sleeping then Sleeping else Pending;
      var r, out := Create(s.m, prio, sleeping, wout, flags).0, Create(s.m, prio, sleeping, wout, flags).1;
      NewThreadKeepsCore(s.m, s.c, r, t, prio, st);
      SwitchKeepsCore(r, s.c.(pc := s.c.pc[t := User]), out);
    }
  }

  /** A section that ends with a return or a sched_switch. */
  lemma SwitchKeepsCore(m: Mem, c: Ctl, out: Out)
    requires CoreInv(m, c) && ActiveRuns(m) && !c.isr && m.active != c.idle && (out.Done? || out.SwitchTo?)
    ensures CoreInv(m, c.(pc := SettlePc(c.pc, c.isr, m.active, out)))
  {
    hide RunQueuesOk, WaitListsOk, PlacesOk;
  }

  lemma ExitKeepsCore(s: K)
    requires Core(s) && Defined(s.m, s.c) && Ready(s.m, s.c)
    requires Lst(s.m.lists, MsgWaiters(s.m.active)) == []
    ensures ExitOk(s.m) && Core(StepExit(s))
  {
    ReadyRuns(s.m, s.c);
    ExitKeepsLists(s.m, s.c.idle);
  }

  // Calls of threads and interrupt service routines

  lemma WakeupKeepsCore(s: K, t: Pid)
    requires Core(s) && Defined(s.m, s.c) && (Ready(s.m, s.c) || s.c.isr)
    ensures Stepped(s, Ended(s, Wakeup(s.m, t).0, Wakeup(s.m, t).1), {Sleeping}, {})
  {
    hide CoreInv, GoodIsrSection, Stepped;
    CoreLists(s.m, s.c);
    WakeupIsGood(s.m, t);
    SharedCall(s, Wakeup(s.m, t).0, Wakeup(s.m, t).1, Ended(s, Wakeup(s.m, t).0, Wakeup(s.m, t).1), {Sleeping});
  }

  lemma UnlockKeepsCore(s: K, x: nat)
    requires Core(s) && Defined(s.m, s.c) && (Ready(s.m, s.c) || s.c.isr)
    ensures Stepped(s, StepUnlock(s, x), {MutexBlocked}, {})
  {
    hide Unlock, CoreInv, GoodIsrSection, Stepped;
    CoreLists(s.m, s.c);
    UnlockIsGood(s.m, x);
    SharedCall(s, Unlock(s.m, x).0, Unlock(s.m, x).1, StepUnlock(s, x), {MutexBlocked});
  }

  lemma FlagsSetKeepsCore(s: K, t: Pid, mask: bv16)
    requires Core(s) && Defined(s.m, s.c) && (Ready(s.m, s.c) || s.c.isr) && t in s.m.prio
    ensures Stepped(s, Ended(s, F.Set(s.m, t, mask).0, F.Set(s.m, t, mask).1), FLAG_WAITERS, {})
  {
    hide F.SetAndWake, CoreInv, GoodIsrSection, Stepped;
    CoreLists(s.m, s.c);
    F.SetAndWakeIsGood(s.m, t, mask);
    SharedCall(s, F.Set(s.m, t, mask).0, F.Set(s.m, t, mask).1, Ended(s, F.Set(s.m, t, mask).0, F.Set(s.m, t, mask).1),
               FLAG_WAITERS);
  }

  lemma ReplyKeepsCore(s: K, t: Pid, reply: Msg)
    requires Core(s) && Defined(s.m, s.c) && (Ready(s.m, s.c) || s.c.isr) && t in s.m.prio
    requires s.m.status[t] == ReplyBlocked ==> s.m.at[t] == None
    ensures Stepped(s, StepReply(s, t, reply), {ReplyBlocked}, {})
  {
    hide HandOver, CoreInv, GoodIsrSection, SettlePc, SettleMem, Stepped;
    CoreLists(s.m, s.c);
    if s.m.status[t] == ReplyBlocked {
      var r := HandOver(s.m, t, reply);
      HandOverIsGood(s.m, t, reply, {ReplyBlocked});
      SwitchRequestIsGood(s.m, r, {ReplyBlocked});
      if s.c.isr { SharedCall(s, r.(csr := true), Done(1), StepReply(s, t, reply), {ReplyBlocked}); }
      else { SharedCall(s, r, SwitchTo(s.m.prio[t]), StepReply(s, t, reply), {ReplyBlocked}); }
    } else {
      DataIsGood(s.m, s.m, {ReplyBlocked});
      SharedCall(s, s.m, Done(-1), StepReply(s, t, reply), {ReplyBlocked});
    }
  }

  lemma BoxCall(s: K, r: Mem, out: Out, s': K, blocking: bool)
    requires Core(s) && Defined(s.m, s.c) && (Ready(s.m, s.c) || (s.c.isr && !blocking))
    requires r.active in r.prio && GoodBoxSection(s.m, r, out, blocking) && EndsAs(s, r, out, s')
    ensures Stepped(s, s', {MboxBlocked}, {MboxBlocked})
  {
    if s.c.isr {
      hide CoreInv, Caller;
      SharedCall(s, r, out, s', {MboxBlocked});
      Widen(s.m, s'.m, {MboxBlocked}, {}, {MboxBlocked}, {MboxBlocked});
    } else {
      ReadyRuns(s.m, s.c);
      ThreadCall(s, r, out, s', {MboxBlocked}, {MboxBlocked});
    }
  }

  lemma PutKeepsCore(s: K, b: nat, typ: nat, content: nat, blocking: bool)
    requires Core(s) && Defined(s.m, s.c) && b in s.m.mbox && (Ready(s.m, s.c) || (s.c.isr && !blocking))
    ensures Stepped(s, StepPut(s, b, typ, content, blocking), {MboxBlocked}, {MboxBlocked})
  {
    hide PutMsg, CoreInv, GoodBoxSection, Stepped, SettleMem, SettlePc, PutLog;
    CoreLists(s.m, s.c);
    var msg := Msg(KERNEL_PID_UNDEF, typ, content, s.nextId);
    PutIsGood(s.m, b, msg, blocking);
    BoxCall(s, PutMsg(s.m, b, msg, blocking).0, PutMsg(s.m, b, msg, blocking).1,
            StepPut(s, b, typ, content, blocking), blocking);
  }

  lemma GetKeepsCore(s: K, b: nat, blocking: bool)
    requires Core(s) && Defined(s.m, s.c) && b in s.m.mbox && (Ready(s.m, s.c) || (s.c.isr && !blocking))
    ensures Stepped(s, StepGet(s, b, blocking), {MboxBlocked}, {MboxBlocked})
  {
    hide GetMsg, CoreInv, GoodBoxSection, Stepped;
    CoreLists(s.m, s.c);
    GetIsGood(s.m, b, blocking);
    BoxCall(s, GetMsg(s.m, b, blocking).0, GetMsg(s.m, b, blocking).1, StepGet(s, b, blocking), blocking);
  }

  lemma SendIntKeepsCore(s: K, to: Pid, typ: nat, content: nat)
    requires Core(s) && Defined(s.m, s.c) && s.c.isr
    ensures Stepped(s, StepSendInt(s, to, typ, content), RECEIVERS, {})
  {
    hide SendInt, CoreInv, GoodIsrSection, Stepped, SettleMem, SettlePc, SendLog, GivenLog, FateOf;
    CoreLists(s.m, s.c);
    var msg := Msg(s.m.maxPid + 1, typ, content, s.nextId);
    SendIntIsGood(s.m, to, msg);
    SharedCall(s, SendInt(s.m, to, msg).0, SendInt(s.m, to, msg).1, StepSendInt(s, to, typ, content), RECEIVERS);
  }

  // Between sections

  /** sched_run blocks and unblocks nobody. */
  lemma RunKeepsAgree(m: Mem, pc: map<Pid, Pc>, pc': map<Pid, Pc>)
    requires ListsInv(m) && Runnable(m) && AllAgree(m.prio, pc, m.status, m.at, m.wait)
    requires forall t :: t in pc ==> t in pc' && (pc'[t] == pc[t] || (pc[t].Gap? && pc'[t] == Do(pc[t].k)))
    ensures var r := SchedRun(m); AllAgree(r.prio, pc', r.status, r.at, r.wait)
  {
    RunKeepsLists(m);
    var r := SchedRun(m);
    forall t | t in r.prio
      ensures t in pc' && t in r.status && t in r.at && t in r.wait
      ensures Agree(pc'[t], r.status[t], r.at[t], r.wait[t])
    {
      assert Agree(pc[t], m.status[t], m.at[t], m.wait[t]);
      assert On(r.status, t) <==> On(m.status, t);
    }
  }

  /** After sched_run the active thread is runnable and first of its level. */
  lemma RunKeepsCore(m: Mem, c: Ctl, c': Ctl)
    requires ListsInv(m) && Runnable(m) && AllAgree(m.prio, c.pc, m.status, m.at, m.wait)
    requires IdleOk(m, c.pc, c.idle) && BoxesNamed(m.prio, c.pc, m.mbox) && c'.idle == c.idle
    requires forall t :: t in c.pc ==>
               t in c'.pc && (c'.pc[t] == c.pc[t] || (c.pc[t].Gap? && c'.pc[t] == Do(c.pc[t].k)))
    ensures CoreInv(SchedRun(m), c')
  {
    RunKeepsLists(m);
    RunKeepsAgree(m, c.pc, c'.pc);
    hide RunQueuesOk, WaitListsOk, PlacesOk, AllAgree;
    var r := SchedRun(m);
    assert ActiveOk(r, c'.pc);
    assert On(r.status, c.idle) <==> On(m.status, c.idle);
    assert IdleOk(r, c'.pc, c'.idle);
    assert BoxesNamed(r.prio, c'.pc, r.mbox);
  }

  lemma ScheduleKeepsCore(s: K)
    requires Core(s) && CanRun(s.m) && s.m.active in s.c.pc && s.c.pc[s.m.active].Gap?
    ensures Core(StepSchedule(s))
  {
    hide RunQueuesOk, WaitListsOk, PlacesOk, AllAgree, SchedRun, BoxesNamed, IdleOk;
    RunKeepsCore(s.m, s.c, StepSchedule(s).c);
  }

  lemma RotateKeepsParts(m: Mem, c: Ctl)
    requires CoreInv(m, c)
    ensures var r := RotateActive(m);
            && ListsInv(r) && AllAgree(r.prio, c.pc, r.status, r.at, r.wait)
            && IdleOk(r, c.pc, c.idle) && BoxesNamed(r.prio, c.pc, r.mbox)
  {
    RotateKeepsLists(m);
  }

  lemma MoveToTailKeepsCore(s: K)
    requires Core(s) && s.m.active in s.c.pc && s.c.pc[s.m.active].Rotating?
    ensures Core(StepMoveToTail(s))
  {
    hide ListsInv, RotateActive, LevelsOk, ListsKeyed, RunQueuesKeyed;
    CoreShape(s.m, s.c);
    RotateKeepsParts(s.m, s.c);
    var r, pc := StepMoveToTail(s).m, StepMoveToTail(s).c.pc;
    assert AllAgree(r.prio, pc, r.status, r.at, r.wait);
    assert BoxesNamed(r.prio, pc, r.mbox);
  }

  lemma CompareKeepsCore(s: K)
    requires Core(s) && s.m.active in s.c.pc && s.c.pc[s.m.active].Switch?
    ensures Core(StepCompare(s))
  {
    hide RunQueuesOk, WaitListsOk, PlacesOk;
  }

  /** The rest of a kernel call touches flags and mailboxes only. */
  lemma ResumeIsData(m: Mem, k: Cont)
    requires ListsInv(m) && (k.PutDone? ==> k.mbox in m.mbox)
    ensures var r := ResumeMem(m, k);
            && SameThreads(m, r)
            && r.rq == m.rq && r.lists == m.lists && r.status == m.status && r.at == m.at && r.wait == m.wait
  {
  }

  lemma ResumeKeepsCore(s: K)
    requires Core(s) && s.m.active in s.c.pc && s.c.pc[s.m.active].Do?
    requires s.c.pc[s.m.active].k.PutDone? ==> s.c.pc[s.m.active].k.mbox in s.m.mbox
    ensures Core(StepResume(s, s.c.pc[s.m.active].k))
  {
    var k := s.c.pc[s.m.active].k;
    var mid := s.c.(pc := s.c.pc[s.m.active := ResumePc(s.m, k)]);
    GoOnKeepsCore(s.m, s.c, ResumePc(s.m, k));
    ResumeIsData(s.m, k);
    DataOfActiveKeepsCore(s.m, mid, ResumeMem(s.m, k));
  }

  lemma DataOfActiveKeepsCore(m: Mem, c: Ctl, r: Mem)
    requires CoreInv(m, c) && SameThreads(m, r)
    requires r.rq == m.rq && r.lists == m.lists && r.status == m.status && r.at == m.at && r.wait == m.wait
    ensures CoreInv(r, c)
  {
    hide RunQueuesOk, WaitListsOk, PlacesOk, AllAgree;
  }

  lemma IsrExitKeepsCore(s: K, rotate: bool)
    requires Core(s) && CanRun(s.m)
    ensures Core(StepIsrExit(s, rotate))
  {
    hide RunQueuesOk, WaitListsOk, PlacesOk, AllAgree, SchedRun, BoxesNamed, IdleOk, RotateActive;
    if s.m.csr {
      if rotate { RotateKeepsParts(s.m, s.c); }
      var m := if rotate then RotateActive(s.m) else s.m;
      assert |m.rq| == |s.m.rq|;
      RunKeepsCore(m, s.c, StepIsrExit(s, rotate).c);
    }
  }

  // All steps

  lemma InnerKeepsCore(s: K, step: Step)
    requires Core(s) && Enabled(s, step) && Inner(step)
    ensures Core(Apply(s, step))
  {
    hide Core, StepSchedule, StepMoveToTail, StepCompare, StepResume, StepIsrExit;
    match step
    case Schedule => ScheduleKeepsCore(s);
    case MoveToTail => MoveToTailKeepsCore(s);
    case Compare => CompareKeepsCore(s);
    case Resume => ResumeKeepsCore(s);
    case IsrEnter => IsrEnterKeepsCore(s);
    case IsrExit(rotate) => IsrExitKeepsCore(s, rotate);
  }

  lemma IsrEnterKeepsCore(s: K)
    requires Core(s)
    ensures Core(s.(c := s.c.(isr := true)))
  {
  }

  /** A reply finds its requester outside all lists. */
  ghost predicate ReplyFindsUnlisted(m: Mem, step: Step)
    requires Shape(m)
  {
    step.DoReply? && step.t in m.prio && m.status[step.t] == ReplyBlocked ==> m.at[step.t] == None
  }

  /** The statuses a call may wake other threads from. */
  function Wakes(step: Step): set<Status> {
    match step
    case DoUnlockSleep(_) => {MutexBlocked}
    case DoSend(_, _, _, _) => RECEIVERS
    case DoRequest(_, _, _) => RECEIVERS
    case DoReceive(_) => {SendBlocked}
    case DoWakeup(_) => {Sleeping}
    case DoUnlock(_) => {MutexBlocked}
    case DoReply(_, _) => {ReplyBlocked}
    case DoFlagsSet(_, _) => FLAG_WAITERS
    case DoPut(_, _, _, _) => {MboxBlocked}
    case DoGet(_, _) => {MboxBlocked}
    case DoSendInt(_, _, _) => RECEIVERS
    case _ => {}
  }

  /** The statuses in which it may leave its caller. */
  function Blocks(step: Step): set<Status> {
    match step
    case DoSleep => {Sleeping}
    case DoLock(_, _) => {MutexBlocked}
    case DoUnlockSleep(_) => {Sleeping}
    case DoSend(_, _, _, _) => {SendBlocked}
    case DoRequest(_, _, _) => {SendBlocked, ReplyBlocked}
    case DoReceive(_) => {ReceiveBlocked}
    case DoWaitAny(_) => {FlagBlockedAny}
    case DoWaitOne(_) => {FlagBlockedAny}
    case DoWaitAll(_) => {FlagBlockedAll}
    case DoPut(_, _, _, _) => {MboxBlocked}
    case DoGet(_, _) => {MboxBlocked}
    case _ => {}
  }

  /** Every call keeps the invariant, and wakes and blocks only threads that
      wait for what it does. */
  lemma CallKeepsCore(s: K, step: Step)
    requires Core(s) && Enabled(s, step) && !Inner(step) && !step.DoCreate? && !step.DoExit?
    requires ReplyFindsUnlisted(s.m, step)
    ensures Stepped(s, Apply(s, step), Wakes(step), Blocks(step))
  {
    hide Core, Stepped, Defined, Ready, Ended, StepCreate, StepExit, StepLock, StepUnlockSleep, StepSend, StepRequest,
      StepReceive,
      InitQueue, F.Clear, StepWaitAny, StepWait, StepUnlock, StepReply, StepPut, StepGet, StepSendInt, CountersFresh,
      ExitOk;
    match step
    case DoSleep => SleepKeepsCore(s);
    case DoYield => YieldKeepsCore(s);
    case DoLock(x, blocking) => LockKeepsCore(s, x, blocking);
    case DoUnlockSleep(x) => UnlockSleepKeepsCore(s, x);
    case DoSend(to, typ, content, blocking) => SendKeepsCore(s, to, typ, content, blocking);
    case DoRequest(to, typ, content) => RequestKeepsCore(s, to, typ, content);
    case DoReceive(blocking) => ReceiveKeepsCore(s, blocking);
    case DoInitQueue(slots) => InitQueueKeepsCore(s, slots);
    case DoFlagsClear(mask) => FlagsClearKeepsCore(s, mask);
    case DoWaitAny(mask) => WaitAnyKeepsCore(s, mask, ClearAny(mask));
    case DoWaitOne(mask) => WaitAnyKeepsCore(s, mask, ReadOne(mask));
    case DoWaitAll(mask) => WaitAllKeepsCore(s, mask);
    case DoWakeup(t) => WakeupKeepsCore(s, t);
    case DoUnlock(x) => UnlockKeepsCore(s, x);
    case DoReply(t, reply) => ReplyKeepsCore(s, t, reply);
    case DoFlagsSet(t, mask) => FlagsSetKeepsCore(s, t, mask);
    case DoPut(b, typ, content, blocking) => PutKeepsCore(s, b, typ, content, blocking);
    case DoGet(b, blocking) => GetKeepsCore(s, b, blocking);
    case DoSendInt(to, typ, content) => SendIntKeepsCore(s, to, typ, content);
  }
}
