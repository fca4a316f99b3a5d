/** What the calls that start, stop and schedule threads answer and do in every
    run, read off the state before and after the step. */
module Answers {
  import opened Names
  import opened Sequences
  import opened KernelState
  import opened Scheduler
  import opened Threads
  import opened Mutexes
  import opened Machine
  import opened Separation
  import opened Requests
  import opened Buffers
  import opened Conservation
  import opened Flags
  import opened Priority
  import opened Exclusion
  import opened Theorems
  import opened ReadyQueue

  // Words for what happens to a thread

  /** Thread `t` is now the last of its level, with this status. */
  function Readied(m: Mem, t: Pid, st: Status): Mem
    requires t in m.prio && m.prio[t] < |m.rq|
  {
    var p := m.prio[t];
    m.(rq := m.rq[p := m.rq[p] + [t]], status := m.status[t := st])
  }

  /** Thread `t`, which was the first of its level, is off the run queue. */
  function Dequeued(m: Mem, t: Pid, st: Status): Mem
    requires t in m.prio && m.prio[t] < |m.rq| && m.rq[m.prio[t]] != []
  {
    var p := m.prio[t];
    m.(rq := m.rq[p := m.rq[p][1..]], status := m.status[t := st])
  }

  /** Thread `t` waits in `l`, behind the threads of the same or a better priority. */
  ghost function Enlisted(m: Mem, t: Pid, l: ListId): Mem
    requires t in m.prio && Keyed(Lst(m.lists, l), m.prio)
  {
    m.(lists := m.lists[l := Insert(Lst(m.lists, l), t, m.prio)], at := m.at[t := Some(l)])
  }

  /** The first thread of `l` waits no more. */
  function Released(m: Mem, l: ListId): Mem
    requires Lst(m.lists, l) != []
  {
    m.(lists := m.lists[l := Lst(m.lists, l)[1..]], at := m.at[Lst(m.lists, l)[0] := None])
  }

  /** The active thread is the first of its level. */
  ghost predicate ActiveFirst(m: Mem) {
    Shape(m) && AtHead(m, m.active)
  }

  // Words for how a call ends

  /** The caller goes on to yield, and then with `k`. */
  ghost predicate Yields(s: K, s': K, k: Cont) {
    s'.c == s.c.(pc := s.c.pc[s.m.active := Gap(k)])
  }

  /** A thread of priority `p` was woken: a thread compares priorities next; an
      interrupt requests a switch if the active thread is worse or not runnable. */
  ghost predicate Asks(s: K, s': K, p: nat)
    requires s.m.active in s.m.prio
  {
    if s.c.isr then
      s'.c == s.c && (s'.m.csr <==> s.m.csr || !On(s'.m.status, s.m.active) || s.m.prio[s.m.active] > p)
    else
      s'.m.csr == s.m.csr && s'.c == s.c.(pc := s.c.pc[s.m.active := Switch(p)])
  }

  /** Nothing but memory and control changed. */
  ghost predicate OnlyKernel(s: K, s': K) {
    s' == s.(m := s'.m, c := s'.c)
  }

  // The primitives

  lemma ReadyIs(m: Mem, t: Pid, st: Status)
    requires Shape(m) && t in m.prio && !On(m.status, t) && OnRunqueue(st)
    ensures SetStatus(m, t, st) == Readied(m, t, st)
  {
    hide LevelsOk, ListsKeyed, RunQueuesKeyed;
  }

  lemma DequeueIs(m: Mem, st: Status)
    requires ActiveFirst(m) && On(m.status, m.active) && !OnRunqueue(st)
    ensures SetStatus(m, m.active, st) == Dequeued(m, m.active, st)
  {
    hide LevelsOk, ListsKeyed, RunQueuesKeyed;
  }

  lemma EnlistIs(m: Mem, l: ListId)
    requires Shape(m)
    ensures Keyed(Lst(m.lists, l), m.prio) && AddToList(m, l, m.active) == Enlisted(m, m.active, l)
  {
    hide LevelsOk, RunQueuesKeyed, Insert;
  }

  lemma WakeFirstIs(m: Mem, l: ListId)
    requires ListsInv(m) && Lst(m.lists, l) != []
    ensures var w := Lst(m.lists, l)[0];
            && w in m.prio && m.prio[w] < |m.rq| && !On(m.status, w)
            && WakeFirst(m, l) == Readied(Released(m, l), w, Pending)
  {
    RemoveKeepsLists(m, l);
    hide ListsInv, LevelsOk, ListsKeyed, RunQueuesKeyed, SetStatus;
    ReadyIs(RemoveHead(m, l), Lst(m.lists, l)[0], Pending);
  }

  // How sections end

  lemma SettleAsks(r: Mem, isr: bool, p: nat)
    requires r.active in r.prio
    ensures var q := SettleMem(r, isr, SwitchTo(p));
            && q == r.(csr := q.csr) && q.status == r.status
            && (q.csr <==> r.csr || (isr && (!On(r.status, r.active) || r.prio[r.active] > p)))
  {
  }

  lemma EndedAsks(s: K, r: Mem, p: nat)
    requires s.m.active in s.m.prio && r.active == s.m.active && r.prio == s.m.prio && r.csr == s.m.csr
    ensures var s' := Ended(s, r, SwitchTo(p)); OnlyKernel(s, s') && s'.m == r.(csr := s'.m.csr) && Asks(s, s', p)
  {
    hide SettleMem, On;
    SettleAsks(r, s.c.isr, p);
  }

  lemma EndedDone(s: K, r: Mem, v: int)
    requires r.active in r.prio
    ensures Ended(s, r, Done(v)) == s.(m := r)
  {
  }

  lemma EndedYields(s: K, r: Mem, k: Cont)
    requires r.active in r.prio && r.active == s.m.active && !s.c.isr
    ensures var s' := Ended(s, r, YieldHigher(k)); OnlyKernel(s, s') && s'.m == r && Yields(s, s', k)
  {
  }

  /** What is known of a step of a run. */
  lemma StepOfRun(tr: seq<K>, steps: seq<Step>, i: nat)
    requires Run(tr, steps) && i < |steps|
    ensures Safe(tr[i]) && Enabled(tr[i], steps[i]) && tr[i + 1] == Apply(tr[i], steps[i])
    ensures ListsInv(tr[i].m) && Defined(tr[i].m, tr[i].c)
  {
    hide Boot, Core, RequestsOk, BuffersOk, MessagesOk, NumbersOk, FlagStateOk, PriorityOk, EncodingOk, CallEnabled,
      InnerEnabled, Apply, ListsInv, Shape;
    RunIsSafe(tr, steps, i);
    assert Next(tr[i], steps[i], tr[i + 1]);
    CoreListsOf(tr[i]);
  }

  lemma CoreListsOf(s: K)
    requires Core(s)
    ensures ListsInv(s.m)
  {
  }

  lemma RunLengths(tr: seq<K>, steps: seq<Step>)
    requires Run(tr, steps)
    ensures |tr| == |steps| + 1
  {
  }

  // Threads

  /** thread_wakeup */
  ghost predicate WakeupDid(s: K, out: Out, s': K, t: Pid)
    requires Shape(s.m)
  {
    && OnlyKernel(s, s') && s'.m.prio == s.m.prio
    && (t in s.m.prio ==> (On(s'.m.status, t) && !On(s.m.status, t) <==> s.m.status[t] == Sleeping))
    && if t in s.m.prio && s.m.status[t] == Sleeping then
         && out == SwitchTo(s.m.prio[t])
         && s'.m == Readied(s.m, t, Running).(csr := s'.m.csr) && Asks(s, s', s.m.prio[t])
       else s' == s && out == Done(STATUS_NOT_FOUND)
  }

  lemma WakeupStep(s: K, t: Pid)
    requires Defined(s.m, s.c)
    ensures WakeupDid(s, Wakeup(s.m, t).1, Ended(s, Wakeup(s.m, t).0, Wakeup(s.m, t).1), t)
  {
    hide LevelsOk, ListsKeyed, RunQueuesKeyed, SetStatus, Ended, Asks;
    var (r, out) := Wakeup(s.m, t);
    if out.SwitchTo? {
      ReadyIs(s.m, t, Running);
      EndedAsks(s, r, out.prio);
    } else {
      EndedDone(s, r, STATUS_NOT_FOUND);
    }
  }

  /** thread_wakeup makes a sleeping thread the last of its level and asks for a
      switch to its priority; for any other it answers STATUS_NOT_FOUND and
      changes nothing. */
  lemma WakeupAnswers(tr: seq<K>, steps: seq<Step>, i: nat)
    requires Run(tr, steps) && i < |steps| && steps[i].DoWakeup?
    ensures Shape(tr[i].m) && WakeupDid(tr[i], Wakeup(tr[i].m, steps[i].t).1, tr[i + 1], steps[i].t)
  {
    hide Run, Safe, ListsInv, Shape, Ready, Wakeup, Ended, WakeupDid;
    RunLengths(tr, steps);
    StepOfRun(tr, steps, i);
    WakeupStep(tr[i], steps[i].t);
  }

  /** thread_sleep */
  ghost predicate SleepDid(s: K, s': K) {
    && OnlyKernel(s, s') && ActiveFirst(s.m)
    && s'.m == Dequeued(s.m, s.m.active, Sleeping) && Yields(s, s', Return)
  }

  lemma SleepStep(s: K)
    requires Defined(s.m, s.c) && ActiveRuns(s.m) && !s.c.isr
    ensures SleepDid(s, Ended(s, Sleep(s.m).0, Sleep(s.m).1))
  {
    hide ListsInv, LevelsOk, ListsKeyed, RunQueuesKeyed, SetStatus;
    DequeueIs(s.m, Sleeping);
  }

  /** thread_sleep takes its caller off the run queue and yields. */
  lemma SleepAnswers(tr: seq<K>, steps: seq<Step>, i: nat)
    requires Run(tr, steps) && i < |steps| && steps[i].DoSleep?
    ensures SleepDid(tr[i], tr[i + 1])
  {
    hide Run, Core, RequestsOk, BuffersOk, MessagesOk, NumbersOk, FlagStateOk, PriorityOk, EncodingOk, ListsInv, Shape,
      Sleep, Ended, SleepDid;
    RunLengths(tr, steps);
    StepOfRun(tr, steps, i);
    ReadyIsUser(tr[i]);
    SleepStep(tr[i]);
  }

  /** The level of the active thread with its first thread moved to the end, if
      the active thread is runnable: it need not be the first itself. */
  function Turned(m: Mem): Mem
    requires m.active in m.prio && m.prio[m.active] < |m.rq|
  {
    var p := m.prio[m.active];
    if On(m.status, m.active) && m.rq[p] != [] then m.(rq := m.rq[p := m.rq[p][1..] + [m.rq[p][0]]]) else m
  }

  lemma TurnIs(m: Mem)
    requires ListsInv(m)
    ensures RotateActive(m) == Turned(m) && (On(m.status, m.active) ==> m.rq[m.prio[m.active]] != [])
  {
    hide WaitListsOk, PlacesOk, ListsKeyed, RunQueuesKeyed, Best;
    assert On(m.status, m.active) ==> m.active in m.rq[m.prio[m.active]];
  }

  /** thread_yield */
  ghost predicate YieldDid(s: K, s': K) {
    && OnlyKernel(s, s') && ActiveFirst(s.m) && On(s.m.status, s.m.active)
    && s'.m == Turned(s.m) && Yields(s, s', Return)
  }

  lemma YieldStep(s: K)
    requires Defined(s.m, s.c) && ActiveRuns(s.m) && !s.c.isr
    ensures YieldDid(s, Ended(s, YieldThread(s.m).0, YieldThread(s.m).1))
  {
    hide ListsInv, LevelsOk, ListsKeyed, RunQueuesKeyed, RotateActive;
    TurnIs(s.m);
  }

  /** thread_yield moves its caller behind its equals and yields. */
  lemma YieldAnswers(tr: seq<K>, steps: seq<Step>, i: nat)
    requires Run(tr, steps) && i < |steps| && steps[i].DoYield?
    ensures YieldDid(tr[i], tr[i + 1])
  {
    hide Run, Core, RequestsOk, BuffersOk, MessagesOk, NumbersOk, FlagStateOk, PriorityOk, EncodingOk, ListsInv, Shape,
      YieldThread, Ended, YieldDid;
    RunLengths(tr, steps);
    StepOfRun(tr, steps, i);
    ReadyIsUser(tr[i]);
    YieldStep(tr[i]);
  }

  // Creating

  ghost predicate SmallestFree(prio: map<Pid, nat>, t: Pid, maxPid: nat) {
    KERNEL_PID_FIRST <= t <= maxPid && t !in prio && forall u :: KERNEL_PID_FIRST <= u < t ==> u in prio
  }

  ghost predicate NoneFree(prio: map<Pid, nat>, maxPid: nat) {
    forall u :: KERNEL_PID_FIRST <= u <= maxPid ==> u in prio
  }

  lemma {:induction false} FreeIsSmallest(prio: map<Pid, nat>, from: Pid, maxPid: nat)
    requires forall u :: KERNEL_PID_FIRST <= u < from ==> u in prio
    requires from >= KERNEL_PID_FIRST
    ensures var r := FreePid(prio, from, maxPid);
            if r.Some? then SmallestFree(prio, r.value, maxPid) else NoneFree(prio, maxPid)
    decreases maxPid + 1 - from
  {
    if from <= maxPid && from in prio { FreeIsSmallest(prio, from + 1, maxPid); }
  }

  /** A new thread with nothing in its control block but priority, status and flags. */
  function Added(m: Mem, t: Pid, prio: nat, st: Status, flags: bv16): Mem {
    m.(prio := m.prio[t := prio], status := m.status[t := st], at := m.at[t := None], flags := m.flags[t := flags],
       wait := m.wait[t := NoData], buf := m.buf[t := BLANK], queue := m.queue[t := NO_QUEUE])
  }

  /** thread_create */
  ghost predicate CreateDid(s: K, out: Out, s': K, prio: nat, sleeping: bool, wout: bool, flags: bv16)
    requires Defined(s.m, s.c)
  {
    if prio >= |s.m.rq| then s' == s && out == Done(-22)
    else if NoneFree(s.m.prio, s.m.maxPid) then s' == s && out == Done(-75)
    else
      exists t :: SmallestFree(s.m.prio, t, s.m.maxPid) && CreatedAs(s, out, s', t, prio, sleeping, wout, flags)
  }

  /** Thread `t` was created; its caller is told so at once, or after a switch. */
  ghost predicate CreatedAs(s: K, out: Out, s': K, t: Pid, prio: nat, sleeping: bool, wout: bool, flags: bv16)
    requires Defined(s.m, s.c) && prio < |s.m.rq|
  {
    && (if sleeping then s'.m == Added(s.m, t, prio, Sleeping, flags)
        else s'.m == Readied(Added(s.m, t, prio, Stopped, flags), t, Pending))
    && out == (if sleeping || wout then Done(t) else SwitchTo(prio))
    && s'.c.pc == (if out.Done? then s.c.pc[t := User] else s.c.pc[t := User][s.m.active := Switch(prio)])
    && s'.ms == MsgLog(s.ms.accepted[t := []], s.ms.entered[t := []], s.ms.delivered[t := []])
    && s'.mx == s.mx && s'.bx == s.bx && s'.given == s.given && s'.open == s.open && s'.nextId == s.nextId
  }

  lemma RelabelIs(m: Mem, t: Pid, st: Status)
    requires Shape(m) && t in m.prio && !On(m.status, t) && !OnRunqueue(st)
    ensures SetStatus(m, t, st) == m.(status := m.status[t := st])
  {
    hide ListsKeyed, RunQueuesKeyed;
    assert m.rq[m.prio[t] := m.rq[m.prio[t]]] == m.rq;
  }

  lemma CreateIs(m: Mem, prio: nat, sleeping: bool, wout: bool, flags: bv16, t: Pid)
    requires Shape(m) && prio < |m.rq| && FreePid(m.prio, KERNEL_PID_FIRST, m.maxPid) == Some(t) && t !in m.prio
    ensures var (r, out) := Create(m, prio, sleeping, wout, flags);
            && r == (if sleeping then Added(m, t, prio, Sleeping, flags)
                     else Readied(Added(m, t, prio, Stopped, flags), t, Pending))
            && out == (if sleeping || wout then Done(t) else SwitchTo(prio))
  {
    hide LevelsOk, ListsKeyed, RunQueuesKeyed, SetStatus, FreePid;
    var a := AddThread(m, t, prio, flags);
    assert a == Added(m, t, prio, Stopped, flags);
    if sleeping {
      RelabelIs(a, t, Sleeping);
      assert m.status[t := Stopped][t := Sleeping] == m.status[t := Sleeping];
    } else {
      ReadyIs(a, t, Pending);
    }
  }

  lemma CreatedStep(s: K, prio: nat, sleeping: bool, wout: bool, flags: bv16, t: Pid)
    requires Defined(s.m, s.c) && !s.c.isr && prio < |s.m.rq| && t !in s.m.prio
    requires FreePid(s.m.prio, KERNEL_PID_FIRST, s.m.maxPid) == Some(t)
    ensures CreatedAs(s, Create(s.m, prio, sleeping, wout, flags).1, StepCreate(s, prio, sleeping, wout, flags),
                      t, prio, sleeping, wout, flags)
  {
    hide Create, FreePid, Shape, Readied, Added;
    CreateIs(s.m, prio, sleeping, wout, flags, t);
  }

  lemma CreateStep(s: K, prio: nat, sleeping: bool, wout: bool, flags: bv16)
    requires Defined(s.m, s.c) && !s.c.isr
    ensures CreateDid(s, Create(s.m, prio, sleeping, wout, flags).1, StepCreate(s, prio, sleeping, wout, flags),
                      prio, sleeping, wout, flags)
  {
    var free := FreePid(s.m.prio, KERNEL_PID_FIRST, s.m.maxPid);
    FreeIsSmallest(s.m.prio, KERNEL_PID_FIRST, s.m.maxPid);
    if prio < |s.m.rq| && free.Some? {
      CreatedStep(s, prio, sleeping, wout, flags, free.value);
      hide Create, StepCreate, FreePid, Shape, CreatedAs;
      assert CreatedAs(s, Create(s.m, prio, sleeping, wout, flags).1, StepCreate(s, prio, sleeping, wout, flags),
                       free.value, prio, sleeping, wout, flags);
    } else {
      hide FreePid, Shape;
    }
  }

  /** thread_create answers -EINVAL for a priority that does not exist, and
      -EOVERFLOW exactly if no pid is free; else it creates a thread with the
      smallest free pid, asleep or the last of its level. */
  lemma CreateAnswers(tr: seq<K>, steps: seq<Step>, i: nat)
    requires Run(tr, steps) && i < |steps| && steps[i].DoCreate?
    ensures var step := steps[i];
            && Defined(tr[i].m, tr[i].c)
            && CreateDid(tr[i], Create(tr[i].m, step.prio, step.sleeping, step.wout, step.flags).1, tr[i + 1],
                         step.prio, step.sleeping, step.wout, step.flags)
  {
    hide Run, Safe, ListsInv, Shape, Create, StepCreate, CreateDid;
    RunLengths(tr, steps);
    StepOfRun(tr, steps, i);
    CreateStep(tr[i], steps[i].prio, steps[i].sleeping, steps[i].wout, steps[i].flags);
  }

  // Scheduling

  /** sched_run: the first of the best level runs, and no switch is requested. */
  ghost predicate RunDid(m: Mem, r: Mem) {
    && Flat(m.rq) != [] && r.active == Flat(m.rq)[0] && m.active in m.status
    && r == m.(active := r.active, csr := false, status := r.status)
    && r.status == (if r.active == m.active then m.status
                    else if m.status[m.active] == Running then m.status[m.active := Pending][r.active := Running]
                    else m.status[r.active := Running])
  }

  lemma RunIs(m: Mem)
    requires ListsInv(m) && Runnable(m)
    ensures RunDid(m, SchedRun(m))
  {
    RunPicksTheFirst(m);
    hide ListsInv, LevelsOk, ListsKeyed, RunQueuesKeyed, Best, Flat;
  }

  /** thread_yield_higher */
  ghost predicate ScheduleDid(s: K, s': K)
    requires Defined(s.m, s.c) && s.c.pc[s.m.active].Gap?
  {
    && OnlyKernel(s, s') && RunDid(s.m, s'.m)
    && s'.c == Ctl(s.c.pc[s.m.active := Do(s.c.pc[s.m.active].k)], s.c.isr, s.c.idle, false)
  }

  lemma ScheduleStep(s: K)
    requires Defined(s.m, s.c) && ListsInv(s.m) && Runnable(s.m) && s.c.pc[s.m.active].Gap?
    ensures ScheduleDid(s, StepSchedule(s))
  {
    hide ListsInv, SchedRun, Runnable, RunDid, LevelsOk, ListsKeyed, RunQueuesKeyed;
    RunIs(s.m);
  }

  /** Behind every yield the best runnable thread runs, of several the one
      queued first, and no switch is requested any more. */
  lemma ScheduleAnswers(tr: seq<K>, steps: seq<Step>, i: nat)
    requires Run(tr, steps) && i < |steps| && steps[i].Schedule?
    ensures var s := tr[i]; Defined(s.m, s.c) && s.c.pc[s.m.active].Gap? && ScheduleDid(s, tr[i + 1])
  {
    hide Run, Safe, ListsInv, Shape, StepSchedule, ScheduleDid, Runnable;
    RunLengths(tr, steps);
    StepOfRun(tr, steps, i);
    ScheduleStep(tr[i]);
  }

  /** Leaving an interrupt */
  ghost predicate IsrExitDid(s: K, s': K, rotate: bool)
    requires Shape(s.m)
  {
    && OnlyKernel(s, s')
    && if s.m.csr then
         && RunDid(if rotate then Turned(s.m) else s.m, s'.m) && s'.c == Ctl(s.c.pc, false, s.c.idle, false)
       else s'.m == s.m && s'.c == s.c.(isr := false)
  }

  lemma IsrExitStep(s: K, rotate: bool)
    requires Defined(s.m, s.c) && ListsInv(s.m) && Runnable(s.m)
    ensures IsrExitDid(s, StepIsrExit(s, rotate), rotate)
  {
    hide ListsInv, SchedRun, Runnable, RunDid, LevelsOk, ListsKeyed, RunQueuesKeyed, RotateActive, Turned;
    TurnIs(s.m);
    RunIs(s.m);
    TurnedCanRun(s.m);
    RunIs(RotateActive(s.m));
  }

  lemma TurnedCanRun(m: Mem)
    requires ListsInv(m) && Runnable(m)
    ensures ListsInv(RotateActive(m)) && Runnable(RotateActive(m))
  {
    RotateKeepsLists(m);
  }

  /** An interrupt that has a switch requested leaves to the best runnable
      thread, and the request is reset; any other leaves to the thread it
      interrupted. */
  lemma IsrExitAnswers(tr: seq<K>, steps: seq<Step>, i: nat)
    requires Run(tr, steps) && i < |steps| && steps[i].IsrExit?
    ensures Shape(tr[i].m) && IsrExitDid(tr[i], tr[i + 1], steps[i].rotate)
  {
    hide Run, Safe, ListsInv, Shape, StepIsrExit, IsrExitDid, Runnable;
    RunLengths(tr, steps);
    StepOfRun(tr, steps, i);
    IsrExitStep(tr[i], steps[i].rotate);
  }

  /** sched_switch yields exactly if the active thread is not runnable or worse
      than the woken one. */
  lemma CompareAnswers(tr: seq<K>, steps: seq<Step>, i: nat)
    requires Run(tr, steps) && i < |steps| && steps[i].Compare?
    ensures var s := tr[i];
            && Defined(s.m, s.c) && s.c.pc[s.m.active].Switch?
            && var worse := !On(s.m.status, s.m.active) || s.m.prio[s.m.active] > s.c.pc[s.m.active].prio;
               tr[i + 1] == s.(c := s.c.(pc := s.c.pc[s.m.active := if worse then Gap(Return) else User]))
  {
    hide Run, Safe, ListsInv, Shape;
    RunLengths(tr, steps);
    StepOfRun(tr, steps, i);
    ActiveLives(tr[i]);
  }

  lemma ActiveLives(s: K)
    requires Defined(s.m, s.c)
    ensures s.m.active in s.m.prio
  {
  }

  lemma MoveStep(s: K)
    requires Defined(s.m, s.c) && ListsInv(s.m) && s.c.pc[s.m.active].Rotating?
    ensures StepMoveToTail(s).m == Turned(s.m)
  {
    hide ListsInv, RotateActive, Turned, ListsKeyed, RunQueuesKeyed;
    TurnIs(s.m);
  }

  /** The section of a thread_yield behind a wait. */
  lemma MoveToTailAnswers(tr: seq<K>, steps: seq<Step>, i: nat)
    requires Run(tr, steps) && i < |steps| && steps[i].MoveToTail?
    ensures var s := tr[i];
            && Defined(s.m, s.c) && s.c.pc[s.m.active].Rotating? && OnlyKernel(s, tr[i + 1])
            && tr[i + 1].m == Turned(s.m) && Yields(s, tr[i + 1], s.c.pc[s.m.active].k)
  {
    hide Run, Safe, ListsInv, ListsKeyed, RunQueuesKeyed, RotateActive, Turned;
    RunLengths(tr, steps);
    StepOfRun(tr, steps, i);
    MoveStep(tr[i]);
  }

  // Exiting

  /** sched_task_exit: the thread is gone and the best of the others runs. */
  ghost predicate ExitDid(s: K, s': K) {
    var a, n := s.m.active, s'.m.active;
    && ActiveFirst(s.m)
    && var gone := Dequeued(s.m, a, Stopped);
       && Flat(gone.rq) != [] && n == Flat(gone.rq)[0] && n != a
       && s'.m == gone.(prio := s.m.prio - {a}, status := gone.status[n := Running], active := n, csr := false)
       && s'.c == Ctl(s.c.pc - {a}, s.c.isr, s.c.idle, false)
       && s'.mx.holder == s.mx.holder && (forall o :: o in s'.mx.owns <==> o in s.mx.owns && o.0 != a)
  }

  lemma ExitStep(s: K)
    requires ActiveRuns(s.m) && ExitOk(s.m) && Defined(s.m, s.c)
    ensures ExitDid(s, StepExit(s))
  {
    DequeueIs(s.m, Stopped);
    PopKeepsLists(s.m, s.m.active, Stopped);
    RunPicksTheFirst(SetStatus(s.m, s.m.active, Stopped));
    hide ListsInv, LevelsOk, ListsKeyed, RunQueuesKeyed, SetStatus, Best, Flat, SchedRun, MarkLost;
  }

  lemma ExitAnswers(tr: seq<K>, steps: seq<Step>, i: nat)
    requires Run(tr, steps) && i < |steps| && steps[i].DoExit?
    ensures ExitDid(tr[i], tr[i + 1])
  {
    hide Run, Core, RequestsOk, BuffersOk, MessagesOk, NumbersOk, FlagStateOk, PriorityOk, EncodingOk, ListsInv, Shape,
      StepExit, ExitDid, ExitOk;
    RunLengths(tr, steps);
    StepOfRun(tr, steps, i);
    ReadyIsUser(tr[i]);
    ExitStep(tr[i]);
  }
}
