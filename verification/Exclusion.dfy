/** Mutual exclusion with direct handoff. */
module Exclusion {
  import opened Names
  import opened Sequences
  import opened KernelState
  import opened Scheduler
  import opened Threads
  import opened Mutexes
  import F = ThreadFlags
  import opened Messages
  import opened Mailboxes
  import opened Machine
  import opened PlainSteps
  import opened Separation
  import opened Requests

  /** The mutex word tells whether there is a holder, and nobody waits for a
      mutex that is free. */
  ghost predicate WordsOk(locked: set<nat>, lists: map<ListId, seq<Pid>>, holder: map<nat, Pid>) {
    && (forall x :: x in locked <==> x in holder)
    && (forall x :: Lst(lists, MutexQueue(x)) != [] ==> x in locked)
  }

  ghost predicate EncodingOk(s: K) {
    WordsOk(s.m.locked, s.m.lists, s.mx.holder)
  }

  /** The thread will find that it has the mutex. */
  predicate Locking(pc: Pc, x: nat) {
    (pc.Gap? || pc.Rotating? || pc.Do?) && pc.k == LockDone(x)
  }

  /** Who was told that it has a mutex is its holder, and so is who was woken to
      be told. */
  ghost predicate HoldersOk(prio: map<Pid, nat>, pc: map<Pid, Pc>, status: map<Pid, Status>, mx: MutexLog) {
    && (forall o :: o in mx.owns ==> o.1 in mx.holder && mx.holder[o.1] == o.0)
    && (forall t, x :: t in prio && t in pc && Locking(pc[t], x) && On(status, t) ==>
          x in mx.holder && mx.holder[x] == t)
  }

  ghost predicate ExclusionOk(s: K) {
    HoldersOk(s.m.prio, s.c.pc, s.m.status, s.mx)
  }

  /** Only the thread that has a mutex unlocks it. */
  ghost predicate Disciplined(s: K, step: Step) {
    (step.DoUnlock? || step.DoUnlockSleep?) && step.x in s.m.locked ==>
      !s.c.isr && (s.m.active, step.x) in s.mx.owns
  }

  // The encoding

  lemma WordsLock(locked: set<nat>, lists: map<ListId, seq<Pid>>, holder: map<nat, Pid>, x: nat, a: Pid)
    requires WordsOk(locked, lists, holder)
    ensures WordsOk(locked + {x}, lists, holder[x := a])
  {
  }

  lemma WordsList(locked: set<nat>, lists: map<ListId, seq<Pid>>, holder: map<nat, Pid>, x: nat, w: seq<Pid>, t: Pid)
    requires WordsOk(locked, lists, holder) && x in locked
    ensures WordsOk(locked, lists[MutexQueue(x) := w], holder)
    ensures WordsOk(locked, lists[MutexQueue(x) := w], holder[x := t])
  {
  }

  lemma WordsUnlock(locked: set<nat>, lists: map<ListId, seq<Pid>>, holder: map<nat, Pid>, x: nat)
    requires WordsOk(locked, lists, holder) && Lst(lists, MutexQueue(x)) == []
    ensures WordsOk(locked - {x}, lists, holder - {x})
  {
  }

  lemma WordsFrame(m: Mem, r: Mem, w: set<Status>, b: set<Status>, holder: map<nat, Pid>)
    requires Caller(m, r, w, b) && MutexBlocked !in w + b && WordsOk(m.locked, m.lists, holder)
    ensures WordsOk(r.locked, r.lists, holder)
  {
    hide ListsInv, Moves, Shape;
  }

  lemma LockFields(m: Mem, x: nat, blocking: bool)
    requires Shape(m)
    ensures var (r, out) := Lock(m, x, blocking);
            var a, l := m.active, MutexQueue(x);
            if x !in m.locked then
              r.locked == m.locked + {x} && r.lists == m.lists && r.status == m.status && out == Done(1)
            else
              && r.locked == m.locked
              && if blocking then
                   && r.lists == m.lists[l := Insert(Lst(m.lists, l), a, m.prio)]
                   && r.status == m.status[a := MutexBlocked] && out == YieldHigher(LockDone(x))
                 else r.lists == m.lists && r.status == m.status && out == Done(0)
  {
    hide Insert;
  }

  lemma UnlockFields(m: Mem, x: nat)
    requires Shape(m)
    ensures var r, l, w := Unlock(m, x).0, MutexQueue(x), Lst(m.lists, MutexQueue(x));
            if x !in m.locked then r.locked == m.locked && r.lists == m.lists && r.status == m.status
            else if w == [] then r.locked == m.locked - {x} && r.lists == m.lists && r.status == m.status
            else r.locked == m.locked && r.lists == m.lists[l := w[1..]] && r.status == m.status[w[0] := Pending]
  {
  }

  lemma SleepFields(m: Mem)
    requires Shape(m)
    ensures var r := Sleep(m).0;
            r.locked == m.locked && r.lists == m.lists && r.status == m.status[m.active := Sleeping]
  {
  }

  lemma UnlockKeepsWords(m: Mem, x: nat, mx: MutexLog, isr: bool)
    requires Shape(m) && WordsOk(m.locked, m.lists, mx.holder)
    ensures var r := Unlock(m, x).0; WordsOk(r.locked, r.lists, UnlockLog(mx, m, x, isr).holder)
  {
    hide WordsOk, Unlock, Shape;
    UnlockFields(m, x);
    var w := Lst(m.lists, MutexQueue(x));
    if x in m.locked {
      if w == [] { WordsUnlock(m.locked, m.lists, mx.holder, x); }
      else { WordsList(m.locked, m.lists, mx.holder, x, w[1..], w[0]); }
    }
  }

  lemma LockKeepsEncoding(s: K, x: nat, blocking: bool)
    requires Defined(s.m, s.c) && EncodingOk(s)
    ensures EncodingOk(StepLock(s, x, blocking))
  {
    hide WordsOk, Lock, SettlePc, Insert;
    var m, a := s.m, s.m.active;
    LockFields(m, x, blocking);
    if x !in m.locked { WordsLock(m.locked, m.lists, s.mx.holder, x, a); }
    else {
      assert Keyed(Lst(m.lists, MutexQueue(x)), m.prio);
      WordsList(m.locked, m.lists, s.mx.holder, x, Insert(Lst(m.lists, MutexQueue(x)), a, m.prio), a);
    }
  }

  lemma UnlockKeepsEncoding(s: K, x: nat)
    requires Defined(s.m, s.c) && EncodingOk(s)
    ensures EncodingOk(StepUnlock(s, x)) && EncodingOk(StepUnlockSleep(s, x))
  {
    hide WordsOk, Unlock, Sleep, SettlePc, UnlockLog;
    UnlockKeepsWords(s.m, x, s.mx, s.c.isr);
    SleepFields(Unlock(s.m, x).0);
  }

  /** Only locking and unlocking change who holds what. */
  lemma OtherCallsKeepHolders(s: K, step: Step)
    requires Enabled(s, step) && !Inner(step) && !step.DoLock? && !step.DoUnlock? && !step.DoUnlockSleep?
    requires !step.DoExit?
    ensures Apply(s, step).mx == s.mx
  {
    hide Shape, Create, FreePid, Sleep, YieldThread, Send, SendReceive, SendInt, Receive, HandOver, Wakeup, F.Set,
      F.Clear,
      F.WaitAny, F.WaitAll, PutMsg, GetMsg, InitQueue, SettleMem, SettlePc, SendLog, GivenLog, FateOf, PutLog, GetLog,
      ReceiveLog, ReceiveOpen, CountersFresh, ExitOk;
  }

  lemma OtherCallKeepsEncoding(s: K, step: Step)
    requires Core(s) && RequestsOk(s) && EncodingOk(s) && Enabled(s, step) && !Inner(step) && !step.DoCreate?
    requires !step.DoExit?
    requires !step.DoLock? && !step.DoUnlock? && !step.DoUnlockSleep?
    ensures EncodingOk(Apply(s, step))
  {
    hide RequestsOk, Enabled, Apply, Core, Caller, PcMoves, WordsOk;
    ReplyIsSafe(s, step);
    CallKeepsCore(s, step);
    OtherCallsKeepHolders(s, step);
    WordsFrame(s.m, Apply(s, step).m, Wakes(step), Blocks(step), s.mx.holder);
  }

  lemma CreateKeepsEncoding(s: K, prio: nat, sleeping: bool, wout: bool, flags: bv16)
    requires Defined(s.m, s.c) && EncodingOk(s)
    ensures EncodingOk(StepCreate(s, prio, sleeping, wout, flags))
  {
    hide WordsOk, Create, SettlePc;
    CreateAddsData(s.m, prio, sleeping, wout, flags);
  }

  lemma ExitKeepsEncoding(s: K)
    requires ExitOk(s.m) && EncodingOk(s)
    ensures EncodingOk(StepExit(s))
  {
    hide WordsOk, Best, LevelsOk, ListsKeyed, RunQueuesKeyed;
  }

  lemma CallKeepsEncoding(s: K, step: Step)
    requires Core(s) && RequestsOk(s) && EncodingOk(s) && Enabled(s, step) && !Inner(step)
    ensures EncodingOk(Apply(s, step))
  {
    if step.DoLock? || step.DoUnlock? || step.DoUnlockSleep? || step.DoCreate? || step.DoExit? {
      hide Core, RequestsOk, EncodingOk, Defined, Ready, StepLock, StepUnlock, StepUnlockSleep, StepCreate, StepExit,
        CountersFresh, ExitOk;
      match step
      case DoLock(x, blocking) => LockKeepsEncoding(s, x, blocking);
      case DoUnlock(x) => UnlockKeepsEncoding(s, x);
      case DoUnlockSleep(x) => UnlockKeepsEncoding(s, x);
      case DoCreate(prio, sleeping, wout, flags) => CreateKeepsEncoding(s, prio, sleeping, wout, flags);
      case DoExit => ExitKeepsEncoding(s);
    } else {
      hide Core, RequestsOk, EncodingOk, Enabled, Apply;
      OtherCallKeepsEncoding(s, step);
    }
  }

  lemma InnerHolders(s: K, step: Step)
    requires Enabled(s, step) && Inner(step)
    ensures Apply(s, step).mx.holder == s.mx.holder
    ensures !step.Resume? ==> Apply(s, step).mx.owns == s.mx.owns
  {
    hide SchedRun, RotateActive, ResumeMem, Shape;
  }

  lemma InnerKeepsEncoding(s: K, step: Step)
    requires Core(s) && EncodingOk(s) && Enabled(s, step) && Inner(step)
    ensures EncodingOk(Apply(s, step))
  {
    hide Apply, CoreInv, WordsOk, Enabled, StillOn;
    CoreLists(s.m, s.c);
    InnerEffect(s, step);
    InnerHolders(s, step);
  }

  // Exclusion

  lemma HoldersLock(prio: map<Pid, nat>, pc: map<Pid, Pc>, status: map<Pid, Status>, mx: MutexLog, a: Pid, x: nat)
    requires HoldersOk(prio, pc, status, mx) && x !in mx.holder
    ensures HoldersOk(prio, pc, status, MutexLog(mx.holder[x := a], mx.owns + {(a, x)}))
  {
  }

  lemma HoldersBlock(prio: map<Pid, nat>, pc: map<Pid, Pc>, status: map<Pid, Status>, mx: MutexLog, a: Pid, st: Status)
    requires HoldersOk(prio, pc, status, mx) && !OnRunqueue(st)
    ensures HoldersOk(prio, pc, status[a := st], mx)
  {
  }

  /** The holder gives the mutex to the first waiter, or to nobody. */
  lemma HoldersUnlock(prio: map<Pid, nat>, pc: map<Pid, Pc>, status: map<Pid, Status>, mx: MutexLog, a: Pid, x: nat)
    requires HoldersOk(prio, pc, status, mx) && (a, x) in mx.owns && a in pc && !Locking(pc[a], x)
    ensures HoldersOk(prio, pc, status, MutexLog(mx.holder - {x}, mx.owns - {(a, x)}))
    ensures forall h :: h in pc && (forall y :: Locking(pc[h], y) ==> y == x) ==>
              HoldersOk(prio, pc, status[h := Pending], MutexLog(mx.holder[x := h], mx.owns - {(a, x)}))
  {
  }

  lemma HoldersFrame(m: Mem, r: Mem, w: set<Status>, b: set<Status>, pc: map<Pid, Pc>, mx: MutexLog)
    requires Caller(m, r, w, b) && AllAgree(m.prio, pc, m.status, m.at, m.wait) && MutexBlocked !in w
    requires HoldersOk(m.prio, pc, m.status, mx)
    ensures HoldersOk(m.prio, pc, r.status, mx)
  {
    hide ListsInv, ListsKept, Moves, Agree;
    forall t, x | t in m.prio && t in pc && Locking(pc[t], x) && On(r.status, t)
      ensures x in mx.holder && mx.holder[x] == t
    {
      HolderWasOn(m, r, w, b, pc, t, x);
    }
  }

  lemma HolderWasOn(m: Mem, r: Mem, w: set<Status>, b: set<Status>, pc: map<Pid, Pc>, t: Pid, x: nat)
    requires Shape(m) && Shape(r) && r.prio == m.prio && t in m.prio && MutexBlocked !in w
    requires Moves(w, b, m.active, m.prio, m.status, m.at, m.wait, r.status, r.at, r.wait)
    requires t in pc && Agree(pc[t], m.status[t], m.at[t], m.wait[t]) && Locking(pc[t], x) && On(r.status, t)
    ensures On(m.status, t)
  {
  }

  lemma HoldersPc(c: Ctl, c': Ctl, a: Pid, b: set<Status>, prio: map<Pid, nat>, status: map<Pid, Status>, mx: MutexLog)
    requires HoldersOk(prio, c.pc, status, mx) && PcMoves(c, c', a, status, b)
    requires forall t :: t in prio ==> t in c.pc
    ensures HoldersOk(prio, c'.pc, status, mx)
  {
  }

  ghost predicate HoldersBeforePc(s: K, s': K) {
    HoldersOk(s.m.prio, s.c.pc, s'.m.status, s'.mx)
  }

  lemma LockKeepsHolders(s: K, x: nat, blocking: bool)
    requires Defined(s.m, s.c) && EncodingOk(s) && ExclusionOk(s)
    ensures HoldersBeforePc(s, StepLock(s, x, blocking))
  {
    hide HoldersOk, Lock, SettlePc, Insert;
    var m, a := s.m, s.m.active;
    LockFields(m, x, blocking);
    if x !in m.locked { HoldersLock(m.prio, s.c.pc, m.status, s.mx, a, x); }
    else { HoldersBlock(m.prio, s.c.pc, m.status, s.mx, a, MutexBlocked); }
  }

  /** The first waiter waits for this mutex. */
  lemma WaiterIsLocking(m: Mem, c: Ctl, x: nat)
    requires CoreInv(m, c) && Lst(m.lists, MutexQueue(x)) != []
    ensures var h := Lst(m.lists, MutexQueue(x))[0]; h in c.pc && forall y :: Locking(c.pc[h], y) ==> y == x
  {
    var h := Lst(m.lists, MutexQueue(x))[0];
    RemoveKeepsLists(m, MutexQueue(x));
    assert Agree(c.pc[h], m.status[h], m.at[h], m.wait[h]);
    hide RunQueuesOk, WaitListsOk, PlacesOk;
  }

  lemma UnlockKeepsHolders(s: K, x: nat)
    requires Core(s) && EncodingOk(s) && ExclusionOk(s) && Defined(s.m, s.c) && Ready(s.m, s.c)
    requires x in s.m.locked ==> (s.m.active, x) in s.mx.owns
    ensures var r := Unlock(s.m, x).0; HoldersOk(s.m.prio, s.c.pc, r.status, UnlockLog(s.mx, s.m, x, false))
  {
    ReadyIsUser(s);
    hide HoldersOk, Unlock, CoreInv, WordsOk;
    var m, a, w := s.m, s.m.active, Lst(s.m.lists, MutexQueue(x));
    UnlockFields(m, x);
    if x in m.locked {
      HoldersUnlock(m.prio, s.c.pc, m.status, s.mx, a, x);
      if w != [] { WaiterIsLocking(m, s.c, x); }
    }
  }

  lemma UnlockStepsKeepHolders(s: K, x: nat)
    requires Core(s) && EncodingOk(s) && ExclusionOk(s) && Defined(s.m, s.c) && Ready(s.m, s.c)
    requires x in s.m.locked ==> (s.m.active, x) in s.mx.owns
    ensures HoldersBeforePc(s, StepUnlock(s, x)) && HoldersBeforePc(s, StepUnlockSleep(s, x))
  {
    hide HoldersOk, Unlock, Sleep, CoreInv, WordsOk, SettlePc, UnlockLog;
    UnlockKeepsHolders(s, x);
    var r := Unlock(s.m, x).0;
    SleepFields(r);
    HoldersBlock(s.m.prio, s.c.pc, r.status, UnlockLog(s.mx, s.m, x, false), s.m.active, Sleeping);
  }

  lemma IdleUnlockKeepsHolders(s: K, x: nat)
    requires ExclusionOk(s) && Defined(s.m, s.c) && x !in s.m.locked
    ensures HoldersBeforePc(s, StepUnlock(s, x))
  {
    hide HoldersOk, Unlock, SettlePc;
    UnlockFields(s.m, x);
  }

  lemma OtherCallKeepsHolders(s: K, step: Step)
    requires Core(s) && RequestsOk(s) && ExclusionOk(s) && Enabled(s, step) && !Inner(step) && !step.DoCreate?
    requires !step.DoExit?
    requires !step.DoLock? && !step.DoUnlock? && !step.DoUnlockSleep?
    ensures HoldersBeforePc(s, Apply(s, step))
  {
    hide RequestsOk, Enabled, Apply, CoreInv, Caller, PcMoves, HoldersOk, AllAgree;
    CoreAgrees(s.m, s.c);
    ReplyIsSafe(s, step);
    CallKeepsCore(s, step);
    OtherCallsKeepHolders(s, step);
    HoldersFrame(s.m, Apply(s, step).m, Wakes(step), Blocks(step), s.c.pc, s.mx);
  }

  lemma CallKeepsHolders(s: K, step: Step)
    requires Core(s) && RequestsOk(s) && EncodingOk(s) && ExclusionOk(s) && Enabled(s, step) && !Inner(step)
    requires !step.DoCreate? && !step.DoExit? && Disciplined(s, step)
    ensures HoldersBeforePc(s, Apply(s, step))
  {
    if step.DoLock? || step.DoUnlock? || step.DoUnlockSleep? {
      hide Core, RequestsOk, EncodingOk, ExclusionOk, Defined, Ready, StepLock, StepUnlock, StepUnlockSleep,
        HoldersBeforePc,
        CountersFresh, ExitOk;
      match step
      case DoLock(x, blocking) => LockKeepsHolders(s, x, blocking);
      case DoUnlock(x) => if x in s.m.locked { UnlockStepsKeepHolders(s, x); } else { IdleUnlockKeepsHolders(s, x); }
      case DoUnlockSleep(x) => UnlockStepsKeepHolders(s, x);
    } else {
      hide Core, RequestsOk, ExclusionOk, Enabled, Apply, HoldersBeforePc;
      OtherCallKeepsHolders(s, step);
    }
  }

  lemma CallKeepsExclusion(s: K, step: Step)
    requires Core(s) && RequestsOk(s) && EncodingOk(s) && ExclusionOk(s) && Enabled(s, step) && !Inner(step)
    requires !step.DoCreate? && !step.DoExit? && Disciplined(s, step)
    ensures ExclusionOk(Apply(s, step))
  {
    hide RequestsOk, EncodingOk, Enabled, Apply, CoreInv, Moves, ListsKept, ListsInv, PcMoves, HoldersOk, Disciplined;
    ReplyIsSafe(s, step);
    CallKeepsCore(s, step);
    CallKeepsHolders(s, step);
    CoreKeys(s.m, s.c);
    var s' := Apply(s, step);
    HoldersPc(s.c, s'.c, s.m.active, Blocks(step), s.m.prio, s'.m.status, s'.mx);
  }

  lemma HoldersNew(prio: map<Pid, nat>, pc: map<Pid, Pc>, status: map<Pid, Status>, mx: MutexLog, t: Pid, p: nat,
                   st: Status, a: Pid, q: Pc)
    requires HoldersOk(prio, pc, status, mx) && t !in prio && (q.User? || q.Switch?)
    ensures HoldersOk(prio[t := p], pc[t := User], status[t := st], mx)
    ensures HoldersOk(prio[t := p], pc[t := User][a := q], status[t := st], mx)
  {
  }

  lemma CreateKeepsExclusion(s: K, prio: nat, sleeping: bool, wout: bool, flags: bv16)
    requires Defined(s.m, s.c) && ExclusionOk(s)
    ensures ExclusionOk(StepCreate(s, prio, sleeping, wout, flags))
  {
    hide HoldersOk, Create;
    CreateAddsOne(s.m, prio, sleeping, wout, flags);
    var free := FreePid(s.m.prio, KERNEL_PID_FIRST, s.m.maxPid);
    if prio < |s.m.rq| && free.Some? {
      HoldersNew(s.m.prio, s.c.pc, s.m.status, s.mx, free.value, prio, if sleeping then Sleeping else Pending,
                 s.m.active, Switch(prio));
    }
  }

  lemma HoldersFewer(prio: map<Pid, nat>, pc: map<Pid, Pc>, status: map<Pid, Status>, mx: MutexLog,
                     prio': map<Pid, nat>,
                     pc': map<Pid, Pc>, status': map<Pid, Status>, owns: set<(Pid, nat)>)
    requires HoldersOk(prio, pc, status, mx) && owns <= mx.owns
    requires forall t :: t in prio' ==> t in prio && (On(status', t) ==> On(status, t))
    requires forall t :: t in prio' && t in pc' ==> t in pc && forall x :: Locking(pc'[t], x) ==> Locking(pc[t], x)
    ensures HoldersOk(prio', pc', status', mx.(owns := owns))
  {
  }

  lemma ExitKeepsExclusion(s: K)
    requires Core(s) && ExclusionOk(s) && Defined(s.m, s.c) && Ready(s.m, s.c) && ExitOk(s.m)
    ensures ExclusionOk(StepExit(s))
  {
    ReadyRuns(s.m, s.c);
    PopKeepsLists(s.m, s.m.active, Stopped);
    NextThreadIsBest(SetStatus(s.m, s.m.active, Stopped));
    hide RunQueuesOk, WaitListsOk, PlacesOk, HoldersOk, CoreInv;
    var s' := StepExit(s);
    HoldersFewer(s.m.prio, s.c.pc, s.m.status, s.mx, s'.m.prio, s'.c.pc, s'.m.status, s'.mx.owns);
  }

  lemma InnerLocking(s: K, step: Step)
    requires Enabled(s, step) && Inner(step)
    ensures var pc := Apply(s, step).c.pc;
            forall t :: t in pc ==> t in s.c.pc && forall x :: Locking(pc[t], x) ==> Locking(s.c.pc[t], x)
  {
    hide SchedRun, RotateActive, ResumeMem, Shape;
  }

  lemma ResumeHolder(s: K)
    requires Core(s) && ExclusionOk(s) && s.c.pc[s.m.active].Do? && s.c.pc[s.m.active].k.LockDone?
    ensures HoldersOk(s.m.prio, s.c.pc, s.m.status, s.mx.(owns := s.mx.owns + {(s.m.active,
        s.c.pc[s.m.active].k.mutex)}))
  {
    hide RunQueuesOk, WaitListsOk, PlacesOk, IdleOk, BoxesNamed;
    assert Locking(s.c.pc[s.m.active], s.c.pc[s.m.active].k.mutex);
  }

  lemma InnerOn(s: K, step: Step)
    requires Core(s) && Enabled(s, step) && Inner(step)
    ensures var s' := Apply(s, step);
            s'.m.prio == s.m.prio && forall t :: t in s.m.prio ==> (On(s'.m.status, t) <==> On(s.m.status, t))
  {
    hide Apply, Enabled, CoreInv, SameStores;
    CoreLists(s.m, s.c);
    InnerEffect(s, step);
  }

  lemma InnerKeepsExclusion(s: K, step: Step)
    requires Core(s) && ExclusionOk(s) && Enabled(s, step) && Inner(step)
    ensures ExclusionOk(Apply(s, step))
  {
    InnerOn(s, step);
    InnerLocking(s, step);
    InnerHolders(s, step);
    if step.Resume? && s.c.pc[s.m.active].k.LockDone? {
      ResumeHolder(s);
      hide HoldersOk, CoreInv, Locking, ResumeMem, Shape;
      var s' := Apply(s, step);
      HoldersFewer(s.m.prio, s.c.pc, s.m.status, s'.mx, s'.m.prio, s'.c.pc, s'.m.status, s'.mx.owns);
    } else {
      InnerOwns(s, step);
      hide HoldersOk, CoreInv, Locking, Apply;
      var s' := Apply(s, step);
      HoldersFewer(s.m.prio, s.c.pc, s.m.status, s.mx, s'.m.prio, s'.c.pc, s'.m.status, s.mx.owns);
    }
  }

  lemma InnerOwns(s: K, step: Step)
    requires Enabled(s, step) && Inner(step) && (step.Resume? ==> !s.c.pc[s.m.active].k.LockDone?)
    ensures Apply(s, step).mx == s.mx && Apply(s, step).mx == s.mx.(owns := s.mx.owns)
  {
    hide SchedRun, RotateActive, ResumeMem, Shape;
  }
}
