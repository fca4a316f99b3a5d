/** What the calls of mutexes answer and do in every run, and that who is told
    to have a mutex is the only one. */
module MutexAnswers {
  import opened Names
  import opened Sequences
  import opened KernelState
  import opened Scheduler
  import opened Threads
  import opened Mutexes
  import opened Machine
  import opened Separation
  import opened Requests
  import opened Buffers
  import opened Conservation
  import opened Flags
  import opened Priority
  import opened Exclusion
  import opened Theorems
  import opened Results
  import opened Answers

  // Locking

  /** mutex_lock and mutex_trylock */
  ghost predicate LockDid(s: K, out: Out, s': K, x: nat, blocking: bool)
    requires Shape(s.m)
  {
    var a, held := s.m.active, x in s.mx.holder;
    && (out == Done(1) <==> !held)
    && (out == Done(0) <==> held && !blocking)
    && (out == YieldHigher(LockDone(x)) <==> held && blocking)
    && (!held ==>
          s' == s.(m := s.m.(locked := s.m.locked + {x}),
                   mx := MutexLog(s.mx.holder[x := a], s.mx.owns + {(a, x)})))
    && (held && !blocking ==> s' == s)
    && (held && blocking ==>
          && OnlyKernel(s, s') && ActiveFirst(s.m) && Keyed(Lst(s.m.lists, MutexQueue(x)), s.m.prio)
          && s'.m == Enlisted(Dequeued(s.m, a, MutexBlocked), a, MutexQueue(x)) && Yields(s, s', LockDone(x)))
  }

  lemma LockIs(m: Mem, x: nat, blocking: bool)
    requires ActiveRuns(m)
    ensures var (r, out) := Lock(m, x, blocking);
            && ActiveFirst(m) && Keyed(Lst(m.lists, MutexQueue(x)), m.prio)
            && if x !in m.locked then r == m.(locked := m.locked + {x}) && out == Done(1)
               else if blocking then
                 r == Enlisted(Dequeued(m, m.active, MutexBlocked), m.active, MutexQueue(x))
                 && out == YieldHigher(LockDone(x))
               else r == m && out == Done(0)
  {
    hide RunQueuesOk, WaitListsOk, PlacesOk, LevelsOk, ListsKeyed, RunQueuesKeyed, SetStatus, AddToList, Insert;
    DequeueIs(m, MutexBlocked);
    EnlistIs(m, MutexQueue(x));
    EnlistIs(SetStatus(m, m.active, MutexBlocked), MutexQueue(x));
  }

  lemma LockStep(s: K, x: nat, blocking: bool)
    requires Defined(s.m, s.c) && ActiveRuns(s.m) && !s.c.isr && EncodingOk(s)
    ensures LockDid(s, Lock(s.m, x, blocking).1, StepLock(s, x, blocking), x, blocking)
  {
    assert x in s.m.locked <==> x in s.mx.holder;
    hide ListsInv, Shape, Lock, EncodingOk, AtHead, Keyed, Enlisted, Dequeued, Ended;
    LockIs(s.m, x, blocking);
    var (r, out) := Lock(s.m, x, blocking);
    LockFrame(s.m, x, blocking);
    if out.Done? { EndedDone(s, r, out.result); } else { EndedYields(s, r, LockDone(x)); }
  }

  lemma LockFrame(m: Mem, x: nat, blocking: bool)
    requires Shape(m)
    ensures var r := Lock(m, x, blocking).0; r.active == m.active && r.active in r.prio
  {
    hide Lock;
  }

  /** mutex_lock and mutex_trylock return 1 at once exactly if nobody has the
      mutex, which is then given to the caller; mutex_trylock returns 0 exactly if
      somebody has it, and changes nothing; mutex_lock waits exactly then. */
  lemma LockAnswers(tr: seq<K>, steps: seq<Step>, i: nat)
    requires Run(tr, steps) && i < |steps| && steps[i].DoLock?
    ensures var x, blocking := steps[i].x, steps[i].blocking;
            Shape(tr[i].m) && LockDid(tr[i], Lock(tr[i].m, x, blocking).1, tr[i + 1], x, blocking)
  {
    hide Run, Core, RequestsOk, BuffersOk, MessagesOk, NumbersOk, FlagStateOk, PriorityOk, EncodingOk, ListsInv, Shape,
      Lock, StepLock, LockDid;
    RunLengths(tr, steps);
    StepOfRun(tr, steps, i);
    ReadyIsUser(tr[i]);
    LockStep(tr[i], steps[i].x, steps[i].blocking);
  }

  // Unlocking

  /** The mutex as it is left: free, or with the first waiter, who is runnable. */
  ghost function Unlocked(m: Mem, x: nat): Mem
    requires ListsInv(m)
  {
    var l := MutexQueue(x);
    if x !in m.locked then m
    else if Lst(m.lists, l) == [] then m.(locked := m.locked - {x})
    else
      assert Keyed(Lst(m.lists, l), m.prio);
      Readied(Released(m, l), Lst(m.lists, l)[0], Pending)
  }

  lemma UnlockIs(m: Mem, x: nat)
    requires ListsInv(m)
    ensures var (r, out), w := Unlock(m, x), Lst(m.lists, MutexQueue(x));
            && r == Unlocked(m, x)
            && if x in m.locked && w != [] then w[0] in m.prio && out == SwitchTo(m.prio[w[0]]) else out == Done(0)
  {
    hide RunQueuesOk, WaitListsOk, PlacesOk, LevelsOk, RunQueuesKeyed, WakeFirst, Readied, Released;
    if Lst(m.lists, MutexQueue(x)) != [] { WakeFirstIs(m, MutexQueue(x)); }
  }

  /** Whom the mutex was given to. */
  ghost predicate GivenOn(s: K, s': K, x: nat) {
    var w := Lst(s.m.lists, MutexQueue(x));
    s'.mx.holder == (if x !in s.mx.holder then s.mx.holder else if w == [] then s.mx.holder - {x}
                     else s.mx.holder[x := w[0]])
  }

  /** mutex_unlock */
  ghost predicate UnlockDid(s: K, s': K, x: nat)
    requires ListsInv(s.m)
  {
    var w := Lst(s.m.lists, MutexQueue(x));
    && s' == s.(m := s'.m, c := s'.c, mx := s'.mx) && GivenOn(s, s', x)
    && s'.m == Unlocked(s.m, x).(csr := s'.m.csr)
    && if x in s.mx.holder && w != [] then w[0] in s.m.prio && Asks(s, s', s.m.prio[w[0]])
       else s'.c == s.c && s'.m.csr == s.m.csr
  }

  lemma GivenStep(s: K, x: nat)
    requires EncodingOk(s) && Shape(s.m)
    ensures GivenOn(s, StepUnlock(s, x), x) && GivenOn(s, StepUnlockSleep(s, x), x)
  {
    hide Unlock, UnlockAndSleep, SettleMem, SettlePc, Shape;
  }

  lemma UnlockedSame(m: Mem, x: nat)
    requires ListsInv(m)
    ensures var r := Unlocked(m, x);
            r.csr == m.csr && r.active == m.active && r.prio == m.prio && r == r.(csr := m.csr)
            && (On(m.status, m.active) ==> On(r.status, m.active))
  {
    hide RunQueuesOk, WaitListsOk, PlacesOk, RunQueuesKeyed;
    if Lst(m.lists, MutexQueue(x)) != [] { assert Keyed(Lst(m.lists, MutexQueue(x)), m.prio); }
  }

  lemma UnlockStep(s: K, x: nat)
    requires Defined(s.m, s.c) && ListsInv(s.m) && EncodingOk(s)
    ensures UnlockDid(s, StepUnlock(s, x), x)
  {
    assert x in s.m.locked <==> x in s.mx.holder;
    hide ListsInv, Shape, Unlock, EncodingOk, Unlocked, UnlockLog, GivenOn, Ended, Asks;
    GivenStep(s, x);
    UnlockIs(s.m, x);
    UnlockedSame(s.m, x);
    var (r, out) := Unlock(s.m, x);
    if out.SwitchTo? { EndedAsks(s, r, out.prio); } else { EndedDone(s, r, 0); }
  }

  /** mutex_unlock of a mutex that nobody waits for frees it; else it goes to the
      first waiter, who is the last of its level now, with a switch to its
      priority asked for. Unlocking a free mutex changes nothing. */
  lemma UnlockAnswers(tr: seq<K>, steps: seq<Step>, i: nat)
    requires Run(tr, steps) && i < |steps| && steps[i].DoUnlock?
    ensures ListsInv(tr[i].m) && UnlockDid(tr[i], tr[i + 1], steps[i].x)
  {
    hide Run, Core, RequestsOk, BuffersOk, MessagesOk, NumbersOk, FlagStateOk, PriorityOk, EncodingOk, ListsInv, Shape,
      StepUnlock, UnlockDid;
    RunLengths(tr, steps);
    StepOfRun(tr, steps, i);
    UnlockStep(tr[i], steps[i].x);
  }

  /** mutex_unlock_and_sleep */
  ghost predicate UnlockSleepDid(s: K, s': K, x: nat)
    requires ListsInv(s.m)
  {
    && s' == s.(m := s'.m, c := s'.c, mx := s'.mx) && GivenOn(s, s', x)
    && ActiveFirst(Unlocked(s.m, x)) && s'.m == Dequeued(Unlocked(s.m, x), s.m.active, Sleeping)
    && Yields(s, s', Return)
  }

  lemma UnlockSleepStep(s: K, x: nat)
    requires Defined(s.m, s.c) && ActiveRuns(s.m) && !s.c.isr && EncodingOk(s)
    ensures UnlockSleepDid(s, StepUnlockSleep(s, x), x)
  {
    hide ListsInv, LevelsOk, ListsKeyed, RunQueuesKeyed, Unlock, EncodingOk, Unlocked, UnlockLog, GivenOn, SetStatus,
      Dequeued;
    GivenStep(s, x);
    UnlockIs(s.m, x);
    UnlockIsGood(s.m, x);
    DequeueIs(Unlock(s.m, x).0, Sleeping);
  }

  /** mutex_unlock_and_sleep unlocks in the same way, and its caller sleeps. */
  lemma UnlockSleepAnswers(tr: seq<K>, steps: seq<Step>, i: nat)
    requires Run(tr, steps) && i < |steps| && steps[i].DoUnlockSleep?
    ensures ListsInv(tr[i].m) && UnlockSleepDid(tr[i], tr[i + 1], steps[i].x)
  {
    hide Run, Core, RequestsOk, BuffersOk, MessagesOk, NumbersOk, FlagStateOk, PriorityOk, EncodingOk, ListsInv, Shape,
      StepUnlockSleep, UnlockSleepDid;
    RunLengths(tr, steps);
    StepOfRun(tr, steps, i);
    ReadyIsUser(tr[i]);
    UnlockSleepStep(tr[i], steps[i].x);
  }

  // Who was told

  /** In this step `t` is returned 1 by a lock of `x`: at once, or after it waited. */
  ghost predicate Told(s: K, step: Step, t: Pid, x: nat) {
    && t == s.m.active && Defined(s.m, s.c)
    && ((step.DoLock? && step.x == x && Lock(s.m, x, step.blocking).1 == Done(1))
        || (step.Resume? && s.c.pc[t] == Do(LockDone(x))))
  }

  /** In this step `t` unlocks `x`, or exits. */
  ghost predicate GivesBack(s: K, step: Step, t: Pid, x: nat) {
    && t == s.m.active && !s.c.isr
    && (step.DoExit? || ((step.DoUnlock? || step.DoUnlockSleep?) && step.x == x && x in s.m.locked))
  }

  lemma TellsOrTakes(s: K, step: Step, t: Pid, u: Pid, x: nat)
    requires Told(s, step, u, x)
    ensures !GivesBack(s, step, t, x)
  {
  }

  /** The pair is recorded after the step exactly if it should be. */
  ghost predicate Recorded(s: K, step: Step, s': K, t: Pid, x: nat) {
    (t, x) in s'.mx.owns <==> Told(s, step, t, x) || ((t, x) in s.mx.owns && !GivesBack(s, step, t, x))
  }

  lemma LockTells(s: K, y: nat, blocking: bool, t: Pid, x: nat)
    requires Defined(s.m, s.c)
    ensures Recorded(s, DoLock(y, blocking), StepLock(s, y, blocking), t, x)
  {
    hide Shape, Lock, SettleMem, SettlePc;
  }

  lemma UnlockTakes(s: K, y: nat, t: Pid, x: nat)
    requires Defined(s.m, s.c)
    ensures Recorded(s, DoUnlock(y), StepUnlock(s, y), t, x)
    ensures !s.c.isr ==> Recorded(s, DoUnlockSleep(y), StepUnlockSleep(s, y), t, x)
  {
    hide Shape, Unlock, UnlockAndSleep, SettleMem, SettlePc;
  }

  lemma ExitTakes(s: K, t: Pid, x: nat)
    requires ExitOk(s.m) && !s.c.isr
    ensures Recorded(s, DoExit, StepExit(s), t, x)
  {
    hide Exit, ExitOk, MarkLost, Shape;
  }

  lemma ResumeTells(s: K, t: Pid, x: nat)
    requires Defined(s.m, s.c) && InnerEnabled(s.m, s.c, Resume)
    ensures Recorded(s, Resume, StepResume(s, s.c.pc[s.m.active].k), t, x)
  {
    hide Shape, ResumeMem, ResumePc;
  }

  lemma OthersTellNothing(s: K, step: Step, s': K, t: Pid, x: nat)
    requires !step.DoLock? && !step.DoUnlock? && !step.DoUnlockSleep? && !step.DoExit? && !step.Resume?
    requires s'.mx.owns == s.mx.owns
    ensures Recorded(s, step, s', t, x)
  {
    hide Defined;
  }

  lemma LocksAreRecorded(s: K, step: Step, t: Pid, x: nat)
    requires Enabled(s, step)
    requires step.DoLock? || step.DoUnlock? || step.DoUnlockSleep? || step.DoExit? || step.Resume?
    ensures Recorded(s, step, Apply(s, step), t, x)
  {
    hide Shape, StepLock, StepUnlock, StepUnlockSleep, StepExit, StepResume, ExitOk, Recorded;
    match step
    case DoLock(y, blocking) => LockTells(s, y, blocking, t, x);
    case DoUnlock(y) => UnlockTakes(s, y, t, x);
    case DoUnlockSleep(y) => UnlockTakes(s, y, t, x);
    case DoExit => ExitTakes(s, t, x);
    case Resume => ResumeTells(s, t, x);
  }

  /** The record of who has which mutex: exactly who was told so and has not
      given it back. */
  lemma OwnersAreTheTold(s: K, step: Step, t: Pid, x: nat)
    requires Enabled(s, step)
    ensures (t, x) in Apply(s, step).mx.owns
            <==> Told(s, step, t, x) || ((t, x) in s.mx.owns && !GivesBack(s, step, t, x))
  {
    hide Apply, Enabled, Told, GivesBack;
    if step.DoLock? || step.DoUnlock? || step.DoUnlockSleep? || step.DoExit? || step.Resume? {
      LocksAreRecorded(s, step, t, x);
    } else {
      if Inner(step) { InnerHolders(s, step); } else { OtherCallsKeepHolders(s, step); }
      OthersTellNothing(s, step, Apply(s, step), t, x);
    }
  }

  /** From its step `i` on, up to step `j`, `t` has not given `x` back. */
  ghost predicate Keeps(tr: seq<K>, steps: seq<Step>, i: nat, j: nat, t: Pid, x: nat)
    requires j <= |tr| && j <= |steps|
  {
    forall n :: i < n < j ==> !GivesBack(tr[n], steps[n], t, x)
  }

  lemma {:induction false} ToldOwns(tr: seq<K>, steps: seq<Step>, i: nat, j: nat, t: Pid, x: nat)
    requires Run(tr, steps) && i < j < |tr| && Told(tr[i], steps[i], t, x) && Keeps(tr, steps, i, j, t, x)
    ensures (t, x) in tr[j].mx.owns
    decreases j
  {
    hide Told, GivesBack, Enabled, Apply, Boot;
    assert Next(tr[j - 1], steps[j - 1], tr[j]);
    OwnersAreTheTold(tr[j - 1], steps[j - 1], t, x);
    if i + 1 < j { ToldOwns(tr, steps, i, j - 1, t, x); }
  }

  /** Mutual exclusion as the callers see it: while one that was returned 1 has
      not unlocked, nobody else is returned 1. */
  lemma OnlyOneIsTold(tr: seq<K>, steps: seq<Step>, i: nat, j: nat, t: Pid, u: Pid, x: nat)
    requires DisciplinedRun(tr, steps) && i < j < |steps| && Keeps(tr, steps, i, j, t, x)
    requires Told(tr[i], steps[i], t, x) && Told(tr[j], steps[j], u, x)
    ensures t == u
  {
    hide Told, GivesBack, Enabled, Apply, Boot, Disciplined;
    ToldOwns(tr, steps, i, j, t, x);
    TellsOrTakes(tr[j], steps[j], t, u, x);
    assert Next(tr[j], steps[j], tr[j + 1]);
    OwnersAreTheTold(tr[j], steps[j], t, x);
    OwnersAreTheTold(tr[j], steps[j], u, x);
    MutualExclusion(tr, steps, j + 1, x, t, u);
  }
}
