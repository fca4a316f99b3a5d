/** core/mutex.c: the sections of locking and unlocking. */
module Mutexes {
  import opened Names
  import opened Sequences
  import opened KernelState
  import opened Scheduler
  import opened Threads

  /** _mutex_lock. The mutex word is NULL iff the mutex is not locked. */
  ghost function Lock(m: Mem, x: nat, blocking: bool): (r: (Mem, Out))
    requires Shape(m)
    ensures Shape(r.0) && r.0.active == m.active
  {
    if x !in m.locked then (m.(locked := m.locked + {x}), Done(1))
    else if blocking then
      (AddToList(SetStatus(m, m.active, MutexBlocked), MutexQueue(x), m.active), YieldHigher(LockDone(x)))
    else (m, Done(0))
  }

  /** The first waiter, taken out of the list and made runnable. */
  ghost function WakeFirst(m: Mem, l: ListId): (r: Mem)
    requires Shape(m) && Lst(m.lists, l) != []
    ensures Shape(r) && r.active == m.active
  {
    assert Keyed(Lst(m.lists, l), m.prio);
    SetStatus(RemoveHead(m, l), Lst(m.lists, l)[0], Pending)
  }

  /** mutex_unlock: a waiter gets the mutex, which stays locked. */
  ghost function Unlock(m: Mem, x: nat): (r: (Mem, Out))
    requires Shape(m)
    ensures Shape(r.0) && r.0.active == m.active
  {
    var s := Lst(m.lists, MutexQueue(x));
    if x !in m.locked then (m, Done(0))
    else if s == [] then (m.(locked := m.locked - {x}), Done(0))
    else
      assert Keyed(s, m.prio);
      (WakeFirst(m, MutexQueue(x)), SwitchTo(m.prio[s[0]]))
  }

  ghost function UnlockAndSleep(m: Mem, x: nat): (r: (Mem, Out))
    requires Shape(m)
    ensures Shape(r.0) && r.0.active == m.active
  {
    Sleep(Unlock(m, x).0)
  }

  lemma LockIsGood(m: Mem, x: nat, blocking: bool)
    requires ActiveRuns(m)
    ensures GoodSection(m, Lock(m, x, blocking).0, Lock(m, x, blocking).1, {}, {MutexBlocked})
  {
    if x in m.locked && blocking {
      PopIsGood(m, MutexBlocked, {}, {MutexBlocked});
      AddKeepsLists(SetStatus(m, m.active, MutexBlocked), MutexQueue(x), m.active);
    }
  }

  /** The woken thread joins the end of its run queue; nobody else moves there. */
  lemma WakeFirstIsGood(m: Mem, l: ListId)
    requires ListsInv(m) && Lst(m.lists, l) != []
    ensures var h := Lst(m.lists, l)[0]; h in m.prio && m.at[h] == Some(l) && !On(m.status, h)
    ensures GoodIsrSection(m, WakeFirst(m, l), {m.status[Lst(m.lists, l)[0]], KindOf(l)})
  {
    RemoveKeepsLists(m, l);
    PushKeepsLists(RemoveHead(m, l), Lst(m.lists, l)[0], Pending);
  }

  lemma UnlockIsGood(m: Mem, x: nat)
    requires ListsInv(m)
    ensures GoodIsrSection(m, Unlock(m, x).0, {MutexBlocked})
    ensures Unlock(m, x).1.Done? || Unlock(m, x).1.SwitchTo?
  {
    if x in m.locked && Lst(m.lists, MutexQueue(x)) != [] {
      WakeFirstIsGood(m, MutexQueue(x));
    } else {
      DataIsGood(m, Unlock(m, x).0, {MutexBlocked});
    }
  }

  lemma UnlockAndSleepIsGood(m: Mem, x: nat)
    requires ActiveRuns(m)
    ensures GoodSection(m, UnlockAndSleep(m, x).0, UnlockAndSleep(m, x).1, {MutexBlocked}, {Sleeping})
  {
    UnlockIsGood(m, x);
    SleepIsGood(Unlock(m, x).0);
  }
}
