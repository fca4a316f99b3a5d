/** core/thread.c: the sections of sleeping, waking, yielding, creating and
    exiting. */
module Threads {
  import opened Names
  import opened Sequences
  import opened KernelState
  import opened Scheduler

  const EINVAL: int := 22
  const EOVERFLOW: int := 75
  const STATUS_NOT_FOUND: int := -1

  const BLANK: Msg := Msg(KERNEL_PID_UNDEF, 0, 0, 0)

  ghost function Sleep(m: Mem): (r: (Mem, Out))
    requires Shape(m)
    ensures Shape(r.0) && r.0.active == m.active
  {
    (SetStatus(m, m.active, Sleeping), YieldHigher(Return))
  }

  ghost function Wakeup(m: Mem, t: Pid): (r: (Mem, Out))
    requires Shape(m)
    ensures Shape(r.0) && r.0.active == m.active
  {
    if t in m.prio && m.status[t] == Sleeping
    then (SetStatus(m, t, Running), SwitchTo(m.prio[t]))
    else (m, Done(STATUS_NOT_FOUND))
  }

  ghost function YieldThread(m: Mem): (r: (Mem, Out))
    requires Shape(m)
    ensures Shape(r.0) && r.0.active == m.active
  {
    (RotateActive(m), YieldHigher(Return))
  }

  /** The smallest free pid from `from` on, or None. */
  function FreePid(prio: map<Pid, nat>, from: Pid, maxPid: nat): (r: Option<Pid>)
    ensures r.Some? ==> from <= r.value <= maxPid && r.value !in prio
    decreases maxPid + 1 - from
  {
    if from > maxPid then None
    else if from !in prio then Some(from)
    else FreePid(prio, from + 1, maxPid)
  }

  /** The new thread control block, not yet on any list. */
  ghost function AddThread(m: Mem, t: Pid, prio: nat, flags: bv16): (r: Mem)
    requires Shape(m) && t !in m.prio && prio < |m.rq|
    ensures Shape(r) && t in r.prio
  {
    m.(prio := m.prio[t := prio], status := m.status[t := Stopped], at := m.at[t := None],
       flags := m.flags[t := flags], wait := m.wait[t := NoData], buf := m.buf[t := BLANK],
       queue := m.queue[t := NO_QUEUE])
  }

  /** `flags` is what the thread's flags word happens to hold: thread_create
      does not set it. */
  ghost function Create(m: Mem, prio: nat, sleeping: bool, lazy: bool, flags: bv16): (r: (Mem, Out))
    requires Shape(m)
    ensures Shape(r.0) && r.0.active == m.active
  {
    if prio >= |m.rq| then (m, Done(-EINVAL))
    else
      var free := FreePid(m.prio, KERNEL_PID_FIRST, m.maxPid);
      if free.None? then (m, Done(-EOVERFLOW))
      else
        var t := free.value;
        var a := AddThread(m, t, prio, flags);
        if sleeping then (SetStatus(a, t, Sleeping), Done(t))
        else (SetStatus(a, t, Pending), if lazy then Done(t) else SwitchTo(prio))
  }

  /** sched_task_exit can be followed by sched_run. */
  ghost predicate ExitOk(m: Mem) {
    && Shape(m)
    && var popped := SetStatus(m, m.active, Stopped);
       && Runnable(popped) && NextThread(popped) != m.active
       && ListsKeyed(m.lists, m.prio - {m.active})
       && RunQueuesKeyed(popped.rq, m.prio - {m.active})
  }

  ghost function Exit(m: Mem): (r: Mem)
    requires ExitOk(m)
    ensures Shape(r)
  {
    var popped := SetStatus(m, m.active, Stopped);
    var t := NextThread(popped);
    assert t in popped.rq[Best(popped.rq)];
    popped.(prio := m.prio - {m.active}, status := popped.status[t := Running], active := t, csr := false)
  }

  // The sections are good

  lemma SleepIsGood(m: Mem)
    requires ActiveRuns(m)
    ensures GoodSection(m, Sleep(m).0, Sleep(m).1, {}, {Sleeping})
  {
    PopIsGood(m, Sleeping, {}, {Sleeping});
  }

  lemma UnlistedStatus(m: Mem, t: Pid)
    requires ListsInv(m) && t in m.prio
    requires m.status[t] in {Stopped, Sleeping, ReceiveBlocked, FlagBlockedAny, FlagBlockedAll, Running, Pending}
    ensures m.at[t] == None
  {
  }

  /** Nobody waits to send to a pid without a thread. */
  lemma DeadHaveNoSenders(m: Mem, t: Pid)
    requires ListsInv(m) && t !in m.prio
    ensures Lst(m.lists, MsgWaiters(t)) == [] && forall u :: t !in Lst(m.lists, MsgWaiters(u))
  {
    SomeMember(Lst(m.lists, MsgWaiters(t)));
  }

  lemma WakeupIsGood(m: Mem, t: Pid)
    requires ListsInv(m)
    ensures GoodIsrSection(m, Wakeup(m, t).0, {Sleeping})
  {
    if t in m.prio && m.status[t] == Sleeping {
      UnlistedStatus(m, t);
      PushIsGood(m, t, Running, {Sleeping});
    } else {
      DataIsGood(m, m, {Sleeping});
    }
  }

  lemma YieldIsGood(m: Mem)
    requires ActiveRuns(m)
    ensures GoodSection(m, YieldThread(m).0, YieldThread(m).1, {}, {})
  {
    RotateKeepsLists(m);
  }

  /** A dead thread is in no list. */
  lemma AddThreadKeepsLists(m: Mem, t: Pid, prio: nat, flags: bv16)
    requires ListsInv(m) && t !in m.prio && prio < |m.rq|
    ensures ListsInv(AddThread(m, t, prio, flags))
  {
    var a := AddThread(m, t, prio, flags);
    forall p, u | 0 <= p < |a.rq|
      ensures u in a.rq[p] <==> u in a.prio && On(a.status, u) && a.prio[u] == p
    {
      assert u in m.rq[p] <==> u in m.prio && On(m.status, u) && m.prio[u] == p;
    }
    forall l, u
      ensures u in Lst(a.lists, l) <==> u in a.prio && a.at[u] == Some(l)
    {
      assert u in Lst(m.lists, l) <==> u in m.prio && m.at[u] == Some(l);
    }
    forall l
      ensures NoDup(Lst(a.lists, l)) && Sorted(Lst(a.lists, l), a.prio)
    {
      var s := Lst(m.lists, l);
      assert NoDup(s) && Sorted(s, m.prio);
      forall i, j | 0 <= i < j < |s|
        ensures a.prio[s[i]] <= a.prio[s[j]]
      {
        assert s[i] in s && s[j] in s;
      }
    }
  }

  lemma StartKeepsLists(m: Mem, t: Pid, st: Status)
    requires ListsInv(m) && t in m.prio && m.status[t] == Stopped && t != m.active && (st == Sleeping || st == Pending)
    ensures var r := SetStatus(m, t, st); ListsInv(r) && (ActiveRuns(m) ==> ActiveRuns(r))
  {
    UnlistedStatus(m, t);
    if st == Sleeping { RelabelKeepsLists(m, t, st); } else { PushKeepsLists(m, t, st); }
  }

  lemma CreateKeepsLists(m: Mem, prio: nat, sleeping: bool, lazy: bool, flags: bv16)
    requires ListsInv(m)
    ensures ListsInv(Create(m, prio, sleeping, lazy, flags).0)
    ensures ActiveRuns(m) ==> ActiveRuns(Create(m, prio, sleeping, lazy, flags).0)
  {
    hide RunQueuesOk, WaitListsOk, PlacesOk, SetStatus;
    var free := FreePid(m.prio, KERNEL_PID_FIRST, m.maxPid);
    if prio < |m.rq| && free.Some? {
      var t := free.value;
      AddThreadKeepsLists(m, t, prio, flags);
      StartKeepsLists(AddThread(m, t, prio, flags), t, if sleeping then Sleeping else Pending);
    }
  }

  lemma SetStatusFields(m: Mem, t: Pid, st: Status)
    requires Shape(m) && t in m.prio
    ensures SetStatus(m, t, st) == m.(rq := SetStatus(m, t, st).rq, status := m.status[t := st])
  {
    hide LevelsOk, ListsKeyed, RunQueuesKeyed;
  }

  /** What Create does to the maps that say where threads are. */
  lemma CreateAddsOne(m: Mem, prio: nat, sleeping: bool, lazy: bool, flags: bv16)
    requires Shape(m)
    ensures var (r, out) := Create(m, prio, sleeping, lazy, flags);
            var free := FreePid(m.prio, KERNEL_PID_FIRST, m.maxPid);
            if prio >= |m.rq| || free.None? then r == m && out.Done?
            else
              var t, st := free.value, if sleeping then Sleeping else Pending;
              && t !in m.prio && (out.Done? || out == SwitchTo(prio)) && r.active == m.active && r.mbox == m.mbox
              && r.prio == m.prio[t := prio] && r.status == m.status[t := st]
              && r.at == m.at[t := None] && r.wait == m.wait[t := NoData]
  {
    hide SetStatus, FreePid, LevelsOk, ListsKeyed, RunQueuesKeyed;
    var free := FreePid(m.prio, KERNEL_PID_FIRST, m.maxPid);
    if prio < |m.rq| && free.Some? {
      SetStatusFields(AddThread(m, free.value, prio, flags), free.value, if sleeping then Sleeping else Pending);
    }
  }

  lemma CreateAddsData(m: Mem, prio: nat, sleeping: bool, lazy: bool, flags: bv16)
    requires Shape(m)
    ensures var r := Create(m, prio, sleeping, lazy, flags).0;
            var free := FreePid(m.prio, KERNEL_PID_FIRST, m.maxPid);
            && r.lists == m.lists && r.locked == m.locked
            && if prio >= |m.rq| || free.None? then r.buf == m.buf && r.queue == m.queue && r.flags == m.flags
               else
                 && r.buf == m.buf[free.value := BLANK] && r.queue == m.queue[free.value := NO_QUEUE]
                 && r.flags == m.flags[free.value := flags]
  {
    hide SetStatus, FreePid, LevelsOk, ListsKeyed, RunQueuesKeyed;
    var free := FreePid(m.prio, KERNEL_PID_FIRST, m.maxPid);
    if prio < |m.rq| && free.Some? {
      SetStatusFields(AddThread(m, free.value, prio, flags), free.value, if sleeping then Sleeping else Pending);
    }
  }

  /** A thread can exit as long as the idle thread is runnable, and the best of
      the others runs. The lists stay right if and only if nobody waits to send
      to it: who does is left in the list of a thread that is gone. */
  lemma ExitKeepsLists(m: Mem, idle: Pid)
    requires ActiveRuns(m) && idle in m.prio && On(m.status, idle) && idle != m.active
    ensures ExitOk(m) && (ListsInv(Exit(m)) <==> Lst(m.lists, MsgWaiters(m.active)) == [])
    ensures Lst(m.lists, MsgWaiters(m.active)) == [] ==> ActiveRuns(Exit(m))
    ensures forall u :: u in Exit(m).prio && On(Exit(m).status, u) ==>
              Exit(m).prio[Exit(m).active] <= Exit(m).prio[u]
  {
    var popped := SetStatus(m, m.active, Stopped);
    PopKeepsLists(m, m.active, Stopped);
    assert idle in popped.rq[m.prio[idle]];
    NextThreadIsBest(popped);
    UnlistedStatus(m, m.active);
    ForgetThread(popped);
    var t := NextThread(popped);
    var mid := popped.(prio := m.prio - {m.active}, active := t);
    if Lst(m.lists, MsgWaiters(m.active)) == [] {
      SameRunnable(mid, Exit(m).status);
    } else {
      SenderIsLeft(m, Exit(m));
    }
  }

  /** The first waiting sender is in the list of a thread that is gone. */
  lemma SenderIsLeft(m: Mem, r: Mem)
    requires ListsInv(m) && Lst(m.lists, MsgWaiters(m.active)) != [] && m.at[m.active] == None
    requires Shape(r) && r.prio == m.prio - {m.active} && r.at == m.at
    ensures !PlacesOk(r.prio, r.status, r.at)
  {
    var u := Lst(m.lists, MsgWaiters(m.active))[0];
    assert u in Lst(m.lists, MsgWaiters(m.active));
    assert u in r.prio && r.at[u] == Some(MsgWaiters(m.active));
  }

  lemma ForgetInQueues(m: Mem, prio: map<Pid, nat>)
    requires ListsInv(m) && !On(m.status, m.active) && prio == m.prio - {m.active}
    ensures RunQueuesKeyed(m.rq, prio) && RunQueuesOk(m.rq, prio, m.status)
  {
    hide WaitListsOk, PlacesOk;
    forall p, u | 0 <= p < |m.rq|
      ensures u in m.rq[p] <==> u in prio && On(m.status, u) && prio[u] == p
    {
      assert u in m.rq[p] <==> u in m.prio && On(m.status, u) && m.prio[u] == p;
    }
  }

  lemma ForgetInLists(m: Mem, prio: map<Pid, nat>)
    requires ListsInv(m) && m.at[m.active] == None && prio == m.prio - {m.active}
    ensures ListsKeyed(m.lists, prio) && WaitListsOk(m.lists, prio, m.at)
  {
    hide RunQueuesOk, PlacesOk;
    forall l
      ensures Keyed(Lst(m.lists, l), prio)
    {
      var s := Lst(m.lists, l);
      assert Keyed(s, m.prio);
      forall i | 0 <= i < |s|
        ensures s[i] in prio
      {
        assert s[i] in s;
      }
    }
    forall l, u
      ensures u in Lst(m.lists, l) <==> u in prio && m.at[u] == Some(l)
    {
      assert u in Lst(m.lists, l) <==> u in m.prio && m.at[u] == Some(l);
    }
    forall l
      ensures NoDup(Lst(m.lists, l)) && Sorted(Lst(m.lists, l), prio)
    {
      assert Sorted(Lst(m.lists, l), m.prio);
    }
  }

  lemma ForgetInPlaces(m: Mem, prio: map<Pid, nat>)
    requires ListsInv(m) && prio == m.prio - {m.active} && Lst(m.lists, MsgWaiters(m.active)) == []
    ensures PlacesOk(prio, m.status, m.at)
  {
    hide RunQueuesOk;
    forall u | u in prio && m.at[u].Some? && m.at[u].value.MsgWaiters?
      ensures m.at[u].value.pid in prio
    {
      assert u in Lst(m.lists, m.at[u].value);
    }
  }

  /** A stopped thread outside all lists can be forgotten. */
  lemma ForgetThread(m: Mem)
    requires ListsInv(m) && !On(m.status, m.active) && m.at[m.active] == None
    ensures ListsKeyed(m.lists, m.prio - {m.active}) && RunQueuesKeyed(m.rq, m.prio - {m.active})
    ensures Lst(m.lists, MsgWaiters(m.active)) == [] ==>
              forall t :: t in m.prio && t != m.active ==> ListsInv(m.(prio := m.prio - {m.active}, active := t))
  {
    var prio := m.prio - {m.active};
    ForgetInQueues(m, prio);
    ForgetInLists(m, prio);
    if Lst(m.lists, MsgWaiters(m.active)) == [] { ForgetInPlaces(m, prio); }
    hide RunQueuesOk, WaitListsOk, PlacesOk, ListsKeyed, RunQueuesKeyed;
  }
}
