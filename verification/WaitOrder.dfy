/** Wait lists are served by priority and, among equals, by arrival. */
module WaitOrder {
  import opened Names
  import opened Sequences
  import opened CircularIndex
  import opened KernelState
  import opened Scheduler
  import opened Threads
  import opened Mutexes
  import opened Messages
  import opened Mailboxes
  import opened Effects
  import opened Machine
  import opened PlainSteps
  import opened Separation
  import opened Requests
  import opened Exclusion

  /** A list stays as it is, or the active thread joins, or its first thread leaves. */
  ghost predicate ListStep(was: seq<Pid>, now: seq<Pid>, a: Pid, prio: map<Pid, nat>)
    requires Keyed(was, prio) && a in prio
  {
    now == was || (a !in was && now == Insert(was, a, prio)) || (was != [] && now == was[1..])
  }

  ghost predicate ListsStep(m: Mem, lists: map<ListId, seq<Pid>>)
    requires Shape(m)
  {
    forall l :: Keyed(Lst(m.lists, l), m.prio) && ListStep(Lst(m.lists, l), Lst(lists, l), m.active, m.prio)
  }

  lemma SameLists(m: Mem)
    requires Shape(m)
    ensures ListsStep(m, m.lists)
  {
    hide Insert;
  }

  lemma JoinsList(m: Mem, l: ListId)
    requires ListsInv(m) && m.at[m.active] == None
    ensures Keyed(Lst(m.lists, l), m.prio) && ListsStep(m, m.lists[l := Insert(Lst(m.lists, l), m.active, m.prio)])
  {
    hide Insert, RunQueuesOk, PlacesOk;
    var now := m.lists[l := Insert(Lst(m.lists, l), m.active, m.prio)];
    assert m.active !in Lst(m.lists, l);
    forall k
      ensures Keyed(Lst(m.lists, k), m.prio) && ListStep(Lst(m.lists, k), Lst(now, k), m.active, m.prio)
    {
    }
  }

  lemma LeavesList(m: Mem, l: ListId)
    requires Shape(m) && Lst(m.lists, l) != []
    ensures ListsStep(m, m.lists[l := Lst(m.lists, l)[1..]])
  {
    hide Insert;
    var now := m.lists[l := Lst(m.lists, l)[1..]];
    forall k
      ensures Keyed(Lst(m.lists, k), m.prio) && ListStep(Lst(m.lists, k), Lst(now, k), m.active, m.prio)
    {
    }
  }

  lemma ListsFrame(m: Mem, r: Mem, w: set<Status>, b: set<Status>)
    requires Caller(m, r, w, b) && SendBlocked !in w + b && MutexBlocked !in w + b && MboxBlocked !in w + b
    ensures ListsStep(m, r.lists)
  {
    hide ListsInv, Moves, Insert;
    forall k
      ensures Keyed(Lst(m.lists, k), m.prio) && ListStep(Lst(m.lists, k), Lst(r.lists, k), m.active, m.prio)
    {
      assert Lst(r.lists, k) == Lst(m.lists, k);
    }
  }

  // The sections that move threads into and out of wait lists

  lemma LockMoves(m: Mem, x: nat, blocking: bool)
    requires ActiveRuns(m)
    ensures ListsStep(m, Lock(m, x, blocking).0.lists)
  {
    hide RunQueuesOk, WaitListsOk, Lock, Insert, ListsStep;
    UnlistedStatus(m, m.active);
    LockFields(m, x, blocking);
    SameLists(m);
    JoinsList(m, MutexQueue(x));
  }

  lemma UnlockMoves(m: Mem, x: nat)
    requires ListsInv(m)
    ensures ListsStep(m, Unlock(m, x).0.lists) && ListsStep(m, UnlockAndSleep(m, x).0.lists)
  {
    hide RunQueuesOk, WaitListsOk, PlacesOk, Unlock, Sleep, Insert, ListsStep;
    UnlockFields(m, x);
    SleepFields(Unlock(m, x).0);
    SameLists(m);
    if Lst(m.lists, MutexQueue(x)) != [] { LeavesList(m, MutexQueue(x)); }
  }

  lemma SentMoves(m: Mem, r: Mem, t: Pid, msg: Msg, fate: Fate, st: Status)
    requires ListsInv(m) && (fate != Refused ==> t in m.prio) && Sent(m, r, t, msg, fate, st)
    requires fate == Waits ==> m.at[m.active] == None
    ensures ListsStep(m, r.lists)
  {
    hide RunQueuesOk, WaitListsOk, PlacesOk, Insert, ListsStep, Flagged;
    SameLists(m);
    if fate == Waits { JoinsList(m, MsgWaiters(t)); }
  }

  lemma SendMoves(m: Mem, to: Pid, msg: Msg, block: bool)
    requires ActiveRuns(m)
    ensures ListsStep(m, Send(m, to, msg, block).0.lists)
  {
    hide RunQueuesOk, WaitListsOk, Send, Sent, ListsStep;
    UnlistedStatus(m, m.active);
    SendEffect(m, to, msg, block);
    SentMoves(m, Send(m, to, msg, block).0, to, msg.(sender := m.active), FateOf(m, to, to == m.active, block),
              SendBlocked);
  }

  lemma RequestMoves(m: Mem, to: Pid, msg: Msg)
    requires ActiveRuns(m) && to in m.prio && to != m.active
    ensures ListsStep(m, SendReceive(m, to, msg).0.lists)
  {
    hide RunQueuesOk, WaitListsOk, SendReceive, Requested, Sent, FateOf, Caller, Insert;
    UnlistedStatus(m, m.active);
    RequestedIsSending(m, msg);
    RequestEffect(m, to, msg);
    SentMoves(Requested(m, msg), SendReceive(m, to, msg).0, to, msg.(sender := m.active), FateOf(m, to, false, true),
              ReplyBlocked);
  }

  lemma ReceiveMovesLists(m: Mem, block: bool)
    requires Shape(m)
    ensures ListsStep(m, Receive(m, block).0.lists)
  {
    hide Receive, ListsStep, Take, Refilled;
    ReceiveEffect(m, block);
    SameLists(m);
    if Lst(m.lists, MsgWaiters(m.active)) != [] { LeavesList(m, MsgWaiters(m.active)); }
  }

  lemma PutMoves(m: Mem, b: nat, msg: Msg, blocking: bool)
    requires ListsInv(m) && b in m.mbox && (ActiveRuns(m) || !blocking)
    ensures ListsStep(m, PutMsg(m, b, msg, blocking).0.lists)
  {
    hide RunQueuesOk, WaitListsOk, PutMsg, ListsStep, Full, PutSlot, Insert;
    PutEffect(m, b, msg, blocking);
    SameLists(m);
    if Lst(m.lists, Readers(b)) != [] { LeavesList(m, Readers(b)); }
    if blocking {
      UnlistedStatus(m, m.active);
      JoinsList(m, Writers(b));
    }
  }

  lemma GetMoves(m: Mem, b: nat, blocking: bool)
    requires ListsInv(m) && b in m.mbox && (ActiveRuns(m) || !blocking)
    ensures ListsStep(m, GetMsg(m, b, blocking).0.lists)
  {
    hide RunQueuesOk, WaitListsOk, GetMsg, ListsStep, Avail, GetSlot, Insert;
    GetEffect(m, b, blocking);
    SameLists(m);
    if Lst(m.lists, Writers(b)) != [] { LeavesList(m, Writers(b)); }
    if blocking {
      UnlistedStatus(m, m.active);
      JoinsList(m, Readers(b));
    }
  }

  // The steps

  ghost predicate Moved(s: K, s': K) {
    Shape(s.m) && ListsStep(s.m, s'.m.lists)
  }

  lemma LockStepMoves(s: K, x: nat, blocking: bool)
    requires Core(s) && Defined(s.m, s.c) && Ready(s.m, s.c)
    ensures Moved(s, StepLock(s, x, blocking))
  {
    hide ListsStep, CoreInv, SettlePc, Lock, LockLog;
    CallerRuns(s);
    LockMoves(s.m, x, blocking);
  }

  lemma SendStepMoves(s: K, to: Pid, typ: nat, content: nat, blocking: bool)
    requires Core(s) && Defined(s.m, s.c) && Ready(s.m, s.c)
    ensures Moved(s, StepSend(s, to, typ, content, blocking))
  {
    hide ListsStep, CoreInv, SettlePc, Send, SendLog, GivenLog, FateOf;
    CallerRuns(s);
    SendMoves(s.m, to, Msg(s.m.active, typ, content, s.nextId), blocking);
  }

  lemma RequestStepMoves(s: K, to: Pid, typ: nat, content: nat)
    requires Core(s) && Defined(s.m, s.c) && Ready(s.m, s.c) && to in s.m.prio && to != s.m.active
    ensures Moved(s, StepRequest(s, to, typ, content))
  {
    hide ListsStep, CoreInv, SettlePc, SendReceive, SendLog, GivenLog, FateOf;
    CallerRuns(s);
    RequestMoves(s.m, to, Msg(s.m.active, typ, content, s.nextId));
  }

  lemma ReceiveStepMoves(s: K, blocking: bool)
    requires Core(s) && Defined(s.m, s.c) && Ready(s.m, s.c)
    ensures Moved(s, StepReceive(s, blocking))
  {
    hide ListsStep, CoreInv, SettlePc, Receive, ReceiveLog, ReceiveOpen;
    CallerRuns(s);
    ReceiveMovesLists(s.m, blocking);
  }

  lemma PutStepMoves(s: K, b: nat, typ: nat, content: nat, blocking: bool)
    requires Core(s) && Defined(s.m, s.c) && b in s.m.mbox && (Ready(s.m, s.c) || !blocking)
    ensures Moved(s, StepPut(s, b, typ, content, blocking))
  {
    hide ListsStep, CoreInv, SettlePc, PutMsg, PutLog;
    CallerRuns(s);
    PutMoves(s.m, b, Msg(KERNEL_PID_UNDEF, typ, content, s.nextId), blocking);
  }

  lemma GetStepMoves(s: K, b: nat, blocking: bool)
    requires Core(s) && Defined(s.m, s.c) && b in s.m.mbox && (Ready(s.m, s.c) || !blocking)
    ensures Moved(s, StepGet(s, b, blocking))
  {
    hide ListsStep, CoreInv, SettlePc, GetMsg, GetLog;
    CallerRuns(s);
    GetMoves(s.m, b, blocking);
  }

  lemma UnlockStepMoves(s: K, x: nat)
    requires Core(s) && Defined(s.m, s.c)
    ensures Moved(s, StepUnlock(s, x)) && Moved(s, StepUnlockSleep(s, x))
  {
    hide ListsStep, CoreInv, SettlePc, Unlock, UnlockAndSleep, UnlockLog;
    CallerRuns(s);
    UnlockMoves(s.m, x);
  }

  lemma ListCallMoves(s: K, step: Step)
    requires Core(s) && Enabled(s, step)
    requires step.DoLock? || step.DoUnlock? || step.DoUnlockSleep? || step.DoSend? || step.DoRequest? || step.DoReceive?
             || step.DoPut? || step.DoGet?
    ensures Moved(s, Apply(s, step))
  {
    hide Core, Defined, Moved, StepLock, StepUnlock, StepUnlockSleep, StepSend, StepRequest, StepReceive, StepPut,
      StepGet,
      CountersFresh, ExitOk, Ready;
    match step
    case DoLock(x, blocking) => LockStepMoves(s, x, blocking);
    case DoUnlock(x) => UnlockStepMoves(s, x);
    case DoUnlockSleep(x) => UnlockStepMoves(s, x);
    case DoSend(to, typ, content, blocking) => SendStepMoves(s, to, typ, content, blocking);
    case DoRequest(to, typ, content) => RequestStepMoves(s, to, typ, content);
    case DoReceive(blocking) => ReceiveStepMoves(s, blocking);
    case DoPut(b, typ, content, blocking) => PutStepMoves(s, b, typ, content, blocking);
    case DoGet(b, blocking) => GetStepMoves(s, b, blocking);
  }

  lemma CallerRuns(s: K)
    requires Core(s) && Defined(s.m, s.c)
    ensures ListsInv(s.m) && (Ready(s.m, s.c) ==> ActiveRuns(s.m))
  {
  }

  lemma CreateMoves(s: K, prio: nat, sleeping: bool, wout: bool, flags: bv16)
    requires Shape(s.m)
    ensures Moved(s, StepCreate(s, prio, sleeping, wout, flags))
  {
    hide ListsStep, Create, SettlePc;
    SameLists(s.m);
    CreateAddsData(s.m, prio, sleeping, wout, flags);
  }

  lemma ExitMoves(s: K)
    requires ExitOk(s.m)
    ensures Moved(s, StepExit(s))
  {
    hide ListsStep, Best, LevelsOk, ListsKeyed, RunQueuesKeyed;
    SameLists(s.m);
  }

  lemma OtherCallMoves(s: K, step: Step)
    requires Core(s) && RequestsOk(s) && Enabled(s, step) && !Inner(step) && !step.DoCreate? && !step.DoExit?
    requires !step.DoLock? && !step.DoUnlock? && !step.DoUnlockSleep? && !step.DoSend? && !step.DoRequest?
    requires !step.DoReceive?
             && !step.DoPut? && !step.DoGet?
    ensures Moved(s, Apply(s, step))
  {
    hide RequestsOk, CallEnabled, Apply, Core, Caller, PcMoves, ListsStep;
    ReplyIsSafe(s, step);
    CallKeepsCore(s, step);
    ListsFrame(s.m, Apply(s, step).m, Wakes(step), Blocks(step));
  }

  lemma InnerMoves(s: K, step: Step)
    requires Core(s) && Enabled(s, step) && Inner(step)
    ensures Moved(s, Apply(s, step))
  {
    hide Apply, CoreInv, InnerEnabled, ListsStep, StillOn;
    CoreLists(s.m, s.c);
    InnerEffect(s, step);
    SameLists(s.m);
  }

  lemma StepMovesLists(s: K, step: Step)
    requires Core(s) && RequestsOk(s) && Enabled(s, step)
    ensures Moved(s, Apply(s, step))
  {
    if Inner(step) {
      hide Core, RequestsOk, Apply, Moved;
      InnerMoves(s, step);
    } else if step.DoCreate? {
      hide Core, RequestsOk, Moved, StepCreate;
      CreateMoves(s, step.prio, step.sleeping, step.wout, step.flags);
    } else if step.DoExit? {
      hide Core, RequestsOk, Moved, StepExit, ExitOk;
      ExitMoves(s);
    } else if step.DoLock? || step.DoUnlock? || step.DoUnlockSleep? || step.DoSend? || step.DoRequest?
              || step.DoReceive? || step.DoPut? || step.DoGet? {
      hide Core, RequestsOk, Apply, Moved;
      ListCallMoves(s, step);
    } else {
      hide Core, RequestsOk, Apply, Moved;
      OtherCallMoves(s, step);
    }
  }

  /** One step: who stood behind, or came later with no better priority, still
      stands behind. */
  lemma OrderStep(was: seq<Pid>, now: seq<Pid>, a: Pid, prio: map<Pid, nat>, t: Pid, u: Pid)
    requires Keyed(was, prio) && a in prio && ListStep(was, now, a, prio) && NoDup(was) && Sorted(was, prio)
    requires t in was && t in now && u in now && u in prio && t in prio
    requires u in was ==> prio[u] < prio[t] || Before(was, t, u)
    ensures prio[u] < prio[t] || Before(now, t, u)
  {
    if prio[u] >= prio[t] {
      if now == was {
      } else if was != [] && now == was[1..] {
        assert u in was;
        var i, j :| 0 <= i < j < |was| && was[i] == t && was[j] == u;
        assert i > 0;
        assert now[i - 1] == t && now[j - 1] == u;
      } else {
        InsertMembers(was, a, prio);
        if u in was { InsertKeepsOrder(was, a, prio, t, u); } else { InsertStandsBehind(was, a, prio, t); }
      }
    }
  }
}
