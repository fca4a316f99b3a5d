/** No priority inversion: outside the gaps of a yield, a better runnable thread
    is always announced. */
module Priority {
  import opened Names
  import opened Sequences
  import opened CircularIndex
  import opened KernelState
  import opened Scheduler
  import opened Threads
  import opened Mutexes
  import F = ThreadFlags
  import opened Messages
  import opened Mailboxes
  import opened Effects
  import opened Machine
  import opened Separation
  import opened Requests

  /** The active thread is about to let a thread of priority `p` run. */
  predicate Announced(pc: Pc, p: nat) {
    pc.Gap? || pc.Rotating? || (pc.Switch? && pc.prio <= p)
  }

  /** A runnable thread better than the active one is announced, or a context
      switch is requested, or it was created without a yield. */
  ghost predicate PrioOk(prio: map<Pid, nat>, status: map<Pid, Status>, a: Pid, pc: Pc, csr: bool, lazy: bool)
    requires a in prio
  {
    forall t {:trigger prio[t]} :: t in prio && On(status, t) && prio[t] < prio[a] ==>
        csr || lazy || Announced(pc, prio[t])
  }

  ghost predicate PriorityOk(s: K) {
    && s.m.active in s.m.prio && s.m.active in s.c.pc
    && PrioOk(s.m.prio, s.m.status, s.m.active, s.c.pc[s.m.active], s.m.csr, s.c.lazy)
  }

  /** Whoever the step woke and is better than the active thread is announced. */
  ghost predicate WakesAnnounced(prio: map<Pid, nat>, status: map<Pid, Status>, status': map<Pid, Status>, a: Pid,
                                 csr: bool, pc: Pc)
    requires a in prio
  {
    forall t {:trigger prio[t]} :: t in prio && On(status', t) && !On(status, t) && prio[t] < prio[a] ==>
      csr || Announced(pc, prio[t])
  }

  ghost predicate Announces(s: K, s': K) {
    && s.m.active in s.m.prio && s.m.active in s'.c.pc
    && WakesAnnounced(s.m.prio, s.m.status, s'.m.status, s.m.active, s'.m.csr, s'.c.pc[s.m.active])
  }

  lemma AnnouncedKeepsPriority(prio: map<Pid, nat>, status: map<Pid, Status>, status': map<Pid, Status>, a: Pid,
                               pc: Pc, pc': Pc, csr: bool, csr': bool, lazy: bool)
    requires a in prio && PrioOk(prio, status, a, pc, csr, lazy) && (csr ==> csr') && (pc' == pc || pc == User)
    requires WakesAnnounced(prio, status, status', a, csr', pc')
    ensures PrioOk(prio, status', a, pc', csr', lazy)
  {
  }

  // The wake-ups

  /** The section of `out` woke `t` at most, in an interrupt service routine or not. */
  lemma SwitchAnnounces(s: K, r: Mem, t: Pid, p: nat)
    requires Defined(s.m, s.c) && Shape(r) && r.prio == s.m.prio && r.active == s.m.active && t in s.m.prio
    requires p <= s.m.prio[t]
    requires forall u :: u in s.m.prio && u != t && On(r.status, u) ==> On(s.m.status, u)
    ensures Announces(s, Ended(s, r, SwitchTo(p)))
  {
    hide LevelsOk, ListsKeyed, RunQueuesKeyed;
  }

  lemma YieldAnnounces(s: K, r: Mem, out: Out)
    requires Defined(s.m, s.c) && r.active in r.prio && r.active == s.m.active && !s.c.isr
    requires (out.YieldHigher? || out.Yield?)
    ensures Announces(s, Ended(s, r, out))
  {
    hide LevelsOk, ListsKeyed, RunQueuesKeyed;
  }

  lemma CsrAnnounces(s: K, r: Mem, out: Out)
    requires Defined(s.m, s.c) && r.active in r.prio && r.active == s.m.active
    requires r.csr || forall u :: u in s.m.prio && On(r.status, u) ==> On(s.m.status, u)
    ensures Announces(s, Ended(s, r, out))
  {
    hide LevelsOk, ListsKeyed, RunQueuesKeyed;
  }

  lemma WakeupAnnounces(s: K, t: Pid)
    requires Defined(s.m, s.c)
    ensures Announces(s, Ended(s, Wakeup(s.m, t).0, Wakeup(s.m, t).1))
  {
    hide Announces, LevelsOk, ListsKeyed, RunQueuesKeyed, Ended;
    var r := Wakeup(s.m, t).0;
    if t in s.m.prio && s.m.status[t] == Sleeping { SwitchAnnounces(s, r, t, s.m.prio[t]); }
    else { CsrAnnounces(s, r, Wakeup(s.m, t).1); }
  }

  lemma UnlockAnnounces(s: K, x: nat)
    requires Defined(s.m, s.c)
    ensures Announces(s, StepUnlock(s, x))
  {
    hide LevelsOk, RunQueuesKeyed, SettleMem, SettlePc, WakeFirst, WakesAnnounced, UnlockLog;
    var r, w := Unlock(s.m, x).0, Lst(s.m.lists, MutexQueue(x));
    if x in s.m.locked && w != [] {
      assert Keyed(w, s.m.prio);
      WakeFirstEffect(s.m, MutexQueue(x));
      WakeFirstThreads(s.m, MutexQueue(x));
      SwitchAnnounces(s, r, w[0], s.m.prio[w[0]]);
    } else {
      CsrAnnounces(s, r, Unlock(s.m, x).1);
    }
  }

  lemma WakeFirstThreads(m: Mem, l: ListId)
    requires Shape(m) && Lst(m.lists, l) != []
    ensures var r := WakeFirst(m, l); r.prio == m.prio && r.active == m.active
  {
    assert Keyed(Lst(m.lists, l), m.prio);
  }

  lemma SetAnnounces(s: K, t: Pid, mask: bv16)
    requires Defined(s.m, s.c) && t in s.m.prio
    ensures Announces(s, Ended(s, F.Set(s.m, t, mask).0, F.Set(s.m, t, mask).1))
  {
    hide Announces, LevelsOk, ListsKeyed, RunQueuesKeyed, Ended, F.SetAndWake, F.Met;
    SetAndWakeEffect(s.m, t, mask);
    CsrAnnounces(s, F.Set(s.m, t, mask).0, F.Set(s.m, t, mask).1);
  }

  lemma UnlockSleepAnnounces(s: K, x: nat)
    requires Defined(s.m, s.c) && !s.c.isr
    ensures Announces(s, StepUnlockSleep(s, x))
  {
    hide LevelsOk, ListsKeyed, RunQueuesKeyed, SettleMem, SettlePc, WakesAnnounced, UnlockLog, Unlock;
    YieldAnnounces(s, UnlockAndSleep(s.m, x).0, UnlockAndSleep(s.m, x).1);
  }

  // Sending and receiving

  /** Who is woken by a message without a yield has a switch requested for it. */
  lemma SentIsAnnounced(m: Mem, r: Mem, t: Pid, msg: Msg, fate: Fate, st: Status)
    requires Shape(m) && (fate != Refused ==> t in m.prio) && Sent(m, r, t, msg, fate, st)
    requires fate == Refused || fate == Enqueued
    ensures r.csr || forall u :: u in m.prio && On(r.status, u) ==> On(m.status, u)
  {
    hide F.Met, Offer;
  }

  lemma SendOut(m: Mem, t: Pid, msg: Msg, block: bool)
    requires Shape(m) && OnRunqueue(m.status[m.active])
    ensures var fate, out := FateOf(m, t, t == m.active, block), Send(m, t, msg, block).1;
            if fate == Handed || fate == Waits then out.YieldHigher? else out.Done?
  {
    var stamped := msg.(sender := m.active);
    if t in m.prio { QueueMsgEffect(m, t, stamped, SendBlocked); }
    hide QueueMsg, Park, HandOver, Sent;
  }

  lemma SendAnnounces(s: K, to: Pid, typ: nat, content: nat, blocking: bool)
    requires Core(s) && Defined(s.m, s.c) && Ready(s.m, s.c)
    ensures Announces(s, StepSend(s, to, typ, content, blocking))
  {
    ReadyRuns(s.m, s.c);
    hide LevelsOk, ListsKeyed, RunQueuesKeyed, SettleMem, SettlePc, WakesAnnounced, SendLog, GivenLog, Send, Sent,
      FateOf, CoreInv;
    var msg := Msg(s.m.active, typ, content, s.nextId);
    var fate := FateOf(s.m, to, to == s.m.active, blocking);
    var r, out := Send(s.m, to, msg, blocking).0, Send(s.m, to, msg, blocking).1;
    SendOut(s.m, to, msg, blocking);
    SendEffect(s.m, to, msg, blocking);
    if fate == Handed || fate == Waits { YieldAnnounces(s, r, out); }
    else { SentIsAnnounced(s.m, r, to, msg, fate, SendBlocked); CsrAnnounces(s, r, out); }
  }

  lemma SendIntOut(m: Mem, t: Pid, msg: Msg)
    requires Shape(m)
    ensures FateOf(m, t, false, false) != Waits && (FateOf(m, t, false, false) == Handed ==> SendInt(m, t, msg).0.csr)
  {
    hide HandOver, QueueMsg;
  }

  lemma SendIntAnnounces(s: K, to: Pid, typ: nat, content: nat)
    requires Defined(s.m, s.c)
    ensures Announces(s, StepSendInt(s, to, typ, content))
  {
    hide LevelsOk, ListsKeyed, RunQueuesKeyed, SettleMem, SettlePc, WakesAnnounced, SendLog, GivenLog, SendInt, Sent,
      FateOf;
    var msg, fate := Msg(s.m.maxPid + 1, typ, content, s.nextId), FateOf(s.m, to, false, false);
    var r := SendInt(s.m, to, msg).0;
    HandedOrNot(s.m, to);
    SendIntOut(s.m, to, msg);
    SendIntEffect(s.m, to, msg);
    if fate != Handed { SentIsAnnounced(s.m, r, to, msg, fate, SendBlocked); }
    CsrAnnounces(s, r, SendInt(s.m, to, msg).1);
  }

  lemma HandedOrNot(m: Mem, t: Pid)
    requires Shape(m)
    ensures FateOf(m, t, false, false) != Refused ==> t in m.prio
  {
  }

  lemma RequestOut(m: Mem, t: Pid, msg: Msg)
    requires Shape(m) && t in m.prio && t != m.active
    ensures SendReceive(m, t, msg).1.YieldHigher?
  {
    hide HandOver, QueueMsg, Park;
  }

  lemma RequestAnnounces(s: K, to: Pid, typ: nat, content: nat)
    requires Defined(s.m, s.c) && !s.c.isr && to in s.m.prio && to != s.m.active
    ensures Announces(s, StepRequest(s, to, typ, content))
  {
    hide LevelsOk, ListsKeyed, RunQueuesKeyed, SettleMem, SettlePc, WakesAnnounced, SendLog, GivenLog, SendReceive,
      FateOf;
    var msg := Msg(s.m.active, typ, content, s.nextId);
    RequestOut(s.m, to, msg);
    YieldAnnounces(s, SendReceive(s.m, to, msg).0, SendReceive(s.m, to, msg).1);
  }

  lemma ReceiveOut(m: Mem, block: bool)
    requires Shape(m)
    ensures var w, out := Lst(m.lists, MsgWaiters(m.active)), Receive(m, block).1;
            w != [] ==>
              && w[0] in m.prio && w[0] in m.status
              && out == if m.status[w[0]] != ReplyBlocked && m.prio[w[0]] < |m.rq| - 1 then SwitchTo(m.prio[w[0]])
                  else Done(1)
    ensures Receive(m, block).0.prio == m.prio
  {
    hide ReleaseSender, Take, Refilled;
    var w := Lst(m.lists, MsgWaiters(m.active));
    if w != [] {
      assert Keyed(w, m.prio);
      ReleaseThreads(m, block);
    }
  }

  lemma ReleaseThreads(m: Mem, block: bool)
    requires Shape(m) && Lst(m.lists, MsgWaiters(m.active)) != []
    ensures Receive(m, block).0.prio == m.prio
  {
    hide Take, Refilled;
    assert Keyed(Lst(m.lists, MsgWaiters(m.active)), m.prio);
  }

  lemma ReceiveAnnounces(s: K, blocking: bool)
    requires Defined(s.m, s.c) && !s.c.isr
    ensures Announces(s, StepReceive(s, blocking))
  {
    hide ListsKeyed, RunQueuesKeyed, SettleMem, SettlePc, WakesAnnounced, ReceiveLog, ReceiveOpen, Receive, Take,
      Refilled;
    var m, w := s.m, Lst(s.m.lists, MsgWaiters(s.m.active));
    var r, out := Receive(m, blocking).0, Receive(m, blocking).1;
    ReceiveOut(m, blocking);
    ReceiveEffect(m, blocking);
    if w == [] {
      CsrAnnounces(s, r, out);
    } else if out.SwitchTo? {
      SwitchAnnounces(s, r, w[0], m.prio[w[0]]);
    } else {
      LowestIsNotBetter(s, r, out, w[0]);
    }
  }

  /** A thread of the lowest priority is better than nobody. */
  lemma LowestIsNotBetter(s: K, r: Mem, out: Out, t: Pid)
    requires Defined(s.m, s.c) && r.active in r.prio && r.active == s.m.active && t in s.m.prio
    requires forall u :: u in s.m.prio && u != t && On(r.status, u) ==> On(s.m.status, u)
    requires On(r.status, t) ==> On(s.m.status, t) || s.m.prio[t] >= |s.m.rq| - 1
    ensures Announces(s, Ended(s, r, out))
  {
    hide ListsKeyed, RunQueuesKeyed;
  }

  lemma ReplyAnnounces(s: K, t: Pid, reply: Msg)
    requires Defined(s.m, s.c) && t in s.m.prio
    ensures Announces(s, StepReply(s, t, reply))
  {
    hide LevelsOk, ListsKeyed, RunQueuesKeyed, SettleMem, SettlePc, WakesAnnounced, HandOver;
    HandOverEffect(s.m, t, reply, SendBlocked);
    HandOverThreads(s.m, t, reply);
    var r := HandOver(s.m, t, reply);
    if s.m.status[t] != ReplyBlocked { CsrAnnounces(s, s.m, Done(-1)); }
    else if s.c.isr { CsrAnnounces(s, r.(csr := true), Done(1)); }
    else { SwitchAnnounces(s, r, t, s.m.prio[t]); }
  }

  lemma HandOverThreads(m: Mem, t: Pid, msg: Msg)
    requires Shape(m) && t in m.prio
    ensures HandOver(m, t, msg).prio == m.prio
  {
  }

  // Mailboxes

  lemma PutOut(m: Mem, b: nat, msg: Msg, blocking: bool)
    requires Shape(m) && b in m.mbox
    ensures var r, out, w := PutMsg(m, b, msg, blocking).0, PutMsg(m, b, msg, blocking).1, Lst(m.lists, Readers(b));
            r.prio == m.prio && (w != [] ==> w[0] in m.prio && out == SwitchTo(m.prio[w[0]]))
  {
    hide PutSlot, Full, Insert, WakeFirst;
    var w := Lst(m.lists, Readers(b));
    if w != [] {
      assert Keyed(w, m.prio);
      WakeFirstThreads(m.(buf := m.buf[w[0] := msg]), Readers(b));
    }
  }

  lemma PutAnnounces(s: K, b: nat, typ: nat, content: nat, blocking: bool)
    requires Defined(s.m, s.c) && b in s.m.mbox
    ensures Announces(s, StepPut(s, b, typ, content, blocking))
  {
    hide LevelsOk, ListsKeyed, RunQueuesKeyed, SettleMem, SettlePc, WakesAnnounced, PutMsg, PutLog, PutSlot, Full,
      Insert;
    var msg, w := Msg(KERNEL_PID_UNDEF, typ, content, s.nextId), Lst(s.m.lists, Readers(b));
    PutOut(s.m, b, msg, blocking);
    PutEffect(s.m, b, msg, blocking);
    var r, out := PutMsg(s.m, b, msg, blocking).0, PutMsg(s.m, b, msg, blocking).1;
    if w != [] { SwitchAnnounces(s, r, w[0], s.m.prio[w[0]]); } else { CsrAnnounces(s, r, out); }
  }

  lemma GetOut(m: Mem, b: nat, blocking: bool)
    requires Shape(m) && b in m.mbox
    ensures var r, out, w := GetMsg(m, b, blocking).0, GetMsg(m, b, blocking).1, Lst(m.lists, Writers(b));
            && r.prio == m.prio
            && (w != [] && Avail(m.mbox[b].cib) != 0 ==> w[0] in m.prio && out == SwitchTo(m.prio[w[0]]))
  {
    hide GetSlot, Avail, Insert, WakeFirst;
    var w := Lst(m.lists, Writers(b));
    if w != [] && Avail(m.mbox[b].cib) != 0 {
      assert Keyed(w, m.prio);
      WakeFirstThreads(m.(mbox := m.mbox[b := GetSlot(m.mbox[b]).0]), Writers(b));
    }
  }

  lemma GetAnnounces(s: K, b: nat, blocking: bool)
    requires Defined(s.m, s.c) && b in s.m.mbox
    ensures Announces(s, StepGet(s, b, blocking))
  {
    hide LevelsOk, ListsKeyed, RunQueuesKeyed, SettleMem, SettlePc, WakesAnnounced, GetMsg, GetLog, GetSlot, Avail,
      Insert;
    var w := Lst(s.m.lists, Writers(b));
    GetOut(s.m, b, blocking);
    GetEffect(s.m, b, blocking);
    var r, out := GetMsg(s.m, b, blocking).0, GetMsg(s.m, b, blocking).1;
    if w != [] && Avail(s.m.mbox[b].cib) != 0 { SwitchAnnounces(s, r, w[0], s.m.prio[w[0]]); } else {
      CsrAnnounces(s, r, out);
    }
  }

  // The steps

  lemma NobodyWoken(s: K, s': K, b: set<Status>)
    requires Stepped(s, s', {}, b) && Defined(s.m, s.c)
    ensures Announces(s, s')
  {
    hide RunQueuesOk, WaitListsOk, PlacesOk, ListsKept, AllAgree, BoxesNamed, IdleOk, Agree;
  }

  lemma CallAnnounces(s: K, step: Step)
    requires Core(s) && RequestsOk(s) && Enabled(s, step) && !Inner(step) && !step.DoCreate? && !step.DoExit?
    ensures Announces(s, Apply(s, step))
  {
    if Wakes(step) == {} {
      hide RequestsOk, CallEnabled, Apply, Core, Stepped, Announces;
      ReplyIsSafe(s, step);
      CallKeepsCore(s, step);
      NobodyWoken(s, Apply(s, step), Blocks(step));
    } else {
      hide Core, Defined, Announces, RequestsOk, Ended, StepSend, StepRequest, StepReceive, StepReply, StepUnlock,
        StepUnlockSleep, StepPut, StepGet, StepSendInt, CountersFresh, ExitOk;
      match step
      case DoUnlockSleep(x) => UnlockSleepAnnounces(s, x);
      case DoSend(to, typ, content, blocking) => SendAnnounces(s, to, typ, content, blocking);
      case DoRequest(to, typ, content) => RequestAnnounces(s, to, typ, content);
      case DoReceive(blocking) => ReceiveAnnounces(s, blocking);
      case DoWakeup(t) => WakeupAnnounces(s, t);
      case DoUnlock(x) => UnlockAnnounces(s, x);
      case DoReply(t, reply) => ReplyAnnounces(s, t, reply);
      case DoFlagsSet(t, mask) => SetAnnounces(s, t, mask);
      case DoPut(b, typ, content, blocking) => PutAnnounces(s, b, typ, content, blocking);
      case DoGet(b, blocking) => GetAnnounces(s, b, blocking);
      case DoSendInt(to, typ, content) => SendIntAnnounces(s, to, typ, content);
    }
  }

  /** What AnnouncedKeepsPriority needs to know of a call. */
  lemma SteppedThreads(s: K, s': K, w: set<Status>, b: set<Status>)
    requires Stepped(s, s', w, b) && Defined(s.m, s.c) && (Ready(s.m, s.c) || s.c.isr)
    ensures s'.m.prio == s.m.prio && s'.m.active == s.m.active && s'.c.lazy == s.c.lazy && (s.m.csr ==> s'.m.csr)
    ensures s.m.active in s'.c.pc && (s'.c.pc[s.m.active] == s.c.pc[s.m.active] || s.c.pc[s.m.active] == User)
  {
    hide CoreInv, ListsInv, Moves, ListsKept;
  }

  lemma CallerIsReady(s: K, step: Step)
    requires Enabled(s, step) && !Inner(step)
    ensures Ready(s.m, s.c) || s.c.isr
  {
    hide CountersFresh, ExitOk, Ready, Shape;
  }

  lemma CallKeepsPriority(s: K, step: Step)
    requires Core(s) && RequestsOk(s) && PriorityOk(s) && Enabled(s, step) && !Inner(step) && !step.DoCreate?
    requires !step.DoExit?
    ensures PriorityOk(Apply(s, step))
  {
    hide RequestsOk, CallEnabled, Apply, Core, Stepped, PrioOk, WakesAnnounced;
    ReplyIsSafe(s, step);
    CallKeepsCore(s, step);
    CallAnnounces(s, step);
    CallerIsReady(s, step);
    var s' := Apply(s, step);
    SteppedThreads(s, s', Wakes(step), Blocks(step));
    var a := s.m.active;
    AnnouncedKeepsPriority(s.m.prio, s.m.status, s'.m.status, a, s.c.pc[a], s'.c.pc[a], s.m.csr, s'.m.csr, s.c.lazy);
  }

  // Threads come and go

  lemma PrioNew(prio: map<Pid, nat>, status: map<Pid, Status>, a: Pid, pc: Pc, csr: bool, lazy: bool, t: Pid, p: nat,
                st: Status, pc': Pc, lazy': bool)
    requires a in prio && t !in prio && PrioOk(prio, status, a, pc, csr, lazy) && (pc' == pc || pc == User)
    requires lazy ==> lazy'
    requires OnRunqueue(st) ==> lazy' || Announced(pc', p)
    ensures PrioOk(prio[t := p], status[t := st], a, pc', csr, lazy')
  {
  }

  lemma CreateOut(m: Mem, prio: nat, sleeping: bool, lazy: bool, flags: bv16)
    requires Shape(m)
    ensures var (r, out) := Create(m, prio, sleeping, lazy, flags);
            && r.csr == m.csr && (out.Done? || out == SwitchTo(prio))
            && (prio < |m.rq| && FreePid(m.prio, KERNEL_PID_FIRST, m.maxPid).Some? && !sleeping && !lazy ==>
                  out == SwitchTo(prio))
  {
  }

  lemma CreateKeepsPriority(s: K, prio: nat, sleeping: bool, wout: bool, flags: bv16)
    requires PriorityOk(s) && Defined(s.m, s.c) && Ready(s.m, s.c)
    ensures PriorityOk(StepCreate(s, prio, sleeping, wout, flags))
  {
    hide PrioOk, Create;
    CreateAddsOne(s.m, prio, sleeping, wout, flags);
    CreateOut(s.m, prio, sleeping, wout, flags);
    var free, a := FreePid(s.m.prio, KERNEL_PID_FIRST, s.m.maxPid), s.m.active;
    if prio < |s.m.rq| && free.Some? {
      var s' := StepCreate(s, prio, sleeping, wout, flags);
      PrioNew(s.m.prio, s.m.status, a, s.c.pc[a], s.m.csr, s.c.lazy, free.value, prio,
              if sleeping then Sleeping else Pending, s'.c.pc[a], s'.c.lazy);
    }
  }

  lemma ExitKeepsPriority(s: K)
    requires Core(s) && Defined(s.m, s.c) && Ready(s.m, s.c) && Lst(s.m.lists, MsgWaiters(s.m.active)) == []
    ensures ExitOk(s.m) && PriorityOk(StepExit(s))
  {
    ReadyRuns(s.m, s.c);
    ExitKeepsLists(s.m, s.c.idle);
    CoreAgrees(s.m, s.c);
    hide RunQueuesOk, WaitListsOk, PlacesOk, Agree, Best;
  }

  // Between sections

  lemma RunIsBest(m: Mem)
    requires ListsInv(m) && Runnable(m)
    ensures var r := SchedRun(m);
            r.active in r.prio && r.prio == m.prio && forall t :: t in r.prio && On(r.status, t) ==>
                r.prio[r.active] <= r.prio[t]
  {
    NextThreadIsBest(m);
    RunKeepsLists(m);
    hide RunQueuesOk, WaitListsOk, PlacesOk;
  }

  lemma ScheduleKeepsPriority(s: K)
    requires Core(s) && CanRun(s.m) && s.m.active in s.c.pc && s.c.pc[s.m.active].Gap?
    ensures PriorityOk(StepSchedule(s))
  {
    hide CoreInv, SchedRun, Shape;
    CoreLists(s.m, s.c);
    CoreKeys(s.m, s.c);
    RunIsBest(s.m);
  }

  lemma IsrExitKeepsPriority(s: K, rotate: bool)
    requires Core(s) && CanRun(s.m) && PriorityOk(s)
    ensures PriorityOk(StepIsrExit(s, rotate))
  {
    hide CoreInv, SchedRun, RotateActive, RunQueuesOk, WaitListsOk, PlacesOk;
    CoreLists(s.m, s.c);
    CoreKeys(s.m, s.c);
    if s.m.csr {
      RotateKeepsLists(s.m);
      RunIsBest(if rotate then RotateActive(s.m) else s.m);
    }
  }

  lemma InnerKeepsPriority(s: K, step: Step)
    requires Core(s) && PriorityOk(s) && Enabled(s, step) && Inner(step)
    ensures PriorityOk(Apply(s, step))
  {
    hide Core, StepSchedule, StepIsrExit;
    match step
    case Schedule => ScheduleKeepsPriority(s);
    case MoveToTail => MoveToTailKeepsPriority(s);
    case Compare => CompareKeepsPriority(s);
    case Resume => ResumeKeepsPriority(s, s.c.pc[s.m.active].k);
    case IsrEnter =>
    case IsrExit(rotate) => IsrExitKeepsPriority(s, rotate);
  }

  lemma MoveToTailKeepsPriority(s: K)
    requires PriorityOk(s) && Shape(s.m) && s.m.active in s.c.pc && s.c.pc[s.m.active].Rotating?
    ensures PriorityOk(StepMoveToTail(s))
  {
    hide Best, Rotate, LevelsOk, ListsKeyed, RunQueuesKeyed;
  }

  lemma CompareKeepsPriority(s: K)
    requires PriorityOk(s) && s.c.pc[s.m.active].Switch?
    ensures PriorityOk(StepCompare(s))
  {
  }

  lemma ResumeKeepsPriority(s: K, k: Cont)
    requires PriorityOk(s) && Shape(s.m) && s.c.pc[s.m.active].Do? && (k.PutDone? ==> k.mbox in s.m.mbox)
    ensures PriorityOk(StepResume(s, k))
  {
    hide ResumeMem, ResumePc, Shape;
    ResumeThreads(s.m, k);
  }

  lemma ResumeThreads(m: Mem, k: Cont)
    requires Shape(m) && (k.PutDone? ==> k.mbox in m.mbox)
    ensures var r := ResumeMem(m, k);
            r.prio == m.prio && r.status == m.status && r.active == m.active && r.csr == m.csr
  {
    hide PutSlot, F.LowestFlag, F.Without, F.Part, LevelsOk, ListsKeyed, RunQueuesKeyed;
  }
}
