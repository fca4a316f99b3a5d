/** The properties of the kernel, read off the states of its runs. */
module Results {
  import opened Names
  import opened Sequences
  import opened CircularIndex
  import opened KernelState
  import opened Scheduler
  import opened Threads
  import F = ThreadFlags
  import opened Mailboxes
  import opened Machine
  import opened Separation
  import opened Requests
  import opened Buffers
  import opened Conservation
  import opened Flags
  import opened Priority
  import opened Exclusion
  import opened WaitOrder
  import opened Boxes
  import opened Theorems

  /** One link field per thread: a thread is in the run queue of its priority
      exactly if it is runnable, and otherwise in at most one wait list, of the
      kind that its status names. */
  ghost predicate InOneList(m: Mem, t: Pid) {
    && t in m.prio && t in m.status && m.prio[t] < |m.rq|
    && (forall p :: 0 <= p < |m.rq| ==> (t in m.rq[p] <==> OnRunqueue(m.status[t]) && p == m.prio[t]))
    && (forall l :: t in Lst(m.lists, l) ==> Fits(m.status[t], l) && !OnRunqueue(m.status[t]))
    && (forall l, k :: t in Lst(m.lists, l) && t in Lst(m.lists, k) ==> l == k)
    && (m.status[t] == MutexBlocked ==> exists x :: t in Lst(m.lists, MutexQueue(x)))
    && (m.status[t] == SendBlocked ==> exists p :: t in Lst(m.lists, MsgWaiters(p)))
    && (m.status[t] == MboxBlocked ==> exists b :: t in Lst(m.lists, Readers(b)) || t in Lst(m.lists, Writers(b)))
  }

  lemma CoreInOneList(m: Mem, c: Ctl, t: Pid)
    requires CoreInv(m, c) && t in m.prio
    ensures InOneList(m, t)
  {
    assert Agree(c.pc[t], m.status[t], m.at[t], m.wait[t]);
    forall l | t in Lst(m.lists, l)
      ensures m.at[t] == Some(l) && Fits(m.status[t], l)
    {
      assert m.at[t] == Some(l);
    }
    if m.status[t] == MutexBlocked {
      assert t in Lst(m.lists, MutexQueue(c.pc[t].k.mutex));
    }
    if m.status[t] == SendBlocked {
      assert t in Lst(m.lists, MsgWaiters(m.at[t].value.pid));
    }
    if m.status[t] == MboxBlocked {
      var b := m.at[t].value.mbox;
      assert t in Lst(m.lists, Readers(b)) || t in Lst(m.lists, Writers(b));
    }
  }

  lemma EveryThreadIsInOneList(tr: seq<K>, steps: seq<Step>, i: nat, t: Pid)
    requires Run(tr, steps) && i < |tr| && t in tr[i].m.prio
    ensures InOneList(tr[i].m, t)
  {
    hide Run, CoreInv, RequestsOk, BuffersOk, MessagesOk, NumbersOk, FlagStateOk, PriorityOk, EncodingOk, InOneList;
    RunIsSafe(tr, steps, i);
    CoreInOneList(tr[i].m, tr[i].c, t);
  }

  /** The bit cache is never empty: at least the idle thread is runnable, so the
      scheduler always finds a queue, and the next step is always possible. */
  lemma NeverStuck(tr: seq<K>, steps: seq<Step>, i: nat)
    requires Run(tr, steps) && i < |tr|
    ensures CanGoOn(tr[i])
  {
    hide Run, CoreInv, RequestsOk, BuffersOk, MessagesOk, NumbersOk, FlagStateOk, PriorityOk, EncodingOk, CanGoOn;
    RunIsSafe(tr, steps, i);
    CoreGoesOn(tr[i]);
  }

  /** The scheduler can run, and the active thread's next program point, or the
      interrupt service routine, can be executed. */
  ghost predicate CanGoOn(s: K) {
    && CanRun(s.m) && Defined(s.m, s.c)
    && if s.c.isr then InnerEnabled(s.m, s.c, IsrExit(false)) && InnerEnabled(s.m, s.c, IsrExit(true))
       else InnerEnabled(s.m, s.c, IsrEnter)
            && match s.c.pc[s.m.active]
               case User => true
               case Gap(_) => InnerEnabled(s.m, s.c, Schedule)
               case Rotating(_) => InnerEnabled(s.m, s.c, MoveToTail)
               case Switch(_) => InnerEnabled(s.m, s.c, Compare)
               case Do(_) => InnerEnabled(s.m, s.c, Resume)
  }

  lemma CoreGoesOn(s: K)
    requires Core(s)
    ensures CanGoOn(s)
  {
    SomebodyIsRunnable(s.m, s.c);
    hide RunQueuesOk, WaitListsOk, PlacesOk, Best, Agree;
  }

  lemma SomebodyIsRunnable(m: Mem, c: Ctl)
    requires CoreInv(m, c)
    ensures Runnable(m)
  {
    assert c.idle in m.rq[m.prio[c.idle]];
    var p := m.prio[c.idle];
    assert m.rq[p] != [];
    hide ListsInv;
  }

  /** The calls that have no condition but who makes them. */
  predicate FreeCall(step: Step) {
    || step.DoSleep? || step.DoYield? || step.DoCreate? || step.DoLock? || step.DoUnlock? || step.DoUnlockSleep?
    || step.DoFlagsClear? || step.DoWaitAny? || step.DoWaitOne? || step.DoWaitAll? || step.DoWakeup?
  }

  /** What a call needs of its arguments. */
  ghost predicate ArgumentsOk(s: K, step: Step)
    requires Shape(s.m)
  {
    match step
    case DoExit => Lst(s.m.lists, MsgWaiters(s.m.active)) == []
    case DoInitQueue(slots) =>
      && IsSize(|slots|) && |slots| < U32
      && Lst(s.m.lists, MsgWaiters(s.m.active)) == [] && s.m.queue[s.m.active].slots == []
    case DoSend(_, _, _, _) => CountersFresh(s.m)
    case DoSendInt(_, _, _) => CountersFresh(s.m)
    case DoRequest(to, _, _) => CountersFresh(s.m) && to in s.m.prio && to != s.m.active
    case DoReceive(_) => CountersFresh(s.m)
    case DoReply(t, _) => t in s.m.prio && (s.m.status[t] == ReplyBlocked ==> t in s.open && s.open[t].phase == Seen)
    case DoFlagsSet(t, _) => t in s.m.prio
    case DoPut(b, _, _, _) => b in s.m.mbox
    case DoGet(b, _) => b in s.m.mbox
    case _ => FreeCall(step)
  }

  /** A thread in user code makes any call but msg_send_int, an interrupt any call
      that does not block. */
  predicate MayCall(s: K, step: Step)
    requires s.m.active in s.c.pc
  {
    if s.c.isr then
      || step.DoWakeup? || step.DoUnlock? || step.DoReply? || step.DoFlagsSet? || step.DoSendInt?
      || ((step.DoPut? || step.DoGet?) && !step.blocking)
    else s.c.pc[s.m.active] == User && s.m.active != s.c.idle && !step.DoSendInt?
  }

  lemma CallIsPossible(s: K, step: Step)
    requires Defined(s.m, s.c) && MayCall(s, step) && ArgumentsOk(s, step) && (step.DoExit? ==> ExitOk(s.m))
    ensures Enabled(s, step)
  {
    hide Shape, ExitOk, CountersFresh, IsSize;
  }

  lemma ExitIsPossible(s: K)
    requires Core(s) && Defined(s.m, s.c) && Ready(s.m, s.c)
    ensures ExitOk(s.m)
  {
    ReadyRuns(s.m, s.c);
    assert IdleOk(s.m, s.c.pc, s.c.idle);
    hide RunQueuesOk, WaitListsOk, PlacesOk;
    ExitKeepsLists(s.m, s.c.idle);
  }

  /** In every state of every run each call can be made, with any arguments that
      are in order. */
  lemma CallsArePossible(tr: seq<K>, steps: seq<Step>, i: nat, step: Step)
    requires Run(tr, steps) && i < |tr| && tr[i].m.active in tr[i].c.pc && MayCall(tr[i], step)
    ensures Shape(tr[i].m) && (ArgumentsOk(tr[i], step) ==> Enabled(tr[i], step))
  {
    hide Run, RequestsOk, BuffersOk, MessagesOk, NumbersOk, FlagStateOk, PriorityOk, EncodingOk, CoreInv, ArgumentsOk,
      Enabled, ExitOk;
    RunIsSafe(tr, steps, i);
    CoreShape(tr[i].m, tr[i].c);
    hide Shape;
    if ArgumentsOk(tr[i], step) {
      if step.DoExit? { ExitIsPossible(tr[i]); }
      CallIsPossible(tr[i], step);
    }
  }

  /** No priority inversion: a thread in user code is as good as any runnable
      one, unless a switch is requested or a thread was just created without a
      yield. */
  lemma NoPriorityInversion(tr: seq<K>, steps: seq<Step>, i: nat, t: Pid)
    requires Run(tr, steps) && i < |tr| && t in tr[i].m.prio && On(tr[i].m.status, t)
    requires var s := tr[i]; Defined(s.m, s.c) && s.c.pc[s.m.active] == User && !s.m.csr && !s.c.lazy
    ensures tr[i].m.prio[tr[i].m.active] <= tr[i].m.prio[t]
  {
    RunIsSafe(tr, steps, i);
    hide Run, Core, RequestsOk, BuffersOk, MessagesOk, NumbersOk, FlagStateOk, EncodingOk;
  }

  // Messages

  /** Every accepted message is delivered, queued or held by a waiting sender:
      in exactly one of these places, once; and nothing else is. */
  lemma EveryMessageIsInOnePlace(tr: seq<K>, steps: seq<Step>, i: nat, t: Pid, msg: Msg)
    requires Run(tr, steps) && i < |tr| && t in tr[i].m.prio
    ensures var s := tr[i];
            && t in s.m.queue
            && multiset(Of(s.ms.delivered, t))[msg] + multiset(Items(s.m.queue[t]))[msg]
               + multiset(Held(Lst(s.m.lists, MsgWaiters(t)), s.m.buf))[msg]
               == (if msg in Of(s.ms.accepted, t) then 1 else 0)
  {
    hide Run, Core, RequestsOk, BuffersOk, FlagStateOk, PriorityOk, EncodingOk, Items, Held, Account, NoDup;
    RunIsSafe(tr, steps, i);
    var s := tr[i];
    assert Account(s.m.queue[t], s.m.status[t], Held(Lst(s.m.lists, MsgWaiters(t)), s.m.buf),
                   Of(s.ms.accepted, t), Of(s.ms.entered, t), Of(s.ms.delivered, t));
    assert NoDup(Of(s.ms.accepted, t));
    AccountCounts(s.m.queue[t], s.m.status[t], Held(Lst(s.m.lists, MsgWaiters(t)), s.m.buf),
                  Of(s.ms.accepted, t), Of(s.ms.entered, t), Of(s.ms.delivered, t), msg);
  }

  lemma AccountCounts(q: MsgQueue, st: Status, held: seq<Msg>, acc: seq<Msg>, ent: seq<Msg>, del: seq<Msg>, msg: Msg)
    requires Account(q, st, held, acc, ent, del) && NoDup(acc)
    ensures multiset(del)[msg] + multiset(Items(q))[msg] + multiset(held)[msg] == (if msg in acc then 1 else 0)
  {
    hide Items, NoDup;
    if msg in acc { OnceInSequence(acc, msg); }
    assert multiset(ent) == multiset(del) + multiset(Items(q));
  }

  /** A receiver sees what entered its queue, in that order. A waiting receiver
      has neither queued messages nor waiting senders, and senders wait only for
      a full queue. */
  lemma ReceiversSeeFifo(tr: seq<K>, steps: seq<Step>, i: nat, t: Pid)
    requires Run(tr, steps) && i < |tr| && t in tr[i].m.prio
    ensures var s := tr[i];
            && t in s.m.queue && t in s.m.status
            && Of(s.ms.entered, t) == Of(s.ms.delivered, t) + Items(s.m.queue[t])
            && (s.m.status[t] == ReceiveBlocked ==> Items(s.m.queue[t]) == [] && Lst(s.m.lists, MsgWaiters(t)) == [])
            && (Lst(s.m.lists, MsgWaiters(t)) != [] ==> |Items(s.m.queue[t])| == |s.m.queue[t].slots|)
  {
    RunIsSafe(tr, steps, i);
    var s := tr[i];
    hide Run, Core, RequestsOk, BuffersOk, FlagStateOk, PriorityOk, EncodingOk, Items;
    assert |Held(Lst(s.m.lists, MsgWaiters(t)), s.m.buf)| == |Lst(s.m.lists, MsgWaiters(t))|;
  }

  /** When a thread that waited for a message, a reply or a mailbox goes on, its
      buffer holds what was copied into it; for a receive this is the message
      last recorded as delivered. */
  lemma BufferHoldsTheResult(tr: seq<K>, steps: seq<Step>, i: nat)
    requires Run(tr, steps) && i < |tr|
    requires var s := tr[i]; s.m.active in s.c.pc && s.c.pc[s.m.active].Do? && Awaits(s.c.pc[s.m.active])
    ensures var s, a := tr[i], tr[i].m.active;
            && a in s.given && a in s.m.buf && s.m.buf[a] == s.given[a]
            && (s.c.pc[a].k.RecvDone? ==> EndsWith(Of(s.ms.delivered, a), s.m.buf[a]))
  {
    RunIsSafe(tr, steps, i);
    hide Run, RequestsOk, MessagesOk, NumbersOk, FlagStateOk, PriorityOk, EncodingOk;
    var s := tr[i];
    ActiveDoRuns(s.m, s.c);
  }

  // Mutexes

  /** A mutex is locked exactly if it was given to somebody, and nobody waits
      for a free one. */
  lemma MutexWordsMatch(tr: seq<K>, steps: seq<Step>, i: nat, x: nat)
    requires Run(tr, steps) && i < |tr|
    ensures x in tr[i].m.locked <==> x in tr[i].mx.holder
    ensures Lst(tr[i].m.lists, MutexQueue(x)) != [] ==> x in tr[i].m.locked
  {
    RunIsSafe(tr, steps, i);
    hide Run, Core, RequestsOk, BuffersOk, MessagesOk, NumbersOk, FlagStateOk, PriorityOk;
  }

  /** Mutual exclusion: two threads that were told that they have the same mutex
      are one. */
  lemma MutualExclusion(tr: seq<K>, steps: seq<Step>, i: nat, x: nat, t: Pid, u: Pid)
    requires DisciplinedRun(tr, steps) && i < |tr| && (t, x) in tr[i].mx.owns && (u, x) in tr[i].mx.owns
    ensures t == u && x in tr[i].m.locked && x in tr[i].mx.holder && tr[i].mx.holder[x] == t
  {
    RunExcludes(tr, steps, i);
    MutexWordsMatch(tr, steps, i, x);
  }

  // Thread flags

  predicate NoneSet(flags: bv16, mask: bv16) {
    flags & mask == 0
  }

  predicate AllSet(flags: bv16, mask: bv16) {
    flags & mask == mask
  }

  /** The flags that a thread which goes on with `k` waited for are set. */
  predicate HasWhatItWaitedFor(k: Cont, flags: bv16) {
    match k
    case ClearAny(mask) => !NoneSet(flags, mask)
    case ReadOne(mask) => !NoneSet(flags, mask)
    case ClearAll(mask) => AllSet(flags, mask)
    case ClearOne(mask, read) => read != 0 && AllSet(mask, read) && AllSet(flags, read)
    case _ => true
  }

  lemma GrantedInBits(k: Cont, flags: bv16)
    requires Granted(k, flags)
    ensures HasWhatItWaitedFor(k, flags)
  {
    if k.ClearOne? { SameBits(k.mask, k.read); }
  }

  lemma SameBits(mask: bv16, read: bv16)
    requires read & mask == read
    ensures AllSet(mask, read)
  {
  }

  lemma FlagsInBits(flags: bv16, mask: bv16)
    ensures F.HasAny(flags, mask) <==> !NoneSet(flags, mask)
    ensures F.HasAll(flags, mask) <==> AllSet(flags, mask)
  {
  }

  /** Nobody waits for flags that are set, and who goes on after a wait finds
      them set: any of them, all of them, or the ones it read. */
  lemma FlagsLoseNoWakeup(tr: seq<K>, steps: seq<Step>, i: nat, t: Pid)
    requires Run(tr, steps) && i < |tr| && t in tr[i].m.prio
    ensures var m, pc := tr[i].m, tr[i].c.pc;
            && t in m.status && t in m.flags && t in m.wait && t in pc
            && (m.status[t] == FlagBlockedAny ==> m.wait[t].Mask? && NoneSet(m.flags[t], m.wait[t].mask))
            && (m.status[t] == FlagBlockedAll ==> m.wait[t].Mask? && !AllSet(m.flags[t], m.wait[t].mask))
            && (On(m.status, t) && pc[t].Do? ==> HasWhatItWaitedFor(pc[t].k, m.flags[t]))
  {
    hide Run, Core, RequestsOk, BuffersOk, MessagesOk, NumbersOk, PriorityOk, EncodingOk, Granted, F.HasAny, F.HasAll,
      HasWhatItWaitedFor, NoneSet, AllSet;
    RunIsSafe(tr, steps, i);
    var m, pc := tr[i].m, tr[i].c.pc;
    assert FlagOk(pc[t], m.status[t], m.flags[t], m.wait[t]);
    if m.wait[t].Mask? { FlagsInBits(m.flags[t], m.wait[t].mask); }
    if On(m.status, t) && pc[t].Do? { GrantedInBits(pc[t].k, m.flags[t]); }
  }

  // Mailboxes

  /** What was put was got or is in the mailbox, in this order; the mailbox holds
      no more than its capacity; and no reader waits while it holds something. */
  lemma MailboxIsBoundedFifo(tr: seq<K>, steps: seq<Step>, i: nat, b: nat)
    requires OrderlyRun(tr, steps) && i < |tr| && b in tr[i].m.mbox
    ensures var s := tr[i];
            var f := s.m.mbox[b];
            && Avail(f.cib) <= |f.slots|
            && Of(s.bx.puts, b) == Of(s.bx.gets, b) + Contents(f.cib, f.slots)
            && (Lst(s.m.lists, Readers(b)) != [] ==> Contents(f.cib, f.slots) == [])
  {
    RunIsOrderly(tr, steps, i);
    assert BoxFits(tr[i].m.mbox[b], Lst(tr[i].m.lists, Readers(b)), Of(tr[i].bx.puts, b), Of(tr[i].bx.gets, b));
  }

  // Leaving the run queue

  /** In an interrupt service routine nobody is blocked. */
  lemma IsrBlocksNobody(s: K, step: Step)
    requires Core(s) && RequestsOk(s) && Enabled(s, step) && !Inner(step) && s.c.isr
    ensures Caller(s.m, Apply(s, step).m, Wakes(step), {})
  {
    if step.DoPut? || step.DoGet? {
      hide Core, Caller, PutMsg, GetMsg, PutLog, GetLog, SettlePc;
      CallerRuns(s);
      if step.DoPut? {
        var msg := Msg(KERNEL_PID_UNDEF, step.typ, step.content, s.nextId);
        PutIsGood(s.m, step.b, msg, step.blocking);
        SettleIsCaller(s.m, PutMsg(s.m, step.b, msg, step.blocking).0, true, PutMsg(s.m, step.b, msg, step.blocking).1);
      } else {
        GetIsGood(s.m, step.b, step.blocking);
        SettleIsCaller(s.m, GetMsg(s.m, step.b, step.blocking).0, true, GetMsg(s.m, step.b, step.blocking).1);
      }
    } else {
      IsrCallsBlockNothing(s, step);
      hide Core, RequestsOk, Caller, PcMoves, Apply, Enabled;
      ReplyIsSafe(s, step);
      CallKeepsCore(s, step);
    }
  }

  lemma IsrCallsBlockNothing(s: K, step: Step)
    requires Enabled(s, step) && !Inner(step) && s.c.isr && !step.DoPut? && !step.DoGet?
    ensures Blocks(step) == {} && !step.DoCreate? && !step.DoExit?
  {
    hide Shape, CountersFresh, ExitOk;
  }

  lemma SettleIsCaller(m: Mem, r: Mem, isr: bool, out: Out)
    requires Caller(m, r, {MboxBlocked}, {}) 
    ensures Caller(m, SettleMem(r, isr, out), {MboxBlocked}, {})
  {
    hide RunQueuesOk, WaitListsOk, PlacesOk, Moves, ListsKept;
  }

  /** After a call of a running thread the others are runnable still. */
  lemma CallerLeavesAlone(m: Mem, r: Mem, w: set<Status>, b: set<Status>, t: Pid)
    requires Caller(m, r, w, b) && t in m.prio && On(m.status, t)
    ensures t in r.prio && (On(r.status, t) || (t == m.active && b != {}))
  {
    hide RunQueuesOk, WaitListsOk, PlacesOk, ListsKept;
  }

  lemma CreateLeavesAlone(s: K, prio: nat, sleeping: bool, wout: bool, flags: bv16, t: Pid)
    requires Defined(s.m, s.c) && t in s.m.prio && On(s.m.status, t)
    ensures var m := StepCreate(s, prio, sleeping, wout, flags).m; t in m.prio && On(m.status, t)
  {
    hide Create, SettlePc;
    CreateAddsOne(s.m, prio, sleeping, wout, flags);
  }

  lemma ExitLeavesAlone(s: K, t: Pid)
    requires ExitOk(s.m) && t in s.m.prio && On(s.m.status, t) && t != s.m.active
    ensures var m := StepExit(s).m; t in m.prio && On(m.status, t)
  {
    hide LevelsOk, ListsKeyed, RunQueuesKeyed, Best;
  }

  lemma LifeLeaves(s: K, step: Step, t: Pid)
    requires Core(s) && Enabled(s, step) && (step.DoCreate? || step.DoExit?) && t in s.m.prio && On(s.m.status, t)
    requires var m := Apply(s, step).m; t !in m.prio || !On(m.status, t)
    ensures t == s.m.active && Shape(s.m) && AtHead(s.m, t)
  {
    hide CoreInv, Shape, Ready, StepCreate, StepExit, ExitOk;
    if step.DoCreate? {
      CreateLeavesAlone(s, step.prio, step.sleeping, step.wout, step.flags, t);
    } else {
      ReadyIsUser(s);
      if t != s.m.active { ExitLeavesAlone(s, t); }
    }
  }

  /** The step takes nobody off the run queue but its caller, who is the first
      of its level: what the blind pop removes is the thread whose status changes. */
  lemma OnlyTheCallerLeaves(s: K, step: Step, t: Pid)
    requires Core(s) && RequestsOk(s) && Enabled(s, step) && t in s.m.prio && On(s.m.status, t)
    requires var m := Apply(s, step).m; t !in m.prio || !On(m.status, t)
    ensures t == s.m.active && Shape(s.m) && AtHead(s.m, t)
  {
    hide Apply, Enabled, CoreInv, RequestsOk;
    if Inner(step) {
      InnerOn(s, step);
    } else if step.DoCreate? || step.DoExit? {
      LifeLeaves(s, step, t);
    } else {
      CallLeaves(s, step, t);
    }
  }

  lemma CallLeaves(s: K, step: Step, t: Pid)
    requires Core(s) && RequestsOk(s) && Enabled(s, step) && !Inner(step) && !step.DoCreate? && !step.DoExit?
    requires t in s.m.prio && On(s.m.status, t)
    requires var m := Apply(s, step).m; t !in m.prio || !On(m.status, t)
    ensures t == s.m.active && Shape(s.m) && AtHead(s.m, t)
  {
    hide Apply, RequestsOk, Caller, CallEnabled, CoreInv, PcMoves;
    var m := Apply(s, step).m;
    if s.c.isr {
      IsrBlocksNobody(s, step);
      CallerLeavesAlone(s.m, m, Wakes(step), {}, t);
    } else {
      CallerIsReady(s, step);
      ReadyIsUser(s);
      ReplyIsSafe(s, step);
      CallKeepsCore(s, step);
      CallerLeavesAlone(s.m, m, Wakes(step), Blocks(step), t);
    }
  }

  lemma BlindPopTakesTheThread(tr: seq<K>, steps: seq<Step>, i: nat, t: Pid)
    requires Run(tr, steps) && i < |steps| && t in tr[i].m.prio && On(tr[i].m.status, t)
    requires t !in tr[i + 1].m.prio || !On(tr[i + 1].m.status, t)
    ensures var m := tr[i].m; t == m.active && m.prio[t] < |m.rq| && m.rq[m.prio[t]] != [] && m.rq[m.prio[t]][0] == t
  {
    hide Core, RequestsOk, BuffersOk, MessagesOk, NumbersOk, FlagStateOk, PriorityOk, EncodingOk, Enabled, Apply, Boot;
    RunIsSafe(tr, steps, i);
    assert Next(tr[i], steps[i], tr[i + 1]);
    OnlyTheCallerLeaves(tr[i], steps[i], t);
  }
}
