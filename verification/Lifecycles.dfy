/** What happens to one refused message and one waiting thread in the course of
    a run. */
module Lifecycles {
  import opened Names
  import opened Sequences
  import opened CircularIndex
  import opened KernelState
  import opened Scheduler
  import opened Threads
  import F = ThreadFlags
  import opened Messages
  import opened Effects
  import opened Machine
  import opened Separation
  import opened Requests
  import opened Buffers
  import opened Conservation
  import opened Flags
  import opened Priority
  import opened Exclusion
  import opened WaitOrder
  import opened Theorems

  // Refused messages

  lemma QueueMsgFails(m: Mem, to: Pid, msg: Msg)
    requires Shape(m) && to in m.prio
    ensures var (r, ok) := QueueMsg(m, to, msg); (ok <==> Put(m.queue[to].cib).1 >= 0) && (!ok ==> r == m)
  {
    hide F.SetAndWake, Offer, Put, LevelsOk, ListsKeyed, RunQueuesKeyed;
    OfferSucceedsIff(m.queue[to], msg);
  }

  lemma SectionFails(m: Mem, to: Pid, msg: Msg, block: bool)
    requires Shape(m)
    ensures var fate, (r, out) := FateOf(m, to, false, block), SendSection(m, to, msg, block);
            (fate == Refused <==> Fails(out)) && (fate == Refused ==> r == m)
  {
    hide QueueMsg, Park, HandOver, Put;
    if to in m.prio { QueueMsgFails(m, to, msg); }
  }

  lemma SendFails(m: Mem, to: Pid, msg: Msg, block: bool)
    requires Shape(m) && OnRunqueue(m.status[m.active])
    ensures var fate, (r, out) := FateOf(m, to, to == m.active, block), Send(m, to, msg, block);
            (fate == Refused <==> Fails(out)) && (fate == Refused ==> r == m)
  {
    var stamped := msg.(sender := m.active);
    if to == m.active {
      hide QueueMsg, Put;
      QueueMsgFails(m, to, stamped);
    } else {
      hide SendSection, FateOf;
      SectionFails(m, to, stamped, block);
    }
  }

  lemma SendIntFails(m: Mem, to: Pid, msg: Msg)
    requires Shape(m)
    ensures var fate, (r, out) := FateOf(m, to, false, false), SendInt(m, to, msg);
            (fate == Refused <==> Fails(out)) && (fate == Refused ==> r == m)
  {
    hide QueueMsg, HandOver, Put;
    if to in m.prio { QueueMsgFails(m, to, msg.(sender := m.maxPid + 1)); }
  }

  /** The call returns 0 or -1. */
  predicate Fails(out: Out) {
    out == Done(0) || out == Done(-1)
  }

  /** A send that fails changes nothing at all, but for the number it used up; a
      send that does not fail has its message accepted, once. */
  ghost predicate SendCounts(s: K, s': K, to: Pid, msg: Msg, out: Out) {
    if Fails(out) then s' == s.(nextId := s.nextId + 1)
    else Of(s'.ms.accepted, to) == Of(s.ms.accepted, to) + [msg] && msg !in Of(s.ms.accepted, to)
  }

  lemma NewIsNotAccepted(s: K, to: Pid, msg: Msg)
    requires NumbersOk(s) && msg.id == s.nextId
    ensures msg !in Of(s.ms.accepted, to)
  {
  }

  lemma SendAccepts(ms: MsgLog, to: Pid, msg: Msg, fate: Fate)
    ensures fate == Refused ==> SendLog(ms, to, msg, fate) == ms
    ensures fate != Refused ==> Of(SendLog(ms, to, msg, fate).accepted, to) == Of(ms.accepted, to) + [msg]
  {
  }

  lemma SendStepCounts(s: K, to: Pid, typ: nat, content: nat, block: bool)
    requires Core(s) && NumbersOk(s) && Defined(s.m, s.c) && Ready(s.m, s.c)
    ensures var msg := Msg(s.m.active, typ, content, s.nextId);
            SendCounts(s, StepSend(s, to, typ, content, block), to, msg, Send(s.m, to, msg, block).1)
  {
    ReadyIsUser(s);
    hide CoreInv, NumbersOk, Send, FateOf, SendLog, GivenLog, LevelsOk, ListsKeyed, RunQueuesKeyed;
    var msg := Msg(s.m.active, typ, content, s.nextId);
    SendFails(s.m, to, msg, block);
    NewIsNotAccepted(s, to, msg);
    SendAccepts(s.ms, to, msg, FateOf(s.m, to, to == s.m.active, block));
    RefusedGivesNothing(s.given, to, msg);
  }

  lemma SendIntStepCounts(s: K, to: Pid, typ: nat, content: nat)
    requires NumbersOk(s) && Defined(s.m, s.c)
    ensures var msg := Msg(s.m.maxPid + 1, typ, content, s.nextId);
            SendCounts(s, StepSendInt(s, to, typ, content), to, msg, SendInt(s.m, to, msg).1)
  {
    hide NumbersOk, SendInt, FateOf, SendLog, GivenLog, LevelsOk, ListsKeyed, RunQueuesKeyed;
    var msg := Msg(s.m.maxPid + 1, typ, content, s.nextId);
    SendIntFails(s.m, to, msg);
    NewIsNotAccepted(s, to, msg);
    SendAccepts(s.ms, to, msg, FateOf(s.m, to, false, false));
    RefusedGivesNothing(s.given, to, msg);
  }

  lemma RefusedGivesNothing(given: map<Pid, Msg>, to: Pid, msg: Msg)
    ensures GivenLog(given, to, msg, Refused) == given
  {
  }

  lemma SendIs(s: K, step: Step)
    requires Enabled(s, step) && step.DoSend?
    ensures Defined(s.m, s.c) && Ready(s.m, s.c)
    ensures Apply(s, step) == StepSend(s, step.to, step.typ, step.content, step.blocking)
  {
    hide Shape, Ready, CountersFresh, StepSend;
  }

  lemma SendIntIs(s: K, step: Step)
    requires Enabled(s, step) && step.DoSendInt?
    ensures Defined(s.m, s.c) && Apply(s, step) == StepSendInt(s, step.to, step.typ, step.content)
  {
    hide Shape, Ready, CountersFresh, StepSendInt;
  }

  /** msg_send and msg_try_send in every run: a failed one leaves lists, queues,
      buffers, flags and records as they were. */
  lemma FailedSendLeavesNoTrace(tr: seq<K>, steps: seq<Step>, i: nat)
    requires Run(tr, steps) && i < |steps| && steps[i].DoSend?
    ensures var s, step := tr[i], steps[i];
            var msg := Msg(s.m.active, step.typ, step.content, s.nextId);
            Shape(s.m) && SendCounts(s, tr[i + 1], step.to, msg, Send(s.m, step.to, msg, step.blocking).1)
  {
    hide Core, RequestsOk, BuffersOk, MessagesOk, NumbersOk, FlagStateOk, PriorityOk, EncodingOk, StepSend, Enabled,
      Apply, Boot, Ready, Shape, SendCounts, Send;
    RunIsSafe(tr, steps, i);
    assert Next(tr[i], steps[i], tr[i + 1]);
    SendIs(tr[i], steps[i]);
    SendStepCounts(tr[i], steps[i].to, steps[i].typ, steps[i].content, steps[i].blocking);
  }

  /** So does msg_send_int. */
  lemma FailedSendIntLeavesNoTrace(tr: seq<K>, steps: seq<Step>, i: nat)
    requires Run(tr, steps) && i < |steps| && steps[i].DoSendInt?
    ensures var s, step := tr[i], steps[i];
            var msg := Msg(s.m.maxPid + 1, step.typ, step.content, s.nextId);
            Shape(s.m) && SendCounts(s, tr[i + 1], step.to, msg, SendInt(s.m, step.to, msg).1)
  {
    hide Core, RequestsOk, BuffersOk, MessagesOk, NumbersOk, FlagStateOk, PriorityOk, EncodingOk, StepSendInt, Enabled,
      Apply, Boot, Shape, SendCounts, SendInt;
    RunIsSafe(tr, steps, i);
    assert Next(tr[i], steps[i], tr[i + 1]);
    SendIntIs(tr[i], steps[i]);
    SendIntStepCounts(tr[i], steps[i].to, steps[i].typ, steps[i].content);
  }

  /** msg_try_receive never blocks its caller. It fails exactly if nothing is
      queued and nobody waits to send, and then changes nothing. */
  lemma TryReceiveNeverBlocks(m: Mem)
    requires ActiveRuns(m)
    ensures var (r, out, got) := Receive(m, false);
            && ActiveRuns(r) && (out.Done? || out.SwitchTo?)
            && (got.None? <==> Take(m.queue[m.active]).1.None? && Lst(m.lists, MsgWaiters(m.active)) == [])
            && (out == Done(-1) <==> got.None?) && (got.None? ==> r == m)
  {
    ReceiveIsGood(m, false);
    hide ReleaseSender, Take, Refilled, RunQueuesOk, WaitListsOk, PlacesOk, Moves, ListsKept;
  }

  /** With waiting senders, a receive takes the head of the queue, and the put
      that refills the freed slot succeeds. */
  lemma RefillNeverFails(tr: seq<K>, steps: seq<Step>, i: nat, t: Pid)
    requires Run(tr, steps) && i < |tr| && t in tr[i].m.prio && t in tr[i].m.queue
    requires Lst(tr[i].m.lists, MsgWaiters(t)) != []
    ensures forall msg :: Take(tr[i].m.queue[t]).1.Some? ==> Offer(Take(tr[i].m.queue[t]).0, msg).1
  {
    RunIsSafe(tr, steps, i);
    var s := tr[i];
    var q, w := s.m.queue[t], Lst(s.m.lists, MsgWaiters(t));
    hide Run, Core, RequestsOk, BuffersOk, NumbersOk, FlagStateOk, PriorityOk, EncodingOk;
    assert |Held(w, s.m.buf)| == |w|;
    assert |Items(q)| == |q.slots|;
    TakeRemovesHead(q);
    forall msg | Take(q).1.Some?
      ensures Offer(Take(q).0, msg).1
    {
      OfferAppends(Take(q).0, msg);
      hide Take, Offer, Items;
      assert |Items(q)| == 1 + |Items(Take(q).0)|;
    }
  }

  // Waiting in order

  lemma CreatePriorities(s: K, prio: nat, sleeping: bool, wout: bool, flags: bv16, t: Pid)
    requires Defined(s.m, s.c) && t in s.m.prio
    ensures var m := StepCreate(s, prio, sleeping, wout, flags).m; t in m.prio && m.prio[t] == s.m.prio[t]
  {
    hide Create, SettlePc;
    CreateAddsOne(s.m, prio, sleeping, wout, flags);
  }

  lemma ExitPriorities(s: K, t: Pid)
    requires ExitOk(s.m) && t in StepExit(s).m.prio
    ensures t in s.m.prio && StepExit(s).m.prio[t] == s.m.prio[t]
  {
    hide LevelsOk, ListsKeyed, RunQueuesKeyed, Best;
  }

  lemma LivesPriorities(s: K, step: Step, t: Pid)
    requires Enabled(s, step) && (step.DoCreate? || step.DoExit?) && t in s.m.prio && t in Apply(s, step).m.prio
    ensures Apply(s, step).m.prio[t] == s.m.prio[t]
  {
    hide StepCreate, StepExit, ExitOk, Shape, Ready;
    if step.DoCreate? { CreatePriorities(s, step.prio, step.sleeping, step.wout, step.flags, t); }
    else { ExitPriorities(s, t); }
  }

  lemma PrioritiesStay(s: K, step: Step, t: Pid)
    requires Core(s) && RequestsOk(s) && Enabled(s, step) && t in s.m.prio && t in Apply(s, step).m.prio
    ensures Apply(s, step).m.prio[t] == s.m.prio[t]
  {
    hide Apply, Enabled, CoreInv, RequestsOk, Moves, ListsKept, ListsInv, PcMoves;
    if Inner(step) {
      InnerOn(s, step);
    } else if step.DoCreate? || step.DoExit? {
      LivesPriorities(s, step, t);
    } else {
      ReplyIsSafe(s, step);
      CallKeepsCore(s, step);
    }
  }

  /** A waiting thread and one that joins its list later. */
  lemma {:induction false} OrderIsKept(tr: seq<K>, steps: seq<Step>, l: ListId, t: Pid, u: Pid, i: nat, j: nat)
    requires Run(tr, steps) && i <= j < |tr| && (forall k :: i <= k <= j ==> t in Lst(tr[k].m.lists, l))
    requires u !in Lst(tr[i].m.lists, l) && u in Lst(tr[j].m.lists, l)
    ensures var m := tr[j].m; t in m.prio && u in m.prio && (m.prio[u] < m.prio[t] || Before(Lst(m.lists, l), t, u))
    decreases j
  {
    hide Core, RequestsOk, BuffersOk, MessagesOk, NumbersOk, FlagStateOk, PriorityOk, EncodingOk, Enabled, Apply, Boot,
      Before;
    if i < j {
      RunIsSafe(tr, steps, j - 1);
      RunIsSafe(tr, steps, j);
      assert Next(tr[j - 1], steps[j - 1], tr[j]);
      if u in Lst(tr[j - 1].m.lists, l) { OrderIsKept(tr, steps, l, t, u, i, j - 1); }
      OrderKeptOnce(tr[j - 1], steps[j - 1], l, t, u);
    }
  }

  lemma OrderKeptOnce(s: K, step: Step, l: ListId, t: Pid, u: Pid)
    requires Core(s) && RequestsOk(s) && Enabled(s, step) && Core(Apply(s, step))
    requires var s' := Apply(s, step); t in Lst(s.m.lists, l) && t in Lst(s'.m.lists, l) && u in Lst(s'.m.lists, l)
    requires u in Lst(s.m.lists, l) ==>
               t in s.m.prio && u in s.m.prio && (s.m.prio[u] < s.m.prio[t] || Before(Lst(s.m.lists, l), t, u))
    ensures var m := Apply(s, step).m;
            t in m.prio && u in m.prio && (m.prio[u] < m.prio[t] || Before(Lst(m.lists, l), t, u))
  {
    hide Apply, Enabled, RequestsOk, Core, ListsStep, Before, ListStep;
    var s' := Apply(s, step);
    var was, now := Lst(s.m.lists, l), Lst(s'.m.lists, l);
    ListMembers(s, l);
    ListMembers(s', l);
    StepMovesLists(s, step);
    MovedList(s, s', l);
    NewMember(was, now, s.m.active, s.m.prio, u);
    PrioritiesStay(s, step, t);
    PrioritiesStay(s, step, u);
    OrderStep(was, now, s.m.active, s.m.prio, t, u);
  }

  lemma ListMembers(s: K, l: ListId)
    requires Core(s)
    ensures var w := Lst(s.m.lists, l);
            && s.m.active in s.m.prio && Keyed(w, s.m.prio) && NoDup(w) && Sorted(w, s.m.prio)
                && forall t :: t in w ==> t in s.m.prio
  {
  }

  lemma MovedList(s: K, s': K, l: ListId)
    requires Moved(s, s')
    ensures Keyed(Lst(s.m.lists, l), s.m.prio) && s.m.active in s.m.prio
    ensures ListStep(Lst(s.m.lists, l), Lst(s'.m.lists, l), s.m.active, s.m.prio)
  {
  }

  lemma NewMember(was: seq<Pid>, now: seq<Pid>, a: Pid, prio: map<Pid, nat>, u: Pid)
    requires Keyed(was, prio) && a in prio && ListStep(was, now, a, prio) && u in now
    ensures u in prio
  {
    InsertMembers(was, a, prio);
  }

  /** Who waits in a list is overtaken only by threads of strictly better
      priority: of a thread that came later and is first now, this is known. */
  lemma NoOvertaking(tr: seq<K>, steps: seq<Step>, l: ListId, t: Pid, u: Pid, i: nat, j: nat)
    requires Run(tr, steps) && i <= j < |tr| && (forall k :: i <= k <= j ==> t in Lst(tr[k].m.lists, l))
    requires u !in Lst(tr[i].m.lists, l) && Lst(tr[j].m.lists, l)[0] == u
    ensures var m := tr[j].m; t in m.prio && u in m.prio && m.prio[u] < m.prio[t]
  {
    OrderIsKept(tr, steps, l, t, u, i, j);
    RunIsSafe(tr, steps, j);
    hide Run;
    ListMembers(tr[j], l);
  }
}
