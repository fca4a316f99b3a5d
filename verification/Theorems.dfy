/** What holds in every state of every run of the kernel, with interrupts
    between any two steps. */
module Theorems {
  import opened Names
  import opened Sequences
  import opened CircularIndex
  import opened KernelState
  import opened Scheduler
  import opened Threads
  import F = ThreadFlags
  import opened Machine
  import opened Separation
  import opened Requests
  import opened Buffers
  import opened Conservation
  import opened Flags
  import opened Priority
  import opened Exclusion
  import opened Boxes

  ghost predicate Safe(s: K) {
    && Core(s) && RequestsOk(s) && BuffersOk(s) && MessagesOk(s) && NumbersOk(s)
    && FlagStateOk(s) && PriorityOk(s) && EncodingOk(s)
  }

  // Every step keeps what holds

  lemma StepKeepsCore(s: K, step: Step)
    requires Core(s) && RequestsOk(s) && Enabled(s, step)
    ensures Core(Apply(s, step)) && RequestsOk(Apply(s, step))
  {
    if Inner(step) {
      hide Core, RequestsOk, Apply, Enabled;
      InnerKeepsCore(s, step);
      InnerKeepsRequests(s, step);
    } else {
      hide RequestsOk, Core, Caller, PcMoves, ReplyFindsUnlisted;
      ReplyIsSafe(s, step);
      CallKeepsRequests(s, step);
      if step.DoCreate? { hide StepCreate; CreateKeepsCore(s, step.prio, step.sleeping, step.wout, step.flags); }
      else if step.DoExit? { hide StepExit, ExitOk; ExitKeepsCore(s); }
      else { hide Apply; CallKeepsCore(s, step); }
    }
  }

  lemma StepKeepsBuffers(s: K, step: Step)
    requires Core(s) && RequestsOk(s) && BuffersOk(s) && Enabled(s, step)
    ensures BuffersOk(Apply(s, step))
  {
    if Inner(step) { hide Core, BuffersOk, Apply, Enabled; InnerKeepsBuffers(s, step); }
    else if step.DoCreate? {
      hide BuffersOk, StepCreate;
      CreateKeepsBuffers(s, step.prio, step.sleeping, step.wout, step.flags);
    }
    else if step.DoExit? { hide Core, BuffersOk, StepExit, ExitOk; ExitKeepsBuffers(s); }
    else { hide Core, RequestsOk, BuffersOk, Apply, Enabled; CallKeepsBuffers(s, step); }
  }

  lemma StepKeepsMessages(s: K, step: Step)
    requires Core(s) && RequestsOk(s) && MessagesOk(s) && Enabled(s, step)
    ensures MessagesOk(Apply(s, step))
  {
    hide Core, RequestsOk, MessagesOk, Apply, Enabled;
    if Inner(step) { InnerKeepsMsgs(s, step); } else { CallKeepsMessages(s, step); }
  }

  lemma StepKeepsFlagState(s: K, step: Step)
    requires Core(s) && RequestsOk(s) && FlagStateOk(s) && Enabled(s, step)
    ensures FlagStateOk(Apply(s, step))
  {
    hide Core, RequestsOk, FlagStateOk;
    if Inner(step) { hide Apply, Enabled; InnerKeepsFlagState(s, step); }
    else if step.DoCreate? {
      hide StepCreate;
      CreateKeepsFlagState(s, step.prio, step.sleeping, step.wout, step.flags);
    }
    else if step.DoExit? { hide StepExit, ExitOk; ExitKeepsFlagState(s); }
    else if step.DoWaitAny? { hide StepWaitAny, Ready; WaitAnyKeepsFlags(s, step.mask, ClearAny(step.mask)); }
    else if step.DoWaitOne? { hide StepWaitAny, Ready; WaitAnyKeepsFlags(s, step.mask, ReadOne(step.mask)); }
    else if step.DoWaitAll? { hide StepWait, Ready; WaitAllKeepsFlags(s, step.mask); }
    else { hide Apply, Enabled; CallKeepsFlagState(s, step); }
  }

  lemma StepKeepsPriority(s: K, step: Step)
    requires Core(s) && RequestsOk(s) && PriorityOk(s) && Enabled(s, step)
    ensures PriorityOk(Apply(s, step))
  {
    hide Core, RequestsOk, PriorityOk;
    if Inner(step) { hide Apply, Enabled; InnerKeepsPriority(s, step); }
    else if step.DoCreate? { hide StepCreate; CreateKeepsPriority(s, step.prio, step.sleeping, step.wout, step.flags); }
    else if step.DoExit? { hide StepExit, ExitOk; ExitKeepsPriority(s); }
    else { hide Apply, Enabled; CallKeepsPriority(s, step); }
  }

  lemma StepKeepsEncoding(s: K, step: Step)
    requires Core(s) && RequestsOk(s) && EncodingOk(s) && Enabled(s, step)
    ensures EncodingOk(Apply(s, step))
  {
    hide Core, RequestsOk, EncodingOk, Apply, Enabled;
    if Inner(step) { InnerKeepsEncoding(s, step); } else { CallKeepsEncoding(s, step); }
  }

  lemma StepKeepsExclusion(s: K, step: Step)
    requires Core(s) && RequestsOk(s) && EncodingOk(s) && ExclusionOk(s) && Enabled(s, step) && Disciplined(s, step)
    ensures ExclusionOk(Apply(s, step))
  {
    hide Core, RequestsOk, EncodingOk, ExclusionOk, Disciplined;
    if Inner(step) { hide Apply, Enabled; InnerKeepsExclusion(s, step); }
    else if step.DoCreate? {
      hide StepCreate;
      CreateKeepsExclusion(s, step.prio, step.sleeping, step.wout, step.flags);
    }
    else if step.DoExit? { hide StepExit, ExitOk; ExitKeepsExclusion(s); }
    else { hide Apply, Enabled; CallKeepsExclusion(s, step); }
  }

  lemma StepKeepsMailboxes(s: K, step: Step)
    requires Core(s) && RequestsOk(s) && MailboxesOk(s) && Enabled(s, step) && Orderly(s, step)
    ensures MailboxesOk(Apply(s, step))
  {
    hide Core, RequestsOk, MailboxesOk, Orderly;
    if Inner(step) { hide Apply, Enabled; InnerKeepsMailboxes(s, step); }
    else if step.DoCreate? {
      hide StepCreate;
      CreateKeepsMailboxes(s, step.prio, step.sleeping, step.wout, step.flags);
    }
    else if step.DoExit? { hide StepExit, ExitOk; ExitKeepsMailboxes(s); }
    else { hide Apply, Enabled; CallKeepsMailboxes(s, step); }
  }

  lemma StepIsSafe(s: K, step: Step)
    requires Safe(s) && Enabled(s, step)
    ensures Safe(Apply(s, step))
  {
    hide Core, RequestsOk, BuffersOk, MessagesOk, NumbersOk, FlagStateOk, PriorityOk, EncodingOk, Apply, Enabled;
    StepKeepsCore(s, step);
    StepKeepsBuffers(s, step);
    StepKeepsMessages(s, step);
    StepKeepsNumbers(s, step);
    StepKeepsFlagState(s, step);
    StepKeepsPriority(s, step);
    StepKeepsEncoding(s, step);
  }

  // The first state

  lemma BootKeepsLists(m: Mem, main: Pid, idle: Pid, lowest: nat, mainPrio: nat)
    requires BootedMem(m, main, idle, lowest, mainPrio)
    ensures ActiveRuns(m)
  {
    forall l
      ensures Lst(m.lists, l) == []
    {
    }
    assert NoDup(m.rq[mainPrio]) && NoDup(m.rq[lowest]);
    forall p, t | 0 <= p < |m.rq|
      ensures t in m.rq[p] <==> t in m.prio && On(m.status, t) && m.prio[t] == p
    {
      if p != mainPrio && p != lowest { assert m.rq[p] == []; }
    }
  }

  lemma BootKeepsCore(s: K, main: Pid, idle: Pid, lowest: nat, mainPrio: nat)
    requires Booted(s, main, idle, lowest, mainPrio)
    ensures Core(s) && RequestsOk(s) && BuffersOk(s)
  {
    BootKeepsLists(s.m, main, idle, lowest, mainPrio);
    hide ListsInv;
  }

  lemma BootKeepsRest(s: K, main: Pid, idle: Pid, lowest: nat, mainPrio: nat)
    requires Booted(s, main, idle, lowest, mainPrio)
    ensures FlagStateOk(s) && PriorityOk(s) && EncodingOk(s) && ExclusionOk(s)
  {
    hide FlagStateOk, PriorityOk, EncodingOk, ExclusionOk, Booted;
    BootKeepsFlags(s, main, idle, lowest, mainPrio);
    BootKeepsMutexes(s, main, idle, lowest, mainPrio);
  }

  lemma BootKeepsFlags(s: K, main: Pid, idle: Pid, lowest: nat, mainPrio: nat)
    requires Booted(s, main, idle, lowest, mainPrio)
    ensures FlagStateOk(s) && PriorityOk(s)
  {
    hide F.HasAny, F.HasAll;
  }

  lemma BootKeepsMutexes(s: K, main: Pid, idle: Pid, lowest: nat, mainPrio: nat)
    requires Booted(s, main, idle, lowest, mainPrio)
    ensures EncodingOk(s) && ExclusionOk(s)
  {
  }

  lemma BootKeepsMessages(s: K, main: Pid, idle: Pid, lowest: nat, mainPrio: nat)
    requires Booted(s, main, idle, lowest, mainPrio)
    ensures MessagesOk(s) && NumbersOk(s)
  {
    hide Account;
    forall t | t in s.m.prio
      ensures Account(s.m.queue[t], s.m.status[t], Held(Lst(s.m.lists, MsgWaiters(t)), s.m.buf), [], [], [])
    {
      NewAccount(s.m.status[t], Lst(s.m.lists, MsgWaiters(t)), s.m.buf);
    }
  }

  lemma BootKeepsMailboxes(s: K, main: Pid, idle: Pid, lowest: nat, mainPrio: nat)
    requires Booted(s, main, idle, lowest, mainPrio)
    ensures MailboxesOk(s)
  {
    forall b | b in s.m.mbox
      ensures BoxFits(s.m.mbox[b], Lst(s.m.lists, Readers(b)), [], [])
    {
      assert Avail(s.m.mbox[b].cib) == 0;
    }
  }

  lemma BootIsSafe(s: K)
    requires Boot(s)
    ensures Safe(s) && ExclusionOk(s) && MailboxesOk(s)
  {
    var main, idle, lowest, mainPrio :| Booted(s, main, idle, lowest, mainPrio);
    hide Booted, Core, RequestsOk, BuffersOk, MessagesOk, NumbersOk, FlagStateOk, PriorityOk, EncodingOk, ExclusionOk,
      MailboxesOk;
    BootKeepsCore(s, main, idle, lowest, mainPrio);
    BootKeepsRest(s, main, idle, lowest, mainPrio);
    BootKeepsMessages(s, main, idle, lowest, mainPrio);
    BootKeepsMailboxes(s, main, idle, lowest, mainPrio);
  }

  // Whole runs

  lemma {:induction false} RunIsSafe(tr: seq<K>, steps: seq<Step>, i: nat)
    requires Run(tr, steps) && i < |tr|
    ensures Safe(tr[i])
  {
    hide Safe, Enabled, Apply, Boot;
    if i == 0 {
      BootIsSafe(tr[0]);
    } else {
      RunIsSafe(tr, steps, i - 1);
      assert Next(tr[i - 1], steps[i - 1], tr[i]);
      StepIsSafe(tr[i - 1], steps[i - 1]);
    }
  }

  /** Only holders unlock. */
  ghost predicate DisciplinedRun(tr: seq<K>, steps: seq<Step>) {
    Run(tr, steps) && forall i :: 0 <= i < |steps| ==> Disciplined(tr[i], steps[i])
  }

  /** A mailbox is not used while a woken writer has still to store its message. */
  ghost predicate OrderlyRun(tr: seq<K>, steps: seq<Step>) {
    Run(tr, steps) && forall i :: 0 <= i < |steps| ==> Orderly(tr[i], steps[i])
  }

  lemma {:induction false} RunExcludes(tr: seq<K>, steps: seq<Step>, i: nat)
    requires DisciplinedRun(tr, steps) && i < |tr|
    ensures ExclusionOk(tr[i])
  {
    hide Core, RequestsOk, BuffersOk, MessagesOk, NumbersOk, FlagStateOk, PriorityOk, EncodingOk, ExclusionOk, Enabled,
      Apply, Boot,
      Disciplined;
    if i == 0 {
      BootIsSafe(tr[0]);
    } else {
      RunExcludes(tr, steps, i - 1);
      RunIsSafe(tr, steps, i - 1);
      assert Next(tr[i - 1], steps[i - 1], tr[i]);
      StepKeepsExclusion(tr[i - 1], steps[i - 1]);
    }
  }

  lemma {:induction false} RunIsOrderly(tr: seq<K>, steps: seq<Step>, i: nat)
    requires OrderlyRun(tr, steps) && i < |tr|
    ensures MailboxesOk(tr[i])
  {
    hide Core, RequestsOk, BuffersOk, MessagesOk, NumbersOk, FlagStateOk, PriorityOk, EncodingOk, MailboxesOk, Enabled,
      Apply, Boot,
      Orderly;
    if i == 0 {
      BootIsSafe(tr[0]);
    } else {
      RunIsOrderly(tr, steps, i - 1);
      RunIsSafe(tr, steps, i - 1);
      assert Next(tr[i - 1], steps[i - 1], tr[i]);
      StepKeepsMailboxes(tr[i - 1], steps[i - 1]);
    }
  }

  /** Exactly when mailboxes are bounded first-in first-out queues in a run, with
      no assumption on its steps: as long as every store of a writer that has
      waited finds room, and no reader waiting. */
  lemma {:induction false} InOrderIff(tr: seq<K>, steps: seq<Step>, n: nat)
    requires Run(tr, steps) && n < |tr|
    ensures (forall i :: 0 <= i <= n ==> InOrder(tr[i]))
            <==> (forall i :: 0 <= i < n ==> Enabled(tr[i], steps[i]) && FindsRoom(tr[i], steps[i]))
  {
    hide Core, RequestsOk, BuffersOk, MessagesOk, NumbersOk, FlagStateOk, PriorityOk, EncodingOk, ExclusionOk,
      BoxesInOrder,
      WritersInOrder, Enabled, Apply, Boot, FindsRoom;
    if n == 0 {
      BootIsSafe(tr[0]);
      assert InOrder(tr[0]);
    } else {
      InOrderIff(tr, steps, n - 1);
      RunIsSafe(tr, steps, n - 1);
      assert Next(tr[n - 1], steps[n - 1], tr[n]);
      if InOrder(tr[n - 1]) { StepKeepsOrderIff(tr[n - 1], steps[n - 1]); }
    }
  }
}
