/** A run in which an interrupt service routine uses a mailbox before the writer
    it woke has stored its message: the mailbox overflows. */
module Overrun {
  import opened Names
  import opened Bits
  import opened Sequences
  import opened CircularIndex
  import opened KernelState
  import opened Scheduler
  import opened Threads
  import opened Mailboxes
  import opened Effects
  import opened Machine
  import opened Separation
  import opened Requests
  import opened Boxes
  import opened Theorems
  import opened Results

  /** The main thread is active at `pc`, with mailbox `b` of one slot in use or not. */
  ghost predicate Scene(s: K, main: Pid, b: nat, pc: Pc, isr: bool, on: bool, writers: seq<Pid>, avail: nat) {
    && Core(s) && RequestsOk(s)
    && Cast(s.m, s.c, main, pc, isr) && (On(s.m.status, main) <==> on)
    && Prop(s.m.lists, s.m.mbox, b, writers, avail)
  }

  ghost predicate Cast(m: Mem, c: Ctl, main: Pid, pc: Pc, isr: bool) {
    && m.active == main && main != c.idle && !m.csr && c.isr == isr && main in c.pc && c.pc[main] == pc
    && main in m.prio && (forall t :: t in m.prio && t != main ==> m.prio[main] < m.prio[t])
  }

  ghost predicate Prop(lists: map<ListId, seq<Pid>>, mbox: map<nat, Mailbox>, b: nat, writers: seq<Pid>, avail: nat) {
    && b in mbox && |mbox[b].slots| == 1 && Avail(mbox[b].cib) == avail
    && Lst(lists, Readers(b)) == [] && Lst(lists, Writers(b)) == writers
  }

  lemma OneSlot(f: Mailbox, msg: Msg)
    requires |f.slots| == 1
    ensures Avail(f.cib) == 0 ==> !Full(f.cib) && Avail(PutSlot(f, msg).cib) == 1
    ensures Avail(f.cib) == 1 ==> Full(f.cib) && Avail(PutSlot(f, msg).cib) == 2 && Avail(GetSlot(f).0.cib) == 0
  {
    assert Pow2(0) == 1;
  }

  /** The step can happen, and it keeps the invariant. */
  lemma Goes(s: K, step: Step)
    requires Core(s) && RequestsOk(s) && Enabled(s, step)
    ensures Core(Apply(s, step)) && RequestsOk(Apply(s, step))
  {
    hide Core, RequestsOk, Apply, Enabled;
    StepKeepsCore(s, step);
  }

  lemma SceneShape(s: K)
    requires Core(s)
    ensures Defined(s.m, s.c)
  {
  }

  lemma BoxStep(s: K, step: Step)
    requires Defined(s.m, s.c) && (step.DoPut? || step.DoGet?) && step.b in s.m.mbox
    requires Ready(s.m, s.c) || (s.c.isr && !step.blocking)
    ensures Enabled(s, step)
    ensures Apply(s, step) == if step.DoPut? then StepPut(s, step.b, step.typ, step.content, step.blocking)
                              else StepGet(s, step.b, step.blocking)
  {
    hide Shape, Ready, StepPut, StepGet;
  }

  lemma StoredFacts(s: K, main: Pid, b: nat, pc: Pc, isr: bool, typ: nat)
    requires Defined(s.m, s.c) && Cast(s.m, s.c, main, pc, isr) && Prop(s.m.lists, s.m.mbox, b, [], 0)
    requires On(s.m.status, main)
    ensures var s' := StepPut(s, b, typ, 0, !isr);
            Cast(s'.m, s'.c, main, pc, isr) && Prop(s'.m.lists, s'.m.mbox, b, [], 1) && On(s'.m.status, main)
  {
    OneSlot(s.m.mbox[b], Msg(main, typ, 0, s.nextId));
    hide PutSlot, LevelsOk, ListsKeyed, RunQueuesKeyed, Avail, Full;
  }

  lemma PutStores(s: K, main: Pid, b: nat, pc: Pc, isr: bool, typ: nat)
    requires Scene(s, main, b, pc, isr, true, [], 0) && (isr || pc == User)
    ensures var step := DoPut(b, typ, 0, !isr); Enabled(s, step) && Scene(Apply(s, step), main, b, pc, isr, true, [], 1)
  {
    hide Core, RequestsOk, Shape, StepPut, Apply, Enabled, Avail;
    SceneShape(s);
    BoxStep(s, DoPut(b, typ, 0, !isr));
    StoredFacts(s, main, b, pc, isr, typ);
    Goes(s, DoPut(b, typ, 0, !isr));
  }

  lemma BlockedFacts(s: K, main: Pid, b: nat)
    requires Defined(s.m, s.c) && Cast(s.m, s.c, main, User, false) && Prop(s.m.lists, s.m.mbox, b, [], 1)
    ensures var s', msg := StepPut(s, b, 1, 0, true), Msg(KERNEL_PID_UNDEF, 1, 0, s.nextId);
            && Cast(s'.m, s'.c, main, Rotating(PutDone(b, msg)), false)
            && Prop(s'.m.lists, s'.m.mbox, b, [main], 1) && !On(s'.m.status, main)
  {
    var msg := Msg(KERNEL_PID_UNDEF, 1, 0, s.nextId);
    OneSlot(s.m.mbox[b], msg);
    PutEffect(s.m, b, msg, true);
    PutThreads(s.m, b, msg);
    InsertAlone(main, s.m.prio);
    hide PutMsg, LevelsOk, ListsKeyed, RunQueuesKeyed, Avail, Insert;
  }

  lemma InsertAlone(t: Pid, prio: map<Pid, nat>)
    requires t in prio
    ensures Insert([], t, prio) == [t]
  {
  }

  /** A put that has to wait. */
  lemma PutThreads(m: Mem, b: nat, msg: Msg)
    requires Shape(m) && b in m.mbox && Full(m.mbox[b].cib) && Lst(m.lists, Readers(b)) == []
    ensures var (r, out) := PutMsg(m, b, msg, true);
            out == Yield(PutDone(b, msg)) && r.prio == m.prio && r.active == m.active && r.csr == m.csr
  {
    hide Insert;
  }

  lemma PutBlocks(s: K, main: Pid, b: nat)
    requires Scene(s, main, b, User, false, true, [], 1)
    ensures var step := DoPut(b, 1, 0, true);
            && Enabled(s, step)
            && Scene(Apply(s, step), main, b, Rotating(PutDone(b, Msg(KERNEL_PID_UNDEF, 1, 0, s.nextId))), false,
                false, [main], 1)
  {
    hide Core, RequestsOk, Shape, StepPut, Apply, Enabled, Avail;
    SceneShape(s);
    BoxStep(s, DoPut(b, 1, 0, true));
    BlockedFacts(s, main, b);
    Goes(s, DoPut(b, 1, 0, true));
  }

  lemma WokenFacts(s: K, main: Pid, b: nat, pc: Pc)
    requires Defined(s.m, s.c) && Cast(s.m, s.c, main, pc, true) && Prop(s.m.lists, s.m.mbox, b, [main], 1)
    ensures var s' := StepGet(s, b, false);
            Cast(s'.m, s'.c, main, pc, true) && Prop(s'.m.lists, s'.m.mbox, b, [], 0) && On(s'.m.status, main)
  {
    OneSlot(s.m.mbox[b], BLANK);
    GetEffect(s.m, b, false);
    GetThreads(s.m, b);
    hide GetMsg, GetSlot, LevelsOk, ListsKeyed, RunQueuesKeyed, Avail, Insert;
  }

  lemma GetThreads(m: Mem, b: nat)
    requires Shape(m) && b in m.mbox && Avail(m.mbox[b].cib) != 0 && Lst(m.lists, Writers(b)) == [m.active]
    ensures var (r, out, _) := GetMsg(m, b, false);
            out == SwitchTo(m.prio[m.active]) && r.prio == m.prio && r.active == m.active && r.csr == m.csr
  {
    hide GetSlot;
  }

  lemma GetWakes(s: K, main: Pid, b: nat, pc: Pc)
    requires Scene(s, main, b, pc, true, false, [main], 1)
    ensures var step := DoGet(b, false); Enabled(s, step) && Scene(Apply(s, step), main, b, pc, true, true, [], 0)
  {
    hide Core, RequestsOk, Shape, StepGet, Apply, Enabled, Avail;
    SceneShape(s);
    BoxStep(s, DoGet(b, false));
    WokenFacts(s, main, b, pc);
    Goes(s, DoGet(b, false));
  }

  // Interrupts, the yield, and the rest of the put

  lemma InterruptComes(s: K, main: Pid, b: nat, pc: Pc, on: bool, writers: seq<Pid>, avail: nat)
    requires Scene(s, main, b, pc, false, on, writers, avail)
    ensures Enabled(s, IsrEnter) && Scene(Apply(s, IsrEnter), main, b, pc, true, on, writers, avail)
  {
    hide Core, RequestsOk, Avail, Shape;
    SceneShape(s);
    Goes(s, IsrEnter);
  }

  lemma InterruptEnds(s: K, main: Pid, b: nat, pc: Pc, on: bool, writers: seq<Pid>, avail: nat)
    requires Scene(s, main, b, pc, true, on, writers, avail)
    ensures Enabled(s, IsrExit(false)) && Scene(Apply(s, IsrExit(false)), main, b, pc, false, on, writers, avail)
  {
    hide Core, RequestsOk, Avail, Shape;
    CoreGoesOn(s);
    Goes(s, IsrExit(false));
  }

  lemma MovesToTail(s: K, main: Pid, b: nat, k: Cont, avail: nat)
    requires Scene(s, main, b, Rotating(k), false, true, [], avail)
    ensures Enabled(s, MoveToTail) && Scene(Apply(s, MoveToTail), main, b, Gap(k), false, true, [], avail)
  {
    hide Core, RequestsOk, Avail, LevelsOk, ListsKeyed, RunQueuesKeyed, Rotate, Best;
    CoreGoesOn(s);
    Goes(s, MoveToTail);
  }

  lemma RunsAgain(m: Mem)
    requires ListsInv(m) && Runnable(m) && On(m.status, m.active)
    requires forall t :: t in m.prio && t != m.active ==> m.prio[m.active] < m.prio[t]
    ensures NextThread(m) == m.active
  {
    NextThreadIsBest(m);
  }

  lemma Schedules(s: K, main: Pid, b: nat, k: Cont, avail: nat)
    requires Scene(s, main, b, Gap(k), false, true, [], avail)
    ensures Enabled(s, Schedule) && Scene(Apply(s, Schedule), main, b, Do(k), false, true, [], avail)
  {
    hide CoreInv, RequestsOk, Avail, RunQueuesOk, WaitListsOk, PlacesOk, Best;
    CoreLists(s.m, s.c);
    CoreGoesOn(s);
    RunsAgain(s.m);
    Goes(s, Schedule);
  }

  lemma Overfills(s: K, main: Pid, b: nat, msg: Msg)
    requires Scene(s, main, b, Do(PutDone(b, msg)), false, true, [], 1)
    ensures Enabled(s, Resume)
    ensures Overflown(Apply(s, Resume), b)
  {
    OneSlot(s.m.mbox[b], msg.(sender := main));
    hide Core, RequestsOk, Avail, Shape, PutSlot, ResumeMem, GetSlot, Full;
    CoreGoesOn(s);
    StoreFields(s.m, b, msg);
  }

  /** The mailbox holds more messages than it has slots. */
  ghost predicate Overflown(s: K, b: nat) {
    b in s.m.mbox && |s.m.mbox[b].slots| < Avail(s.m.mbox[b].cib)
  }

  lemma BootScene(s: K, main: Pid, idle: Pid, lowest: nat, mainPrio: nat, b: nat)
    requires Booted(s, main, idle, lowest, mainPrio) && b in s.m.mbox && |s.m.mbox[b].slots| == 1
    ensures Scene(s, main, b, User, false, true, [], 0)
  {
    BootKeepsCore(s, main, idle, lowest, mainPrio);
    hide Core, RequestsOk;
  }

  /** In the run the main thread puts twice; while it waits with the second
      message, an interrupt service routine gets the first message and puts a
      third. The second is then stored over it. */
  lemma MailboxOverflows(s0: K, main: Pid, idle: Pid, lowest: nat, mainPrio: nat, b: nat)
      returns (tr: seq<K>, steps: seq<Step>)
    requires Booted(s0, main, idle, lowest, mainPrio) && b in s0.m.mbox && |s0.m.mbox[b].slots| == 1
    ensures Run(tr, steps) && |steps| == 9 && tr[0] == s0
    ensures Overflown(tr[9], b)
  {
    hide Scene, Enabled, Apply, Overflown, Booted;
    BootScene(s0, main, idle, lowest, mainPrio, b);
    PutStores(s0, main, b, User, false, 0);
    var s1 := Apply(s0, DoPut(b, 0, 0, true));
    var k := PutDone(b, Msg(KERNEL_PID_UNDEF, 1, 0, s1.nextId));
    PutBlocks(s1, main, b);
    var s2 := Apply(s1, DoPut(b, 1, 0, true));
    InterruptComes(s2, main, b, Rotating(k), false, [main], 1);
    var s3 := Apply(s2, IsrEnter);
    GetWakes(s3, main, b, Rotating(k));
    var s4 := Apply(s3, DoGet(b, false));
    PutStores(s4, main, b, Rotating(k), true, 2);
    var s5 := Apply(s4, DoPut(b, 2, 0, false));
    InterruptEnds(s5, main, b, Rotating(k), true, [], 1);
    var s6 := Apply(s5, IsrExit(false));
    MovesToTail(s6, main, b, k, 1);
    var s7 := Apply(s6, MoveToTail);
    Schedules(s7, main, b, k, 1);
    var s8 := Apply(s7, Schedule);
    Overfills(s8, main, b, k.msg);
    tr := [s0, s1, s2, s3, s4, s5, s6, s7, s8, Apply(s8, Resume)];
    steps := [DoPut(b, 0, 0, true), DoPut(b, 1, 0, true), IsrEnter, DoGet(b, false), DoPut(b, 2, 0, false),
        IsrExit(false),
              MoveToTail, Schedule, Resume];
    assert Boot(s0);
  }

  /** There is a booted kernel with a mailbox of one slot. */
  lemma BootIsPossible() returns (s: K)
    ensures Booted(s, 2, 1, 1, 0) && 0 in s.m.mbox && |s.m.mbox[0].slots| == 1
    ensures FreePid(s.m.prio, KERNEL_PID_FIRST, s.m.maxPid) == Some(3)
  {
    assert Pow2(0) == 1;
    var box: Mailbox := Fifo(Cib(0, 0, 0), [BLANK]);
    var m := Mem(map[1 := 1, 2 := 0], map[1 := Pending, 2 := Running], map[1 := None, 2 := None], map[1 := 0, 2 := 0],
                 map[1 := NoData, 2 := NoData], map[1 := BLANK, 2 := BLANK], map[1 := NO_QUEUE, 2 := NO_QUEUE],
                 [[2], [1]], map[], {}, map[0 := box], 2, false, 32);
    s := K(m, Ctl(map[1 := User, 2 := User], false, 1, false), MutexLog(map[], {}), MsgLog(map[], map[], map[]),
           BoxLog(map[], map[]), map[], map[], 0);
  }
}
