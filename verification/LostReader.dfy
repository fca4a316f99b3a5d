/** A run without interrupts in which a reader sleeps beside a message: a writer
    that was woken stores its message after the reader has come to wait. */
module LostReader {
  import opened Names
  import opened Sequences
  import opened CircularIndex
  import opened KernelState
  import opened Scheduler
  import opened Threads
  import opened Mailboxes
  import opened Effects
  import opened Machine
  import opened Separation
  import opened Requests
  import opened Boxes
  import opened Theorems
  import opened Results
  import opened Overrun

  /** `a` is active, `o` is another thread of its priority, and all others are worse. */
  ghost predicate Pair(m: Mem, c: Ctl, a: Pid, o: Pid, apc: Pc, opc: Pc) {
    && m.active == a && a != o && a != c.idle && o != c.idle && !c.isr
    && a in m.prio && o in m.prio && m.prio[a] == m.prio[o]
    && (forall t :: t in m.prio && t != a && t != o ==> m.prio[a] < m.prio[t])
    && a in c.pc && o in c.pc && c.pc[a] == apc && c.pc[o] == opc
  }

  ghost predicate Runs(m: Mem, a: Pid, o: Pid, aOn: bool, oOn: bool) {
    a in m.status && o in m.status && (On(m.status, a) <==> aOn) && (On(m.status, o) <==> oOn)
  }

  /** Mailbox `b` of one slot. */
  ghost predicate Box(m: Mem, b: nat, readers: seq<Pid>, writers: seq<Pid>, avail: nat) {
    && b in m.mbox && |m.mbox[b].slots| == 1 && Avail(m.mbox[b].cib) == avail
    && Lst(m.lists, Readers(b)) == readers && Lst(m.lists, Writers(b)) == writers
  }

  ghost predicate Stage(s: K, a: Pid, o: Pid, apc: Pc, opc: Pc, aOn: bool, oOn: bool) {
    Core(s) && RequestsOk(s) && Pair(s.m, s.c, a, o, apc, opc) && Runs(s.m, a, o, aOn, oOn)
  }

  // The other thread is created

  lemma CreateFacts(s: K, main: Pid, idle: Pid, lowest: nat, mainPrio: nat, b: nat)
    requires Booted(s, main, idle, lowest, mainPrio) && b in s.m.mbox && |s.m.mbox[b].slots| == 1
    requires FreePid(s.m.prio, KERNEL_PID_FIRST, s.m.maxPid).Some? && Shape(s.m)
    ensures var s' := StepCreate(s, mainPrio, false, true, 0);
            var t := FreePid(s.m.prio, KERNEL_PID_FIRST, s.m.maxPid).value;
            Pair(s'.m, s'.c, main, t, User, User) && Runs(s'.m, main, t, true, true) && Box(s'.m, b, [], [], 0)
  {
    hide Create, FreePid, Avail, LevelsOk, ListsKeyed, RunQueuesKeyed;
    CreateAddsOne(s.m, mainPrio, false, true, 0);
    CreateAddsData(s.m, mainPrio, false, true, 0);
    CreateEndsLazily(s.m, mainPrio);
  }

  lemma CreateEndsLazily(m: Mem, prio: nat)
    requires Shape(m) && prio < |m.rq| && FreePid(m.prio, KERNEL_PID_FIRST, m.maxPid).Some?
    ensures Create(m, prio, false, true, 0).1.Done?
  {
    hide FreePid, LevelsOk, ListsKeyed, RunQueuesKeyed;
  }

  lemma Creates(s: K, main: Pid, idle: Pid, lowest: nat, mainPrio: nat, b: nat) returns (t: Pid)
    requires Booted(s, main, idle, lowest, mainPrio) && b in s.m.mbox && |s.m.mbox[b].slots| == 1
    requires FreePid(s.m.prio, KERNEL_PID_FIRST, s.m.maxPid).Some?
    ensures var step := DoCreate(mainPrio, false, true, 0);
            && Enabled(s, step) && Stage(Apply(s, step), main, t, User, User, true, true)
            && Box(Apply(s, step).m, b, [], [], 0)
  {
    hide StepCreate, FreePid, Core, RequestsOk, Avail, LevelsOk, ListsKeyed, RunQueuesKeyed;
    BootKeepsCore(s, main, idle, lowest, mainPrio);
    SceneShape(s);
    CreateFacts(s, main, idle, lowest, mainPrio, b);
    t := FreePid(s.m.prio, KERNEL_PID_FIRST, s.m.maxPid).value;
    Goes(s, DoCreate(mainPrio, false, true, 0));
  }

  // Putting and getting

  lemma StoreFacts(s: K, a: Pid, o: Pid, b: nat)
    requires Defined(s.m, s.c) && Pair(s.m, s.c, a, o, User, User) && Runs(s.m, a, o, true, true)
    requires Box(s.m, b, [], [], 0)
    ensures var s' := StepPut(s, b, 0, 0, true);
            Pair(s'.m, s'.c, a, o, User, User) && Runs(s'.m, a, o, true, true) && Box(s'.m, b, [], [], 1)
  {
    OneSlot(s.m.mbox[b], Msg(a, 0, 0, s.nextId));
    hide PutSlot, LevelsOk, ListsKeyed, RunQueuesKeyed, Avail, Full;
  }

  lemma Stores(s: K, a: Pid, o: Pid, b: nat)
    requires Stage(s, a, o, User, User, true, true) && Box(s.m, b, [], [], 0)
    ensures var step := DoPut(b, 0, 0, true);
            && Enabled(s, step) && Stage(Apply(s, step), a, o, User, User, true, true)
            && Box(Apply(s, step).m, b, [], [], 1)
  {
    hide Core, RequestsOk, Shape, StepPut, Apply, Enabled, Avail;
    SceneShape(s);
    BoxStep(s, DoPut(b, 0, 0, true));
    StoreFacts(s, a, o, b);
    Goes(s, DoPut(b, 0, 0, true));
  }

  lemma PutWaitFacts(s: K, a: Pid, o: Pid, b: nat)
    requires Defined(s.m, s.c) && Pair(s.m, s.c, a, o, User, User) && Runs(s.m, a, o, true, true)
    requires Box(s.m, b, [], [], 1)
    ensures var s', msg := StepPut(s, b, 1, 0, true), Msg(KERNEL_PID_UNDEF, 1, 0, s.nextId);
            && Pair(s'.m, s'.c, a, o, Rotating(PutDone(b, msg)), User) && Runs(s'.m, a, o, false, true)
            && Box(s'.m, b, [], [a], 1)
  {
    var msg := Msg(KERNEL_PID_UNDEF, 1, 0, s.nextId);
    OneSlot(s.m.mbox[b], msg);
    PutEffect(s.m, b, msg, true);
    PutThreads(s.m, b, msg);
    InsertAlone(a, s.m.prio);
    hide PutMsg, LevelsOk, ListsKeyed, RunQueuesKeyed, Avail, Insert;
  }

  lemma PutWaits(s: K, a: Pid, o: Pid, b: nat)
    requires Stage(s, a, o, User, User, true, true) && Box(s.m, b, [], [], 1)
    ensures var step := DoPut(b, 1, 0, true);
            && Enabled(s, step) && Box(Apply(s, step).m, b, [], [a], 1)
            && Stage(Apply(s, step), a, o, Rotating(PutDone(b, Msg(KERNEL_PID_UNDEF, 1, 0, s.nextId))), User, false,
                true)
  {
    hide Core, RequestsOk, Shape, StepPut, Apply, Enabled, Avail;
    SceneShape(s);
    BoxStep(s, DoPut(b, 1, 0, true));
    PutWaitFacts(s, a, o, b);
    Goes(s, DoPut(b, 1, 0, true));
  }

  lemma TakenSlots(f: Mailbox)
    ensures GetSlot(f).0.slots == f.slots
  {
  }

  lemma GetWakesFacts(s: K, a: Pid, o: Pid, b: nat, opc: Pc)
    requires Defined(s.m, s.c) && Pair(s.m, s.c, a, o, User, opc) && Runs(s.m, a, o, true, false)
    requires Box(s.m, b, [], [o], 1)
    ensures var s' := StepGet(s, b, true);
            && Pair(s'.m, s'.c, a, o, Switch(s.m.prio[a]), opc) && Runs(s'.m, a, o, true, true)
            && Box(s'.m, b, [], [], 0)
  {
    hide GetMsg, GetSlot, LevelsOk, ListsKeyed, RunQueuesKeyed, Avail, Insert, Full, PutSlot;
    OneSlot(s.m.mbox[b], BLANK);
    TakenSlots(s.m.mbox[b]);
    GetEffect(s.m, b, true);
    GetEnds(s.m, b, o);
  }

  lemma GetEnds(m: Mem, b: nat, o: Pid)
    requires Shape(m) && b in m.mbox
    ensures var (r, out, _) := GetMsg(m, b, true);
            && r.prio == m.prio && r.active == m.active
            && (Avail(m.mbox[b].cib) != 0 && Lst(m.lists, Writers(b)) == [o] ==>
                  o in m.prio && out == SwitchTo(m.prio[o]))
            && (Avail(m.mbox[b].cib) == 0 ==> out == Yield(GetDone(b)))
  {
    if Lst(m.lists, Writers(b)) == [o] { assert Keyed(Lst(m.lists, Writers(b)), m.prio); }
    hide GetSlot, Insert;
  }

  lemma GetWakesWriter(s: K, a: Pid, o: Pid, b: nat, opc: Pc)
    requires Stage(s, a, o, User, opc, true, false) && Box(s.m, b, [], [o], 1)
    ensures var step := DoGet(b, true);
            && Enabled(s, step) && Stage(Apply(s, step), a, o, Switch(s.m.prio[a]), opc, true, true)
            && Box(Apply(s, step).m, b, [], [], 0) && a in s.m.prio && Apply(s, step).m.prio == s.m.prio
  {
    hide Core, RequestsOk, Shape, StepGet, Apply, Enabled, Avail;
    SceneShape(s);
    BoxStep(s, DoGet(b, true));
    GetWakesFacts(s, a, o, b, opc);
    GetPrio(s, b);
    Goes(s, DoGet(b, true));
  }

  lemma GetPrio(s: K, b: nat)
    requires Defined(s.m, s.c) && b in s.m.mbox
    ensures StepGet(s, b, true).m.prio == s.m.prio
  {
    hide GetMsg, LevelsOk, ListsKeyed, RunQueuesKeyed;
    GetEnds(s.m, b, 0);
  }

  lemma GetWaitFacts(s: K, a: Pid, o: Pid, b: nat, opc: Pc)
    requires Defined(s.m, s.c) && Pair(s.m, s.c, a, o, User, opc) && Runs(s.m, a, o, true, true)
    requires Box(s.m, b, [], [], 0)
    ensures var s' := StepGet(s, b, true);
            && Pair(s'.m, s'.c, a, o, Rotating(GetDone(b)), opc) && Runs(s'.m, a, o, false, true)
            && Box(s'.m, b, [a], [], 0)
  {
    GetEffect(s.m, b, true);
    GetEnds(s.m, b, o);
    InsertAlone(a, s.m.prio);
    hide GetMsg, GetSlot, LevelsOk, ListsKeyed, RunQueuesKeyed, Avail, Insert;
  }

  lemma GetWaits(s: K, a: Pid, o: Pid, b: nat, opc: Pc)
    requires Stage(s, a, o, User, opc, true, true) && Box(s.m, b, [], [], 0)
    ensures var step := DoGet(b, true);
            && Enabled(s, step) && Stage(Apply(s, step), a, o, Rotating(GetDone(b)), opc, false, true)
            && Box(Apply(s, step).m, b, [a], [], 0)
  {
    hide Core, RequestsOk, Shape, StepGet, Apply, Enabled, Avail;
    SceneShape(s);
    BoxStep(s, DoGet(b, true));
    GetWaitFacts(s, a, o, b, opc);
    Goes(s, DoGet(b, true));
  }

  // Between sections

  /** The waker is not worse than the woken thread and goes on. */
  lemma Stays(s: K, a: Pid, o: Pid, opc: Pc)
    requires a in s.m.prio && Stage(s, a, o, Switch(s.m.prio[a]), opc, true, true)
    ensures Enabled(s, Compare) && Stage(Apply(s, Compare), a, o, User, opc, true, true) && Apply(s, Compare).m == s.m
  {
    hide Core, RequestsOk, Shape;
    CoreGoesOn(s);
    Goes(s, Compare);
  }

  lemma Yields(s: K, a: Pid, o: Pid, k: Cont, opc: Pc)
    requires Stage(s, a, o, Rotating(k), opc, false, true)
    ensures Enabled(s, MoveToTail) && Stage(Apply(s, MoveToTail), a, o, Gap(k), opc, false, true)
    ensures Apply(s, MoveToTail).m == s.m
  {
    hide Core, RequestsOk, LevelsOk, ListsKeyed, RunQueuesKeyed, Rotate, Best;
    CoreGoesOn(s);
    Goes(s, MoveToTail);
  }

  lemma OtherIsNext(m: Mem, o: Pid)
    requires ListsInv(m) && Runnable(m) && o in m.prio && On(m.status, o) && !On(m.status, m.active)
    requires m.active in m.prio
    requires forall t :: t in m.prio && t != m.active && t != o ==> m.prio[o] < m.prio[t]
    ensures NextThread(m) == o
  {
    NextThreadIsBest(m);
  }

  lemma Switches(s: K, a: Pid, o: Pid, k: Cont, opc: Pc)
    requires Stage(s, a, o, Gap(k), opc, false, true)
    ensures Enabled(s, Schedule) && Stage(Apply(s, Schedule), o, a, opc, Do(k), true, false)
    ensures var r := Apply(s, Schedule).m; r.mbox == s.m.mbox && r.lists == s.m.lists && r.prio == s.m.prio
  {
    hide CoreInv, RequestsOk, RunQueuesOk, WaitListsOk, PlacesOk, Best;
    CoreLists(s.m, s.c);
    CoreGoesOn(s);
    OtherIsNext(s.m, o);
    Goes(s, Schedule);
  }

  lemma StoresBeside(s: K, a: Pid, o: Pid, b: nat, msg: Msg, opc: Pc)
    requires Stage(s, a, o, Do(PutDone(b, msg)), opc, true, false) && Box(s.m, b, [o], [], 0)
    ensures Enabled(s, Resume) && Box(Apply(s, Resume).m, b, [o], [], 1)
    ensures o in Apply(s, Resume).m.status && !On(Apply(s, Resume).m.status, o)
  {
    OneSlot(s.m.mbox[b], msg.(sender := a));
    hide Core, RequestsOk, Avail, Shape, PutSlot, ResumeMem, GetSlot, Full;
    CoreGoesOn(s);
    StoreFields(s.m, b, msg);
  }

  /** Two threads of one priority. The first puts twice and waits; the second
      gets the first message, which wakes the writer, and gets again, which
      makes it wait; then the writer stores. */
  lemma ReaderSleepsBesideMessage(s0: K, main: Pid, idle: Pid, lowest: nat, mainPrio: nat, b: nat)
      returns (tr: seq<K>, steps: seq<Step>, reader: Pid)
    requires Booted(s0, main, idle, lowest, mainPrio) && b in s0.m.mbox && |s0.m.mbox[b].slots| == 1
    requires FreePid(s0.m.prio, KERNEL_PID_FIRST, s0.m.maxPid).Some?
    ensures Run(tr, steps) && |steps| == 11 && tr[0] == s0
    ensures var m := tr[11].m;
            && b in m.mbox && Avail(m.mbox[b].cib) == 1 && Lst(m.lists, Readers(b)) == [reader]
            && reader in m.status && !On(m.status, reader)
    ensures forall step :: step in steps ==> !step.IsrEnter?
  {
    hide Stage, Box, Enabled, Apply, Booted, FreePid;
    reader := Creates(s0, main, idle, lowest, mainPrio, b);
    var s1 := Apply(s0, DoCreate(mainPrio, false, true, 0));
    Stores(s1, main, reader, b);
    var s2 := Apply(s1, DoPut(b, 0, 0, true));
    var k := PutDone(b, Msg(KERNEL_PID_UNDEF, 1, 0, s2.nextId));
    PutWaits(s2, main, reader, b);
    var s3 := Apply(s2, DoPut(b, 1, 0, true));
    Yields(s3, main, reader, k, User);
    var s4 := Apply(s3, MoveToTail);
    Switches(s4, main, reader, k, User);
    var s5 := Apply(s4, Schedule);
    SameBox(s4.m, s5.m, b, [], [main], 1);
    GetWakesWriter(s5, reader, main, b, Do(k));
    var s6 := Apply(s5, DoGet(b, true));
    Stays(s6, reader, main, Do(k));
    var s7 := Apply(s6, Compare);
    GetWaits(s7, reader, main, b, Do(k));
    var s8 := Apply(s7, DoGet(b, true));
    Yields(s8, reader, main, GetDone(b), Do(k));
    var s9 := Apply(s8, MoveToTail);
    Switches(s9, reader, main, GetDone(b), Do(k));
    var s10 := Apply(s9, Schedule);
    SameBox(s9.m, s10.m, b, [reader], [], 0);
    StoresBeside(s10, main, reader, b, k.msg, Do(GetDone(b)));
    BoxMeans(Apply(s10, Resume).m, b, reader);
    tr := [s0, s1, s2, s3, s4, s5, s6, s7, s8, s9, s10, Apply(s10, Resume)];
    steps := [DoCreate(mainPrio, false, true, 0), DoPut(b, 0, 0, true), DoPut(b, 1, 0, true), MoveToTail, Schedule,
              DoGet(b, true), Compare, DoGet(b, true), MoveToTail, Schedule, Resume];
    assert Boot(s0);
  }

  lemma SameBox(m: Mem, r: Mem, b: nat, readers: seq<Pid>, writers: seq<Pid>, avail: nat)
    requires Box(m, b, readers, writers, avail) && r.mbox == m.mbox && r.lists == m.lists
    ensures Box(r, b, readers, writers, avail)
  {
  }

  lemma BoxMeans(m: Mem, b: nat, reader: Pid)
    requires Box(m, b, [reader], [], 1)
    ensures b in m.mbox && Avail(m.mbox[b].cib) == 1 && Lst(m.lists, Readers(b)) == [reader]
  {
  }
}
