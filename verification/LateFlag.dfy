/** A run in which an interrupt sets a lower flag between the read and the clear
    of thread_flags_wait_one: the call returns a flag that is not the lowest. */
module LateFlag {
  import opened Names
  import opened KernelState
  import opened Scheduler
  import F = ThreadFlags
  import opened Machine
  import opened Theorems
  import opened FlagLives

  /** The main thread runs at `pc`, and of its two lowest flags `x` are set. */
  ghost predicate Scene(s: K, main: Pid, pc: Pc, isr: bool, x: bv16) {
    && Stage(s.m, main) && Cue(s.c, main, pc, isr) && F.Part(s.m.flags[main], 3) == x
  }

  ghost predicate Stage(m: Mem, main: Pid) {
    CanRun(m) && m.active == main && !m.csr && OnRunqueue(m.status[main])
  }

  predicate Cue(c: Ctl, main: Pid, pc: Pc, isr: bool) {
    main != c.idle && c.isr == isr && main in c.pc && c.pc[main] == pc
  }

  function Flagged(m: Mem, t: Pid, f: bv16): Mem {
    m.(flags := m.flags[t := f])
  }

  lemma StageStays(m: Mem, main: Pid, f: bv16)
    requires Stage(m, main)
    ensures Stage(Flagged(m, main, f), main)
  {
    hide LevelsOk, ListsKeyed, RunQueuesKeyed, Best;
    assert Covers(m.prio, m.flags[main := f]);
  }

  lemma SetWhileRunning(m: Mem, t: Pid, mask: bv16)
    requires Shape(m) && t in m.prio && OnRunqueue(m.status[t])
    ensures F.Set(m, t, mask) == (Flagged(m, t, F.With(m.flags[t], mask)), Done(0))
  {
    hide F.With, LevelsOk, ListsKeyed, RunQueuesKeyed;
  }

  lemma LowBits(f: bv16)
    ensures F.Part(F.Without(f, 3), 3) == 0
    ensures F.Part(f, 3) == 0 ==> F.Part(F.With(f, 2), 3) == 2
    ensures F.Part(f, 3) == 2 ==> F.Part(F.With(f, 1), 3) == 3 && F.HasAny(f, 3)
    ensures F.Part(f, 3) == 3 ==> F.Part(f, F.LowestFlag(2)) == 2
  {
  }

  lemma ClearsBoth(s: K, main: Pid, x: bv16)
    requires Scene(s, main, User, false, x)
    ensures Enabled(s, DoFlagsClear(3)) && Scene(Apply(s, DoFlagsClear(3)), main, User, false, 0)
  {
    var f := s.m.flags[main];
    LowBits(f);
    hide F.Part, F.With, F.Without, F.LowestFlag, F.HasAny;
    StageStays(s.m, main, F.Without(f, 3));
    hide Shape, Runnable;
  }

  lemma SetsFlag(s: K, main: Pid, pc: Pc, isr: bool, x: bv16, up: bv16, y: bv16)
    requires Scene(s, main, pc, isr, x) && (isr || pc == User) && F.Part(F.With(s.m.flags[main], up), 3) == y
    ensures Enabled(s, DoFlagsSet(main, up)) && Scene(Apply(s, DoFlagsSet(main, up)), main, pc, isr, y)
  {
    hide F.Part, F.With, F.Set;
    SetWhileRunning(s.m, main, up);
    StageStays(s.m, main, F.With(s.m.flags[main], up));
    hide Shape, Runnable;
  }

  lemma RaisesFlag(s: K, main: Pid, pc: Pc, isr: bool, x: bv16, up: bv16, y: bv16)
    requires Scene(s, main, pc, isr, x) && (isr || pc == User) && (x, up, y) in {(0, 2, 2), (2, 1, 3)}
    ensures Enabled(s, DoFlagsSet(main, up)) && Scene(Apply(s, DoFlagsSet(main, up)), main, pc, isr, y)
  {
    LowBits(s.m.flags[main]);
    hide Enabled, Apply, F.Part, F.With, F.Without, F.LowestFlag, F.HasAny, Shape, Runnable;
    SetsFlag(s, main, pc, isr, x, up, y);
  }

  lemma StartsWait(s: K, main: Pid)
    requires Scene(s, main, User, false, 2)
    ensures Enabled(s, DoWaitOne(3)) && Scene(Apply(s, DoWaitOne(3)), main, Do(ReadOne(3)), false, 2)
  {
    LowBits(s.m.flags[main]);
    hide F.Part, F.With, F.Without, F.LowestFlag, F.HasAny, F.WaitFor, LevelsOk, ListsKeyed, RunQueuesKeyed, Runnable;
  }

  lemma Reads(s: K, main: Pid)
    requires Scene(s, main, Do(ReadOne(3)), false, 2)
    ensures Enabled(s, Resume) && Scene(Apply(s, Resume), main, Do(ClearOne(3, 2)), false, 2)
  {
    hide F.Part, LevelsOk, ListsKeyed, RunQueuesKeyed, Runnable;
  }

  lemma InterruptComes(s: K, main: Pid, pc: Pc, x: bv16)
    requires Scene(s, main, pc, false, x)
    ensures Enabled(s, IsrEnter) && Scene(Apply(s, IsrEnter), main, pc, true, x)
  {
    hide F.Part, Shape, Runnable;
  }

  lemma InterruptEnds(s: K, main: Pid, pc: Pc, x: bv16)
    requires Scene(s, main, pc, true, x)
    ensures Enabled(s, IsrExit(false)) && Scene(Apply(s, IsrExit(false)), main, pc, false, x)
  {
    hide F.Part, Shape, Runnable, SchedRun, RotateActive;
  }

  /** The thread is about to clear and return flag 2, with flag 1 set. */
  ghost predicate TooLate(s: K, main: Pid) {
    && s.m.active == main && main in s.m.flags && main in s.c.pc && s.c.pc[main] == Do(ClearOne(3, 2))
    && Enabled(s, Resume) && Returned(s, Resume) == 2 && 3 & s.m.flags[main] == 3
    && !LowestOf(Returned(s, Resume), 3, 3 & s.m.flags[main])
  }

  lemma ReturnsHigher(s: K, main: Pid)
    requires Scene(s, main, Do(ClearOne(3, 2)), false, 3)
    ensures TooLate(s, main)
  {
    LowBits(s.m.flags[main]);
    assert !LowestOf(2, 3, 3);
    hide Shape, Runnable, LowestOf, F.LowestFlag;
  }

  lemma CanResume(s: K, main: Pid)
    requires TooLate(s, main)
    ensures Enabled(s, Resume)
  {
    hide Enabled, LowestOf, Returned;
  }

  lemma BootScene(s: K, main: Pid, idle: Pid, lowest: nat, mainPrio: nat)
    requires Booted(s, main, idle, lowest, mainPrio)
    ensures main in s.m.flags && Scene(s, main, User, false, F.Part(s.m.flags[main], 3))
  {
    BootKeepsLists(s.m, main, idle, lowest, mainPrio);
    hide F.Part, RunQueuesOk, WaitListsOk, PlacesOk;
    assert s.m.rq[lowest] != [];
  }

  /** The main thread waits for one of the flags 1 and 2, of which 2 is set;
      behind its read an interrupt sets 1. */
  lemma LowerFlagComesTooLate(s0: K, main: Pid, idle: Pid, lowest: nat, mainPrio: nat)
      returns (tr: seq<K>, steps: seq<Step>)
    requires Booted(s0, main, idle, lowest, mainPrio)
    ensures Run(tr, steps) && |steps| == 8 && tr[0] == s0 && steps[7] == Resume
    ensures TooLate(tr[7], main)
  {
    hide Scene, Enabled, Apply, Booted, TooLate, F.Part, F.With, F.Without, F.LowestFlag, F.HasAny;
    var k := Do(ClearOne(3, 2));
    BootScene(s0, main, idle, lowest, mainPrio);
    ClearsBoth(s0, main, F.Part(s0.m.flags[main], 3));
    var s1 := Apply(s0, DoFlagsClear(3));
    RaisesFlag(s1, main, User, false, 0, 2, 2);
    var s2 := Apply(s1, DoFlagsSet(main, 2));
    StartsWait(s2, main);
    var s3 := Apply(s2, DoWaitOne(3));
    Reads(s3, main);
    var s4 := Apply(s3, Resume);
    InterruptComes(s4, main, k, 2);
    var s5 := Apply(s4, IsrEnter);
    RaisesFlag(s5, main, k, true, 2, 1, 3);
    var s6 := Apply(s5, DoFlagsSet(main, 1));
    InterruptEnds(s6, main, k, 3);
    var s7 := Apply(s6, IsrExit(false));
    ReturnsHigher(s7, main);
    CanResume(s7, main);
    tr := [s0, s1, s2, s3, s4, s5, s6, s7, Apply(s7, Resume)];
    steps := [DoFlagsClear(3), DoFlagsSet(main, 2), DoWaitOne(3), Resume, IsrEnter, DoFlagsSet(main, 1),
              IsrExit(false), Resume];
    assert Boot(s0);
  }
}
