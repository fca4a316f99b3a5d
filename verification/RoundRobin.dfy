/** Round robin over runs: threads of the best priority that do nothing but
    yield run in turn. */
module RoundRobin {
  import opened Names
  import opened Sequences
  import opened KernelState
  import opened Scheduler
  import opened Machine
  import opened Separation
  import opened Requests
  import opened Buffers
  import opened Conservation
  import opened Flags
  import opened Priority
  import opened Exclusion
  import opened Theorems
  import opened Results
  import opened ReadyQueue

  /** The yields among the steps from `n` up to `i`. */
  function Turns(steps: seq<Step>, n: nat, i: nat): nat
    requires n <= i <= |steps|
  {
    if i == n then 0 else Turns(steps, n, i - 1) + if steps[i - 1].DoYield? then 1 else 0
  }

  /** Nothing but yields, and what threads that were interrupted still have to do. */
  ghost predicate OnlyYields(steps: seq<Step>, n: nat, i: nat)
    requires n <= i <= |steps|
  {
    forall j :: n <= j < i ==> steps[j].DoYield? || steps[j].Schedule? || steps[j].Resume? || steps[j].Compare?
  }

  /** The level `p` has been rotated `turns` times, and its first thread runs or
      is about to. */
  ghost predicate InTurn(s: K, prio: map<Pid, nat>, p: nat, q: seq<Pid>, turns: nat) {
    && Defined(s.m, s.c) && ListsInv(s.m) && s.m.prio == prio
    && p < |s.m.rq| && Best(s.m.rq) == p && s.m.rq[p] == Rotated(q, turns)
    && (BestRuns(s.m) || s.c.pc[s.m.active].Gap?)
  }

  lemma YieldInTurn(s: K, prio: map<Pid, nat>, p: nat, q: seq<Pid>, turns: nat)
    requires InTurn(s, prio, p, q, turns) && Enabled(s, DoYield) && Core(Apply(s, DoYield))
    ensures InTurn(Apply(s, DoYield), prio, p, q, turns + 1)
  {
    hide BestRuns, Core, RunQueuesOk, WaitListsOk, PlacesOk, LevelsOk, ListsKeyed, RunQueuesKeyed, Best, Rotate;
    assert BestRuns(s.m);
    YieldRotates(s.m);
    hide RotateActive;
  }

  lemma ScheduleInTurn(s: K, prio: map<Pid, nat>, p: nat, q: seq<Pid>, turns: nat)
    requires InTurn(s, prio, p, q, turns) && Enabled(s, Schedule) && Core(Apply(s, Schedule))
    ensures InTurn(Apply(s, Schedule), prio, p, q, turns)
  {
    hide RunQueuesOk, WaitListsOk, PlacesOk, LevelsOk, ListsKeyed, RunQueuesKeyed, Best, Rotated, SchedRun;
    RunStartsTheBest(s.m);
  }

  lemma ResumeKeepsQueues(m: Mem, k: Cont)
    requires Shape(m) && (k.PutDone? ==> k.mbox in m.mbox)
    ensures var r := ResumeMem(m, k);
            r.prio == m.prio && r.rq == m.rq && r.status == m.status && r.active == m.active
  {
    hide PutSlot, LevelsOk, ListsKeyed, RunQueuesKeyed;
  }

  lemma RestInTurn(s: K, step: Step, prio: map<Pid, nat>, p: nat, q: seq<Pid>, turns: nat)
    requires InTurn(s, prio, p, q, turns) && Enabled(s, step) && (step.Resume? || step.Compare?) && Core(Apply(s, step))
    ensures InTurn(Apply(s, step), prio, p, q, turns)
  {
    hide RunQueuesOk, WaitListsOk, PlacesOk, LevelsOk, ListsKeyed, RunQueuesKeyed, Best, Rotated, ResumeMem, ResumePc;
    if step.Resume? { ResumeKeepsQueues(s.m, s.c.pc[s.m.active].k); }
  }

  lemma StepInTurn(s: K, step: Step, prio: map<Pid, nat>, p: nat, q: seq<Pid>, turns: nat)
    requires InTurn(s, prio, p, q, turns) && Enabled(s, step) && Core(Apply(s, step))
    requires step.DoYield? || step.Schedule? || step.Resume? || step.Compare?
    ensures InTurn(Apply(s, step), prio, p, q, if step.DoYield? then turns + 1 else turns)
  {
    hide InTurn, Enabled, Apply, Core;
    if step.DoYield? {
      YieldInTurn(s, prio, p, q, turns);
    } else if step.Schedule? {
      ScheduleInTurn(s, prio, p, q, turns);
    } else {
      RestInTurn(s, step, prio, p, q, turns);
    }
  }

  lemma {:induction false} RunInTurn(tr: seq<K>, steps: seq<Step>, n: nat, i: nat, prio: map<Pid, nat>, p: nat,
                                     q: seq<Pid>)
    requires Run(tr, steps) && n <= i < |tr| && OnlyYields(steps, n, i) && InTurn(tr[n], prio, p, q, 0)
    ensures InTurn(tr[i], prio, p, q, Turns(steps, n, i))
    decreases i
  {
    hide InTurn, Enabled, Apply, Boot, Core, RequestsOk, BuffersOk, MessagesOk, NumbersOk, FlagStateOk, PriorityOk,
      EncodingOk;
    if i > n {
      RunInTurn(tr, steps, n, i - 1, prio, p, q);
      RunIsSafe(tr, steps, i);
      assert Next(tr[i - 1], steps[i - 1], tr[i]);
      StepInTurn(tr[i - 1], steps[i - 1], prio, p, q, Turns(steps, n, i - 1));
    }
  }

  /** At the start the first of the best level is in user code. */
  lemma StartsInTurn(tr: seq<K>, steps: seq<Step>, n: nat)
    requires Run(tr, steps) && n < |tr|
    requires var s := tr[n];
             Defined(s.m, s.c) && s.c.pc[s.m.active] == User && s.m.active != s.c.idle && !s.c.isr && !s.m.csr
                 && !s.c.lazy
    ensures var m := tr[n].m;
            BestRuns(m) && Best(m.rq) < |m.rq| && InTurn(tr[n], m.prio, Best(m.rq), m.rq[Best(m.rq)], 0)
  {
    hide RequestsOk, BuffersOk, MessagesOk, NumbersOk, FlagStateOk, PriorityOk, EncodingOk, CoreInv, Enabled, Apply,
      Boot, Best,
      RunQueuesOk, WaitListsOk, PlacesOk, LevelsOk, ListsKeyed, RunQueuesKeyed;
    var s := tr[n];
    RunIsSafe(tr, steps, n);
    ReadyRuns(s.m, s.c);
    forall t | t in s.m.prio && On(s.m.status, t)
      ensures s.m.prio[s.m.active] <= s.m.prio[t]
    {
      NoPriorityInversion(tr, steps, n, t);
    }
    NobodyBetter(s.m);
    BestIsFirstOfLevel(s.m);
  }

  /** With k runnable threads on the best level and nothing but yields, the
      thread in user code after `y` yields is thread y mod k of the first order. */
  lemma YieldsTakeTurns(tr: seq<K>, steps: seq<Step>, n: nat, i: nat)
    requires Run(tr, steps) && n <= i < |tr| && OnlyYields(steps, n, i)
    requires var s := tr[n];
             Defined(s.m, s.c) && s.c.pc[s.m.active] == User && s.m.active != s.c.idle && !s.c.isr && !s.m.csr
                 && !s.c.lazy
    requires tr[i].m.active in tr[i].c.pc && tr[i].c.pc[tr[i].m.active] == User
    ensures Best(tr[n].m.rq) < |tr[n].m.rq|
    ensures var q := tr[n].m.rq[Best(tr[n].m.rq)]; q != [] && tr[i].m.active == q[Turns(steps, n, i) % |q|]
  {
    hide Enabled, Apply, Boot, Best, BestRuns, ListsInv, Turns, OnlyYields, Rotated, Next;
    var m := tr[n].m;
    StartsInTurn(tr, steps, n);
    BestIsFirstOfLevel(m);
    RunInTurn(tr, steps, n, i, m.prio, Best(m.rq), m.rq[Best(m.rq)]);
    BestIsFirstOfLevel(tr[i].m);
    RotatedAt(m.rq[Best(m.rq)], Turns(steps, n, i), 0);
  }
}
