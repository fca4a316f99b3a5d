/** What the calls of thread flags do in every run, in bits. */
module FlagAnswers {
  import opened Names
  import opened KernelState
  import opened Scheduler
  import F = ThreadFlags
  import opened Machine
  import opened Separation
  import opened Requests
  import opened Buffers
  import opened Conservation
  import opened Flags
  import opened Priority
  import opened Exclusion
  import opened Theorems
  import opened Results
  import opened Answers

  // Waiting

  /** A wait with this outcome: the caller blocks, or goes on with `k`. */
  ghost predicate WaitDid(s: K, s': K, mask: bv16, missing: bool, st: Status, k: Cont)
    requires Shape(s.m)
  {
    var a := s.m.active;
    && OnlyKernel(s, s')
    && if missing then
         && ActiveFirst(s.m) && s'.m == Dequeued(s.m, a, st).(wait := s.m.wait[a := Mask(mask)]) && Yields(s, s', k)
       else s'.m == s.m && s'.c == s.c.(pc := s.c.pc[a := Do(k)])
  }

  lemma WaitForIs(m: Mem, mask: bv16, st: Status, k: Cont)
    requires ActiveRuns(m) && !OnRunqueue(st)
    ensures F.WaitFor(m, mask, st, k)
            == (Dequeued(m, m.active, st).(wait := m.wait[m.active := Mask(mask)]), YieldHigher(k))
  {
    hide RunQueuesOk, WaitListsOk, PlacesOk, LevelsOk, ListsKeyed, RunQueuesKeyed, SetStatus;
    DequeueIs(m.(wait := m.wait[m.active := Mask(mask)]), st);
  }

  lemma WaitStep(s: K, mask: bv16, missing: bool, st: Status, k: Cont, r: Mem, out: Out)
    requires Defined(s.m, s.c) && ActiveRuns(s.m) && !s.c.isr && !OnRunqueue(st) && r.active in r.prio
    requires (r, out) == if missing then F.WaitFor(s.m, mask, st, k) else (s.m, Done(0))
    ensures WaitDid(s, StepWait(s, r, out, k), mask, missing, st, k)
  {
    hide RunQueuesOk, WaitListsOk, PlacesOk, LevelsOk, ListsKeyed, RunQueuesKeyed, F.WaitFor, Dequeued;
    WaitForIs(s.m, mask, st, k);
  }

  lemma WaitAnyStep(s: K, mask: bv16, k: Cont)
    requires Defined(s.m, s.c) && ActiveRuns(s.m) && !s.c.isr
    ensures WaitDid(s, StepWaitAny(s, mask, k), mask, NoneSet(s.m.flags[s.m.active], mask), FlagBlockedAny, k)
  {
    hide ListsInv, LevelsOk, ListsKeyed, RunQueuesKeyed, F.WaitFor, F.HasAny, F.HasAll, NoneSet, AllSet, StepWait,
      WaitDid, AtHead;
    FlagsInBits(s.m.flags[s.m.active], mask);
    var (r, out) := F.WaitAny(s.m, mask, k);
    WaitStep(s, mask, !F.HasAny(s.m.flags[s.m.active], mask), FlagBlockedAny, k, r, out);
  }

  lemma WaitAllStep(s: K, mask: bv16)
    requires Defined(s.m, s.c) && ActiveRuns(s.m) && !s.c.isr
    ensures var (r, out) := F.WaitAll(s.m, mask);
            WaitDid(s, StepWait(s, r, out, ClearAll(mask)), mask, !AllSet(s.m.flags[s.m.active], mask), FlagBlockedAll,
                    ClearAll(mask))
  {
    hide ListsInv, LevelsOk, ListsKeyed, RunQueuesKeyed, F.WaitFor, F.HasAny, F.HasAll, NoneSet, AllSet, StepWait,
      WaitDid, AtHead;
    FlagsInBits(s.m.flags[s.m.active], mask);
    var (r, out) := F.WaitAll(s.m, mask);
    WaitStep(s, mask, !F.HasAll(s.m.flags[s.m.active], mask), FlagBlockedAll, ClearAll(mask), r, out);
  }

  /** The outcome of the three waits. */
  ghost predicate WaitCallDid(s: K, s': K, step: Step)
    requires Shape(s.m) && (step.DoWaitAny? || step.DoWaitOne? || step.DoWaitAll?)
  {
    var f, mask := s.m.flags[s.m.active], step.mask;
    match step
    case DoWaitAny(_) => WaitDid(s, s', mask, NoneSet(f, mask), FlagBlockedAny, ClearAny(mask))
    case DoWaitOne(_) => WaitDid(s, s', mask, NoneSet(f, mask), FlagBlockedAny, ReadOne(mask))
    case DoWaitAll(_) => WaitDid(s, s', mask, !AllSet(f, mask), FlagBlockedAll, ClearAll(mask))
  }

  lemma WaitCallStep(s: K, step: Step)
    requires Core(s) && Enabled(s, step) && (step.DoWaitAny? || step.DoWaitOne? || step.DoWaitAll?)
    ensures WaitCallDid(s, Apply(s, step), step)
  {
    hide CoreInv, ActiveRuns, LevelsOk, ListsKeyed, RunQueuesKeyed, F.WaitAll, StepWaitAny, StepWait, WaitDid, NoneSet,
      AllSet;
    ReadyIsUser(s);
    match step
    case DoWaitAny(mask) => WaitAnyStep(s, mask, ClearAny(mask));
    case DoWaitOne(mask) => WaitAnyStep(s, mask, ReadOne(mask));
    case DoWaitAll(mask) => WaitAllStep(s, mask);
  }

  /** thread_flags_wait_any and thread_flags_wait_one block exactly if no flag of
      the mask is set, thread_flags_wait_all exactly if one is missing. */
  lemma WaitsBlockIff(tr: seq<K>, steps: seq<Step>, i: nat)
    requires Run(tr, steps) && i < |steps| && (steps[i].DoWaitAny? || steps[i].DoWaitOne? || steps[i].DoWaitAll?)
    ensures Shape(tr[i].m) && WaitCallDid(tr[i], tr[i + 1], steps[i])
  {
    hide Run, Core, RequestsOk, BuffersOk, MessagesOk, NumbersOk, FlagStateOk, PriorityOk, EncodingOk, ListsInv, Shape,
      Enabled, Apply, WaitCallDid;
    RunLengths(tr, steps);
    StepOfRun(tr, steps, i);
    WaitCallStep(tr[i], steps[i]);
  }

  // Setting

  function Plus(flags: bv16, mask: bv16): bv16 {
    flags | mask
  }

  function Minus(flags: bv16, mask: bv16): bv16 {
    flags & !mask
  }

  function Common(flags: bv16, mask: bv16): bv16 {
    flags & mask
  }

  lemma ClearInBits(f: bv16, mask: bv16)
    ensures F.Without(f, mask) == Minus(f, mask) && F.Part(f, mask) == Common(f, mask)
    ensures F.With(f, mask) == Plus(f, mask)
  {
  }

  /** A thread with this status and mask is to be woken by these flags. */
  predicate Meets(st: Status, wait: WaitData, flags: bv16) {
    || (st == FlagBlockedAny && wait.Mask? && !NoneSet(flags, wait.mask))
    || (st == FlagBlockedAll && wait.Mask? && AllSet(flags, wait.mask))
  }

  /** The flags of `t` grow by `mask`; `t` is woken if they meet its condition. */
  function Signalled(m: Mem, t: Pid, mask: bv16): Mem
    requires t in m.prio && t in m.flags && t in m.status && t in m.wait && m.prio[t] < |m.rq|
  {
    var f := Plus(m.flags[t], mask);
    var r := m.(flags := m.flags[t := f]);
    if Meets(m.status[t], m.wait[t], f) then Readied(r, t, Pending).(csr := true) else r
  }

  lemma MetIs(st: Status, wait: WaitData, flags: bv16)
    requires (st == FlagBlockedAny || st == FlagBlockedAll) ==> wait.Mask?
    ensures F.Met(st, flags, wait) <==> Meets(st, wait, flags)
  {
    if wait.Mask? { FlagsInBits(flags, wait.mask); }
  }

  /** Waiting for flags has a mask. */
  ghost predicate Masked(m: Mem, t: Pid)
    requires Shape(m) && t in m.prio
  {
    m.status[t] == FlagBlockedAny || m.status[t] == FlagBlockedAll ==> m.wait[t].Mask?
  }

  lemma SetAndWakeIs(m: Mem, t: Pid, mask: bv16)
    requires Shape(m) && t in m.prio && Masked(m, t)
    ensures F.SetAndWake(m, t, mask) == Signalled(m, t, mask)
    ensures F.Met(m.status[t], F.With(m.flags[t], mask), m.wait[t])
            <==> Meets(m.status[t], m.wait[t], Plus(m.flags[t], mask))
  {
    hide ListsKeyed, RunQueuesKeyed, SetStatus, F.Met, Meets, Plus, Minus, Common, F.With, F.Without, F.Part;
    ClearInBits(m.flags[t], mask);
    MetIs(m.status[t], m.wait[t], Plus(m.flags[t], mask));
    MeetsIsBlocked(m.status[t], m.wait[t], Plus(m.flags[t], mask));
    var r := m.(flags := m.flags[t := Plus(m.flags[t], mask)]);
    if Meets(m.status[t], m.wait[t], Plus(m.flags[t], mask)) { ReadyIs(r, t, Pending); }
  }

  lemma MeetsIsBlocked(st: Status, wait: WaitData, flags: bv16)
    ensures Meets(st, wait, flags) ==> !OnRunqueue(st)
  {
  }

  /** thread_flags_set */
  ghost predicate SetDid(s: K, s': K, t: Pid, mask: bv16)
    requires Defined(s.m, s.c) && t in s.m.prio
  {
    && OnlyKernel(s, s') && s'.m == Signalled(s.m, t, mask)
    && if Meets(s.m.status[t], s.m.wait[t], Plus(s.m.flags[t], mask)) && !s.c.isr then Yields(s, s', Return)
       else s'.c == s.c
  }

  lemma SignalledSame(m: Mem, t: Pid, mask: bv16)
    requires Shape(m) && t in m.prio
    ensures Signalled(m, t, mask).active == m.active && Signalled(m, t, mask).prio == m.prio
  {
    hide ListsKeyed, RunQueuesKeyed, Meets, Plus;
  }

  lemma SetStep(s: K, t: Pid, mask: bv16)
    requires Defined(s.m, s.c) && t in s.m.prio && Masked(s.m, t)
    ensures SetDid(s, Ended(s, F.Set(s.m, t, mask).0, F.Set(s.m, t, mask).1), t, mask)
  {
    hide ListsKeyed, RunQueuesKeyed, F.SetAndWake, F.Met, F.With, Meets, Signalled, Masked, Plus;
    SignalledSame(s.m, t, mask);
    SetAndWakeIs(s.m, t, mask);
  }

  lemma MaskedOf(s: K, t: Pid)
    requires FlagStateOk(s) && Shape(s.m) && t in s.m.prio
    ensures Masked(s.m, t)
  {
    hide F.HasAny, F.HasAll, Granted, Shape;
  }

  /** thread_flags_set sets exactly the flags of its mask, and wakes the thread
      exactly if they now meet its condition. */
  lemma SetAnswers(tr: seq<K>, steps: seq<Step>, i: nat)
    requires Run(tr, steps) && i < |steps| && steps[i].DoFlagsSet?
    ensures Defined(tr[i].m, tr[i].c) && steps[i].t in tr[i].m.prio
    ensures SetDid(tr[i], tr[i + 1], steps[i].t, steps[i].mask)
  {
    hide Run, Core, RequestsOk, BuffersOk, MessagesOk, NumbersOk, FlagStateOk, PriorityOk, EncodingOk, ListsInv, Shape,
      Ready, F.Set, Ended, SetDid, Masked;
    RunLengths(tr, steps);
    StepOfRun(tr, steps, i);
    MaskedOf(tr[i], steps[i].t);
    SetStep(tr[i], steps[i].t, steps[i].mask);
  }

  // Clearing

  /** thread_flags_clear clears the flags of its mask and returns those that were set. */
  lemma ClearAnswers(tr: seq<K>, steps: seq<Step>, i: nat)
    requires Run(tr, steps) && i < |steps| && steps[i].DoFlagsClear?
    ensures var s, a, mask := tr[i], tr[i].m.active, steps[i].mask;
            && Shape(s.m) && F.Clear(s.m, a, mask).1 == Common(s.m.flags[a], mask)
            && tr[i + 1] == s.(m := s.m.(flags := s.m.flags[a := Minus(s.m.flags[a], mask)]))
  {
    hide Run, Safe, ListsInv, LevelsOk, ListsKeyed, RunQueuesKeyed, F.Without, F.Part, Minus, Common, F.With, Plus;
    RunLengths(tr, steps);
    StepOfRun(tr, steps, i);
    ClearInBits(tr[i].m.flags[tr[i].m.active], steps[i].mask);
  }

  // The rest of a wait

  /** The flags that the rest of a call clears: the mask of wait_any and wait_all,
      the lowest flag read of wait_one. */
  predicate ToClear(k: Cont, bits: bv16) {
    match k
    case ClearAny(mask) => bits == mask
    case ClearAll(mask) => bits == mask
    case ClearOne(_, read) => bits != 0 && bits & (bits - 1) == 0 && bits & read == bits && read & (bits - 1) == 0
    case _ => false
  }

  ghost predicate RestDid(s: K, s': K, k: Cont)
    requires Shape(s.m)
  {
    var a := s.m.active;
    var f := s.m.flags[a];
    if k.ReadOne? then s' == s.(c := s.c.(pc := s.c.pc[a := Do(ClearOne(k.mask, Common(f, k.mask)))]))
    else
      && s' == s.(m := s.m.(flags := s'.m.flags), c := s.c.(pc := s.c.pc[a := User]))
      && exists bits :: ToClear(k, bits) && s'.m.flags == s.m.flags[a := Minus(f, bits)]
  }

  predicate ForFlags(k: Cont) {
    k.ClearAny? || k.ClearAll? || k.ReadOne? || k.ClearOne?
  }

  lemma LowestToClear(k: Cont)
    requires k.ClearOne? && k.read != 0
    ensures ToClear(k, F.LowestFlag(k.read))
  {
    F.LowestFlagIsLowest(k.read);
  }

  lemma MaskToClear(k: Cont)
    requires k.ClearAny? || k.ClearAll?
    ensures ToClear(k, k.mask)
  {
  }

  lemma RestStep(s: K, k: Cont)
    requires Defined(s.m, s.c) && ForFlags(k) && (k.ClearOne? ==> k.read != 0)
    ensures RestDid(s, StepResume(s, k), k)
  {
    hide LevelsOk, ListsKeyed, RunQueuesKeyed, F.Without, F.Part, F.LowestFlag, F.With, Minus, Common, Plus, ToClear;
    var f := s.m.flags[s.m.active];
    if k.ReadOne? {
      ClearInBits(f, k.mask);
    } else if k.ClearOne? {
      LowestToClear(k);
      ClearInBits(f, F.LowestFlag(k.read));
    } else {
      MaskToClear(k);
      ClearInBits(f, k.mask);
    }
  }

  lemma RestIs(s: K)
    requires Enabled(s, Resume) && ForFlags(s.c.pc[s.m.active].k)
    requires s.c.pc[s.m.active].k.ClearOne? ==> s.c.pc[s.m.active].k.read != 0
    ensures RestDid(s, Apply(s, Resume), s.c.pc[s.m.active].k)
  {
    hide Shape, StepResume, RestDid;
    RestStep(s, s.c.pc[s.m.active].k);
  }

  lemma ReadIsSome(s: K)
    requires Core(s) && FlagStateOk(s) && s.m.active in s.c.pc && s.c.pc[s.m.active].Do?
    ensures s.c.pc[s.m.active].k.ClearOne? ==> s.c.pc[s.m.active].k.read != 0
  {
    ActiveDoRuns(s.m, s.c);
    hide CoreInv, F.HasAny, F.HasAll;
    var a := s.m.active;
    assert FlagOk(s.c.pc[a], s.m.status[a], s.m.flags[a], s.m.wait[a]);
  }

  /** Behind its wait a call clears the flags it waited for, and goes on;
      thread_flags_wait_one first reads them. */
  lemma RestAnswers(tr: seq<K>, steps: seq<Step>, i: nat)
    requires Run(tr, steps) && i < |steps| && steps[i].Resume?
    requires var s := tr[i]; s.m.active in s.c.pc && s.c.pc[s.m.active].Do? && ForFlags(s.c.pc[s.m.active].k)
    ensures Shape(tr[i].m) && RestDid(tr[i], tr[i + 1], tr[i].c.pc[tr[i].m.active].k)
  {
    hide Run, Core, RequestsOk, BuffersOk, MessagesOk, NumbersOk, FlagStateOk, PriorityOk, EncodingOk, ListsInv, Shape,
      Enabled, Apply, RestDid, ForFlags;
    RunLengths(tr, steps);
    StepOfRun(tr, steps, i);
    ReadIsSome(tr[i]);
    RestIs(tr[i]);
  }

  /** Behind any other wait a call returns with nothing left to do; a lock tells
      its caller that it has the mutex. */
  lemma ReturnAnswers(tr: seq<K>, steps: seq<Step>, i: nat)
    requires Run(tr, steps) && i < |steps| && steps[i].Resume?
    requires var s := tr[i];
             && s.m.active in s.c.pc && s.c.pc[s.m.active].Do?
             && !ForFlags(s.c.pc[s.m.active].k) && !s.c.pc[s.m.active].k.PutDone?
    ensures var s, a := tr[i], tr[i].m.active;
            var owns := if s.c.pc[a].k.LockDone? then s.mx.owns + {(a, s.c.pc[a].k.mutex)} else s.mx.owns;
            tr[i + 1] == s.(c := s.c.(pc := s.c.pc[a := User]), mx := s.mx.(owns := owns))
  {
    hide Run, Safe, ListsInv, Shape;
    RunLengths(tr, steps);
    StepOfRun(tr, steps, i);
  }
}
