/** core/thread_flags.c: the sections of setting, clearing and waiting. */
module ThreadFlags {
  import opened Names
  import opened KernelState
  import opened Scheduler
  import opened Threads

  const MSG_WAITING: bv16 := 0x8000

  function With(flags: bv16, mask: bv16): bv16 {
    flags | mask
  }

  function Part(flags: bv16, mask: bv16): bv16 {
    mask & flags
  }

  function Without(flags: bv16, mask: bv16): bv16 {
    flags & !(mask & flags)
  }

  predicate HasAny(flags: bv16, mask: bv16) {
    flags & mask != 0
  }

  predicate HasAll(flags: bv16, mask: bv16) {
    flags & mask == mask
  }

  /** The wait condition of a thread is met by its flags. */
  predicate Met(st: Status, flags: bv16, wait: WaitData) {
    var mask := if wait.Mask? then wait.mask else 0;
    (st.FlagBlockedAny? && HasAny(flags, mask)) || (st.FlagBlockedAll? && HasAll(flags, mask))
  }

  /** thread_flags_wake */
  ghost function Wake(m: Mem, t: Pid): (r: Mem)
    requires Shape(m) && t in m.prio
    ensures Shape(r) && r.active == m.active
  {
    if Met(m.status[t], m.flags[t], m.wait[t]) then SetStatus(m, t, Pending).(csr := true) else m
  }

  /** The flags set, and the thread woken if it waits for them. */
  ghost function SetAndWake(m: Mem, t: Pid, mask: bv16): (r: Mem)
    requires Shape(m) && t in m.prio
    ensures Shape(r) && r.active == m.active
  {
    Wake(m.(flags := m.flags[t := With(m.flags[t], mask)]), t)
  }

  /** thread_flags_set */
  ghost function Set(m: Mem, t: Pid, mask: bv16): (r: (Mem, Out))
    requires Shape(m) && t in m.prio
    ensures Shape(r.0) && r.0.active == m.active
  {
    (SetAndWake(m, t, mask),
     if Met(m.status[t], With(m.flags[t], mask), m.wait[t]) then YieldHigher(Return) else Done(0))
  }

  /** _thread_flags_clear_atomic: the memory and the flags returned. */
  ghost function Clear(m: Mem, t: Pid, mask: bv16): (r: (Mem, bv16))
    requires Shape(m) && t in m.prio
    ensures Shape(r.0)
  {
    (m.(flags := m.flags[t := Without(m.flags[t], mask)]), Part(m.flags[t], mask))
  }

  ghost function WaitFor(m: Mem, mask: bv16, st: Status, k: Cont): (r: (Mem, Out))
    requires Shape(m)
    ensures Shape(r.0) && r.0.active == m.active
  {
    (SetStatus(m.(wait := m.wait[m.active := Mask(mask)]), m.active, st), YieldHigher(k))
  }

  /** The first section of wait_any and wait_one. */
  ghost function WaitAny(m: Mem, mask: bv16, k: Cont): (r: (Mem, Out))
    requires Shape(m)
    ensures Shape(r.0) && r.0.active == m.active
  {
    if !HasAny(m.flags[m.active], mask) then WaitFor(m, mask, FlagBlockedAny, k) else (m, Done(0))
  }

  ghost function WaitAll(m: Mem, mask: bv16): (r: (Mem, Out))
    requires Shape(m)
    ensures Shape(r.0) && r.0.active == m.active
  {
    if !HasAll(m.flags[m.active], mask) then WaitFor(m, mask, FlagBlockedAll, ClearAll(mask)) else (m, Done(0))
  }

  /** tmp & (~tmp + 1) */
  function LowestFlag(x: bv16): bv16 {
    x & (!x + 1)
  }

  /** Exactly one bit, which is set in x, and none below it is. */
  lemma LowestFlagIsLowest(x: bv16)
    requires x != 0
    ensures var b := LowestFlag(x);
            b != 0 && b & (b - 1) == 0 && b & x == b && x & (b - 1) == 0
  {
  }

  lemma WakeIsGood(m: Mem, t: Pid)
    requires ListsInv(m) && t in m.prio
    ensures GoodIsrSection(m, Wake(m, t), {FlagBlockedAny, FlagBlockedAll})
  {
    if Met(m.status[t], m.flags[t], m.wait[t]) {
      UnlistedStatus(m, t);
      PushIsGood(m, t, Pending, {FlagBlockedAny, FlagBlockedAll});
    } else {
      DataIsGood(m, m, {FlagBlockedAny, FlagBlockedAll});
    }
  }

  lemma SetAndWakeIsGood(m: Mem, t: Pid, mask: bv16)
    requires ListsInv(m) && t in m.prio
    ensures GoodIsrSection(m, SetAndWake(m, t, mask), {FlagBlockedAny, FlagBlockedAll})
  {
    hide RunQueuesOk, WaitListsOk, PlacesOk, LevelsOk, ListsKeyed, RunQueuesKeyed, With, Wake, Moves, ListsKept;
    var marked := m.(flags := m.flags[t := With(m.flags[t], mask)]);
    DataIsGood(m, marked, {FlagBlockedAny, FlagBlockedAll});
    WakeIsGood(marked, t);
    IsrSectionsCompose(m, marked, Wake(marked, t), {FlagBlockedAny, FlagBlockedAll});
  }

  lemma WaitForIsGood(m: Mem, mask: bv16, st: Status, k: Cont)
    requires ActiveRuns(m) && !OnRunqueue(st)
    requires Waiting(k, st, None, Mask(mask)) && !k.PutDone?
    ensures GoodSection(m, WaitFor(m, mask, st, k).0, WaitFor(m, mask, st, k).1, {}, {st})
  {
    PopIsGood(m.(wait := m.wait[m.active := Mask(mask)]), st, {}, {st});
  }

  /** A wait goes on at once, or blocks until its flags are set. */
  lemma WaitAnyIsGood(m: Mem, mask: bv16, k: Cont)
    requires ActiveRuns(m) && (k == ClearAny(mask) || k == ReadOne(mask))
    ensures var (r, out) := WaitAny(m, mask, k);
            if out.Done? then r == m else GoodSection(m, r, out, {}, {FlagBlockedAny})
  {
    hide GoodSection;
    WaitForIsGood(m, mask, FlagBlockedAny, k);
  }

  lemma WaitAllIsGood(m: Mem, mask: bv16)
    requires ActiveRuns(m)
    ensures var (r, out) := WaitAll(m, mask);
            if out.Done? then r == m else GoodSection(m, r, out, {}, {FlagBlockedAll})
  {
    hide GoodSection;
    WaitForIsGood(m, mask, FlagBlockedAll, ClearAll(mask));
  }
}
