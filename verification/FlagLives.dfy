/** What happens to the flags of a thread in the course of a run, and what the
    waits for them return. */
module FlagLives {
  import opened Names
  import opened Sequences
  import opened KernelState
  import opened Scheduler
  import opened Threads
  import F = ThreadFlags
  import opened Messages
  import opened Effects
  import opened Machine
  import opened PlainSteps
  import opened Separation
  import opened Requests
  import opened Buffers
  import opened Conservation
  import opened Flags
  import opened Priority
  import opened Exclusion
  import opened Theorems

  /** Flags after the bits `ret` were returned and the bits `up` were set. */
  function Turned(f: bv16, ret: bv16, up: bv16): bv16 {
    (f & !ret) | up
  }

  predicate Within(part: bv16, f: bv16) {
    part & f == part
  }

  function LostBits(f: bv16, f': bv16): bv16 {
    f & !f'
  }

  /** Thread `a` lost the bits `ret`, thread `w` got the bits `up`, and nothing
      else changed. */
  ghost predicate Changed(prio: map<Pid, nat>, flags: map<Pid, bv16>, flags': map<Pid, bv16>, a: Pid, ret: bv16,
                          w: Pid, up: bv16) {
    forall t :: t in prio && t in flags && t in flags' ==>
      flags'[t] == Turned(flags[t], if t == a then ret else 0, if t == w then up else 0)
  }

  lemma TurnedIs(f: bv16, mask: bv16)
    ensures Turned(f, 0, 0) == f && Turned(f, 0, mask) == F.With(f, mask)
    ensures Turned(f, F.Part(f, mask), 0) == F.Without(f, mask)
  {
  }

  lemma Grows(prio: map<Pid, nat>, flags: map<Pid, bv16>, a: Pid, t: Pid, mask: bv16)
    requires t in flags
    ensures Changed(prio, flags, flags[t := F.With(flags[t], mask)], a, 0, t, mask)
  {
    hide Turned, F.With, F.Part, F.Without;
    TurnedIs(flags[t], mask);
    Stays(prio, flags, a, t);
  }

  lemma Stays(prio: map<Pid, nat>, flags: map<Pid, bv16>, a: Pid, w: Pid)
    ensures Changed(prio, flags, flags, a, 0, w, 0)
  {
    hide Turned, F.With, F.Part, F.Without;
    forall u | u in flags
      ensures Turned(flags[u], 0, 0) == flags[u]
    {
      TurnedIs(flags[u], 0);
    }
  }

  lemma Clears(prio: map<Pid, nat>, flags: map<Pid, bv16>, a: Pid, w: Pid, mask: bv16)
    requires a in flags
    ensures Changed(prio, flags, flags[a := F.Without(flags[a], mask)], a, F.Part(flags[a], mask), w, 0)
  {
    hide Turned, F.With, F.Part, F.Without;
    TurnedIs(flags[a], mask);
    Stays(prio, flags, a, w);
  }

  /** A message that is queued or waits sets THREAD_FLAG_MSG_WAITING. */
  function Notice(fate: Fate): bv16 {
    if fate == Enqueued || fate == Waits then F.MSG_WAITING else 0
  }

  lemma SentChanges(m: Mem, r: Mem, t: Pid, msg: Msg, fate: Fate, st: Status)
    requires Shape(m) && (fate != Refused ==> t in m.prio) && Sent(m, r, t, msg, fate, st)
    ensures Changed(m.prio, m.flags, r.flags, m.active, 0, t, Notice(fate))
  {
    hide Changed, F.Met, F.With, Offer, Insert;
    if t in m.prio { Grows(m.prio, m.flags, m.active, t, F.MSG_WAITING); }
    Stays(m.prio, m.flags, m.active, t);
  }

  ghost predicate FlagsChanged(s: K, s': K, ret: bv16, w: Pid, up: bv16) {
    Changed(s.m.prio, s.m.flags, s'.m.flags, s.m.active, ret, w, up)
  }

  lemma SendChanges(s: K, to: Pid, typ: nat, content: nat, blocking: bool)
    requires Core(s) && Defined(s.m, s.c) && Ready(s.m, s.c)
    ensures FlagsChanged(s, StepSend(s, to, typ, content, blocking), 0, to,
                         Notice(FateOf(s.m, to, to == s.m.active, blocking)))
  {
    ReadyIsUser(s);
    hide CoreInv, Changed, Send, Sent, SettlePc, SendLog, GivenLog, FateOf;
    var msg := Msg(s.m.active, typ, content, s.nextId);
    HandedFate(s.m, to, to == s.m.active, blocking);
    SendEffect(s.m, to, msg, blocking);
    SentChanges(s.m, Send(s.m, to, msg, blocking).0, to, msg, FateOf(s.m, to, to == s.m.active, blocking), SendBlocked);
  }

  lemma SendIntChanges(s: K, to: Pid, typ: nat, content: nat)
    requires Defined(s.m, s.c)
    ensures FlagsChanged(s, StepSendInt(s, to, typ, content), 0, to, Notice(FateOf(s.m, to, false, false)))
  {
    hide Changed, SendInt, Sent, SettlePc, SendLog, GivenLog, FateOf;
    var msg := Msg(s.m.maxPid + 1, typ, content, s.nextId);
    HandedFate(s.m, to, false, false);
    SendIntEffect(s.m, to, msg);
    SentChanges(s.m, SendInt(s.m, to, msg).0, to, msg, FateOf(s.m, to, false, false), SendBlocked);
  }

  lemma RequestChanges(s: K, to: Pid, typ: nat, content: nat)
    requires Defined(s.m, s.c) && to in s.m.prio && to != s.m.active
    ensures FlagsChanged(s, StepRequest(s, to, typ, content), 0, to, Notice(FateOf(s.m, to, false, true)))
  {
    hide Changed, SendReceive, Requested, Sent, SettlePc, SendLog, GivenLog, FateOf;
    var msg := Msg(s.m.active, typ, content, s.nextId);
    RequestEffect(s.m, to, msg);
    SentChanges(Requested(s.m, msg), SendReceive(s.m, to, msg).0, to, msg, FateOf(s.m, to, false, true), ReplyBlocked);
  }

  lemma SetChanges(s: K, t: Pid, mask: bv16)
    requires Defined(s.m, s.c) && t in s.m.prio
    ensures FlagsChanged(s, Ended(s, F.Set(s.m, t, mask).0, F.Set(s.m, t, mask).1), 0, t, mask)
  {
    hide Changed, F.SetAndWake, F.Met, F.With, SettlePc;
    SetAndWakeEffect(s.m, t, mask);
    Grows(s.m.prio, s.m.flags, s.m.active, t, mask);
  }

  lemma WaitForFlags(m: Mem, mask: bv16, st: Status, k: Cont)
    requires Shape(m)
    ensures SameFlags(m, F.WaitFor(m, mask, st, k).0)
  {
  }

  lemma WaitFlags(m: Mem, mask: bv16, k: Cont)
    requires Shape(m)
    ensures SameFlags(m, F.WaitAny(m, mask, k).0) && SameFlags(m, F.WaitAll(m, mask).0)
  {
    hide F.WaitFor, F.HasAny, F.HasAll;
    WaitForFlags(m, mask, FlagBlockedAny, k);
    WaitForFlags(m, mask, FlagBlockedAll, ClearAll(mask));
  }

  lemma WaitChanges(s: K, r: Mem, out: Out, k: Cont)
    requires Defined(s.m, s.c) && r.active in r.prio && SameFlags(s.m, r)
    ensures FlagsChanged(s, StepWait(s, r, out, k), 0, 0, 0)
  {
    hide Changed, SettlePc;
    Stays(s.m.prio, s.m.flags, s.m.active, 0);
  }

  lemma WaitStepsChange(s: K, mask: bv16, k: Cont)
    requires Defined(s.m, s.c)
    ensures FlagsChanged(s, StepWaitAny(s, mask, k), 0, 0, 0)
    ensures FlagsChanged(s, StepWait(s, F.WaitAll(s.m, mask).0, F.WaitAll(s.m, mask).1, k), 0, 0, 0)
  {
    hide FlagsChanged, F.WaitAny, F.WaitAll, StepWait, SameFlags;
    WaitFlags(s.m, mask, k);
    WaitChanges(s, F.WaitAny(s.m, mask, k).0, F.WaitAny(s.m, mask, k).1, k);
    WaitChanges(s, F.WaitAll(s.m, mask).0, F.WaitAll(s.m, mask).1, k);
  }

  lemma SameChanges(s: K, s': K)
    requires Defined(s.m, s.c) && SameFlags(s.m, s'.m)
    ensures FlagsChanged(s, s', 0, 0, 0)
  {
    Stays(s.m.prio, s.m.flags, s.m.active, 0);
  }

  lemma CreateChanges(s: K, prio: nat, sleeping: bool, wout: bool, flags: bv16)
    requires Defined(s.m, s.c)
    ensures FlagsChanged(s, StepCreate(s, prio, sleeping, wout, flags), 0, 0, 0)
  {
    Stays(s.m.prio, s.m.flags, s.m.active, 0);
    hide Create, SettlePc;
    CreateAddsOne(s.m, prio, sleeping, wout, flags);
    CreateAddsData(s.m, prio, sleeping, wout, flags);
  }

  lemma ExitChanges(s: K)
    requires Defined(s.m, s.c) && ExitOk(s.m)
    ensures FlagsChanged(s, StepExit(s), 0, 0, 0)
  {
    hide Changed, LevelsOk, ListsKeyed, RunQueuesKeyed, Best;
    Stays(s.m.prio, s.m.flags, s.m.active, 0);
  }

  /** The bits the rest of a call clears. */
  function Cleared(k: Cont, f: bv16): bv16 {
    match k
    case ClearAny(mask) => F.Part(f, mask)
    case ClearAll(mask) => F.Part(f, mask)
    case ClearOne(_, read) => F.Part(f, F.LowestFlag(read))
    case _ => 0
  }

  lemma ResumeFlags(m: Mem, k: Cont)
    requires Shape(m) && (k.PutDone? ==> k.mbox in m.mbox)
    ensures Changed(m.prio, m.flags, ResumeMem(m, k).flags, m.active, Cleared(k, m.flags[m.active]), 0, 0)
  {
    hide Changed, PutSlot, LevelsOk, ListsKeyed, RunQueuesKeyed, F.Without, F.Part, F.LowestFlag;
    if k.ClearAny? { Clears(m.prio, m.flags, m.active, 0, k.mask); }
    else if k.ClearAll? { Clears(m.prio, m.flags, m.active, 0, k.mask); }
    else if k.ClearOne? { Clears(m.prio, m.flags, m.active, 0, F.LowestFlag(k.read)); }
    else { Stays(m.prio, m.flags, m.active, 0); }
  }

  lemma ResumeChanges(s: K, k: Cont)
    requires Defined(s.m, s.c) && (k.PutDone? ==> k.mbox in s.m.mbox)
    ensures FlagsChanged(s, StepResume(s, k), Cleared(k, s.m.flags[s.m.active]), 0, 0)
  {
    hide Changed, ResumeMem, ResumePc, Cleared;
    ResumeFlags(s.m, k);
  }

  lemma ClearCallChanges(s: K, mask: bv16)
    requires Defined(s.m, s.c)
    ensures FlagsChanged(s, s.(m := F.Clear(s.m, s.m.active, mask).0), F.Part(s.m.flags[s.m.active], mask), 0, 0)
  {
    hide Changed, F.Without, F.Part;
    Clears(s.m.prio, s.m.flags, s.m.active, 0, mask);
  }

  /** The bits a step clears and returns to its caller. */
  function Returned(s: K, step: Step): bv16
    requires s.m.active in s.m.flags && s.m.active in s.c.pc
  {
    var f, pc := s.m.flags[s.m.active], s.c.pc[s.m.active];
    if step.DoFlagsClear? then F.Part(f, step.mask) else if step.Resume? && pc.Do? then Cleared(pc.k, f) else 0
  }

  /** Whose flags a step sets, and which. */
  function Target(step: Step): Pid {
    if step.DoFlagsSet? then step.t else if step.DoSend? || step.DoRequest? || step.DoSendInt? then step.to else 0
  }

  ghost function Raised(s: K, step: Step): bv16
    requires Shape(s.m)
  {
    match step
    case DoFlagsSet(_, mask) => mask
    case DoSend(to, _, _, blocking) => Notice(FateOf(s.m, to, to == s.m.active, blocking))
    case DoRequest(to, _, _) => Notice(FateOf(s.m, to, false, true))
    case DoSendInt(to, _, _) => Notice(FateOf(s.m, to, false, false))
    case _ => 0
  }

  predicate Raises(step: Step) {
    step.DoFlagsSet? || step.DoSend? || step.DoRequest? || step.DoSendInt?
  }

  lemma RaisesNothing(s: K, step: Step)
    requires Shape(s.m) && !Raises(step)
    ensures Target(step) == 0 && Raised(s, step) == 0
  {
    hide Shape;
  }

  lemma SendingChanges(s: K, step: Step)
    requires Core(s) && Enabled(s, step) && (step.DoSend? || step.DoRequest? || step.DoSendInt?)
    ensures FlagsChanged(s, Apply(s, step), 0, Target(step), Raised(s, step))
  {
    hide Core, FlagsChanged, Shape, CountersFresh, Ready, StepSend, StepRequest, StepSendInt, FateOf, Notice;
    if step.DoSend? { SendChanges(s, step.to, step.typ, step.content, step.blocking); }
    else if step.DoRequest? { RequestChanges(s, step.to, step.typ, step.content); }
    else { SendIntChanges(s, step.to, step.typ, step.content); }
  }

  lemma RaisingChanges(s: K, step: Step)
    requires Core(s) && Enabled(s, step) && Raises(step) && s.m.active in s.m.flags && s.m.active in s.c.pc
    ensures FlagsChanged(s, Apply(s, step), Returned(s, step), Target(step), Raised(s, step))
  {
    hide Core, FlagsChanged, Shape, Cleared;
    if step.DoFlagsSet? {
      hide Ready, F.Set, Ended;
      SetChanges(s, step.t, step.mask);
    } else {
      hide Apply, Enabled, Raised, Target;
      SendingChanges(s, step);
    }
  }

  lemma LoudChanges(s: K, step: Step)
    requires Core(s) && Enabled(s, step) && !Inner(step) && !Quiet(step) && !Raises(step) && s.m.active in s.m.flags
    requires !step.DoReceive? && !step.DoReply? && !step.DoPut? && !step.DoGet?
    ensures FlagsChanged(s, Apply(s, step), Returned(s, step), 0, 0)
  {
    hide Core, FlagsChanged, Shape, Ready, StepCreate, StepExit, StepWaitAny, StepWait, F.Clear, ExitOk, F.Part;
    match step
    case DoFlagsClear(mask) => ClearCallChanges(s, mask);
    case DoWaitAny(mask) => WaitStepsChange(s, mask, ClearAny(mask));
    case DoWaitOne(mask) => WaitStepsChange(s, mask, ReadOne(mask));
    case DoWaitAll(mask) => WaitStepsChange(s, mask, ClearAll(mask));
    case DoCreate(prio, sleeping, wout, flags) => CreateChanges(s, prio, sleeping, wout, flags);
    case DoExit => ExitChanges(s);
  }

  lemma StillChanges(s: K, step: Step)
    requires Core(s) && Enabled(s, step) && s.m.active in s.m.flags
    requires Inner(step) || Quiet(step) || step.DoReceive? || step.DoReply? || step.DoPut? || step.DoGet?
    ensures FlagsChanged(s, Apply(s, step), Returned(s, step), 0, 0)
  {
    hide Core, FlagsChanged, Cleared, CallEnabled, Shape;
    if step.Resume? { hide StepResume; ResumeChanges(s, s.c.pc[s.m.active].k); }
    else {
      hide Apply, Enabled;
      if Inner(step) { InnerFlags(s, step); } else if Quiet(step) { QuietKeepsFlags(s, step); }
      else { CarryKeepsFlags(s, step); }
      SameChanges(s, Apply(s, step));
    }
  }

  lemma StepChanges(s: K, step: Step)
    requires Core(s) && Enabled(s, step)
    ensures s.m.active in s.m.flags && FlagsChanged(s, Apply(s, step), Returned(s, step), Target(step), Raised(s, step))
  {
    CoreFlags(s);
    hide Core, FlagsChanged, Apply, Enabled, Raised, Returned, Target, Shape;
    if Raises(step) {
      RaisingChanges(s, step);
    } else {
      RaisesNothing(s, step);
      if Inner(step) || Quiet(step) || step.DoReceive? || step.DoReply? || step.DoPut? || step.DoGet? {
        StillChanges(s, step);
      } else {
        LoudChanges(s, step);
      }
    }
  }

  /** A set flag stays set until its thread's clear returns it; a flag gets set
      only by thread_flags_set or by a message that is queued or waits. */
  lemma FlagsStayUntilReturned(tr: seq<K>, steps: seq<Step>, i: nat, t: Pid)
    requires Run(tr, steps) && i < |steps| && t in tr[i].m.prio && t in tr[i + 1].m.prio
    ensures var m, m' := tr[i].m, tr[i + 1].m;
            && Shape(m) && t in m.flags && t in m'.flags && m.active in m.flags && m.active in tr[i].c.pc
            && var ret, up := if t == m.active then Returned(tr[i], steps[i]) else 0,
                              if t == Target(steps[i]) then Raised(tr[i], steps[i]) else 0;
               m'.flags[t] == Turned(m.flags[t], ret, up) && LostBits(m.flags[t], m'.flags[t]) == ret
  {
    var s, step := tr[i], steps[i];
    hide Run, Returned, Raised, Target, Turned, Shape, LostBits, Within;
    FlagsTurn(tr, steps, i, t);
    ReturnsOrRaises(s, step);
    ReturnsPart(s, step);
    PartOf(s.m.flags[t], 0);
    TurnedLoses(s.m.flags[t], if t == s.m.active then Returned(s, step) else 0,
                if t == Target(step) then Raised(s, step) else 0);
  }

  lemma FlagsTurn(tr: seq<K>, steps: seq<Step>, i: nat, t: Pid)
    requires Run(tr, steps) && i < |steps| && t in tr[i].m.prio && t in tr[i + 1].m.prio
    ensures var m, m' := tr[i].m, tr[i + 1].m;
            && Shape(m) && t in m.flags && t in m'.flags && m.active in m.flags && m.active in tr[i].c.pc
            && m'.flags[t] == Turned(m.flags[t], if t == m.active then Returned(tr[i], steps[i]) else 0,
                                     if t == Target(steps[i]) then Raised(tr[i], steps[i]) else 0)
  {
    hide Core, RequestsOk, BuffersOk, MessagesOk, NumbersOk, FlagStateOk, PriorityOk, EncodingOk, Enabled, Apply, Boot,
      Returned, Raised, Target, Turned, Shape;
    RunIsSafe(tr, steps, i);
    RunIsSafe(tr, steps, i + 1);
    assert Next(tr[i], steps[i], tr[i + 1]);
    StepChanges(tr[i], steps[i]);
    CoreFlags(tr[i]);
    CoreFlags(tr[i + 1]);
  }

  lemma TurnedLoses(f: bv16, ret: bv16, up: bv16)
    requires Within(ret, f) && (ret == 0 || up == 0)
    ensures LostBits(f, Turned(f, ret, up)) == ret
  {
  }

  /** No step both returns and sets flags. */
  lemma ReturnsOrRaises(s: K, step: Step)
    requires Shape(s.m) && s.m.active in s.c.pc
    ensures Returned(s, step) == 0 || Raised(s, step) == 0
  {
    hide Shape, Cleared, F.Part, FateOf, Notice;
  }

  lemma ReturnsPart(s: K, step: Step)
    requires s.m.active in s.m.flags && s.m.active in s.c.pc
    ensures Within(Returned(s, step), s.m.flags[s.m.active])
  {
    var f, pc := s.m.flags[s.m.active], s.c.pc[s.m.active];
    hide F.Part, Cleared, Within;
    if step.DoFlagsClear? { PartOf(f, step.mask); }
    else if step.Resume? && pc.Do? { ClearedPart(pc.k, f); }
    else { PartOf(f, 0); }
  }

  lemma ClearedPart(k: Cont, f: bv16)
    ensures Within(Cleared(k, f), f)
  {
    hide F.Part, F.LowestFlag, Within;
    match k
    case ClearAny(mask) => PartOf(f, mask);
    case ClearAll(mask) => PartOf(f, mask);
    case ClearOne(_, read) => PartOf(f, F.LowestFlag(read));
    case _ => PartOf(f, 0);
  }

  lemma PartOf(f: bv16, mask: bv16)
    ensures Within(F.Part(f, mask), f) && Within(0, f)
  {
  }

  lemma CoreFlags(s: K)
    requires Core(s)
    ensures forall t :: t in s.m.prio ==> t in s.m.flags
    ensures Shape(s.m) && s.m.active in s.m.prio && s.m.active in s.c.pc
  {
  }

  predicate Single(bit: bv16) {
    bit != 0 && bit & (bit - 1) == 0
  }

  /** Exactly one bit, of the mask and of what was read, and none of what was
      read is below it. */
  predicate LowestOf(bit: bv16, mask: bv16, read: bv16) {
    Single(bit) && bit & mask == bit && bit & read == bit && read & (bit - 1) == 0
  }

  lemma LowestIsReturned(f: bv16, mask: bv16, read: bv16)
    requires Found(mask, read) && F.HasAll(f, read)
    ensures LowestOf(F.Part(f, F.LowestFlag(read)), mask, read)
  {
    F.LowestFlagIsLowest(read);
    SubBits(F.LowestFlag(read), read, mask);
    SubBits(F.LowestFlag(read), read, f);
  }

  lemma SubBits(bit: bv16, read: bv16, f: bv16)
    requires bit & read == bit && f & read == read
    ensures bit & f == bit
  {
  }

  /** What a wait returns: wait_any a non-empty part of its mask, wait_all its
      whole mask, wait_one the lowest bit of its mask that it read as set. */
  lemma WaitsReturnWhatTheyWaitedFor(tr: seq<K>, steps: seq<Step>, i: nat)
    requires Run(tr, steps) && i < |steps| && steps[i].Resume?
    requires var s := tr[i]; s.m.active in s.c.pc && s.c.pc[s.m.active].Do? && s.m.active in s.m.flags
    ensures var k, ret := tr[i].c.pc[tr[i].m.active].k, Returned(tr[i], steps[i]);
            match k
            case ClearAny(mask) => ret != 0 && ret & mask == ret
            case ClearAll(mask) => ret == mask
            case ClearOne(mask, read) => LowestOf(ret, mask, read)
            case _ => true
  {
    RunIsSafe(tr, steps, i);
    var s, a := tr[i], tr[i].m.active;
    ActiveDoRuns(s.m, s.c);
    hide Run, CoreInv, RequestsOk, BuffersOk, MessagesOk, NumbersOk, PriorityOk, EncodingOk;
    assert FlagOk(s.c.pc[a], s.m.status[a], s.m.flags[a], s.m.wait[a]);
    GrantedReturns(s.c.pc[a].k, s.m.flags[a]);
  }

  lemma GrantedReturns(k: Cont, f: bv16)
    requires Granted(k, f)
    ensures match k
            case ClearAny(mask) => Cleared(k, f) != 0 && Cleared(k, f) & mask == Cleared(k, f)
            case ClearAll(mask) => Cleared(k, f) == mask
            case ClearOne(mask, read) => LowestOf(Cleared(k, f), mask, read)
            case _ => true
  {
    if k.ClearAny? { MaskedPart(f, k.mask); }
    else if k.ClearAll? { MaskedPart(f, k.mask); }
    else if k.ClearOne? { LowestIsReturned(f, k.mask, k.read); }
  }

  lemma MaskedPart(f: bv16, mask: bv16)
    ensures (mask & f) & mask == mask & f && (f & mask != 0 ==> mask & f != 0)
    ensures (f & mask == mask ==> mask & f == mask)
  {
  }

  // What wait_one read

  /** The thread is in a call that goes on with `k`. */
  predicate Going(pc: Pc, k: Cont) {
    (pc.Gap? || pc.Rotating? || pc.Do?) && pc.k == k
  }

  lemma PcReadsNothing(c: Ctl, c': Ctl, a: Pid, m': Mem, b: set<Status>, t: Pid, k: Cont)
    requires PcMoves(c, c', a, m'.status, b) && AllAgree(m'.prio, c'.pc, m'.status, m'.at, m'.wait)
    requires a in m'.prio && a in m'.status && t in c.pc && k.ClearOne? && t in c'.pc && Going(c'.pc[t], k)
    ensures Going(c.pc[t], k)
  {
  }

  lemma CreateReadsNothing(s: K, prio: nat, sleeping: bool, wout: bool, flags: bv16, t: Pid, k: Cont)
    requires Defined(s.m, s.c) && k.ClearOne?
    requires var s' := StepCreate(s, prio, sleeping, wout, flags);
             t in s'.m.prio && t in s'.c.pc && Going(s'.c.pc[t], k)
    ensures t in s.m.prio && t in s.c.pc && Going(s.c.pc[t], k)
  {
    hide Create, LevelsOk, ListsKeyed, RunQueuesKeyed, FreePid;
    CreateAddsOne(s.m, prio, sleeping, wout, flags);
  }

  lemma ExitReadsNothing(s: K, t: Pid, k: Cont)
    requires Defined(s.m, s.c) && ExitOk(s.m) && k.ClearOne?
    requires var s' := StepExit(s); t in s'.m.prio && t in s'.c.pc && Going(s'.c.pc[t], k)
    ensures t in s.m.prio && t in s.c.pc && Going(s.c.pc[t], k)
  {
    hide LevelsOk, ListsKeyed, RunQueuesKeyed, Best;
  }

  lemma NewReadsNothing(s: K, step: Step, t: Pid, k: Cont)
    requires Enabled(s, step) && (step.DoCreate? || step.DoExit?)
    requires k.ClearOne? && t in Apply(s, step).m.prio && t in Apply(s, step).c.pc && Going(Apply(s, step).c.pc[t], k)
    ensures t in s.m.prio && t in s.c.pc && Going(s.c.pc[t], k)
  {
    hide StepCreate, StepExit, ExitOk, Ready, Going;
    if step.DoCreate? {
      CreateReadsNothing(s, step.prio, step.sleeping, step.wout, step.flags, t, k);
    } else {
      ExitReadsNothing(s, t, k);
    }
  }

  lemma CallReadsNothing(s: K, step: Step, t: Pid, k: Cont)
    requires Core(s) && RequestsOk(s) && Enabled(s, step) && !Inner(step)
    requires k.ClearOne? && t in Apply(s, step).m.prio && t in Apply(s, step).c.pc && Going(Apply(s, step).c.pc[t], k)
    ensures t in s.m.prio && t in s.c.pc && Going(s.c.pc[t], k)
  {
    hide RequestsOk, Enabled, Apply, Moves, ListsInv, CoreInv, Going, PcMoves, AllAgree;
    if step.DoCreate? || step.DoExit? {
      NewReadsNothing(s, step, t, k);
    } else {
      ReplyIsSafe(s, step);
      CallKeepsCore(s, step);
      CoreKeys(s.m, s.c);
      var s' := Apply(s, step);
      CoreKeys(s'.m, s'.c);
      CoreAgrees(s'.m, s'.c);
      PcReadsNothing(s.c, s'.c, s.m.active, s'.m, Blocks(step), t, k);
    }
  }

  lemma ResumeReads(s: K, t: Pid, k: Cont)
    requires Enabled(s, Resume) && k.ClearOne? && t in Apply(s, Resume).c.pc && Going(Apply(s, Resume).c.pc[t], k)
    ensures t in s.c.pc && (Going(s.c.pc[t], k) || Reads(s, Resume, t, k))
  {
    hide ResumeMem, LevelsOk, ListsKeyed, RunQueuesKeyed, F.Part;
  }

  /** Only the second section of wait_one reads. */
  lemma StepReads(s: K, step: Step, t: Pid, k: Cont)
    requires Core(s) && RequestsOk(s) && Enabled(s, step)
    requires k.ClearOne? && t in Apply(s, step).m.prio && t in Apply(s, step).c.pc && Going(Apply(s, step).c.pc[t], k)
    ensures t in s.m.prio && t in s.c.pc && (Going(s.c.pc[t], k) || Reads(s, step, t, k))
  {
    hide Core, RequestsOk, Enabled, Apply, ListsInv;
    if Inner(step) { CoreKeysOf(s); InnerEffect(s, step); }
    if step.Resume? { ResumeReads(s, t, k); }
    else if Inner(step) { InnerPcs(s, step); }
    else { CallReadsNothing(s, step, t, k); }
  }

  lemma CoreKeysOf(s: K)
    requires Core(s)
    ensures ListsInv(s.m) && forall t :: t in s.m.prio ==> t in s.c.pc
  {
  }

  /** In this step the thread reads its flags for wait_one. */
  ghost predicate Reads(s: K, step: Step, t: Pid, k: Cont)
    requires k.ClearOne?
  {
    && step.Resume? && t == s.m.active && t in s.c.pc && s.c.pc[t] == Do(ReadOne(k.mask))
    && t in s.m.flags && k.read == F.Part(s.m.flags[t], k.mask)
  }

  /** After the step `i`, up to state `j`, the call goes on with `k`. */
  ghost predicate GoingFrom(tr: seq<K>, i: nat, j: nat, t: Pid, k: Cont) {
    j < |tr| && forall n :: i < n <= j ==> t in tr[n].m.prio && t in tr[n].c.pc && Going(tr[n].c.pc[t], k)
  }

  lemma {:induction false} WasRead(tr: seq<K>, steps: seq<Step>, j: nat, t: Pid, k: Cont) returns (i: nat)
    requires Run(tr, steps) && j < |tr| && k.ClearOne? && t in tr[j].m.prio && t in tr[j].c.pc
    requires Going(tr[j].c.pc[t], k)
    ensures i < j && Reads(tr[i], steps[i], t, k)
    ensures GoingFrom(tr, i, j, t, k)
    decreases j
  {
    hide Boot, Enabled, Apply, Core, RequestsOk, BuffersOk, MessagesOk, NumbersOk, FlagStateOk, PriorityOk, EncodingOk;
    if j == 0 {
      BootIsUser(tr[0], t);
    } else {
      RunIsSafe(tr, steps, j - 1);
      assert Next(tr[j - 1], steps[j - 1], tr[j]);
      StepReads(tr[j - 1], steps[j - 1], t, k);
      if Reads(tr[j - 1], steps[j - 1], t, k) { i := j - 1; } else { i := WasRead(tr, steps, j - 1, t, k); }
    }
  }

  lemma BootIsUser(s: K, t: Pid)
    requires Boot(s) && t in s.c.pc
    ensures s.c.pc[t] == User
  {
  }

  // A flag that comes too late

  /** Some flag of the mask below `bit` is set. */
  predicate Lower(f: bv16, mask: bv16, bit: bv16) {
    F.HasAny(f, mask & (bit - 1))
  }

  /** The step sets a flag of the mask of `t` below `bit`. */
  predicate SetsLower(step: Step, t: Pid, mask: bv16, bit: bv16) {
    step.DoFlagsSet? && step.t == t && Lower(step.mask, mask, bit)
  }

  lemma LowerTurned(f: bv16, up: bv16, mask: bv16, bit: bv16)
    ensures Lower(Turned(f, 0, up), mask, bit) <==> Lower(f, mask, bit) || Lower(up, mask, bit)
    ensures !Lower(0, mask, bit)
  {
    EitherHas(f, up, mask & (bit - 1));
    hide Turned, F.HasAny;
  }

  lemma EitherHas(f: bv16, up: bv16, mask: bv16)
    ensures F.HasAny(Turned(f, 0, up), mask) <==> F.HasAny(f, mask) || F.HasAny(up, mask)
    ensures !F.HasAny(0, mask)
  {
    assert Turned(f, 0, up) & mask == (f & mask) | (up & mask) by { Distributes(f, up, mask); }
    NoneOfEither(f & mask, up & mask);
    assert 0 & mask == 0;
    hide Turned;
  }

  lemma Distributes(f: bv16, up: bv16, mask: bv16)
    ensures Turned(f, 0, up) & mask == (f & mask) | (up & mask)
  {
  }

  lemma NoneOfEither(x: bv16, y: bv16)
    ensures x | y == 0 <==> x == 0 && y == 0
  {
  }

  /** THREAD_FLAG_MSG_WAITING is the highest flag. */
  lemma MsgFlagIsHighest(mask: bv16, bit: bv16)
    requires Single(bit)
    ensures !Lower(F.MSG_WAITING, mask, bit)
  {
  }

  lemma LowestIffNoLower(bit: bv16, mask: bv16, read: bv16, f: bv16)
    requires LowestOf(bit, mask, read) && Within(bit, f)
    ensures LowestOf(bit, mask, F.Part(f, mask)) <==> !Lower(f, mask, bit)
  {
  }

  lemma RaisesLowerIff(s: K, step: Step, t: Pid, mask: bv16, bit: bv16)
    requires Shape(s.m) && Single(bit)
    ensures Lower(if t == Target(step) then Raised(s, step) else 0, mask, bit) <==> SetsLower(step, t, mask, bit)
  {
    MsgFlagIsHighest(mask, bit);
    LowerTurned(0, 0, mask, bit);
    hide Shape, Lower, FateOf, Single;
  }

  lemma ResumeEnds(s: K, a: Pid, k: Cont)
    requires Enabled(s, Resume) && a == s.m.active && k.ClearOne? && a in s.c.pc && Going(s.c.pc[a], k)
    ensures a in Apply(s, Resume).c.pc && !Going(Apply(s, Resume).c.pc[a], k)
  {
    hide Shape, ResumeMem, F.Part;
  }

  /** Between its read and its clear the call clears nothing. */
  lemma GoingReturnsNothing(s: K, step: Step, a: Pid, k: Cont)
    requires Enabled(s, step) && a == s.m.active && a in s.m.flags && k.ClearOne? && a in s.c.pc && Going(s.c.pc[a], k)
    requires a in Apply(s, step).c.pc && Going(Apply(s, step).c.pc[a], k)
    ensures Returned(s, step) == 0
  {
    if step.Resume? { hide Enabled, Apply; ResumeEnds(s, a, k); } else { hide Apply, Shape, F.Part; }
  }

  lemma LowerStep(tr: seq<K>, steps: seq<Step>, n: nat, a: Pid, mask: bv16, bit: bv16)
    requires Run(tr, steps) && n < |steps| && a in tr[n].m.prio && a in tr[n + 1].m.prio
    requires a in tr[n].m.flags && a in tr[n].c.pc
    requires Single(bit) && (a == tr[n].m.active ==> Returned(tr[n], steps[n]) == 0)
    ensures a in tr[n + 1].m.flags
    ensures Lower(tr[n + 1].m.flags[a], mask, bit)
            <==> Lower(tr[n].m.flags[a], mask, bit) || SetsLower(steps[n], a, mask, bit)
  {
    var s, step := tr[n], steps[n];
    hide Run, Returned, Raised, Target, Turned, Shape, Lower, SetsLower, Single;
    FlagsTurn(tr, steps, n, a);
    RaisesLowerIff(s, step, a, mask, bit);
    LowerTurned(s.m.flags[a], if a == Target(step) then Raised(s, step) else 0, mask, bit);
  }

  lemma FlagsOfThreads(tr: seq<K>, steps: seq<Step>, n: nat)
    requires Run(tr, steps) && n < |tr|
    ensures forall t :: t in tr[n].m.prio ==> t in tr[n].m.flags
  {
    hide Run, Core, RequestsOk, BuffersOk, MessagesOk, NumbersOk, FlagStateOk, PriorityOk, EncodingOk;
    RunIsSafe(tr, steps, n);
    CoreFlags(tr[n]);
  }

  /** From the read on, the call of thread `a` clears nothing before its end. */
  lemma NothingReturned(tr: seq<K>, steps: seq<Step>, i: nat, n: nat, a: Pid, k: Cont)
    requires Run(tr, steps) && i <= n < |steps| && k.ClearOne? && GoingFrom(tr, i, n + 1, a, k) && a in tr[n].m.prio
    requires Reads(tr[i], steps[i], a, k)
    ensures a in tr[n].m.flags && a in tr[n].c.pc && (a == tr[n].m.active ==> Returned(tr[n], steps[n]) == 0)
  {
    FlagsOfThreads(tr, steps, n);
    assert Next(tr[n], steps[n], tr[n + 1]);
    hide Enabled, Apply, Boot, Going, Returned, F.Part;
    if n == i {
      ReadReturnsNothing(tr[i], a, k.mask);
    } else if a == tr[n].m.active {
      GoingReturnsNothing(tr[n], steps[n], a, k);
    }
  }

  /** Lower flags are there exactly if a step has set one since the read. */
  lemma {:induction false} LateFlags(tr: seq<K>, steps: seq<Step>, i: nat, n: nat, a: Pid, k: Cont, bit: bv16)
    requires Run(tr, steps) && i < n < |tr| && k.ClearOne? && GoingFrom(tr, i, n, a, k) && a in tr[i].m.prio
    requires Reads(tr[i], steps[i], a, k) && Single(bit) && !Lower(tr[i].m.flags[a], k.mask, bit)
    ensures a in tr[n].m.flags
    ensures Lower(tr[n].m.flags[a], k.mask, bit) <==> exists x :: i < x < n && SetsLower(steps[x], a, k.mask, bit)
    decreases n
  {
    hide Next, Boot, Lower, Going, SetsLower, Single, Returned, F.Part;
    NothingReturned(tr, steps, i, n - 1, a, k);
    LowerStep(tr, steps, n - 1, a, k.mask, bit);
    if n == i + 1 {
      ReadSetsNothing(steps[i], a, k.mask, bit);
    } else {
      LateFlags(tr, steps, i, n - 1, a, k, bit);
    }
  }

  lemma ReadSetsNothing(step: Step, a: Pid, mask: bv16, bit: bv16)
    requires step.Resume?
    ensures !SetsLower(step, a, mask, bit)
  {
  }

  lemma ReadReturnsNothing(s: K, a: Pid, mask: bv16)
    requires a == s.m.active && a in s.m.flags && a in s.c.pc && s.c.pc[a] == Do(ReadOne(mask))
    ensures Returned(s, Resume) == 0
  {
  }

  /** wait_one returns the lowest of the flags of its mask that were set when
      it read them, at an earlier step of the same call. This is still the lowest
      when it clears it if and only if no step in between has set a lower one. */
  lemma WaitOneReturnsTheLowest(tr: seq<K>, steps: seq<Step>, j: nat) returns (i: nat)
    requires Run(tr, steps) && j < |steps| && steps[j].Resume?
    requires var s := tr[j]; s.m.active in s.m.flags && s.m.active in s.c.pc && s.c.pc[s.m.active].Do?
    requires tr[j].c.pc[tr[j].m.active].k.ClearOne?
    ensures var a, mask, bit := tr[j].m.active, tr[j].c.pc[tr[j].m.active].k.mask, Returned(tr[j], steps[j]);
            && i < j && steps[i].Resume? && tr[i].m.active == a && a in tr[i].c.pc && tr[i].c.pc[a] == Do(ReadOne(mask))
            && GoingFrom(tr, i, j, a, tr[j].c.pc[a].k)
            && a in tr[i].m.flags && LowestOf(bit, mask, F.Part(tr[i].m.flags[a], mask))
            && (LowestOf(bit, mask, F.Part(tr[j].m.flags[a], mask))
                <==> !exists n :: i < n < j && SetsLower(steps[n], a, mask, bit))
  {
    var a, k, bit := tr[j].m.active, tr[j].c.pc[tr[j].m.active].k, Returned(tr[j], steps[j]);
    ReturnsPart(tr[j], steps[j]);
    hide Boot, Next, Returned, Within, F.Part;
    WaitsReturnWhatTheyWaitedFor(tr, steps, j);
    i := ReadBefore(tr, steps, j, a, k);
    hide LowestOf;
    StillLowestIff(tr, steps, i, j, a, k, bit);
  }

  lemma StillLowestIff(tr: seq<K>, steps: seq<Step>, i: nat, j: nat, a: Pid, k: Cont, bit: bv16)
    requires Run(tr, steps) && i < j < |tr| && k.ClearOne? && GoingFrom(tr, i, j, a, k) && a in tr[i].m.prio
    requires Reads(tr[i], steps[i], a, k) && LowestOf(bit, k.mask, k.read)
    requires a in tr[j].m.flags && Within(bit, tr[j].m.flags[a])
    ensures LowestOf(bit, k.mask, F.Part(tr[j].m.flags[a], k.mask))
            <==> !exists n :: i < n < j && SetsLower(steps[n], a, k.mask, bit)
  {
    hide Boot, Next, Within, GoingFrom, Single, LowestOf, SetsLower, Lower, F.Part;
    LowestBits(bit, k.mask, k.read);
    ReadHasNoLower(bit, k.mask, tr[i].m.flags[a]);
    LateFlags(tr, steps, i, j, a, k, bit);
    LowestIffNoLower(bit, k.mask, k.read, tr[j].m.flags[a]);
  }

  lemma LowestBits(bit: bv16, mask: bv16, read: bv16)
    requires LowestOf(bit, mask, read)
    ensures Single(bit)
  {
  }

  lemma ReadHasNoLower(bit: bv16, mask: bv16, f: bv16)
    requires LowestOf(bit, mask, F.Part(f, mask))
    ensures !Lower(f, mask, bit)
  {
  }

  lemma ReadBefore(tr: seq<K>, steps: seq<Step>, j: nat, a: Pid, k: Cont) returns (i: nat)
    requires Run(tr, steps) && j < |steps| && k.ClearOne? && a == tr[j].m.active && a in tr[j].c.pc
    requires Going(tr[j].c.pc[a], k)
    ensures i < j && Reads(tr[i], steps[i], a, k) && GoingFrom(tr, i, j, a, k) && a in tr[i].m.prio
  {
    RunIsSafe(tr, steps, j);
    CoreFlags(tr[j]);
    hide Core, RequestsOk, BuffersOk, MessagesOk, NumbersOk, FlagStateOk, PriorityOk, EncodingOk, Boot, Next, Going;
    i := WasRead(tr, steps, j, a, k);
    RunIsSafe(tr, steps, i);
    CoreFlags(tr[i]);
  }
}
