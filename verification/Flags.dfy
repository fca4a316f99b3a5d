/** Thread flags lose no wake-up. */
module Flags {
  import opened Names
  import opened Sequences
  import opened CircularIndex
  import opened KernelState
  import opened Scheduler
  import opened Threads
  import F = ThreadFlags
  import opened Messages
  import opened Mailboxes
  import opened Effects
  import opened Machine
  import opened PlainSteps
  import opened Separation
  import opened Requests

  /** `read` is what wait_one found set of its mask. */
  predicate Found(mask: bv16, read: bv16) {
    read != 0 && read & mask == read
  }

  /** What a thread that may go on with `k` can rely on. */
  predicate Granted(k: Cont, flags: bv16) {
    match k
    case ClearAny(mask) => F.HasAny(flags, mask)
    case ReadOne(mask) => F.HasAny(flags, mask)
    case ClearAll(mask) => F.HasAll(flags, mask)
    case ClearOne(mask, read) => Found(mask, read) && F.HasAll(flags, read)
    case _ => true
  }

  /** A thread waits for flags only while they do not meet its condition, and
      once it is runnable they do until it has cleared them. */
  predicate FlagOk(pc: Pc, st: Status, flags: bv16, wait: WaitData) {
    && (st.FlagBlockedAny? ==> wait.Mask? && !F.HasAny(flags, wait.mask))
    && (st.FlagBlockedAll? ==> wait.Mask? && !F.HasAll(flags, wait.mask))
    && (OnRunqueue(st) && (pc.Gap? || pc.Rotating? || pc.Do?) ==> Granted(pc.k, flags))
  }

  ghost predicate FlagsOk(prio: map<Pid, nat>, pc: map<Pid, Pc>, status: map<Pid, Status>, flags: map<Pid, bv16>,
                          wait: map<Pid, WaitData>) {
    forall t :: t in prio ==>
        t in pc && t in status && t in flags && t in wait && FlagOk(pc[t], status[t], flags[t], wait[t])
  }

  ghost predicate FlagStateOk(s: K) {
    FlagsOk(s.m.prio, s.c.pc, s.m.status, s.m.flags, s.m.wait)
  }

  // One thread

  /** More flags: either the condition is met now and the thread is woken, or it is not. */
  lemma FlagGrows(pc: Pc, st: Status, at: Option<ListId>, flags: bv16, wait: WaitData, mask: bv16)
    requires FlagOk(pc, st, flags, wait) && Agree(pc, st, at, wait)
    ensures FlagOk(pc, if F.Met(st, F.With(flags, mask), wait) then Pending else st, F.With(flags, mask), wait)
  {
    hide F.HasAny, F.HasAll, Found;
    if OnRunqueue(st) && (pc.Gap? || pc.Rotating? || pc.Do?) { GrantedGrows(pc.k, flags, mask); }
  }

  lemma GrantedGrows(k: Cont, flags: bv16, mask: bv16)
    requires Granted(k, flags)
    ensures Granted(k, F.With(flags, mask))
  {
    hide F.HasAny, F.HasAll, Found;
    match k
    case ClearAny(want) => MoreFlags(flags, want, mask);
    case ReadOne(want) => MoreFlags(flags, want, mask);
    case ClearAll(want) => MoreFlags(flags, want, mask);
    case ClearOne(_, read) => MoreFlags(flags, read, mask);
    case _ =>
  }

  lemma MoreFlags(flags: bv16, want: bv16, mask: bv16)
    ensures F.HasAny(flags, want) ==> F.HasAny(F.With(flags, mask), want)
    ensures F.HasAll(flags, want) ==> F.HasAll(F.With(flags, mask), want)
  {
  }

  /** Woken from a status that is not about flags. */
  lemma FlagOther(pc: Pc, st: Status, at: Option<ListId>, flags: bv16, wait: WaitData, st': Status, wait': WaitData)
    requires Agree(pc, st, at, wait) && !OnRunqueue(st) && !st.FlagBlockedAny? && !st.FlagBlockedAll? && OnRunqueue(st')
    ensures FlagOk(pc, st', flags, wait')
  {
  }

  // All threads

  lemma FlagPoint(prio: map<Pid, nat>, pc: map<Pid, Pc>, status: map<Pid, Status>, flags: map<Pid, bv16>,
                  wait: map<Pid, WaitData>, t: Pid, p: Pc, st: Status, f: bv16, d: WaitData)
    requires FlagsOk(prio, pc, status, flags, wait) && FlagOk(p, st, f, d)
    ensures FlagsOk(prio, pc[t := p], status[t := st], flags[t := f], wait[t := d])
    ensures t in pc && p == pc[t] ==> FlagsOk(prio, pc, status[t := st], flags[t := f], wait[t := d])
  {
    hide FlagOk;
  }

  /** thread_flags_set, and the wake-up in it. */
  lemma FlagSet(prio: map<Pid, nat>, pc: map<Pid, Pc>, status: map<Pid, Status>, flags: map<Pid, bv16>,
                wait: map<Pid, WaitData>, t: Pid, at: Option<ListId>, mask: bv16)
    requires FlagsOk(prio, pc, status, flags, wait) && t in prio && Agree(pc[t], status[t], at, wait[t])
    ensures var met := F.Met(status[t], F.With(flags[t], mask), wait[t]);
            FlagsOk(prio, pc, if met then status[t := Pending] else status, flags[t := F.With(flags[t], mask)], wait)
  {
    hide FlagOk, F.Met, Agree;
    FlagGrows(pc[t], status[t], at, flags[t], wait[t], mask);
  }

  /** Sections that do not touch flags. */
  lemma FlagFrame(m: Mem, r: Mem, w: set<Status>, b: set<Status>, pc: map<Pid, Pc>)
    requires Caller(m, r, w, b) && AllAgree(m.prio, pc, m.status, m.at, m.wait) && SameFlags(m, r)
    requires FlagBlockedAny !in w + b && FlagBlockedAll !in w + b
    requires FlagsOk(m.prio, pc, m.status, m.flags, m.wait)
    ensures FlagsOk(m.prio, pc, r.status, r.flags, r.wait)
  {
    hide ListsInv, ListsKept, Agree, FlagOk, Moves;
    forall t | t in m.prio
      ensures t in pc && t in r.status && t in r.flags && t in r.wait
      ensures FlagOk(pc[t], r.status[t], r.flags[t], r.wait[t])
    {
      FlagFrameAt(m, r, w, b, pc, t);
    }
  }

  lemma FlagFrameAt(m: Mem, r: Mem, w: set<Status>, b: set<Status>, pc: map<Pid, Pc>, t: Pid)
    requires Shape(m) && Shape(r) && r.prio == m.prio && t in m.prio
    requires Moves(w, b, m.active, m.prio, m.status, m.at, m.wait, r.status, r.at, r.wait)
    requires FlagBlockedAny !in w + b && FlagBlockedAll !in w + b
    requires t in pc && Agree(pc[t], m.status[t], m.at[t], m.wait[t])
    requires FlagOk(pc[t], m.status[t], m.flags[t], m.wait[t])
    ensures t in r.status && t in r.wait && FlagOk(pc[t], r.status[t], m.flags[t], r.wait[t])
  {
    hide F.HasAny, F.HasAll, Found;
    if !OnRunqueue(m.status[t]) && OnRunqueue(r.status[t]) {
      FlagOther(pc[t], m.status[t], m.at[t], m.flags[t], m.wait[t], r.status[t], r.wait[t]);
    }
  }

  lemma FlagPc(c: Ctl, c': Ctl, a: Pid, b: set<Status>, prio: map<Pid, nat>, status: map<Pid, Status>,
               flags: map<Pid, bv16>,
               wait: map<Pid, WaitData>)
    requires FlagsOk(prio, c.pc, status, flags, wait) && PcMoves(c, c', a, status, b) && b * FLAG_WAITERS == {}
    ensures FlagsOk(prio, c'.pc, status, flags, wait)
  {
    hide F.HasAny, F.HasAll, Found;
  }

  // Sending

  lemma FlaggedKeepsFlags(m: Mem, status: map<Pid, Status>, wait: map<Pid, WaitData>, r: Mem, t: Pid, pc: map<Pid, Pc>)
    requires Shape(m) && t in m.prio && t in status && Flagged(m, status, r, t) && t in wait && wait[t] == m.wait[t]
    requires FlagsOk(m.prio, pc, status, m.flags, wait) && Agree(pc[t], status[t], m.at[t], wait[t])
    ensures FlagsOk(m.prio, pc, r.status, r.flags, wait)
  {
    hide FlagsOk, Agree, F.Met;
    FlagSet(m.prio, pc, status, m.flags, wait, t, m.at[t], F.MSG_WAITING);
  }

  lemma SentKeepsFlags(m: Mem, r: Mem, t: Pid, msg: Msg, fate: Fate, st: Status, pc: map<Pid, Pc>)
    requires Shape(m) && (fate != Refused ==> t in m.prio) && Sent(m, r, t, msg, fate, st)
    requires FlagsOk(m.prio, pc, m.status, m.flags, m.wait) && (st == SendBlocked || st == ReplyBlocked)
    requires t in m.prio ==> t in pc && Agree(pc[t], m.status[t], m.at[t], m.wait[t])
    requires fate == Handed ==> m.status[t] == ReceiveBlocked
    ensures FlagsOk(m.prio, pc, r.status, r.flags, r.wait)
  {
    hide FlagsOk, FlagOk, Agree, Flagged;
    var a := m.active;
    match fate
    case Refused =>
    case Enqueued => FlaggedKeepsFlags(m, m.status, m.wait, r, t, pc);
    case Handed =>
      FlagOther(pc[t], m.status[t], m.at[t], m.flags[t], m.wait[t], Pending, m.wait[t]);
      FlagPoint(m.prio, pc, m.status, m.flags, m.wait, t, pc[t], Pending, m.flags[t], m.wait[t]);
      assert m.flags[t := m.flags[t]] == m.flags && m.wait[t := m.wait[t]] == m.wait;
    case Waits =>
      FlagKeys(m.prio, pc, m.status, m.flags, m.wait, a);
      BlockedFlagOk(pc[a], st, m.flags[a], Buffer);
      FlagPoint(m.prio, pc, m.status, m.flags, m.wait, a, pc[a], st, m.flags[a], Buffer);
      assert m.flags[a := m.flags[a]] == m.flags;
      FlaggedKeepsFlags(m, m.status[a := st], m.wait[a := Buffer], r, t, pc);
  }

  lemma FlagKeys(prio: map<Pid, nat>, pc: map<Pid, Pc>, status: map<Pid, Status>, flags: map<Pid, bv16>,
                 wait: map<Pid, WaitData>, t: Pid)
    requires FlagsOk(prio, pc, status, flags, wait)
    ensures t in prio ==> t in pc && t in flags && t in wait
  {
  }

  lemma BlockedFlagOk(pc: Pc, st: Status, flags: bv16, wait: WaitData)
    requires st == SendBlocked || st == ReplyBlocked
    ensures FlagOk(pc, st, flags, wait)
  {
  }

  // The steps, first with the old program counters

  ghost predicate FlagsBeforePc(s: K, s': K) {
    FlagsOk(s.m.prio, s.c.pc, s'.m.status, s'.m.flags, s'.m.wait)
  }

  lemma AgreesAt(m: Mem, c: Ctl, t: Pid)
    requires CoreInv(m, c)
    ensures t in m.prio ==> t in c.pc && Agree(c.pc[t], m.status[t], m.at[t], m.wait[t])
  {
    hide ListsInv, ActiveOk, IdleOk, BoxesNamed;
  }

  lemma HandedFate(m: Mem, t: Pid, toSelf: bool, block: bool)
    requires Shape(m)
    ensures FateOf(m, t, toSelf, block) == Handed ==> t in m.prio && m.status[t] == ReceiveBlocked
    ensures FateOf(m, t, toSelf, block) != Refused ==> t in m.prio
  {
  }

  lemma SendKeepsFlags(s: K, to: Pid, typ: nat, content: nat, blocking: bool)
    requires Core(s) && FlagStateOk(s) && Defined(s.m, s.c) && Ready(s.m, s.c)
    ensures FlagsBeforePc(s, StepSend(s, to, typ, content, blocking))
  {
    ReadyRuns(s.m, s.c);
    hide FlagsOk, Send, Sent, SettlePc, GivenLog, FateOf, SendLog, CoreInv, Agree;
    AgreesAt(s.m, s.c, to);
    var msg := Msg(s.m.active, typ, content, s.nextId);
    var fate := FateOf(s.m, to, to == s.m.active, blocking);
    HandedFate(s.m, to, to == s.m.active, blocking);
    SendEffect(s.m, to, msg, blocking);
    SentKeepsFlags(s.m, Send(s.m, to, msg, blocking).0, to, msg, fate, SendBlocked, s.c.pc);
  }

  lemma SendIntKeepsFlags(s: K, to: Pid, typ: nat, content: nat)
    requires Core(s) && FlagStateOk(s)
    ensures FlagsBeforePc(s, StepSendInt(s, to, typ, content))
  {
    hide FlagsOk, SendInt, Sent, SettlePc, GivenLog, FateOf, SendLog, CoreInv, Agree;
    CoreLists(s.m, s.c);
    AgreesAt(s.m, s.c, to);
    var msg := Msg(s.m.maxPid + 1, typ, content, s.nextId);
    HandedFate(s.m, to, false, false);
    SendIntEffect(s.m, to, msg);
    SentKeepsFlags(s.m, SendInt(s.m, to, msg).0, to, msg, FateOf(s.m, to, false, false), SendBlocked, s.c.pc);
  }

  lemma RequestKeepsFlags(s: K, to: Pid, typ: nat, content: nat)
    requires Core(s) && FlagStateOk(s) && to in s.m.prio && to != s.m.active
    ensures FlagsBeforePc(s, StepRequest(s, to, typ, content))
  {
    hide FlagsOk, FlagOk, SendReceive, Requested, Sent, SettlePc, GivenLog, FateOf, SendLog, CoreInv, Agree;
    CoreLists(s.m, s.c);
    AgreesAt(s.m, s.c, to);
    var m, a, pc := s.m, s.m.active, s.c.pc;
    var msg := Msg(a, typ, content, s.nextId);
    HandedFate(m, to, false, true);
    RequestEffect(m, to, msg);
    FlagKeys(m.prio, pc, m.status, m.flags, m.wait, a);
    BlockedFlagOk(pc[a], ReplyBlocked, m.flags[a], Buffer);
    FlagPoint(m.prio, pc, m.status, m.flags, m.wait, a, pc[a], ReplyBlocked, m.flags[a], Buffer);
    assert m.flags[a := m.flags[a]] == m.flags;
    SentKeepsFlags(Requested(m, msg), SendReceive(m, to, msg).0, to, msg, FateOf(m, to, false, true), ReplyBlocked, pc);
  }

  lemma SetKeepsFlags(s: K, t: Pid, mask: bv16)
    requires Core(s) && FlagStateOk(s) && t in s.m.prio
    ensures FlagsBeforePc(s, Ended(s, F.Set(s.m, t, mask).0, F.Set(s.m, t, mask).1))
  {
    hide FlagsOk, F.SetAndWake, SettlePc, CoreInv, Agree, F.Met;
    CoreLists(s.m, s.c);
    AgreesAt(s.m, s.c, t);
    FlagSet(s.m.prio, s.c.pc, s.m.status, s.m.flags, s.m.wait, t, s.m.at[t], mask);
    SetAndWakeEffect(s.m, t, mask);
  }

  lemma ClearKeepsFlags(s: K, mask: bv16)
    requires Core(s) && FlagStateOk(s) && Defined(s.m, s.c) && Ready(s.m, s.c)
    ensures FlagsBeforePc(s, s.(m := F.Clear(s.m, s.m.active, mask).0))
  {
    hide CoreInv, FlagsOk;
    var a := s.m.active;
    var f := F.Clear(s.m, a, mask).0.flags[a];
    CoreLists(s.m, s.c);
    ReadyIsUser(s);
    FlagPoint(s.m.prio, s.c.pc, s.m.status, s.m.flags, s.m.wait, a, s.c.pc[a], s.m.status[a], f, s.m.wait[a]);
    assert s.m.status[a := s.m.status[a]] == s.m.status && s.m.wait[a := s.m.wait[a]] == s.m.wait;
  }

  /** Messages and mailboxes that set no flag. */
  lemma ReceiveFlags(s: K, blocking: bool)
    requires Defined(s.m, s.c)
    ensures SameFlags(s.m, StepReceive(s, blocking).m)
  {
    hide Receive, SettlePc, ReceiveLog, ReceiveOpen, Take, Refilled;
    ReceiveEffect(s.m, blocking);
  }

  lemma ReplyFlags(s: K, t: Pid, reply: Msg)
    requires Defined(s.m, s.c) && t in s.m.prio
    ensures SameFlags(s.m, StepReply(s, t, reply).m)
  {
    hide HandOver, SettlePc;
    HandOverEffect(s.m, t, reply, SendBlocked);
  }

  lemma PutFlags(s: K, b: nat, typ: nat, content: nat, blocking: bool)
    requires Defined(s.m, s.c) && b in s.m.mbox
    ensures SameFlags(s.m, StepPut(s, b, typ, content, blocking).m)
  {
    hide PutMsg, SettlePc, PutLog, PutSlot, Full, Insert;
    PutEffect(s.m, b, Msg(KERNEL_PID_UNDEF, typ, content, s.nextId), blocking);
  }

  lemma GetFlags(s: K, b: nat, blocking: bool)
    requires Defined(s.m, s.c) && b in s.m.mbox
    ensures SameFlags(s.m, StepGet(s, b, blocking).m)
  {
    hide GetMsg, SettlePc, GetLog, GetSlot, Avail, Insert;
    GetEffect(s.m, b, blocking);
  }

  lemma CarryKeepsFlags(s: K, step: Step)
    requires Enabled(s, step) && (step.DoReceive? || step.DoReply? || step.DoPut? || step.DoGet?)
    ensures SameFlags(s.m, Apply(s, step).m)
  {
    hide Defined, Ready, StepReceive, StepReply, StepPut, StepGet, SameFlags, CountersFresh, ExitOk;
    match step
    case DoReceive(blocking) => ReceiveFlags(s, blocking);
    case DoReply(t, reply) => ReplyFlags(s, t, reply);
    case DoPut(b, typ, content, blocking) => PutFlags(s, b, typ, content, blocking);
    case DoGet(b, blocking) => GetFlags(s, b, blocking);
  }

  lemma FrameKeepsFlags(s: K, step: Step)
    requires Core(s) && RequestsOk(s) && FlagStateOk(s) && Enabled(s, step) && !Inner(step)
    requires Quiet(step) || step.DoReceive? || step.DoReply? || step.DoPut? || step.DoGet?
    ensures FlagsBeforePc(s, Apply(s, step))
  {
    hide RequestsOk, Enabled, Apply, Caller, PcMoves, FlagsOk, CoreInv, AllAgree, SameFlags;
    CoreAgrees(s.m, s.c);
    ReplyIsSafe(s, step);
    CallKeepsCore(s, step);
    if Quiet(step) { QuietKeepsFlags(s, step); } else { CarryKeepsFlags(s, step); }
    FlagFrame(s.m, Apply(s, step).m, Wakes(step), Blocks(step), s.c.pc);
  }

  // The waits

  lemma WaitAnyKeepsFlags(s: K, mask: bv16, k: Cont)
    requires Core(s) && FlagStateOk(s) && Defined(s.m, s.c) && Ready(s.m, s.c)
    requires (k == ClearAny(mask) || k == ReadOne(mask))
    ensures FlagStateOk(StepWaitAny(s, mask, k))
  {
    ReadyIsUser(s);
    hide FlagsOk, CoreInv, F.HasAny, F.HasAll, Found;
    var m, a := s.m, s.m.active;
    FlagKeys(m.prio, s.c.pc, m.status, m.flags, m.wait, a);
    if F.HasAny(m.flags[a], mask) {
      FlagPoint(m.prio, s.c.pc, m.status, m.flags, m.wait, a, Do(k), m.status[a], m.flags[a], m.wait[a]);
      assert m.status[a := m.status[a]] == m.status && m.flags[a := m.flags[a]] == m.flags
          && m.wait[a := m.wait[a]] == m.wait;
    } else {
      FlagPoint(m.prio, s.c.pc, m.status, m.flags, m.wait, a, Gap(k), FlagBlockedAny, m.flags[a], Mask(mask));
      assert m.flags[a := m.flags[a]] == m.flags;
    }
  }

  lemma WaitAllKeepsFlags(s: K, mask: bv16)
    requires Core(s) && FlagStateOk(s) && Defined(s.m, s.c) && Ready(s.m, s.c)
    ensures FlagStateOk(StepWait(s, F.WaitAll(s.m, mask).0, F.WaitAll(s.m, mask).1, ClearAll(mask)))
  {
    ReadyIsUser(s);
    hide FlagsOk, CoreInv, F.HasAny, F.HasAll, Found;
    var m, a, k := s.m, s.m.active, ClearAll(mask);
    FlagKeys(m.prio, s.c.pc, m.status, m.flags, m.wait, a);
    if F.HasAll(m.flags[a], mask) {
      FlagPoint(m.prio, s.c.pc, m.status, m.flags, m.wait, a, Do(k), m.status[a], m.flags[a], m.wait[a]);
      assert m.status[a := m.status[a]] == m.status && m.flags[a := m.flags[a]] == m.flags
          && m.wait[a := m.wait[a]] == m.wait;
    } else {
      FlagPoint(m.prio, s.c.pc, m.status, m.flags, m.wait, a, Gap(k), FlagBlockedAll, m.flags[a], Mask(mask));
      assert m.flags[a := m.flags[a]] == m.flags;
    }
  }

  lemma CallKeepsFlagsBeforePc(s: K, step: Step)
    requires Core(s) && RequestsOk(s) && FlagStateOk(s) && Enabled(s, step) && !Inner(step)
    requires !step.DoCreate? && !step.DoExit? && !step.DoWaitAny? && !step.DoWaitOne? && !step.DoWaitAll?
    ensures FlagsBeforePc(s, Apply(s, step))
  {
    if Quiet(step) || step.DoReceive? || step.DoReply? || step.DoPut? || step.DoGet? {
      hide Enabled, Apply, Core, FlagStateOk, FlagsBeforePc, RequestsOk;
      FrameKeepsFlags(s, step);
    } else {
      hide Core, RequestsOk, FlagStateOk, FlagsBeforePc, Ready, StepSend, StepRequest, StepSendInt, F.Clear, Ended,
        CountersFresh, ExitOk;
      match step
      case DoSend(to, typ, content, blocking) => SendKeepsFlags(s, to, typ, content, blocking);
      case DoRequest(to, typ, content) => RequestKeepsFlags(s, to, typ, content);
      case DoSendInt(to, typ, content) => SendIntKeepsFlags(s, to, typ, content);
      case DoFlagsSet(t, mask) => SetKeepsFlags(s, t, mask);
      case DoFlagsClear(mask) => ClearKeepsFlags(s, mask);
    }
  }

  lemma OnlyWaitsAwaitFlags(step: Step)
    requires !step.DoWaitAny? && !step.DoWaitOne? && !step.DoWaitAll?
    ensures Blocks(step) * FLAG_WAITERS == {}
  {
  }

  lemma CallKeepsFlagState(s: K, step: Step)
    requires Core(s) && RequestsOk(s) && FlagStateOk(s) && Enabled(s, step) && !Inner(step)
    requires !step.DoCreate? && !step.DoExit? && !step.DoWaitAny? && !step.DoWaitOne? && !step.DoWaitAll?
    ensures FlagStateOk(Apply(s, step))
  {
    hide RequestsOk, Enabled, Apply, CoreInv, Moves, ListsKept, ListsInv, PcMoves, FlagsOk, Wakes, Blocks;
    OnlyWaitsAwaitFlags(step);
    ReplyIsSafe(s, step);
    CallKeepsCore(s, step);
    CallKeepsFlagsBeforePc(s, step);
    var s' := Apply(s, step);
    FlagPc(s.c, s'.c, s.m.active, Blocks(step), s.m.prio, s'.m.status, s'.m.flags, s'.m.wait);
  }

  // Threads come and go

  lemma FlagNew(prio: map<Pid, nat>, pc: map<Pid, Pc>, status: map<Pid, Status>, flags: map<Pid, bv16>,
                wait: map<Pid, WaitData>, t: Pid, p: nat, st: Status, f: bv16)
    requires FlagsOk(prio, pc, status, flags, wait) && (st == Sleeping || st == Pending)
    ensures FlagsOk(prio[t := p], pc[t := User], status[t := st], flags[t := f], wait[t := NoData])
  {
    assert FlagOk(User, st, f, NoData);
    hide FlagOk;
  }

  lemma FlagUser(prio: map<Pid, nat>, pc: map<Pid, Pc>, status: map<Pid, Status>, flags: map<Pid, bv16>,
                 wait: map<Pid, WaitData>, a: Pid, p: Pc)
    requires FlagsOk(prio, pc, status, flags, wait) && (p.Switch? || p.User?)
    ensures FlagsOk(prio, pc[a := p], status, flags, wait)
  {
    hide F.HasAny, F.HasAll, Found;
  }

  lemma CreateKeepsFlagState(s: K, prio: nat, sleeping: bool, wout: bool, flags: bv16)
    requires Shape(s.m) && FlagStateOk(s)
    ensures FlagStateOk(StepCreate(s, prio, sleeping, wout, flags))
  {
    hide FlagsOk, Create, FreePid, LevelsOk, ListsKeyed, RunQueuesKeyed;
    CreateAddsOne(s.m, prio, sleeping, wout, flags);
    CreateAddsData(s.m, prio, sleeping, wout, flags);
    var m, free := s.m, FreePid(s.m.prio, KERNEL_PID_FIRST, s.m.maxPid);
    if prio < |m.rq| && free.Some? {
      var t, st := free.value, if sleeping then Sleeping else Pending;
      FlagNew(m.prio, s.c.pc, m.status, m.flags, m.wait, t, prio, st, flags);
      FlagUser(m.prio[t := prio], s.c.pc[t := User], m.status[t := st], m.flags[t := flags], m.wait[t := NoData],
               m.active, Switch(prio));
    }
  }

  lemma FlagFewer(prio: map<Pid, nat>, pc: map<Pid, Pc>, status: map<Pid, Status>, flags: map<Pid, bv16>,
                  wait: map<Pid, WaitData>, prio': map<Pid, nat>, pc': map<Pid, Pc>, status': map<Pid, Status>)
    requires FlagsOk(prio, pc, status, flags, wait) && StillOn(prio', status, status')
    requires forall t :: t in prio' ==> t in prio && t in pc && t in pc' && (pc'[t] == pc[t] || SameCont(pc[t], pc'[t]))
    ensures FlagsOk(prio', pc', status', flags, wait)
  {
    hide F.HasAny, F.HasAll, Found;
  }

  /** The program counter moved on with the same call, or returned. */
  predicate SameCont(pc: Pc, pc': Pc) {
    || pc'.User? || pc'.Switch? || (pc'.Gap? && pc'.k == Return)
    || ((pc.Gap? || pc.Rotating? || pc.Do?) && (pc'.Gap? || pc'.Rotating? || pc'.Do?) && pc'.k == pc.k)
  }

  lemma ExitKeepsFlagState(s: K)
    requires Core(s) && FlagStateOk(s) && Defined(s.m, s.c) && Ready(s.m, s.c) && ExitOk(s.m)
    ensures FlagStateOk(StepExit(s))
  {
    ReadyRuns(s.m, s.c);
    PopKeepsLists(s.m, s.m.active, Stopped);
    NextThreadIsBest(SetStatus(s.m, s.m.active, Stopped));
    CoreAgrees(s.m, s.c);
    hide RunQueuesOk, WaitListsOk, PlacesOk, FlagsOk, CoreInv, Agree;
    var s' := StepExit(s);
    FlagFewer(s.m.prio, s.c.pc, s.m.status, s.m.flags, s.m.wait, s'.m.prio, s'.c.pc, s'.m.status);
  }

  // Between sections

  lemma InnerPcs(s: K, step: Step)
    requires Enabled(s, step) && Inner(step) && !step.Resume?
    ensures var pc := Apply(s, step).c.pc;
            forall t :: t in s.c.pc ==> t in pc && (pc[t] == s.c.pc[t] || SameCont(s.c.pc[t], pc[t]))
  {
    hide Shape, SchedRun, RotateActive;
  }

  lemma RotateFlags(m: Mem)
    requires Shape(m)
    ensures SameFlags(m, RotateActive(m))
  {
  }

  lemma RunFlags(m: Mem)
    requires Shape(m)
    ensures SameFlags(m, m) && (Runnable(m) ==> SameFlags(m, SchedRun(m)))
    ensures Runnable(RotateActive(m)) ==> SameFlags(m, SchedRun(RotateActive(m)))
  {
    RotateFlags(m);
    hide RotateActive, Best;
  }

  lemma InnerFlags(s: K, step: Step)
    requires Enabled(s, step) && Inner(step) && !step.Resume?
    ensures SameFlags(s.m, Apply(s, step).m)
  {
    hide LevelsOk, ListsKeyed, RunQueuesKeyed, SchedRun, RotateActive, SameFlags;
    RunFlags(s.m);
    RotateFlags(s.m);
  }

  /** Something of the mask is set when wait_one reads the flags. */
  lemma PartIsFound(flags: bv16, mask: bv16)
    requires F.HasAny(flags, mask)
    ensures Found(mask, F.Part(flags, mask)) && F.HasAll(flags, F.Part(flags, mask))
  {
    hide F.HasAny, F.HasAll, F.Part, Found;
    PartInMask(flags, mask);
    PartIsSet(flags, mask);
  }

  lemma PartInMask(flags: bv16, mask: bv16)
    requires F.HasAny(flags, mask)
    ensures Found(mask, F.Part(flags, mask))
  {
    assert flags & mask == mask & flags;
    assert (mask & flags) & mask == mask & flags;
  }

  lemma PartIsSet(flags: bv16, mask: bv16)
    ensures F.HasAll(flags, F.Part(flags, mask))
  {
    assert flags & (mask & flags) == mask & flags;
  }

  lemma ResumeGrants(m: Mem, pc: Pc, st: Status, flags: bv16, wait: WaitData)
    requires Shape(m) && pc.Do? && OnRunqueue(st) && FlagOk(pc, st, m.flags[m.active], wait)
    requires flags == m.flags[m.active] || !pc.k.ReadOne?
    ensures FlagOk(ResumePc(m, pc.k), st, flags, wait)
  {
    hide F.HasAny, F.HasAll, Found, F.Part;
    if pc.k.ReadOne? { PartIsFound(m.flags[m.active], pc.k.mask); }
  }

  lemma ResumeFields(m: Mem, k: Cont)
    requires Shape(m) && (k.PutDone? ==> k.mbox in m.mbox)
    ensures var r, a := ResumeMem(m, k), m.active;
            && a in r.flags && r.flags == m.flags[a := r.flags[a]] && (k.ReadOne? ==> r.flags[a] == m.flags[a])
            && r.status == m.status && r.wait == m.wait && r.prio == m.prio
  {
    hide LevelsOk, ListsKeyed, RunQueuesKeyed, F.Clear, F.LowestFlag, Store;
    assert m.flags[m.active := m.flags[m.active]] == m.flags;
    if k.ClearAny? {
      ClearFields(m, k.mask);
    } else if k.ClearAll? {
      ClearFields(m, k.mask);
    } else if k.ClearOne? {
      ClearFields(m, F.LowestFlag(k.read));
    } else if k.PutDone? {
      StoreKeepsFlags(m, k.mbox, k.msg);
    }
  }

  lemma ClearFields(m: Mem, mask: bv16)
    requires Shape(m)
    ensures var r, a := F.Clear(m, m.active, mask).0, m.active;
            && a in r.flags && r.flags == m.flags[a := r.flags[a]]
            && r.status == m.status && r.wait == m.wait && r.prio == m.prio
  {
    hide LevelsOk, ListsKeyed, RunQueuesKeyed, F.Without;
  }

  lemma StoreKeepsFlags(m: Mem, b: nat, msg: Msg)
    requires Shape(m) && b in m.mbox
    ensures var r := Store(m, b, msg);
            r.flags == m.flags && r.status == m.status && r.wait == m.wait && r.prio == m.prio
  {
    hide LevelsOk, ListsKeyed, RunQueuesKeyed, PutSlot;
  }

  lemma ActiveDoRuns(m: Mem, c: Ctl)
    requires CoreInv(m, c) && c.pc[m.active].Do?
    ensures OnRunqueue(m.status[m.active])
  {
  }

  lemma ResumeKeepsFlagState(s: K)
    requires Core(s) && FlagStateOk(s) && s.m.active in s.c.pc && s.c.pc[s.m.active].Do?
    requires s.c.pc[s.m.active].k.PutDone? ==> s.c.pc[s.m.active].k.mbox in s.m.mbox
    ensures FlagStateOk(StepResume(s, s.c.pc[s.m.active].k))
  {
    hide CoreInv, FlagOk, ResumeMem, ResumePc;
    CoreLists(s.m, s.c);
    ActiveDoRuns(s.m, s.c);
    var m, a, pc := s.m, s.m.active, s.c.pc;
    var k := pc[a].k;
    ResumeFields(m, k);
    var f := ResumeMem(m, k).flags[a];
    ResumeGrants(m, pc[a], m.status[a], f, m.wait[a]);
    FlagPoint(m.prio, pc, m.status, m.flags, m.wait, a, ResumePc(m, k), m.status[a], f, m.wait[a]);
    assert m.status[a := m.status[a]] == m.status && m.wait[a := m.wait[a]] == m.wait;
  }

  lemma InnerKeepsFlagState(s: K, step: Step)
    requires Core(s) && FlagStateOk(s) && Enabled(s, step) && Inner(step)
    ensures FlagStateOk(Apply(s, step))
  {
    if step.Resume? {
      hide Core, FlagsOk, StepResume;
      ResumeKeepsFlagState(s);
    } else {
      hide Apply, CoreInv, FlagsOk, SameCont, StillOn;
      CoreLists(s.m, s.c);
      CoreAgrees(s.m, s.c);
      InnerEffect(s, step);
      InnerFlags(s, step);
      InnerPcs(s, step);
      var s' := Apply(s, step);
      FlagFewer(s.m.prio, s.c.pc, s.m.status, s.m.flags, s.m.wait, s.m.prio, s'.c.pc, s'.m.status);
    }
  }
}
