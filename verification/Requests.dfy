/** msg_send_receive and msg_reply over whole runs: who waits for a reply, where
    its request is, and what its buffer holds when it runs again. */
module Requests {
  import opened Names
  import opened Sequences
  import opened KernelState
  import opened Scheduler
  import opened Threads
  import F = ThreadFlags
  import opened Messages
  import opened Mailboxes
  import opened Effects
  import opened Machine
  import opened PlainSteps
  import opened Separation

  /** Exactly the threads with an unanswered request are ReplyBlocked, and
      exactly those whose request was not yet received or queued stand in a list. */
  ghost predicate OpenOk(prio: map<Pid, nat>, status: map<Pid, Status>, at: map<Pid, Option<ListId>>,
                         open: map<Pid, Request>) {
    && (forall t :: t in open ==> t in prio)
    && (forall t :: t in prio ==> t in status && t in at && (t in open <==> status[t] == ReplyBlocked))
    && (forall t :: t in open && t in at ==> (open[t].phase == Parked <==> at[t].Some?))
  }

  ghost predicate RequestsOk(s: K) {
    OpenOk(s.m.prio, s.m.status, s.m.at, s.open)
  }

  lemma OpenFrame(m: Mem, r: Mem, w: set<Status>, b: set<Status>, open: map<Pid, Request>)
    requires Caller(m, r, w, b) && ReplyBlocked !in w && ReplyBlocked !in b && SendBlocked !in w
    requires OpenOk(m.prio, m.status, m.at, open)
    ensures OpenOk(r.prio, r.status, r.at, open)
  {
    hide ListsInv, ListsKept, Moves, LevelsOk, ListsKeyed, RunQueuesKeyed;
    forall t | t in r.prio
      ensures t in r.status && t in r.at && (t in open <==> r.status[t] == ReplyBlocked)
      ensures t in open ==> (open[t].phase == Parked <==> r.at[t].Some?)
    {
      OpenFrameAt(m, r, w, b, open, t);
    }
  }

  lemma OpenFrameAt(m: Mem, r: Mem, w: set<Status>, b: set<Status>, open: map<Pid, Request>, t: Pid)
    requires Moves(w, b, m.active, m.prio, m.status, m.at, m.wait, r.status, r.at, r.wait)
    requires ReplyBlocked !in w && ReplyBlocked !in b && SendBlocked !in w
    requires OpenOk(m.prio, m.status, m.at, open) && t in m.prio && t in r.status && t in r.at
    ensures t in open <==> r.status[t] == ReplyBlocked
    ensures t in open ==> (open[t].phase == Parked <==> r.at[t].Some?)
  {
  }

  /** A reply to a received request finds the requester outside all lists. */
  lemma ReplyIsSafe(s: K, step: Step)
    requires Core(s) && RequestsOk(s) && Enabled(s, step) && !Inner(step)
    ensures ReplyFindsUnlisted(s.m, step)
  {
    hide Core;
  }

  // The steps that start, move and end requests

  lemma OpenRequest(m: Mem, r: Mem, open: map<Pid, Request>, req: Request)
    requires Caller(m, r, RECEIVERS, {SendBlocked, ReplyBlocked}) && OpenOk(m.prio, m.status, m.at, open)
    requires On(m.status, m.active) && r.status[m.active] == ReplyBlocked
    requires req.phase == Parked <==> r.at[m.active].Some?
    ensures OpenOk(r.prio, r.status, r.at, open[m.active := req])
  {
    hide ListsInv, ListsKept, Moves, LevelsOk, ListsKeyed, RunQueuesKeyed;
    forall t | t in r.prio
      ensures t in r.status && t in r.at && (t in open[m.active := req] <==> r.status[t] == ReplyBlocked)
      ensures t in open[m.active := req] ==> (open[m.active := req][t].phase == Parked <==> r.at[t].Some?)
    {
      OpenRequestAt(m, r, open, t);
    }
  }

  lemma OpenRequestAt(m: Mem, r: Mem, open: map<Pid, Request>, t: Pid)
    requires Moves(RECEIVERS, {SendBlocked, ReplyBlocked}, m.active, m.prio, m.status, m.at, m.wait,
                   r.status, r.at, r.wait)
    requires OpenOk(m.prio, m.status, m.at, open) && t in m.prio && t in r.status && t in r.at
    ensures t != m.active ==> (t in open <==> r.status[t] == ReplyBlocked)
    ensures t != m.active && t in open ==> (open[t].phase == Parked <==> r.at[t].Some?)
  {
  }

  lemma RequestBlocks(m: Mem, to: Pid, msg: Msg)
    requires Shape(m) && to in m.prio && to != m.active && m.at[m.active] == None
    ensures var r := SendReceive(m, to, msg).0;
            && m.active in r.status && r.status[m.active] == ReplyBlocked && m.active in r.at
            && (r.at[m.active].Some? <==> PhaseOf(FateOf(m, to, false, true)) == Parked)
  {
    RequestEffect(m, to, msg);
    hide SendReceive, Requested, Offer, Insert, F.Met, Shape;
  }

  lemma RequestOpens(m: Mem, to: Pid, msg: Msg, open: map<Pid, Request>)
    requires ActiveRuns(m) && to in m.prio && to != m.active && OpenOk(m.prio, m.status, m.at, open)
    ensures var r := SendReceive(m, to, msg).0;
            var phase := PhaseOf(FateOf(m, to, false, true));
            OpenOk(r.prio, r.status, r.at, open[m.active := Request(msg, to, phase)])
  {
    hide RunQueuesOk, WaitListsOk, PlacesOk, SendReceive, FateOf, PhaseOf, OpenOk, Moves, ListsKept;
    UnlistedStatus(m, m.active);
    SendReceiveIsGood(m, to, msg);
    RequestBlocks(m, to, msg);
    OpenRequest(m, SendReceive(m, to, msg).0, open, Request(msg, to, PhaseOf(FateOf(m, to, false, true))));
  }

  lemma RequestKeepsRequests(s: K, to: Pid, typ: nat, content: nat)
    requires Core(s) && RequestsOk(s) && Defined(s.m, s.c) && Ready(s.m, s.c) && to in s.m.prio && to != s.m.active
    ensures RequestsOk(StepRequest(s, to, typ, content))
  {
    hide OpenOk, SendReceive, SendLog, GivenLog, FateOf, PhaseOf, ActiveRuns, SettlePc;
    ReadyRuns(s.m, s.c);
    RequestOpens(s.m, to, Msg(s.m.active, typ, content, s.nextId), s.open);
  }

  lemma OpenPulled(prio: map<Pid, nat>, status: map<Pid, Status>, at: map<Pid, Option<ListId>>,
                   open: map<Pid, Request>, h: Pid)
    requires OpenOk(prio, status, at, open) && h in prio
    ensures OpenOk(prio, if status[h] == ReplyBlocked then status else status[h := Pending], at[h := None],
                   MarkQueued(open, h))
  {
  }

  lemma OpenSeen(prio: map<Pid, nat>, status: map<Pid, Status>, at: map<Pid, Option<ListId>>,
                 open: map<Pid, Request>, msg: Msg)
    requires OpenOk(prio, status, at, open)
    ensures OpenOk(prio, status, at, MarkSeen(open, msg))
  {
  }

  lemma OpenMoved(prio: map<Pid, nat>, status: map<Pid, Status>, at: map<Pid, Option<ListId>>,
                  open: map<Pid, Request>, t: Pid, st: Status)
    requires OpenOk(prio, status, at, open) && t in prio && status[t] != ReplyBlocked && st != ReplyBlocked
    ensures OpenOk(prio, status[t := st], at, open)
  {
  }

  lemma ReceiveMoves(m: Mem, block: bool, open: map<Pid, Request>)
    requires ActiveRuns(m) && OpenOk(m.prio, m.status, m.at, open)
    ensures var (r, _, got) := Receive(m, block); OpenOk(r.prio, r.status, r.at, ReceiveOpen(open, m, got))
  {
    var a, w := m.active, Lst(m.lists, MsgWaiters(m.active));
    ReceiveEffect(m, block);
    ReceiveIsGood(m, block);
    hide RunQueuesOk, WaitListsOk, PlacesOk, Moves, ListsKept, Receive, Refilled, Take, OpenOk, MarkQueued, MarkSeen;
    var (r, _, got) := Receive(m, block);
    assert r.prio == m.prio;
    if w == [] {
      OpenStatus(m, open);
      OpenMoved(m.prio, m.status, m.at, open, a, ReceiveBlocked);
      if got.Some? { OpenSeen(m.prio, r.status, r.at, open, got.value); }
    } else {
      OpenPulled(m.prio, m.status, m.at, open, w[0]);
      OpenSeen(m.prio, r.status, r.at, MarkQueued(open, w[0]), got.value);
    }
  }

  lemma OpenStatus(m: Mem, open: map<Pid, Request>)
    requires OpenOk(m.prio, m.status, m.at, open)
    ensures forall t :: t in m.prio ==> t in m.status && (t in open <==> m.status[t] == ReplyBlocked)
  {
  }

  lemma ReceiveKeepsRequests(s: K, blocking: bool)
    requires Core(s) && RequestsOk(s) && Defined(s.m, s.c) && Ready(s.m, s.c)
    ensures RequestsOk(StepReceive(s, blocking))
  {
    hide OpenOk, Receive, ReceiveLog, ReceiveOpen, ActiveRuns, SettlePc;
    ReadyRuns(s.m, s.c);
    ReceiveMoves(s.m, blocking, s.open);
  }

  lemma OpenAnswered(prio: map<Pid, nat>, status: map<Pid, Status>, at: map<Pid, Option<ListId>>,
                     open: map<Pid, Request>, t: Pid)
    requires OpenOk(prio, status, at, open) && t in prio
    ensures OpenOk(prio, status[t := Pending], at, open - {t})
  {
  }

  lemma ReplyKeepsRequests(s: K, t: Pid, reply: Msg)
    requires Core(s) && RequestsOk(s) && Defined(s.m, s.c) && t in s.m.prio
    ensures RequestsOk(StepReply(s, t, reply))
  {
    hide Core, OpenOk, HandOver, SettlePc, LevelsOk, ListsKeyed, RunQueuesKeyed;
    HandOverEffect(s.m, t, reply, SendBlocked);
    OpenAnswered(s.m.prio, s.m.status, s.m.at, s.open, t);
    HandOverPrio(s.m, t, reply);
  }

  lemma HandOverPrio(m: Mem, t: Pid, msg: Msg)
    requires Shape(m) && t in m.prio
    ensures HandOver(m, t, msg).prio == m.prio
  {
  }

  // The other steps

  lemma OpenSame(prio: map<Pid, nat>, status: map<Pid, Status>, at: map<Pid, Option<ListId>>,
                 open: map<Pid, Request>, prio': map<Pid, nat>, status': map<Pid, Status>)
    requires OpenOk(prio, status, at, open)
    requires forall t :: t in prio' ==>
               t in prio && t in status' && (status'[t] == ReplyBlocked <==> status[t] == ReplyBlocked)
    requires forall t :: t in prio && t !in prio' ==> status[t] != ReplyBlocked
    ensures OpenOk(prio', status', at, open)
  {
  }

  lemma OpenLost(prio: map<Pid, nat>, status: map<Pid, Status>, at: map<Pid, Option<ListId>>,
                 open: map<Pid, Request>, a: Pid)
    requires OpenOk(prio, status, at, open)
    ensures OpenOk(prio, status, at, MarkLost(open, a))
  {
  }

  lemma ExitKeepsOpen(m: Mem, open: map<Pid, Request>)
    requires ActiveRuns(m) && ExitOk(m) && OpenOk(m.prio, m.status, m.at, open)
    ensures var r := Exit(m); OpenOk(r.prio, r.status, r.at, MarkLost(open, m.active))
  {
    PopKeepsLists(m, m.active, Stopped);
    NextThreadIsBest(SetStatus(m, m.active, Stopped));
    hide RunQueuesOk, WaitListsOk, PlacesOk, OpenOk, MarkLost;
    OpenStatus(m, open);
    OpenSame(m.prio, m.status, m.at, open, Exit(m).prio, Exit(m).status);
    OpenLost(Exit(m).prio, Exit(m).status, m.at, open, m.active);
  }

  lemma OpenNew(prio: map<Pid, nat>, status: map<Pid, Status>, at: map<Pid, Option<ListId>>,
                open: map<Pid, Request>, t: Pid, p: nat, st: Status)
    requires OpenOk(prio, status, at, open) && t !in prio && st != ReplyBlocked
    ensures OpenOk(prio[t := p], status[t := st], at[t := None], open)
  {
  }

  lemma CreateKeepsRequests(s: K, prio: nat, sleeping: bool, wout: bool, flags: bv16)
    requires Core(s) && RequestsOk(s)
    ensures RequestsOk(StepCreate(s, prio, sleeping, wout, flags))
  {
    hide OpenOk, Create, SettlePc;
    CreateAddsOne(s.m, prio, sleeping, wout, flags);
    var free := FreePid(s.m.prio, KERNEL_PID_FIRST, s.m.maxPid);
    if free.Some? {
      OpenNew(s.m.prio, s.m.status, s.m.at, s.open, free.value, prio, if sleeping then Sleeping else Pending);
    }
  }

  lemma ExitKeepsRequests(s: K)
    requires Core(s) && RequestsOk(s) && Defined(s.m, s.c) && Ready(s.m, s.c) && ExitOk(s.m)
    ensures RequestsOk(StepExit(s))
  {
    hide OpenOk, Exit, ActiveRuns, ExitOk, MarkLost;
    ReadyRuns(s.m, s.c);
    ExitKeepsOpen(s.m, s.open);
  }

  lemma UnmovedKeepsOpen(m: Mem, r: Mem, open: map<Pid, Request>)
    requires Unmoved(m, r) && OpenOk(m.prio, m.status, m.at, open)
    ensures OpenOk(r.prio, r.status, r.at, open)
  {
    OpenSame(m.prio, m.status, m.at, open, r.prio, r.status);
  }

  lemma InnerKeepsRequests(s: K, step: Step)
    requires Core(s) && RequestsOk(s) && Enabled(s, step) && Inner(step)
    ensures RequestsOk(Apply(s, step))
  {
    hide OpenOk, Apply, Unmoved, CoreInv;
    CoreLists(s.m, s.c);
    InnerEffect(s, step);
    InnerKeepsLogs(s, step);
    UnmovedKeepsOpen(s.m, Apply(s, step).m, s.open);
  }

  /** Calls that carry a message but no request or reply. */
  lemma CarryKeepsOpen(s: K, step: Step)
    requires Enabled(s, step) && (step.DoSend? || step.DoSendInt? || step.DoPut? || step.DoGet? || step.DoInitQueue?)
    ensures Apply(s, step).open == s.open
  {
    hide Shape, Send, SendInt, PutMsg, GetMsg, SendLog, GivenLog, FateOf, PutLog, GetLog, CountersFresh, ExitOk,
      InitQueue, SettleMem, SettlePc;
  }

  lemma CallKeepsRequests(s: K, step: Step)
    requires Core(s) && RequestsOk(s) && Enabled(s, step) && !Inner(step)
    ensures RequestsOk(Apply(s, step))
  {
    hide Core, OpenOk, RequestsOk, Defined, Ready, Ended, StepCreate, StepExit, StepLock, StepUnlockSleep, StepSend,
      StepRequest, StepReceive, InitQueue, F.Clear, StepWaitAny, StepWait, StepUnlock, StepReply, StepPut, StepGet,
      StepSendInt, CountersFresh, ExitOk, OpenOk;
    match step
    case DoCreate(prio, sleeping, wout, flags) => CreateKeepsRequests(s, prio, sleeping, wout, flags);
    case DoExit => ExitKeepsRequests(s);
    case DoRequest(to, typ, content) => RequestKeepsRequests(s, to, typ, content);
    case DoReceive(blocking) => ReceiveKeepsRequests(s, blocking);
    case DoReply(t, reply) => ReplyKeepsRequests(s, t, reply);
    case _ => OtherCallKeepsRequests(s, step);
  }

  lemma OtherCallKeepsRequests(s: K, step: Step)
    requires Core(s) && RequestsOk(s) && Enabled(s, step) && !Inner(step) && !step.DoCreate? && !step.DoExit?
    requires !step.DoRequest? && !step.DoReceive? && !step.DoReply?
    ensures RequestsOk(Apply(s, step))
  {
    hide Core, OpenOk, Apply, Enabled, Caller, PcMoves, SameData;
    ReplyIsSafe(s, step);
    CallKeepsCore(s, step);
    if Plain(step) && !step.DoInitQueue? { PlainKeepsMessages(s, step); } else { CarryKeepsOpen(s, step); }
    OpenFrame(s.m, Apply(s, step).m, Wakes(step), Blocks(step), s.open);
  }
}
