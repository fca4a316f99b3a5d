/** Every step keeps the record of requests right. */
module TraceSteps {
  import opened Names
  import opened Sequences
  import opened CircularIndex
  import opened KernelState
  import opened Scheduler
  import opened Threads
  import opened Messages
  import opened Mailboxes
  import opened Effects
  import opened Machine
  import opened PlainSteps
  import opened Separation
  import opened Requests
  import opened Conservation
  import opened Traces

  ghost predicate Traced(s: K, s': K) {
    && TracedOk(s') && s.nextId <= s'.nextId
    && Follows(s.open, s.ms.delivered, s'.open, s'.ms.delivered, s.nextId)
    && NumberedDeliveries(s.ms.delivered, s'.ms.delivered, s'.nextId)
  }

  /** What the proofs need of the kernel before the step. */
  ghost predicate Tracing(s: K) {
    Core(s) && RequestsOk(s) && MessagesOk(s) && NumbersOk(s) && TracedOk(s)
  }

  // Messages

  lemma SendTraced(s: K, to: Pid, typ: nat, content: nat, blocking: bool)
    requires Core(s) && TracedOk(s) && RequestsOk(s) && Defined(s.m, s.c) && Ready(s.m, s.c) && CountersFresh(s.m)
    requires StepSend(s, to, typ, content, blocking).m.prio == s.m.prio
    ensures Traced(s, StepSend(s, to, typ, content, blocking))
  {
    hide CoreInv, Send, FateOf, FateFits, SendLog, GivenLog, SettlePc, Placed, Stamped, LinesOf, Follows,
      NumberedDeliveries, Sent,
      LevelsOk, ListsKeyed, RunQueuesKeyed, RunQueuesOk, WaitListsOk, PlacesOk;
    ReadyRuns(s.m, s.c);
    var m, msg := s.m, Msg(s.m.active, typ, content, s.nextId);
    UnlistedStatus(m, m.active);
    SendEffect(m, to, msg, blocking);
    FateIsFitting(m, to, msg, to == m.active, blocking);
    SentTraces(m, Send(m, to, msg, blocking).0, to, msg, FateOf(m, to, to == m.active, blocking), SendBlocked, s.open,
               s.ms);
  }

  lemma SendIntTraced(s: K, to: Pid, typ: nat, content: nat)
    requires Core(s) && TracedOk(s) && Defined(s.m, s.c) && CountersFresh(s.m)
    requires StepSendInt(s, to, typ, content).m.prio == s.m.prio
    ensures Traced(s, StepSendInt(s, to, typ, content))
  {
    hide CoreInv, SendInt, FateFits, SendLog, GivenLog, SettlePc, Placed, Stamped, LinesOf, Follows, NumberedDeliveries,
      Sent,
      LevelsOk, ListsKeyed, RunQueuesKeyed;
    CoreLists(s.m, s.c);
    var m, msg := s.m, Msg(s.m.maxPid + 1, typ, content, s.nextId);
    SendIntEffect(m, to, msg);
    FateIsFitting(m, to, msg, false, false);
    SentTraces(m, SendInt(m, to, msg).0, to, msg, FateOf(m, to, false, false), SendBlocked, s.open, s.ms);
  }

  lemma RequestTraced(s: K, to: Pid, typ: nat, content: nat)
    requires Tracing(s) && Defined(s.m, s.c) && Ready(s.m, s.c) && CountersFresh(s.m) && to in s.m.prio
    requires to != s.m.active
    ensures Traced(s, StepRequest(s, to, typ, content))
  {
    hide CoreInv, SendReceive, FateOf, PhaseOf, SendLog, GivenLog, SettlePc, Placed, Stamped, LinesOf, Follows,
      NumberedDeliveries,
      Numbered, LevelsOk, ListsKeyed, RunQueuesKeyed, RunQueuesOk, WaitListsOk, PlacesOk, MsgsOk, IdsOk;
    ReadyRuns(s.m, s.c);
    var m, msg := s.m, Msg(s.m.active, typ, content, s.nextId);
    LinesAreNumbered(m, s.ms, s.nextId);
    RequestPrio(m, to, msg);
    RequestTraces(m, to, msg, s.open, s.ms);
  }

  lemma ReceiveTraced(s: K, blocking: bool)
    requires Tracing(s) && Defined(s.m, s.c) && Ready(s.m, s.c) && CountersFresh(s.m)
    ensures Traced(s, StepReceive(s, blocking))
  {
    hide CoreInv, Receive, ReceiveOpen, ReceiveLog, SettlePc, Placed, Stamped, LinesOf, Follows, NumberedDeliveries,
      LevelsOk,
      ListsKeyed, RunQueuesKeyed, RunQueuesOk, WaitListsOk, PlacesOk, MsgsOk, IdsOk, OpenOk;
    ReadyRuns(s.m, s.c);
    ReceivePrio(s.m, blocking);
    ReceiveTraces(s.m, blocking, s.open, s.ms, s.nextId);
  }

  lemma ReceivePrio(m: Mem, block: bool)
    requires ActiveRuns(m)
    ensures Receive(m, block).0.prio == m.prio
  {
    hide Receive, ListsInv, Moves, ListsKept;
    ReceiveIsGood(m, block);
  }

  lemma ReplyTraced(s: K, t: Pid, reply: Msg)
    requires Core(s) && TracedOk(s) && Defined(s.m, s.c) && t in s.m.prio
    requires (s.m.status[t] == ReplyBlocked ==> s.m.at[t] == None)
    ensures Traced(s, StepReply(s, t, reply))
  {
    HandOverEffect(s.m, t, reply, SendBlocked);
    hide CoreInv, HandOver, SettlePc, Placed, Stamped, LinesOf, Follows, NumberedDeliveries, LevelsOk, ListsKeyed,
      RunQueuesKeyed;
    var m, lines := s.m, LinesOf(s.m.prio, s.m.queue);
    NothingFollows(s.open, s.ms.delivered, s.nextId, s.nextId);
    if m.status[t] == ReplyBlocked {
      PlacedElsewhere(m.prio, m.at, m.buf, lines, s.open, s.nextId, t, reply);
      PlacedFewer(m.at, m.buf[t := reply], lines, s.open, s.nextId, t, s.ms.delivered);
    }
  }

  // Mailboxes

  /** Who waits in a list of a mailbox waits in no list of senders. */
  lemma BoxWaiter(m: Mem, l: ListId)
    requires ListsInv(m) && Lst(m.lists, l) != []
    ensures var h := Lst(m.lists, l)[0]; h in m.prio && h in m.at && h in m.buf && m.at[h] == Some(l)
  {
    var h := Lst(m.lists, l)[0];
    assert h in Lst(m.lists, l);
    hide RunQueuesOk, PlacesOk;
  }

  lemma PutTraces(m: Mem, b: nat, msg: Msg, blocking: bool, lines: Lines, open: map<Pid, Request>, next: nat)
    requires ListsInv(m) && b in m.mbox && (blocking ==> m.at[m.active] == None)
    requires Placed(m.at, m.buf, lines, open, next) && Stamped(m.prio, m.at, m.buf)
    ensures var r := PutMsg(m, b, msg, blocking).0;
            Placed(r.at, r.buf, lines, open, next + 1) && Stamped(m.prio, r.at, r.buf)
  {
    hide RunQueuesOk, WaitListsOk, PlacesOk, LevelsOk, ListsKeyed, RunQueuesKeyed, PutMsg, PutSlot, Insert, Full,
      Placed, Stamped;
    PutEffect(m, b, msg, blocking);
    PlacedLater(m.at, m.buf, lines, open, next);
    if Lst(m.lists, Readers(b)) != [] {
      BoxWaiter(m, Readers(b));
      PlacedMoves(m.prio, m.at, m.buf, lines, open, next + 1, Lst(m.lists, Readers(b))[0], None, msg);
    } else if blocking {
      PlacedMoves(m.prio, m.at, m.buf, lines, open, next + 1, m.active, Some(Writers(b)), msg);
    }
  }

  lemma GetTraces(m: Mem, b: nat, blocking: bool, lines: Lines, open: map<Pid, Request>, next: nat)
    requires ListsInv(m) && b in m.mbox && (blocking ==> m.at[m.active] == None)
    requires Placed(m.at, m.buf, lines, open, next) && Stamped(m.prio, m.at, m.buf)
    ensures var r := GetMsg(m, b, blocking).0; Placed(r.at, r.buf, lines, open, next) && Stamped(m.prio, r.at, r.buf)
  {
    hide RunQueuesOk, WaitListsOk, PlacesOk, LevelsOk, ListsKeyed, RunQueuesKeyed, GetMsg, GetSlot, Insert, Avail,
      Placed, Stamped;
    GetEffect(m, b, blocking);
    if Lst(m.lists, Writers(b)) != [] {
      BoxWaiter(m, Writers(b));
      PlacedMoves(m.prio, m.at, m.buf, lines, open, next, Lst(m.lists, Writers(b))[0], None, BLANK);
    }
    if blocking { PlacedMoves(m.prio, m.at, m.buf, lines, open, next, m.active, Some(Readers(b)), BLANK); }
  }

  lemma BoxCallerUnlisted(s: K, blocking: bool)
    requires Core(s) && Defined(s.m, s.c) && (blocking ==> Ready(s.m, s.c))
    ensures ListsInv(s.m) && (blocking ==> s.m.at[s.m.active] == None)
  {
    CoreLists(s.m, s.c);
    hide CoreInv, RunQueuesOk, WaitListsOk, PlacesOk;
    if blocking {
      ReadyRuns(s.m, s.c);
      UnlistedStatus(s.m, s.m.active);
    }
  }

  lemma PutTraced(s: K, b: nat, typ: nat, content: nat, blocking: bool)
    requires Core(s) && TracedOk(s) && Defined(s.m, s.c) && b in s.m.mbox && (blocking ==> Ready(s.m, s.c))
    requires StepPut(s, b, typ, content, blocking).m.prio == s.m.prio
    ensures Traced(s, StepPut(s, b, typ, content, blocking))
  {
    hide CoreInv, PutMsg, PutLog, SettlePc, Placed, Stamped, LinesOf, Follows, NumberedDeliveries, ListsInv, Full,
      LevelsOk, ListsKeyed, RunQueuesKeyed;
    var msg := Msg(KERNEL_PID_UNDEF, typ, content, s.nextId);
    BoxCallerUnlisted(s, blocking);
    PutEffect(s.m, b, msg, blocking);
    PutTraces(s.m, b, msg, blocking, LinesOf(s.m.prio, s.m.queue), s.open, s.nextId);
    NothingFollows(s.open, s.ms.delivered, s.nextId, s.nextId + 1);
  }

  lemma GetTraced(s: K, b: nat, blocking: bool)
    requires Core(s) && TracedOk(s) && Defined(s.m, s.c) && b in s.m.mbox && (blocking ==> Ready(s.m, s.c))
    requires StepGet(s, b, blocking).m.prio == s.m.prio
    ensures Traced(s, StepGet(s, b, blocking))
  {
    hide CoreInv, GetMsg, GetLog, SettlePc, Placed, Stamped, LinesOf, Follows, NumberedDeliveries, ListsInv, Avail,
      GetSlot,
      LevelsOk, ListsKeyed, RunQueuesKeyed;
    BoxCallerUnlisted(s, blocking);
    GetEffect(s.m, b, blocking);
    GetTraces(s.m, b, blocking, LinesOf(s.m.prio, s.m.queue), s.open, s.nextId);
    NothingFollows(s.open, s.ms.delivered, s.nextId, s.nextId);
  }

  // Calls without messages

  lemma PlainSparesSenders(step: Step)
    requires Plain(step)
    ensures !Inner(step) && !step.DoCreate? && !step.DoExit? && SendBlocked !in Wakes(step) + Blocks(step)
  {
  }

  lemma PlainTraced(s: K, step: Step)
    requires Core(s) && RequestsOk(s) && TracedOk(s) && Enabled(s, step) && Plain(step) && !step.DoInitQueue?
    ensures Traced(s, Apply(s, step))
  {
    hide CoreInv, OpenOk, Enabled, Apply, Moves, ListsInv, ListsKept, PcMoves, Placed, Stamped, LinesOf, Follows,
      NumberedDeliveries, Wakes, Blocks, Plain;
    CoreLists(s.m, s.c);
    PlainSparesSenders(step);
    ReplyIsSafe(s, step);
    CallKeepsCore(s, step);
    PlainKeepsMessages(s, step);
    FrameTraces(s.m, Apply(s, step).m, Wakes(step), Blocks(step), LinesOf(s.m.prio, s.m.queue), s.open, s.nextId);
    NothingFollows(s.open, s.ms.delivered, s.nextId, s.nextId);
  }

  lemma EmptyQueues(slots: seq<Msg>, f: MsgQueue)
    requires IsSize(|slots|) && |slots| < U32 && f.slots == []
    ensures Items(NewQueue(slots)) == [] == Items(f)
  {
    InitIsEmpty(|slots|);
    OfferAppends(f, BLANK);
  }

  lemma InitQueueTraced(s: K, slots: seq<Msg>)
    requires TracedOk(s) && Defined(s.m, s.c) && IsSize(|slots|) && |slots| < U32 && s.m.queue[s.m.active].slots == []
    ensures Traced(s, s.(m := InitQueue(s.m, slots)))
  {
    hide Placed, Stamped, LinesOf, Follows, NumberedDeliveries, NewQueue, IsSize, LevelsOk, ListsKeyed, RunQueuesKeyed,
      Items;
    var m, a := s.m, s.m.active;
    EmptyQueues(slots, m.queue[a]);
    LinesUpdate(m.prio, m.queue, a, NewQueue(slots));
    LinesHas(m.prio, m.queue, a);
    assert LinesOf(m.prio, m.queue)[a := []] == LinesOf(m.prio, m.queue);
    NothingFollows(s.open, s.ms.delivered, s.nextId, s.nextId);
  }

  // Threads come and go

  lemma PlacedNewThread(prio: map<Pid, nat>, at: map<Pid, Option<ListId>>, buf: map<Pid, Msg>, lines: Lines,
                        open: map<Pid, Request>, next: nat, t: Pid, p: nat)
    requires Placed(at, buf, lines, open, next) && Stamped(prio, at, buf) && t !in open && t !in lines
    ensures Placed(at[t := None], buf[t := BLANK], lines[t := []], open, next)
    ensures Stamped(prio[t := p], at[t := None], buf[t := BLANK])
  {
    var at', lines' := at[t := None], lines[t := []];
    assert forall u, x :: Lies(lines', u, x) <==> Lies(lines, u, x);
    PlacedSame(at, buf, lines, open, next, at', buf[t := BLANK], lines', next);
    assert forall v, w :: ListedAt(at', v, w) ==> v != t && ListedAt(at, v, w);
  }

  lemma NewDeliversNothing(open: map<Pid, Request>, del: map<Pid, seq<Msg>>, next: nat, t: Pid)
    ensures Follows(open, del, open, del[t := []], next) && NumberedDeliveries(del, del[t := []], next)
  {
    var del' := del[t := []];
    forall u, msg
      ensures !Delivers(del, del', u, msg)
    {
      assert |Of(del, u) + [msg]| == |Of(del, u)| + 1;
    }
  }

  lemma NewLine(prio: map<Pid, nat>, queue: map<Pid, MsgQueue>, t: Pid, p: nat)
    requires t !in prio
    ensures t !in LinesOf(prio, queue) && LinesOf(prio[t := p], queue[t := NO_QUEUE]) == LinesOf(prio, queue)[t := []]
  {
    OfferAppends(NO_QUEUE, BLANK);
    assert Items(NO_QUEUE) == [];
    hide Items;
  }

  lemma CreateTraced(s: K, prio: nat, sleeping: bool, wout: bool, flags: bv16)
    requires Core(s) && RequestsOk(s) && TracedOk(s) && Defined(s.m, s.c)
    ensures Traced(s, StepCreate(s, prio, sleeping, wout, flags))
  {
    hide CoreInv, Create, FreePid, SettlePc, Placed, Stamped, LinesOf, Follows, NumberedDeliveries, LevelsOk,
      ListsKeyed,
      RunQueuesKeyed;
    var m := s.m;
    CreateAddsOne(m, prio, sleeping, wout, flags);
    CreateAddsData(m, prio, sleeping, wout, flags);
    var free := FreePid(m.prio, KERNEL_PID_FIRST, m.maxPid);
    NothingFollows(s.open, s.ms.delivered, s.nextId, s.nextId);
    if prio < |m.rq| && free.Some? {
      var t := free.value;
      NewLine(m.prio, m.queue, t, prio);
      PlacedNewThread(m.prio, m.at, m.buf, LinesOf(m.prio, m.queue), s.open, s.nextId, t, prio);
      NewDeliversNothing(s.open, s.ms.delivered, s.nextId, t);
    }
  }

  lemma ExitTraced(s: K)
    requires TracedOk(s) && ExitOk(s.m)
    ensures Traced(s, StepExit(s))
  {
    hide MarkLost, Placed, Follows, NumberedDeliveries, LevelsOk, ListsKeyed, RunQueuesKeyed, Best, Items;
    PlacedLost(s.m.at, s.m.buf, LinesOf(s.m.prio, s.m.queue), s.open, s.nextId, s.m.active, s.ms.delivered);
    NothingFollows(s.open, s.ms.delivered, s.nextId, s.nextId);
    FewerLines(s.m.prio, s.m.queue, s.m.active);
  }

  lemma FewerLines(prio: map<Pid, nat>, queue: map<Pid, MsgQueue>, a: Pid)
    ensures LinesOf(prio - {a}, queue) == LinesOf(prio, queue) - {a}
  {
    hide Items;
  }

  lemma InnerTraced(s: K, step: Step)
    requires Core(s) && TracedOk(s) && Enabled(s, step) && Inner(step)
    ensures Traced(s, Apply(s, step))
  {
    hide CoreInv, Enabled, Apply, ListsInv, Placed, Stamped, LinesOf, Follows, NumberedDeliveries, StillOn;
    CoreLists(s.m, s.c);
    InnerEffect(s, step);
    InnerKeepsLogs(s, step);
    NothingFollows(s.open, s.ms.delivered, s.nextId, s.nextId);
  }

  // All steps

  lemma TalkTraced(s: K, step: Step)
    requires Tracing(s) && Enabled(s, step) && ReplyFindsUnlisted(s.m, step) && Apply(s, step).m.prio == s.m.prio
    requires step.DoSend? || step.DoRequest? || step.DoReceive? || step.DoReply? || step.DoSendInt?
    ensures Traced(s, Apply(s, step))
  {
    hide Core, RequestsOk, MessagesOk, NumbersOk, TracedOk, Traced, Shape, Ready, StepSend, StepRequest, StepReceive,
      StepReply,
      StepSendInt, CountersFresh, ExitOk;
    if step.DoSend? {
      SendTraced(s, step.to, step.typ, step.content, step.blocking);
    } else if step.DoRequest? {
      RequestTraced(s, step.to, step.typ, step.content);
    } else if step.DoReceive? {
      ReceiveTraced(s, step.blocking);
    } else if step.DoReply? {
      ReplyTraced(s, step.t, step.reply);
    } else {
      SendIntTraced(s, step.to, step.typ, step.content);
    }
  }

  lemma BoxTraced(s: K, step: Step)
    requires Tracing(s) && Enabled(s, step) && (step.DoPut? || step.DoGet?) && Apply(s, step).m.prio == s.m.prio
    ensures Traced(s, Apply(s, step))
  {
    hide Core, RequestsOk, MessagesOk, NumbersOk, TracedOk, Traced, Shape, Ready, StepPut, StepGet, CountersFresh,
      ExitOk;
    if step.DoPut? {
      PutTraced(s, step.b, step.typ, step.content, step.blocking);
    } else {
      GetTraced(s, step.b, step.blocking);
    }
  }

  lemma ThreadTraced(s: K, step: Step)
    requires Tracing(s) && Enabled(s, step) && (step.DoCreate? || step.DoExit? || step.DoInitQueue?)
    ensures Traced(s, Apply(s, step))
  {
    hide Core, RequestsOk, MessagesOk, NumbersOk, TracedOk, Traced, LevelsOk, ListsKeyed, RunQueuesKeyed, StepCreate,
      StepExit,
      InitQueue, CountersFresh, ExitOk, IsSize;
    if step.DoCreate? {
      CreateTraced(s, step.prio, step.sleeping, step.wout, step.flags);
    } else if step.DoExit? {
      ExitTraced(s);
    } else {
      InitQueueTraced(s, step.slots);
    }
  }

  lemma StepTraced(s: K, step: Step)
    requires Tracing(s) && Enabled(s, step)
    ensures Traced(s, Apply(s, step))
  {
    hide CoreInv, OpenOk, MsgsOk, IdsOk, TracedOk, Traced, Enabled, Apply, ListsInv, Moves, ListsKept, PcMoves,
      ReplyFindsUnlisted;
    if Inner(step) {
      InnerTraced(s, step);
    } else if step.DoCreate? || step.DoExit? || step.DoInitQueue? {
      ThreadTraced(s, step);
    } else if Plain(step) {
      PlainTraced(s, step);
    } else {
      CoreLists(s.m, s.c);
      ReplyIsSafe(s, step);
      CallKeepsCore(s, step);
      if step.DoPut? || step.DoGet? { BoxTraced(s, step); } else { TalkTraced(s, step); }
    }
  }
}
