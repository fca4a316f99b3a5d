/** Waiting senders are served in the order of their list: by priority, and in
    the order of their coming among equals. */
module SendOrder {
  import opened Names
  import opened Sequences
  import opened CircularIndex
  import opened KernelState
  import opened Scheduler
  import opened Threads
  import opened Messages
  import opened Mailboxes
  import opened Effects
  import opened Machine
  import opened PlainSteps
  import opened Separation
  import opened Requests
  import opened Buffers
  import opened Conservation
  import opened Flags
  import opened Priority
  import opened Exclusion
  import opened TraceSteps
  import opened Theorems
  import opened Lifecycles

  /** The messages to `r` in their order: those that entered, then those of the
      waiting senders. */
  function LineOf(ms: MsgLog, lists: map<ListId, seq<Pid>>, buf: map<Pid, Msg>, r: Pid): seq<Msg> {
    Of(ms.entered, r) + Held(Lst(lists, MsgWaiters(r)), buf)
  }

  predicate Joined(x: seq<Msg>, y: seq<Msg>, k: nat, msg: Msg) {
    k <= |x| && y == Splice(x, k, msg)
  }

  /** A line stays as it is, gets one new message somewhere, or starts anew with
      its receiver. */
  ghost predicate LineStep(x: seq<Msg>, y: seq<Msg>, next: nat) {
    y == x || y == [] || exists k, msg :: Joined(x, y, k, msg) && msg.id == next
  }

  ghost predicate LinesStep(ms: MsgLog, lists: map<ListId, seq<Pid>>, buf: map<Pid, Msg>,
                            ms': MsgLog, lists': map<ListId, seq<Pid>>, buf': map<Pid, Msg>, next: nat) {
    forall r :: LineStep(LineOf(ms, lists, buf, r), LineOf(ms', lists', buf', r), next)
  }

  ghost predicate Advances(s: K, s': K) {
    LinesStep(s.ms, s.m.lists, s.m.buf, s'.ms, s'.m.lists, s'.m.buf, s.nextId) && s.nextId <= s'.nextId
  }

  lemma SameLines(ms: MsgLog, lists: map<ListId, seq<Pid>>, buf: map<Pid, Msg>,
                  ms': MsgLog, lists': map<ListId, seq<Pid>>, buf': map<Pid, Msg>, next: nat)
    requires ms'.entered == ms.entered
    requires forall r :: Held(Lst(lists', MsgWaiters(r)), buf') == Held(Lst(lists, MsgWaiters(r)), buf)
    ensures LinesStep(ms, lists, buf, ms', lists', buf', next)
  {
    hide Held;
  }

  // Sending

  /** The message to `t` goes behind those that entered. */
  lemma EnterLines(ms: MsgLog, lists: map<ListId, seq<Pid>>, buf: map<Pid, Msg>, buf': map<Pid, Msg>, t: Pid, msg: Msg,
                   fate: Fate)
    requires fate == Enqueued || fate == Handed
    requires forall r :: Held(Lst(lists, MsgWaiters(r)), buf') == Held(Lst(lists, MsgWaiters(r)), buf)
    ensures LinesStep(ms, lists, buf, SendLog(ms, t, msg, fate), lists, buf', msg.id)
  {
    hide Held;
    var ent, held := Of(ms.entered, t), Held(Lst(lists, MsgWaiters(t)), buf);
    assert (ent + held)[..|ent|] == ent && (ent + held)[|ent|..] == held;
    assert Joined(ent + held, ent + [msg] + held, |ent|, msg);
  }

  lemma HeldWaits(w: seq<Pid>, a: Pid, prio: map<Pid, nat>, buf: map<Pid, Msg>, msg: Msg)
    requires Keyed(w, prio) && a in prio && Held(w, buf[a := msg]) == Held(w, buf)
    ensures var n := Passed(w, prio[a], prio);
            n <= |Held(w, buf)| && Held(Insert(w, a, prio), buf[a := msg]) == Splice(Held(w, buf), n, msg)
  {
    HeldSplice(w, Passed(w, prio[a], prio), a, buf[a := msg]);
  }

  /** The message of a new waiting sender goes in by the sender's priority. */
  lemma WaitLines(ms: MsgLog, lists: map<ListId, seq<Pid>>, buf: map<Pid, Msg>, t: Pid, msg: Msg, a: Pid,
                  prio: map<Pid, nat>)
    requires Keyed(Lst(lists, MsgWaiters(t)), prio) && a in prio
    requires forall r :: Held(Lst(lists, MsgWaiters(r)), buf[a := msg]) == Held(Lst(lists, MsgWaiters(r)), buf)
    ensures var w := Lst(lists, MsgWaiters(t));
            LinesStep(ms, lists, buf, SendLog(ms, t, msg, Waits), lists[MsgWaiters(t) := Insert(w, a, prio)],
                      buf[a := msg], msg.id)
  {
    var w, ent := Lst(lists, MsgWaiters(t)), Of(ms.entered, t);
    HeldWaits(w, a, prio, buf, msg);
    hide Held, Passed, Insert, Keyed, Splice;
    var n, held := Passed(w, prio[a], prio), Held(w, buf);
    SpliceBehind(ent, held, n, msg);
    assert Joined(ent + held, ent + Splice(held, n, msg), |ent| + n, msg);
  }

  lemma SpliceBehind(x: seq<Msg>, y: seq<Msg>, n: nat, msg: Msg)
    requires n <= |y|
    ensures Splice(x + y, |x| + n, msg) == x + Splice(y, n, msg)
  {
    assert (x + y)[..|x| + n] == x + y[..n] && (x + y)[|x| + n..] == y[n..];
  }

  lemma SentLines(m: Mem, r: Mem, t: Pid, msg: Msg, fate: Fate, st: Status, ms: MsgLog)
    requires ListsInv(m) && FateFits(m, t, msg, fate) && Sent(m, r, t, msg, fate, st)
    ensures LinesStep(ms, m.lists, m.buf, SendLog(ms, t, msg, fate), r.lists, r.buf, msg.id)
  {
    hide RunQueuesOk, WaitListsOk, LinesStep, Held, Flagged, Offer, Insert;
    match fate
    case Refused => SameLines(ms, m.lists, m.buf, ms, m.lists, m.buf, msg.id);
    case Enqueued => EnterLines(ms, m.lists, m.buf, m.buf, t, msg, fate);
    case Handed =>
      UnlistedStatus(m, t);
      UnlistedBuffer(m, t, msg);
      EnterLines(ms, m.lists, m.buf, r.buf, t, msg, fate);
    case Waits =>
      UnlistedBuffer(m, m.active, msg);
      assert Keyed(Lst(m.lists, MsgWaiters(t)), m.prio);
      WaitLines(ms, m.lists, m.buf, t, msg, m.active, m.prio);
  }

  lemma SendAdvances(s: K, to: Pid, typ: nat, content: nat, blocking: bool)
    requires Core(s) && Defined(s.m, s.c) && Ready(s.m, s.c) && CountersFresh(s.m)
    ensures Advances(s, StepSend(s, to, typ, content, blocking))
  {
    ReadyRuns(s.m, s.c);
    hide CoreInv, RunQueuesOk, WaitListsOk, PlacesOk, Send, Sent, LinesStep, SendLog, GivenLog, FateOf, FateFits,
      SettlePc, CountersFresh, LevelsOk, ListsKeyed, RunQueuesKeyed;
    var m, msg := s.m, Msg(s.m.active, typ, content, s.nextId);
    UnlistedStatus(m, m.active);
    SendEffect(m, to, msg, blocking);
    FateIsFitting(m, to, msg, to == m.active, blocking);
    SentLines(m, Send(m, to, msg, blocking).0, to, msg, FateOf(m, to, to == m.active, blocking), SendBlocked, s.ms);
  }

  lemma SendIntLines(m: Mem, to: Pid, msg: Msg, ms: MsgLog)
    requires ListsInv(m) && CountersFresh(m)
    ensures var r, fate := SendInt(m, to, msg).0, FateOf(m, to, false, false);
            LinesStep(ms, m.lists, m.buf, SendLog(ms, to, msg.(sender := m.maxPid + 1), fate), r.lists, r.buf, msg.id)
  {
    hide ListsInv, SendInt, Sent, LinesStep, SendLog, FateOf, FateFits;
    ShapeOf(m);
    SendIntEffect(m, to, msg);
    FateIsFitting(m, to, msg.(sender := m.maxPid + 1), false, false);
    SentLines(m, SendInt(m, to, msg).0, to, msg.(sender := m.maxPid + 1), FateOf(m, to, false, false), SendBlocked, ms);
  }

  lemma ShapeOf(m: Mem)
    requires ListsInv(m)
    ensures Shape(m)
  {
  }

  lemma SendIntAdvances(s: K, to: Pid, typ: nat, content: nat)
    requires Core(s) && Defined(s.m, s.c) && CountersFresh(s.m)
    ensures Advances(s, StepSendInt(s, to, typ, content))
  {
    hide CoreInv, ListsInv, SendInt, LinesStep, SendLog, GivenLog, FateOf, SettlePc, CountersFresh, LevelsOk,
      ListsKeyed, RunQueuesKeyed;
    CoreLists(s.m, s.c);
    SendIntLines(s.m, to, Msg(s.m.maxPid + 1, typ, content, s.nextId), s.ms);
  }

  lemma RequestLines(m: Mem, to: Pid, msg: Msg, ms: MsgLog)
    requires ActiveRuns(m) && CountersFresh(m) && to in m.prio && to != m.active
    ensures var r, fate := SendReceive(m, to, msg).0, FateOf(m, to, false, true);
            LinesStep(ms, m.lists, m.buf, SendLog(ms, to, msg.(sender := m.active), fate), r.lists, r.buf, msg.id)
  {
    hide RunQueuesOk, WaitListsOk, SendReceive, Requested, Sent, SendLog, FateOf, FateFits, Caller, Held;
    var a, q, stamped := m.active, Requested(m, msg), msg.(sender := m.active);
    UnlistedStatus(m, a);
    RequestedIsSending(m, msg);
    RequestEffect(m, to, msg);
    UnlistedBuffer(m, a, stamped);
    FateIsFitting(q, to, stamped, false, true);
    SentLines(q, SendReceive(m, to, msg).0, to, stamped, FateOf(m, to, false, true), ReplyBlocked, ms);
    SameStart(ms, m.lists, m.buf, q.buf);
  }

  lemma SameStart(ms: MsgLog, lists: map<ListId, seq<Pid>>, buf: map<Pid, Msg>, buf': map<Pid, Msg>)
    requires forall r :: Held(Lst(lists, MsgWaiters(r)), buf') == Held(Lst(lists, MsgWaiters(r)), buf)
    ensures forall r :: LineOf(ms, lists, buf', r) == LineOf(ms, lists, buf, r)
  {
    hide Held;
  }

  lemma RequestAdvances(s: K, to: Pid, typ: nat, content: nat)
    requires Core(s) && Defined(s.m, s.c) && Ready(s.m, s.c) && CountersFresh(s.m) && to in s.m.prio
    requires to != s.m.active
    ensures Advances(s, StepRequest(s, to, typ, content))
  {
    ReadyRuns(s.m, s.c);
    hide CoreInv, ListsInv, SendReceive, LinesStep, SendLog, GivenLog, FateOf, SettlePc, CountersFresh, LevelsOk,
      ListsKeyed, RunQueuesKeyed;
    RequestLines(s.m, to, Msg(s.m.active, typ, content, s.nextId), s.ms);
  }

  // Receiving

  /** The first waiting sender's message enters: it is next in line already. */
  lemma PullLines(ms: MsgLog, lists: map<ListId, seq<Pid>>, buf: map<Pid, Msg>, a: Pid, ms': MsgLog, next: nat)
    requires var w := Lst(lists, MsgWaiters(a)); w != [] && ms'.entered == Logged(ms.entered, a, BufOf(buf, w[0]))
    ensures LinesStep(ms, lists, buf, ms', lists[MsgWaiters(a) := Lst(lists, MsgWaiters(a))[1..]], buf, next)
  {
    var w, ent := Lst(lists, MsgWaiters(a)), Of(ms.entered, a);
    HeldTail(w, buf);
    hide Held, BufOf;
    assert ent + ([BufOf(buf, w[0])] + Held(w[1..], buf)) == ent + [BufOf(buf, w[0])] + Held(w[1..], buf);
  }

  lemma ReceiveLines(m: Mem, block: bool, ms: MsgLog, next: nat)
    requires Shape(m)
    ensures var (r, _, got) := Receive(m, block);
            LinesStep(ms, m.lists, m.buf, ReceiveLog(ms, m, got), r.lists, r.buf, next)
  {
    ReceiveEffect(m, block);
    hide Receive, LinesStep, Held, Take, Refilled, LevelsOk, RunQueuesKeyed;
    var a, w, got := m.active, Lst(m.lists, MsgWaiters(m.active)), Receive(m, block).2;
    if w == [] {
      SameLines(ms, m.lists, m.buf, ReceiveLog(ms, m, got), m.lists, m.buf, next);
    } else {
      PullLines(ms, m.lists, m.buf, a, ReceiveLog(ms, m, got), next);
    }
  }

  lemma ReceiveAdvances(s: K, blocking: bool)
    requires Defined(s.m, s.c)
    ensures Advances(s, StepReceive(s, blocking))
  {
    hide Receive, LinesStep, ReceiveLog, ReceiveOpen, SettlePc, LevelsOk, ListsKeyed, RunQueuesKeyed;
    ReceiveLines(s.m, blocking, s.ms, s.nextId);
  }

  // The other steps

  lemma ReplyAdvances(s: K, t: Pid, reply: Msg)
    requires Core(s) && Defined(s.m, s.c) && t in s.m.prio
    requires s.m.status[t] == ReplyBlocked ==> s.m.at[t] == None
    ensures Advances(s, StepReply(s, t, reply))
  {
    CoreLists(s.m, s.c);
    HandOverEffect(s.m, t, reply, SendBlocked);
    hide CoreInv, RunQueuesOk, WaitListsOk, PlacesOk, HandOver, LinesStep, Held, SettlePc, LevelsOk, ListsKeyed,
      RunQueuesKeyed;
    if s.m.status[t] == ReplyBlocked { UnlistedBuffer(s.m, t, reply); }
    var s' := StepReply(s, t, reply);
    SameLines(s.ms, s.m.lists, s.m.buf, s'.ms, s'.m.lists, s'.m.buf, s.nextId);
  }

  lemma PutLines(m: Mem, b: nat, msg: Msg, blocking: bool, ms: MsgLog, next: nat)
    requires ListsInv(m) && b in m.mbox
    ensures var r := PutMsg(m, b, msg, blocking).0; LinesStep(ms, m.lists, m.buf, ms, r.lists, r.buf, next)
  {
    hide ListsInv, PutMsg, PutSlot, Insert, Full, LinesStep, Held;
    ShapeOf(m);
    PutEffect(m, b, msg, blocking);
    if Lst(m.lists, Readers(b)) != [] {
      BoxWaiter(m, Readers(b));
      UnlistedBuffer(m, Lst(m.lists, Readers(b))[0], msg);
    }
    var r := PutMsg(m, b, msg, blocking).0;
    SameLines(ms, m.lists, m.buf, ms, r.lists, r.buf, next);
  }

  lemma PutAdvances(s: K, b: nat, typ: nat, content: nat, blocking: bool)
    requires Core(s) && Defined(s.m, s.c) && b in s.m.mbox
    ensures Advances(s, StepPut(s, b, typ, content, blocking))
  {
    hide CoreInv, ListsInv, PutMsg, LinesStep, SettlePc, PutLog, LevelsOk, ListsKeyed, RunQueuesKeyed;
    CoreLists(s.m, s.c);
    PutLines(s.m, b, Msg(KERNEL_PID_UNDEF, typ, content, s.nextId), blocking, s.ms, s.nextId);
  }

  lemma GetAdvances(s: K, b: nat, blocking: bool)
    requires Defined(s.m, s.c) && b in s.m.mbox
    ensures Advances(s, StepGet(s, b, blocking))
  {
    GetEffect(s.m, b, blocking);
    hide GetMsg, GetSlot, Insert, Avail, LinesStep, Held, SettlePc, GetLog, LevelsOk, ListsKeyed, RunQueuesKeyed;
    var s' := StepGet(s, b, blocking);
    SameLines(s.ms, s.m.lists, s.m.buf, s'.ms, s'.m.lists, s'.m.buf, s.nextId);
  }

  lemma NewLines(ms: MsgLog, lists: map<ListId, seq<Pid>>, buf: map<Pid, Msg>, t: Pid, ms': MsgLog, next: nat)
    requires Lst(lists, MsgWaiters(t)) == [] && (forall u :: t !in Lst(lists, MsgWaiters(u)))
    requires ms'.entered == ms.entered[t := []]
    ensures LinesStep(ms, lists, buf, ms', lists, buf[t := BLANK], next)
  {
    forall r
      ensures LineStep(LineOf(ms, lists, buf, r), LineOf(ms', lists, buf[t := BLANK], r), next)
    {
      HeldSame(Lst(lists, MsgWaiters(r)), buf, buf[t := BLANK]);
      if r == t { assert LineOf(ms', lists, buf[t := BLANK], r) == []; }
    }
  }

  lemma CreateAdvances(s: K, prio: nat, sleeping: bool, wout: bool, flags: bv16)
    requires Core(s) && Defined(s.m, s.c)
    ensures Advances(s, StepCreate(s, prio, sleeping, wout, flags))
  {
    hide CoreInv, Create, FreePid, SettlePc, LinesStep, Held, LevelsOk, ListsKeyed, RunQueuesKeyed;
    CoreLists(s.m, s.c);
    CreateAddsOne(s.m, prio, sleeping, wout, flags);
    CreateAddsData(s.m, prio, sleeping, wout, flags);
    var free, s' := FreePid(s.m.prio, KERNEL_PID_FIRST, s.m.maxPid), StepCreate(s, prio, sleeping, wout, flags);
    if prio < |s.m.rq| && free.Some? {
      DeadHaveNoSenders(s.m, free.value);
      NewLines(s.ms, s.m.lists, s.m.buf, free.value, s'.ms, s.nextId);
    } else {
      SameLines(s.ms, s.m.lists, s.m.buf, s'.ms, s'.m.lists, s'.m.buf, s.nextId);
    }
  }

  lemma ExitAdvances(s: K)
    requires ExitOk(s.m)
    ensures Advances(s, StepExit(s))
  {
    hide LevelsOk, ListsKeyed, RunQueuesKeyed, Best, LinesStep, Held, MarkLost;
    var s' := StepExit(s);
    SameLines(s.ms, s.m.lists, s.m.buf, s'.ms, s'.m.lists, s'.m.buf, s.nextId);
  }

  lemma InnerAdvances(s: K, step: Step)
    requires Core(s) && Enabled(s, step) && Inner(step)
    ensures Advances(s, Apply(s, step))
  {
    hide CoreInv, Enabled, Apply, ListsInv, LinesStep, Held, StillOn;
    CoreLists(s.m, s.c);
    InnerEffect(s, step);
    InnerKeepsLogs(s, step);
    SameLines(s.ms, s.m.lists, s.m.buf, Apply(s, step).ms, Apply(s, step).m.lists, Apply(s, step).m.buf, s.nextId);
  }

  lemma SendersKept(m: Mem, r: Mem, w: set<Status>, b: set<Status>)
    requires Caller(m, r, w, b) && SendBlocked !in w + b
    ensures forall t :: Lst(r.lists, MsgWaiters(t)) == Lst(m.lists, MsgWaiters(t))
  {
    hide ListsInv, Moves;
  }

  lemma PlainAdvances(s: K, step: Step)
    requires Core(s) && RequestsOk(s) && Enabled(s, step) && Plain(step) && !step.DoInitQueue?
    ensures Advances(s, Apply(s, step))
  {
    hide CoreInv, OpenOk, Enabled, Apply, Caller, PcMoves, LinesStep, Held, Wakes, Blocks, Plain;
    PlainSparesSenders(step);
    ReplyIsSafe(s, step);
    CallKeepsCore(s, step);
    PlainKeepsMessages(s, step);
    var s' := Apply(s, step);
    SendersKept(s.m, s'.m, Wakes(step), Blocks(step));
    SameLines(s.ms, s.m.lists, s.m.buf, s'.ms, s'.m.lists, s'.m.buf, s.nextId);
  }

  lemma TalkAdvances(s: K, step: Step)
    requires Core(s) && Enabled(s, step) && ReplyFindsUnlisted(s.m, step)
    requires step.DoSend? || step.DoRequest? || step.DoReceive? || step.DoReply? || step.DoSendInt?
    ensures Advances(s, Apply(s, step))
  {
    hide Core, Advances, Shape, Ready, StepSend, StepRequest, StepReceive, StepReply, StepSendInt, CountersFresh;
    if step.DoSend? {
      SendAdvances(s, step.to, step.typ, step.content, step.blocking);
    } else if step.DoRequest? {
      RequestAdvances(s, step.to, step.typ, step.content);
    } else if step.DoReceive? {
      ReceiveAdvances(s, step.blocking);
    } else if step.DoReply? {
      ReplyAdvances(s, step.t, step.reply);
    } else {
      SendIntAdvances(s, step.to, step.typ, step.content);
    }
  }

  lemma OtherAdvances(s: K, step: Step)
    requires Core(s) && Enabled(s, step)
    requires step.DoPut? || step.DoGet? || step.DoCreate? || step.DoExit? || step.DoInitQueue?
    ensures Advances(s, Apply(s, step))
  {
    hide Core, Advances, Shape, Ready, StepPut, StepGet, StepCreate, StepExit, ExitOk, InitQueue, IsSize;
    if step.DoPut? {
      PutAdvances(s, step.b, step.typ, step.content, step.blocking);
    } else if step.DoGet? {
      GetAdvances(s, step.b, step.blocking);
    } else if step.DoCreate? {
      CreateAdvances(s, step.prio, step.sleeping, step.wout, step.flags);
    } else if step.DoExit? {
      ExitAdvances(s);
    } else {
      InitQueueAdvances(s, step.slots);
    }
  }

  lemma InitQueueAdvances(s: K, slots: seq<Msg>)
    requires Defined(s.m, s.c) && IsSize(|slots|) && |slots| < U32
    ensures Advances(s, s.(m := InitQueue(s.m, slots)))
  {
    hide LinesStep, Held, NewQueue, IsSize, LevelsOk, ListsKeyed, RunQueuesKeyed;
    SameLines(s.ms, s.m.lists, s.m.buf, s.ms, s.m.lists, s.m.buf, s.nextId);
  }

  /** Every step only adds a new message to a line, or starts it anew. */
  lemma StepAdvances(s: K, step: Step)
    requires Core(s) && RequestsOk(s) && Enabled(s, step)
    ensures Advances(s, Apply(s, step))
  {
    hide Core, RequestsOk, Enabled, Apply, Advances, ReplyFindsUnlisted;
    if Inner(step) {
      InnerAdvances(s, step);
    } else if step.DoPut? || step.DoGet? || step.DoCreate? || step.DoExit? || step.DoInitQueue? {
      OtherAdvances(s, step);
    } else if Plain(step) {
      PlainAdvances(s, step);
    } else {
      ReplyIsSafe(s, step);
      TalkAdvances(s, step);
    }
  }

  // Order

  /** Wherever `b` is, `a` is before it. */
  ghost predicate Leads(x: seq<Msg>, a: Msg, b: Msg) {
    forall q :: 0 <= q < |x| && x[q] == b ==> exists p :: 0 <= p < q && x[p] == a
  }

  lemma LeadsStep(x: seq<Msg>, y: seq<Msg>, next: nat, a: Msg, b: Msg)
    requires LineStep(x, y, next) && Leads(x, a, b) && b.id < next
    ensures Leads(y, a, b)
  {
    if y != x && y != [] {
      var k, msg :| Joined(x, y, k, msg) && msg.id == next;
      forall q | 0 <= q < |y| && y[q] == b
        ensures exists p :: 0 <= p < q && y[p] == a
      {
        var was := if q < k then q else q - 1;
        assert q != k && x[was] == b;
        var p :| 0 <= p < was && x[p] == a;
        assert y[if p < k then p else p + 1] == a;
      }
    }
  }

  lemma LeadsPrefix(x: seq<Msg>, y: seq<Msg>, a: Msg, b: Msg)
    requires Leads(x + y, a, b)
    ensures Leads(x, a, b)
  {
    forall q | 0 <= q < |x| && x[q] == b
      ensures exists p :: 0 <= p < q && x[p] == a
    {
      assert (x + y)[q] == b;
      var p :| 0 <= p < q && (x + y)[p] == a;
      assert x[p] == a;
    }
  }

  /** In a line without repetitions. */
  lemma LeadsIfBefore(x: seq<Msg>, i: nat, j: nat)
    requires NoDup(x) && i < j < |x|
    ensures Leads(x, x[i], x[j])
  {
  }

  ghost predicate InLine(s: K, r: Pid, a: Msg, b: Msg) {
    Leads(LineOf(s.ms, s.m.lists, s.m.buf, r), a, b) && b.id < s.nextId
  }

  lemma AdvanceKeepsOrder(s: K, s': K, r: Pid, a: Msg, b: Msg)
    requires Advances(s, s') && InLine(s, r, a, b)
    ensures InLine(s', r, a, b)
  {
    hide Leads, LineOf, LineStep;
    LeadsStep(LineOf(s.ms, s.m.lists, s.m.buf, r), LineOf(s'.ms, s'.m.lists, s'.m.buf, r), s.nextId, a, b);
  }

  lemma {:induction false} OrderLasts(tr: seq<K>, steps: seq<Step>, r: Pid, a: Msg, b: Msg, i: nat, j: nat)
    requires Run(tr, steps) && i <= j < |tr| && InLine(tr[i], r, a, b)
    ensures InLine(tr[j], r, a, b)
    decreases j
  {
    hide Core, RequestsOk, BuffersOk, MessagesOk, NumbersOk, FlagStateOk, PriorityOk, EncodingOk, Enabled, Apply, Boot,
      InLine, Advances;
    if i < j {
      OrderLasts(tr, steps, r, a, b, i, j - 1);
      RunIsSafe(tr, steps, j - 1);
      assert Next(tr[j - 1], steps[j - 1], tr[j]);
      StepAdvances(tr[j - 1], steps[j - 1]);
      AdvanceKeepsOrder(tr[j - 1], tr[j], r, a, b);
    }
  }

  lemma LineIsDistinct(q: MsgQueue, st: Status, held: seq<Msg>, acc: seq<Msg>, ent: seq<Msg>, del: seq<Msg>, next: nat)
    requires Account(q, st, held, acc, ent, del) && NoDup(acc)
    requires forall i :: 0 <= i < |acc| ==> acc[i].id < next
    ensures NoDup(ent + held) && forall x :: x in ent + held ==> x.id < next
  {
    hide Items;
    assert multiset(ent + held) == multiset(acc);
    SameCountsNoDup(acc, ent + held);
    forall x | x in ent + held
      ensures x.id < next
    {
      assert x in multiset(ent + held);
      assert x in multiset(acc);
    }
  }

  lemma {:induction false} SameCountsNoDup(x: seq<Msg>, y: seq<Msg>)
    requires NoDup(x) && multiset(x) == multiset(y)
    ensures NoDup(y)
  {
    forall i, j | 0 <= i < j < |y|
      ensures y[i] != y[j]
    {
      if y[i] == y[j] {
        assert y == y[..j] + [y[j]] + y[j + 1..];
        assert y[i] in y[..j];
        assert multiset(y)[y[i]] >= 2;
        assert y[i] in multiset(x);
        OnceInSequence(x, y[i]);
      }
    }
  }

  lemma HeldAt(w: seq<Pid>, buf: map<Pid, Msg>, i: nat)
    requires i < |w|
    ensures |Held(w, buf)| == |w| && Held(w, buf)[i] == BufOf(buf, w[i])
  {
  }

  /** Two waiting senders, at positions `i` and `j` of the list. */
  lemma HeldInOrder(m: Mem, ms: MsgLog, next: nat, r: Pid, i: nat, j: nat)
    requires MsgsOk(m.prio, m.status, m.queue, m.lists, m.buf, ms) && IdsOk(ms.accepted, next) && r in m.prio
    requires var w := Lst(m.lists, MsgWaiters(r)); i < j < |w| && w[i] in m.buf && w[j] in m.buf
    ensures var w := Lst(m.lists, MsgWaiters(r));
            Leads(LineOf(ms, m.lists, m.buf, r), m.buf[w[i]], m.buf[w[j]]) && m.buf[w[j]].id < next
  {
    hide Account, NoDup, Leads, Held;
    var w, ent := Lst(m.lists, MsgWaiters(r)), Of(ms.entered, r);
    var held := Held(w, m.buf);
    HeldAt(w, m.buf, i);
    HeldAt(w, m.buf, j);
    assert NoDup(Of(ms.accepted, r));
    LineIsDistinct(m.queue[r], m.status[r], held, Of(ms.accepted, r), ent, Of(ms.delivered, r), next);
    var x := ent + held;
    assert x[|ent| + i] == m.buf[w[i]] && x[|ent| + j] == m.buf[w[j]];
    LeadsIfBefore(x, |ent| + i, |ent| + j);
    assert x[|ent| + j] in x;
  }

  lemma WaitersHaveBuffers(m: Mem, r: Pid)
    requires ListsInv(m)
    ensures forall t :: t in Lst(m.lists, MsgWaiters(r)) ==> t in m.buf && r in m.prio
  {
    hide RunQueuesOk;
    forall t | t in Lst(m.lists, MsgWaiters(r))
      ensures t in m.buf && r in m.prio
    {
      assert m.at[t] == Some(MsgWaiters(r));
    }
  }

  /** If `t` waits before `u` to send to `r`, the message of `u` is not delivered,
      in the rest of the run, unless that of `t` was delivered before. */
  lemma SendersAreServedInOrder(tr: seq<K>, steps: seq<Step>, r: Pid, t: Pid, u: Pid, i: nat, j: nat)
    requires Run(tr, steps) && i <= j < |tr| && Before(Lst(tr[i].m.lists, MsgWaiters(r)), t, u) && r in tr[j].m.prio
    ensures t in tr[i].m.buf && u in tr[i].m.buf
    ensures Leads(Of(tr[j].ms.entered, r), tr[i].m.buf[t], tr[i].m.buf[u])
    ensures Leads(Of(tr[j].ms.delivered, r), tr[i].m.buf[t], tr[i].m.buf[u])
  {
    var s, s' := tr[i], tr[j];
    var w := Lst(s.m.lists, MsgWaiters(r));
    RunIsSafe(tr, steps, i);
    RunIsSafe(tr, steps, j);
    CoreLists(s.m, s.c);
    hide CoreInv, RequestsOk, BuffersOk, FlagStateOk, PriorityOk, EncodingOk, Boot, Next, Leads, LineOf, IdsOk,
      ListsInv;
    var p, q :| 0 <= p < q < |w| && w[p] == t && w[q] == u;
    assert t in w && u in w;
    WaitersHaveBuffers(s.m, r);
    var a, b := s.m.buf[t], s.m.buf[u];
    HeldInOrder(s.m, s.ms, s.nextId, r, p, q);
    OrderLasts(tr, steps, r, a, b, i, j);
    LineLeads(s'.m, s'.ms, r, a, b);
  }

  lemma LineLeads(m: Mem, ms: MsgLog, r: Pid, a: Msg, b: Msg)
    requires MsgsOk(m.prio, m.status, m.queue, m.lists, m.buf, ms) && r in m.prio
    requires Leads(LineOf(ms, m.lists, m.buf, r), a, b)
    ensures Leads(Of(ms.entered, r), a, b) && Leads(Of(ms.delivered, r), a, b)
  {
    hide Leads, Held, Items;
    LeadsPrefix(Of(ms.entered, r), Held(Lst(m.lists, MsgWaiters(r)), m.buf), a, b);
    LeadsPrefix(Of(ms.delivered, r), Items(m.queue[r]), a, b);
  }

  /** So a sender that comes while another of the same or a better priority
      waits is served after it. */
  lemma LaterSendersComeLater(tr: seq<K>, steps: seq<Step>, r: Pid, t: Pid, u: Pid, i: nat, k: nat, j: nat)
    requires Run(tr, steps) && i <= k <= j < |tr| && r in tr[j].m.prio
    requires forall n :: i <= n <= k ==> t in Lst(tr[n].m.lists, MsgWaiters(r))
    requires u !in Lst(tr[i].m.lists, MsgWaiters(r)) && u in Lst(tr[k].m.lists, MsgWaiters(r))
    requires t in tr[k].m.prio && u in tr[k].m.prio && tr[k].m.prio[t] <= tr[k].m.prio[u]
    ensures t in tr[k].m.buf && u in tr[k].m.buf
    ensures Leads(Of(tr[j].ms.delivered, r), tr[k].m.buf[t], tr[k].m.buf[u])
  {
    OrderIsKept(tr, steps, MsgWaiters(r), t, u, i, k);
    hide Run, Leads, Before;
    SendersAreServedInOrder(tr, steps, r, t, u, k, j);
  }
}
