/** What happens to one request of msg_send_receive in the course of a run. */
module RequestLives {
  import opened Names
  import opened KernelState
  import opened Scheduler
  import opened Threads
  import opened Messages
  import opened Effects
  import opened Machine
  import opened PlainSteps
  import opened Separation
  import opened Requests
  import opened Buffers
  import opened Conservation
  import opened Flags
  import opened Priority
  import opened Exclusion
  import opened Theorems
  import opened Traces
  import opened TraceSteps

  // How requests end

  /** Steps other than a reply end no request. */
  lemma OtherStepsKeepOpen(s: K, step: Step)
    requires Enabled(s, step) && !step.DoRequest? && !step.DoReceive? && !step.DoReply?
    ensures Apply(s, step).open.Keys == s.open.Keys
  {
    if Inner(step) { hide Enabled, Apply; InnerKeepsLogs(s, step); }
    else if Plain(step) && !step.DoInitQueue? { hide Enabled, Apply, SameData; PlainKeepsMessages(s, step); }
    else if step.DoCreate? || step.DoExit? {
      hide Create, Exit, ExitOk, FreePid, SettleMem, SettlePc, LevelsOk, ListsKeyed, RunQueuesKeyed;
    }
    else { hide Enabled, Apply; CarryKeepsOpen(s, step); }
  }

  /** A reply ends exactly the request of its target. */
  lemma ReplyEnds(s: K, u: Pid, reply: Msg, t: Pid)
    requires Defined(s.m, s.c) && u in s.m.prio && t in s.open && t !in StepReply(s, u, reply).open
    ensures u == t && s.m.status[t] == ReplyBlocked
    ensures var s' := StepReply(s, u, reply);
            t in s'.m.buf && s'.m.buf[t] == reply && t in s'.given && s'.given[t] == reply && On(s'.m.status, t)
  {
    HandOverEffect(s.m, u, reply, SendBlocked);
    hide HandOver, SettlePc, LevelsOk, ListsKeyed, RunQueuesKeyed;
  }

  lemma ReceiveKeepsKeys(s: K, blocking: bool, t: Pid)
    requires Defined(s.m, s.c) && t in s.open
    ensures t in StepReceive(s, blocking).open
  {
    hide Receive, SettleMem, SettlePc, ReceiveLog, Shape;
  }

  lemma RequestKeepsKeys(s: K, to: Pid, typ: nat, content: nat, t: Pid)
    requires Defined(s.m, s.c) && t in s.open
    ensures t in StepRequest(s, to, typ, content).open
  {
    hide SendReceive, SettleMem, SettlePc, SendLog, GivenLog, FateOf, Shape;
  }

  lemma RequestEndsByReply(s: K, step: Step, t: Pid)
    requires Enabled(s, step) && t in s.open && t !in Apply(s, step).open
    ensures step.DoReply? && step.t == t && s.open[t].phase == Seen
    ensures var s' := Apply(s, step);
            t in s'.m.buf && s'.m.buf[t] == step.reply && t in s'.given && s'.given[t] == step.reply
                && On(s'.m.status, t)
  {
    if step.DoReply? { hide StepReply, CountersFresh; ReplyEnds(s, step.t, step.reply, t); }
    else if step.DoReceive? { hide StepReceive, CountersFresh; ReceiveKeepsKeys(s, step.blocking, t); }
    else if step.DoRequest? {
      hide StepRequest, CountersFresh;
      RequestKeepsKeys(s, step.to, step.typ, step.content, t);
    }
    else { hide Apply, Enabled; OtherStepsKeepOpen(s, step); }
  }

  // The record of requests over whole runs

  lemma BootIsTraced(s: K)
    requires Boot(s)
    ensures TracedOk(s) && s.open == map[]
  {
    hide Items;
  }

  lemma {:induction false} RunIsTraced(tr: seq<K>, steps: seq<Step>, i: nat)
    requires Run(tr, steps) && i < |tr|
    ensures TracedOk(tr[i]) && (i < |steps| ==> Traced(tr[i], tr[i + 1]))
  {
    hide Boot, Enabled, Apply, Core, RequestsOk, BuffersOk, MessagesOk, NumbersOk, FlagStateOk, PriorityOk, EncodingOk,
      TracedOk,
      Follows, NumberedDeliveries;
    if i == 0 { BootIsTraced(tr[0]); } else { RunIsTraced(tr, steps, i - 1); }
    RunIsSafe(tr, steps, i);
    if i < |steps| {
      assert Next(tr[i], steps[i], tr[i + 1]);
      StepTraced(tr[i], steps[i]);
    }
  }

  /** Step `j` delivers `msg` to `u`. */
  ghost predicate DeliversAt(tr: seq<K>, j: nat, u: Pid, msg: Msg)
    requires j + 1 < |tr|
  {
    Delivers(tr[j].ms.delivered, tr[j + 1].ms.delivered, u, msg)
  }

  /** The message was delivered before state `i`. */
  ghost predicate DeliveredBefore(tr: seq<K>, i: nat, u: Pid, msg: Msg)
    requires i < |tr|
  {
    exists j :: 0 <= j < i && DeliversAt(tr, j, u, msg)
  }

  lemma {:induction false} NumbersGrow(tr: seq<K>, steps: seq<Step>, i: nat, j: nat)
    requires Run(tr, steps) && i <= j < |tr|
    ensures tr[i].nextId <= tr[j].nextId
    decreases j
  {
    hide Run, TracedOk, Follows, NumberedDeliveries;
    if i < j {
      RunIsTraced(tr, steps, j - 1);
      RunLength(tr, steps);
      NumbersGrow(tr, steps, i, j - 1);
    }
  }

  lemma RunLength(tr: seq<K>, steps: seq<Step>)
    requires Run(tr, steps)
    ensures |tr| == |steps| + 1
  {
    hide Boot, Next;
  }

  /** What was delivered had a number before. */
  lemma DeliveredIsOlder(tr: seq<K>, steps: seq<Step>, i: nat, u: Pid, msg: Msg)
    requires Run(tr, steps) && i < |tr| && DeliveredBefore(tr, i, u, msg)
    ensures msg.id < tr[i].nextId
  {
    hide Run, TracedOk, Follows, Delivers;
    RunLength(tr, steps);
    var j :| 0 <= j < i && DeliversAt(tr, j, u, msg);
    RunIsTraced(tr, steps, j);
    NumbersGrow(tr, steps, j + 1, i);
  }

  /** A request counts as received exactly if it was delivered to its receiver. */
  lemma {:induction false} SeenIffDelivered(tr: seq<K>, steps: seq<Step>, i: nat, t: Pid)
    requires Run(tr, steps) && i < |tr| && t in tr[i].open
    ensures tr[i].open[t].phase == Seen <==> DeliveredBefore(tr, i, tr[i].open[t].to, tr[i].open[t].msg)
  {
    hide Boot, Next, TracedOk, NumberedDeliveries, Delivers;
    if i == 0 {
      BootIsTraced(tr[0]);
    } else {
      var s, q := tr[i - 1], tr[i].open[t];
      RunIsTraced(tr, steps, i - 1);
      LastDelivery(tr, i, q.to, q.msg);
      if t in s.open {
        SeenIffDelivered(tr, steps, i - 1, t);
      } else if DeliveredBefore(tr, i - 1, q.to, q.msg) {
        DeliveredIsOlder(tr, steps, i - 1, q.to, q.msg);
      }
    }
  }

  lemma LastDelivery(tr: seq<K>, i: nat, u: Pid, msg: Msg)
    requires 0 < i < |tr|
    ensures DeliveredBefore(tr, i, u, msg) <==> DeliveredBefore(tr, i - 1, u, msg) || DeliversAt(tr, i - 1, u, msg)
  {
    hide DeliversAt;
  }

  lemma RequestPlace(s: K, t: Pid)
    requires RequestsOk(s) && TracedOk(s) && t in s.open
    ensures var m, q := s.m, s.open[t];
            && t in m.prio && t in m.status && m.status[t] == ReplyBlocked && t in m.at && t in m.buf
            && q.msg.sender == t
            && (q.phase == Parked <==> m.at[t].Some?)
            && (q.phase == Parked ==> m.at[t] == Some(MsgWaiters(q.to)) && m.buf[t] == q.msg)
            && (q.phase == Queued <==> q.to in m.prio && q.to in m.queue && q.msg in Items(m.queue[q.to]))
  {
    hide Items, Stamped;
    var m, q := s.m, s.open[t];
    assert PlacedAt(t, q, m.at, m.buf, LinesOf(m.prio, m.queue));
    assert Lies(LinesOf(m.prio, m.queue), q.to, q.msg) <==>
             q.to in m.prio && q.to in m.queue && q.msg in Items(m.queue[q.to]);
  }

  /** Where an unanswered request is: parked with its sender in the receiver's
      list, in the receiver's queue, or delivered. If it is in none of these
      places, its receiver exited with it in the queue. */
  lemma RequestIsWhereItSays(tr: seq<K>, steps: seq<Step>, i: nat, t: Pid)
    requires Run(tr, steps) && i < |tr| && t in tr[i].open
    ensures var m, q := tr[i].m, tr[i].open[t];
            && t in m.prio && t in m.status && m.status[t] == ReplyBlocked && t in m.at && t in m.buf
            && q.msg.sender == t
            && (q.phase == Parked <==> m.at[t].Some?)
            && (q.phase == Parked ==> m.at[t] == Some(MsgWaiters(q.to)) && m.buf[t] == q.msg)
            && (q.phase == Queued <==> q.to in m.prio && q.to in m.queue && q.msg in Items(m.queue[q.to]))
            && (q.phase == Seen <==> DeliveredBefore(tr, i, q.to, q.msg))
  {
    hide Run, Core, RequestsOk, BuffersOk, MessagesOk, NumbersOk, FlagStateOk, PriorityOk, EncodingOk, DeliveredBefore,
      Items, Traced,
      TracedOk;
    SeenIffDelivered(tr, steps, i, t);
    RunIsTraced(tr, steps, i);
    RunIsSafe(tr, steps, i);
    RequestPlace(tr[i], t);
  }

  /** A caller of msg_send_receive waits until somebody replies to it, who can
      only do so after its request was delivered to the thread it was sent to;
      then its buffer holds the reply. */
  lemma RequestersWaitForTheirReply(tr: seq<K>, steps: seq<Step>, i: nat, t: Pid)
    requires Run(tr, steps) && i < |steps| && t in tr[i].m.prio && t in tr[i].m.status
    requires tr[i].m.status[t] == ReplyBlocked
    requires t !in tr[i + 1].m.prio || t !in tr[i + 1].m.status || tr[i + 1].m.status[t] != ReplyBlocked
    ensures var step, s, s' := steps[i], tr[i], tr[i + 1];
            && step.DoReply? && step.t == t && t in s.open && t !in s'.open && On(s'.m.status, t)
            && DeliveredBefore(tr, i, s.open[t].to, s.open[t].msg)
            && t in s'.m.buf && s'.m.buf[t] == step.reply && t in s'.given && s'.given[t] == step.reply
  {
    hide Core, BuffersOk, MessagesOk, NumbersOk, FlagStateOk, PriorityOk, EncodingOk, Enabled, Apply, Boot,
      DeliveredBefore;
    RunIsSafe(tr, steps, i);
    RunIsSafe(tr, steps, i + 1);
    assert Next(tr[i], steps[i], tr[i + 1]);
    RequestEndsByReply(tr[i], steps[i], t);
    SeenIffDelivered(tr, steps, i, t);
  }

  /** A reply that would wake its target is allowed exactly once the request
      was delivered. */
  lemma ReplyAllowedIffDelivered(tr: seq<K>, steps: seq<Step>, i: nat, t: Pid, reply: Msg)
    requires Run(tr, steps) && i < |tr| && t in tr[i].m.prio && t in tr[i].m.status && tr[i].m.status[t] == ReplyBlocked
    requires Defined(tr[i].m, tr[i].c) && (tr[i].c.isr || Ready(tr[i].m, tr[i].c))
    ensures t in tr[i].open
    ensures Enabled(tr[i], DoReply(t, reply)) <==> DeliveredBefore(tr, i, tr[i].open[t].to, tr[i].open[t].msg)
  {
    hide Run, Core, RequestsOk, BuffersOk, MessagesOk, NumbersOk, FlagStateOk, PriorityOk, EncodingOk, DeliveredBefore,
      Defined,
      Ready, Enabled;
    RunIsSafe(tr, steps, i);
    ReplyGuard(tr[i], t, reply);
    SeenIffDelivered(tr, steps, i, t);
  }

  lemma ReplyGuard(s: K, t: Pid, reply: Msg)
    requires RequestsOk(s) && t in s.m.prio && t in s.m.status && s.m.status[t] == ReplyBlocked
    requires Defined(s.m, s.c) && (s.c.isr || Ready(s.m, s.c))
    ensures t in s.open && (Enabled(s, DoReply(t, reply)) <==> s.open[t].phase == Seen)
  {
    hide LevelsOk, ListsKeyed, RunQueuesKeyed;
  }

  /** A request that is open now and was not before is newer than all there were. */
  lemma {:induction false} LaterIsNewer(tr: seq<K>, steps: seq<Step>, i: nat, n: nat, t: Pid)
    requires Run(tr, steps) && i <= n < |tr| && t !in tr[i].open && t in tr[n].open
    ensures tr[i].nextId <= tr[n].open[t].msg.id
    decreases n
  {
    hide Run, TracedOk, NumberedDeliveries, Delivers;
    RunLength(tr, steps);
    if i < n {
      RunIsTraced(tr, steps, n - 1);
      if t in tr[n - 1].open {
        LaterIsNewer(tr, steps, i, n - 1, t);
      } else {
        NumbersGrow(tr, steps, i, n - 1);
      }
    }
  }

  /** Every request is answered at most once: two steps that end requests of a
      thread end different ones. */
  lemma RequestsEndOnce(tr: seq<K>, steps: seq<Step>, i: nat, j: nat, t: Pid)
    requires Run(tr, steps) && i < j < |steps| && t in tr[i].open && t !in tr[i + 1].open
    requires t in tr[j].open && t !in tr[j + 1].open
    ensures tr[i].open[t].msg.id < tr[j].open[t].msg.id
  {
    hide Run, Stamped, PlacedAt, Follows, NumberedDeliveries;
    RunLength(tr, steps);
    RunIsTraced(tr, steps, i);
    LaterIsNewer(tr, steps, i + 1, j, t);
  }
}
