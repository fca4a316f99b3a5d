/** What each messaging and mailbox section changes, field by field. */
module Effects {
  import opened Names
  import opened Sequences
  import opened CircularIndex
  import opened KernelState
  import opened Mutexes
  import F = ThreadFlags
  import opened Messages
  import opened Mailboxes

  /** THREAD_FLAG_MSG_WAITING was set for `t`, who was woken if it waits for it. */
  ghost predicate Flagged(m: Mem, status: map<Pid, Status>, r: Mem, t: Pid)
    requires Shape(m) && t in m.prio && t in status
  {
    FlagsSet(m, status, r, t, F.MSG_WAITING)
  }

  /** The flags `mask` were set for `t`. */
  ghost predicate FlagsSet(m: Mem, status: map<Pid, Status>, r: Mem, t: Pid, mask: bv16)
    requires Shape(m) && t in m.prio && t in status
  {
    var flags := F.With(m.flags[t], mask);
    && r.flags == m.flags[t := flags]
    && r.status == (if F.Met(status[t], flags, m.wait[t]) then status[t := Pending] else status)
    && (F.Met(status[t], flags, m.wait[t]) ==> r.csr)
  }

  /** Sending `msg` to `t` had this fate; a sender that has to wait does so as `st`. */
  ghost predicate Sent(m: Mem, r: Mem, t: Pid, msg: Msg, fate: Fate, st: Status)
    requires Shape(m) && (fate != Refused ==> t in m.prio)
  {
    var a, l := m.active, MsgWaiters(t);
    && r.locked == m.locked && r.mbox == m.mbox
    && match fate
       case Refused =>
         && r.queue == m.queue && r.buf == m.buf && r.flags == m.flags
         && r.lists == m.lists && r.at == m.at && r.wait == m.wait && r.status == m.status
       case Enqueued =>
         && r.queue == m.queue[t := Offer(m.queue[t], msg).0] && r.buf == m.buf
         && r.lists == m.lists && r.at == m.at && r.wait == m.wait && Flagged(m, m.status, r, t)
       case Handed =>
         && r.queue == m.queue && r.buf == m.buf[t := msg] && r.flags == m.flags
         && r.lists == m.lists && r.at == m.at && r.wait == m.wait && r.status == m.status[t := Pending]
       case Waits =>
         && t != a && r.queue == m.queue && r.buf == m.buf[a := msg]
         && r.lists == m.lists[l := Insert(Lst(m.lists, l), a, m.prio)]
         && r.at == m.at[a := Some(l)] && r.wait == m.wait[a := Buffer]
         && Flagged(m, m.status[a := st], r, t)
  }

  lemma SetAndWakeEffect(m: Mem, t: Pid, mask: bv16)
    requires Shape(m) && t in m.prio
    ensures var r := F.SetAndWake(m, t, mask);
            && FlagsSet(m, m.status, r, t, mask) && r.queue == m.queue && r.buf == m.buf && r.lists == m.lists
            && r.at == m.at && r.wait == m.wait && r.locked == m.locked && r.mbox == m.mbox
  {
    hide F.Met, Shape;
  }

  lemma OfferSucceedsIff(f: MsgQueue, msg: Msg)
    ensures Offer(f, msg).1 <==> Put(f.cib).1 >= 0
  {
  }

  lemma EnqueuedEffect(m: Mem, t: Pid, msg: Msg, st: Status)
    requires Shape(m) && t in m.prio
    ensures var queued := m.(queue := m.queue[t := Offer(m.queue[t], msg).0]);
            Sent(m, F.SetAndWake(queued, t, F.MSG_WAITING), t, msg, Enqueued, st)
  {
    hide F.SetAndWake, FlagsSet, Flagged, Offer;
    var queued := m.(queue := m.queue[t := Offer(m.queue[t], msg).0]);
    SetAndWakeEffect(queued, t, F.MSG_WAITING);
    FlaggedElsewhere(m, queued, F.SetAndWake(queued, t, F.MSG_WAITING), t);
  }

  lemma QueueMsgEffect(m: Mem, t: Pid, msg: Msg, st: Status)
    requires Shape(m) && t in m.prio
    ensures QueueMsg(m, t, msg).1 <==> Put(m.queue[t].cib).1 >= 0
    ensures Sent(m, QueueMsg(m, t, msg).0, t, msg, if QueueMsg(m, t, msg).1 then Enqueued else Refused, st)
  {
    hide F.SetAndWake, Sent, Offer;
    OfferSucceedsIff(m.queue[t], msg);
    if Offer(m.queue[t], msg).1 { EnqueuedEffect(m, t, msg, st); } else { RefusedEffect(m, t, msg, st); }
  }

  lemma RefusedEffect(m: Mem, t: Pid, msg: Msg, st: Status)
    requires Shape(m)
    ensures Sent(m, m, t, msg, Refused, st)
  {
  }

  lemma ListedEffect(m: Mem, t: Pid, msg: Msg)
    requires Shape(m) && t in m.prio
    ensures var r, a, l := Listed(m, t, msg), m.active, MsgWaiters(t);
            && r.prio == m.prio && r.active == a && r.queue == m.queue && r.buf == m.buf[a := msg]
            && r.lists == m.lists[l := Insert(Lst(m.lists, l), a, m.prio)]
            && r.at == m.at[a := Some(l)] && r.wait == m.wait[a := Buffer] && r.flags == m.flags
            && r.status == m.status[a := if Requesting(m) then ReplyBlocked else SendBlocked]
            && r.locked == m.locked && r.mbox == m.mbox
  {
    hide Insert;
  }

  /** Setting flags does not depend on the other fields. */
  lemma FlaggedElsewhere(m: Mem, mid: Mem, r: Mem, t: Pid)
    requires Shape(m) && Shape(mid) && t in m.prio && t in mid.prio && FlagsSet(mid, mid.status, r, t, F.MSG_WAITING)
    requires mid.flags == m.flags && mid.wait[t] == m.wait[t]
    ensures Flagged(m, mid.status, r, t)
  {
    hide F.Met;
  }

  lemma ParkEffect(m: Mem, t: Pid, msg: Msg)
    requires Shape(m) && t in m.prio && t != m.active
    ensures Sent(m, Park(m, t, msg), t, msg, Waits, if Requesting(m) then ReplyBlocked else SendBlocked)
  {
    hide F.SetAndWake, Listed, Insert, FlagsSet, Flagged;
    ListedEffect(m, t, msg);
    SetAndWakeEffect(Listed(m, t, msg), t, F.MSG_WAITING);
    FlaggedElsewhere(m, Listed(m, t, msg), Park(m, t, msg), t);
  }

  lemma HandOverEffect(m: Mem, t: Pid, msg: Msg, st: Status)
    requires Shape(m) && t in m.prio
    ensures Sent(m, HandOver(m, t, msg), t, msg, Handed, st)
    ensures Sent(m, HandOver(m, t, msg).(csr := true), t, msg, Handed, st)
  {
  }

  lemma SendSectionEffect(m: Mem, t: Pid, msg: Msg, block: bool)
    requires Shape(m) && t != m.active
    ensures Sent(m, SendSection(m, t, msg, block).0, t, msg, FateOf(m, t, false, block),
                 if Requesting(m) then ReplyBlocked else SendBlocked)
  {
    hide QueueMsg, Park, HandOver, Sent;
    var st := if Requesting(m) then ReplyBlocked else SendBlocked;
    RefusedEffect(m, t, msg, st);
    if t in m.prio {
      QueueMsgEffect(m, t, msg, st);
      HandOverEffect(m, t, msg, st);
      ParkEffect(m, t, msg);
    }
  }

  lemma SendEffect(m: Mem, t: Pid, msg: Msg, block: bool)
    requires Shape(m) && OnRunqueue(m.status[m.active])
    ensures Sent(m, Send(m, t, msg, block).0, t, msg.(sender := m.active), FateOf(m, t, t == m.active, block),
        SendBlocked)
  {
    hide QueueMsg, SendSection;
    if t == m.active { QueueMsgEffect(m, t, msg.(sender := m.active), SendBlocked); }
    else { SendSectionEffect(m, t, msg.(sender := m.active), block); }
  }

  lemma SendIntEffect(m: Mem, t: Pid, msg: Msg)
    requires Shape(m)
    ensures Sent(m, SendInt(m, t, msg).0, t, msg.(sender := m.maxPid + 1), FateOf(m, t, false, false), SendBlocked)
  {
    hide QueueMsg, HandOver, Sent;
    var stamped := msg.(sender := m.maxPid + 1);
    RefusedEffect(m, t, stamped, SendBlocked);
    if t in m.prio {
      QueueMsgEffect(m, t, stamped, SendBlocked);
      HandOverEffect(m, t, stamped, SendBlocked);
    }
  }

  lemma RequestEffect(m: Mem, t: Pid, msg: Msg)
    requires Shape(m) && t in m.prio && t != m.active
    ensures var q := Requested(m, msg);
            && q.status == m.status[m.active := ReplyBlocked] && q.wait == m.wait[m.active := Buffer]
            && q.buf == m.buf[m.active := msg.(sender := m.active)] && q.queue == m.queue && q.flags == m.flags
            && q.lists == m.lists && q.at == m.at && q.locked == m.locked && q.mbox == m.mbox && q.prio == m.prio
            && FateOf(m, t, false, true) == FateOf(q, t, false, true) != Refused
            && Sent(q, SendReceive(m, t, msg).0, t, msg.(sender := m.active), FateOf(q, t, false, true), ReplyBlocked)
  {
    hide SendSection;
    SendSectionEffect(Requested(m, msg), t, msg.(sender := m.active), true);
  }

  /** Exact fields after a receive: the queue is advanced and refilled, and the
      first waiting sender, if any, is let go. */
  ghost predicate Received(m: Mem, r: Mem, block: bool, got: Option<Msg>)
    requires Shape(m)
  {
    var a, l := m.active, MsgWaiters(m.active);
    var w, taken := Lst(m.lists, l), Take(m.queue[a]).1;
    && r.buf == m.buf && r.flags == m.flags && r.locked == m.locked && r.mbox == m.mbox
    && if w == [] then
         && r.lists == m.lists && r.at == m.at && got == taken
         && r.queue == m.queue[a := Take(m.queue[a]).0]
         && r.status == (if taken.None? && block then m.status[a := ReceiveBlocked] else m.status)
       else
         var h := w[0];
         && h in m.buf && h in m.status && h in m.prio
         && r.lists == m.lists[l := w[1..]] && r.at == m.at[h := None]
         && r.queue == m.queue[a := Refilled(m.queue[a], m.buf[h])]
         && r.status == (if m.status[h] == ReplyBlocked then m.status else m.status[h := Pending])
         && got == Some(if taken.Some? then taken.value else m.buf[h])
  }

  lemma ReleaseEffect(m: Mem, l: ListId)
    requires Shape(m) && Lst(m.lists, l) != []
    ensures var r, h := ReleaseSender(m, l), Lst(m.lists, l)[0];
            && h in m.buf && h in m.status && h in m.prio
            && r.lists == m.lists[l := Lst(m.lists, l)[1..]] && r.at == m.at[h := None]
            && r.status == (if m.status[h] == ReplyBlocked then m.status else m.status[h := Pending])
            && r.queue == m.queue && r.buf == m.buf && r.flags == m.flags && r.locked == m.locked && r.mbox == m.mbox
  {
    assert Keyed(Lst(m.lists, l), m.prio);
  }

  lemma ReceiveEffect(m: Mem, block: bool)
    requires Shape(m)
    ensures Received(m, Receive(m, block).0, block, Receive(m, block).2)
  {
    hide Refilled, Put, Get, ReleaseSender;
    var a, w := m.active, Lst(m.lists, MsgWaiters(m.active));
    assert m.queue[a := m.queue[a]] == m.queue;
    if w != [] {
      assert Keyed(w, m.prio);
      var d := if Take(m.queue[a]).1.Some? then m.wait[a] else Buffer;
      ReleaseEffect(m.(queue := m.queue[a := Refilled(m.queue[a], m.buf[w[0]])], wait := m.wait[a := d]),
                    MsgWaiters(a));
    }
  }

  // Mailboxes

  ghost predicate PutDid(m: Mem, r: Mem, out: Out, b: nat, msg: Msg, blocking: bool)
    requires Shape(m) && b in m.mbox
  {
    var a, s := m.active, Lst(m.lists, Readers(b));
    && r.queue == m.queue && r.flags == m.flags && r.locked == m.locked
    && if s != [] then
         && r.buf == m.buf[s[0] := msg] && r.mbox == m.mbox && r.status == m.status[s[0] := Pending]
         && r.lists == m.lists[Readers(b) := s[1..]] && r.at == m.at[s[0] := None]
         && s[0] in m.prio && out == SwitchTo(m.prio[s[0]])
       else if !Full(m.mbox[b].cib) then
         && r.mbox == m.mbox[b := PutSlot(m.mbox[b], msg.(sender := a))] && r.buf == m.buf
         && r.status == m.status && r.lists == m.lists && r.at == m.at && out == Done(1)
       else if blocking then
         && r.buf == m.buf && r.mbox == m.mbox && r.status == m.status[a := MboxBlocked]
         && r.lists == m.lists[Writers(b) := Insert(Lst(m.lists, Writers(b)), a, m.prio)]
         && r.at == m.at[a := Some(Writers(b))] && out == Yield(PutDone(b, msg))
       else
         && r.mbox == m.mbox && r.buf == m.buf && r.status == m.status && r.lists == m.lists && r.at == m.at
         && out == Done(0)
  }

  lemma WakeFirstEffect(m: Mem, l: ListId)
    requires Shape(m) && Lst(m.lists, l) != []
    ensures var r, s := WakeFirst(m, l), Lst(m.lists, l);
            && r.status == m.status[s[0] := Pending] && r.lists == m.lists[l := s[1..]] && r.at == m.at[s[0] := None]
            && r.queue == m.queue && r.buf == m.buf && r.flags == m.flags && r.locked == m.locked && r.mbox == m.mbox
            && r.wait == m.wait && r.csr == m.csr
  {
  }

  lemma WaitInEffect(m: Mem, l: ListId)
    requires Shape(m)
    ensures var r, a := WaitIn(m, l), m.active;
            && r.status == m.status[a := MboxBlocked] && r.at == m.at[a := Some(l)]
            && r.lists == m.lists[l := Insert(Lst(m.lists, l), a, m.prio)]
            && r.queue == m.queue && r.buf == m.buf && r.flags == m.flags && r.locked == m.locked && r.mbox == m.mbox
            && r.wait == m.wait
  {
    hide Insert;
  }

  lemma PutEffect(m: Mem, b: nat, msg: Msg, blocking: bool)
    requires Shape(m) && b in m.mbox
    ensures PutDid(m, PutMsg(m, b, msg, blocking).0, PutMsg(m, b, msg, blocking).1, b, msg, blocking)
  {
    hide WakeFirst, WaitIn, Insert, PutSlot, Full;
    var s := Lst(m.lists, Readers(b));
    if s != [] {
      assert Keyed(s, m.prio);
      WakeFirstEffect(m.(buf := m.buf[s[0] := msg]), Readers(b));
    } else {
      WaitInEffect(m, Writers(b));
    }
  }

  ghost predicate GetDid(m: Mem, r: Mem, out: Out, b: nat, blocking: bool, got: Option<Msg>)
    requires Shape(m) && b in m.mbox
  {
    var a, s, full := m.active, Lst(m.lists, Writers(b)), Avail(m.mbox[b].cib) != 0;
    && r.queue == m.queue && r.flags == m.flags && r.locked == m.locked && r.buf == m.buf
    && got == (if full then Some(GetSlot(m.mbox[b]).1) else None)
    && r.mbox == (if full then m.mbox[b := GetSlot(m.mbox[b]).0] else m.mbox)
    && if full && s != [] then
         && r.status == m.status[s[0] := Pending] && r.lists == m.lists[Writers(b) := s[1..]]
         && r.at == m.at[s[0] := None] && s[0] in m.prio && out == SwitchTo(m.prio[s[0]])
       else if !full && blocking then
         && r.status == m.status[a := MboxBlocked] && r.at == m.at[a := Some(Readers(b))]
         && r.lists == m.lists[Readers(b) := Insert(Lst(m.lists, Readers(b)), a, m.prio)] && out == Yield(GetDone(b))
       else r.status == m.status && r.lists == m.lists && r.at == m.at && out == Done(if full then 1 else 0)
  }

  lemma GetEffect(m: Mem, b: nat, blocking: bool)
    requires Shape(m) && b in m.mbox
    ensures var (r, out, got) := GetMsg(m, b, blocking); GetDid(m, r, out, b, blocking, got)
  {
    hide WakeFirst, WaitIn, Insert, GetSlot, Avail;
    var s := Lst(m.lists, Writers(b));
    if Avail(m.mbox[b].cib) != 0 {
      if s != [] {
        assert Keyed(s, m.prio);
        WakeFirstEffect(m.(mbox := m.mbox[b := GetSlot(m.mbox[b]).0]), Writers(b));
      }
    } else {
      WaitInEffect(m.(wait := m.wait[m.active := Buffer]), Readers(b));
    }
  }
}
