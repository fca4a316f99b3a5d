/** core/mbox.c: the sections of putting and getting. */
module Mailboxes {
  import opened Names
  import opened Sequences
  import opened CircularIndex
  import opened KernelState
  import opened Scheduler
  import opened Mutexes

  /** _wait, up to its thread_yield. */
  ghost function WaitIn(m: Mem, l: ListId): (r: Mem)
    requires Shape(m)
    ensures Shape(r) && r.active == m.active
  {
    AddToList(SetStatus(m, m.active, MboxBlocked), l, m.active)
  }

  /** The part of _mbox_put behind the wait: it does not look at the mailbox again. */
  ghost function Store(m: Mem, b: nat, msg: Msg): (r: Mem)
    requires Shape(m) && b in m.mbox
    ensures Shape(r) && r.active == m.active
  {
    m.(mbox := m.mbox[b := PutSlot(m.mbox[b], msg.(sender := m.active))])
  }

  /** _mbox_put */
  ghost function PutMsg(m: Mem, b: nat, msg: Msg, blocking: bool): (r: (Mem, Out))
    requires Shape(m) && b in m.mbox
    ensures Shape(r.0) && r.0.active == m.active
  {
    var s := Lst(m.lists, Readers(b));
    if s != [] then
      assert Keyed(s, m.prio);
      (WakeFirst(m.(buf := m.buf[s[0] := msg]), Readers(b)), SwitchTo(m.prio[s[0]]))
    else if Full(m.mbox[b].cib) then
      if blocking then (WaitIn(m, Writers(b)), Yield(PutDone(b, msg))) else (m, Done(0))
    else (Store(m, b, msg), Done(1))
  }

  /** _mbox_get: the memory, how it ends, and the message taken if any. */
  ghost function GetMsg(m: Mem, b: nat, blocking: bool): (r: (Mem, Out, Option<Msg>))
    requires Shape(m) && b in m.mbox
    ensures Shape(r.0) && r.0.active == m.active
  {
    if Avail(m.mbox[b].cib) != 0 then
      var (f, msg) := GetSlot(m.mbox[b]);
      var taken := m.(mbox := m.mbox[b := f]);
      var s := Lst(m.lists, Writers(b));
      if s != [] then
        assert Keyed(s, m.prio);
        (WakeFirst(taken, Writers(b)), SwitchTo(m.prio[s[0]]), Some(msg))
      else (taken, Done(1), Some(msg))
    else if blocking then
      (WaitIn(m.(wait := m.wait[m.active := Buffer]), Readers(b)), Yield(GetDone(b)), None)
    else (m, Done(0), None)
  }

  lemma WaitInIsGood(m: Mem, l: ListId)
    requires ActiveRuns(m) && (l.Readers? || l.Writers?)
    ensures var r := WaitIn(m, l);
            && Caller(m, r, {MboxBlocked}, {MboxBlocked})
            && r.status[r.active] == MboxBlocked && r.at[r.active] == Some(l) && r.wait == m.wait
  {
    PopIsGood(m, MboxBlocked, {MboxBlocked}, {MboxBlocked});
    AddKeepsLists(SetStatus(m, m.active, MboxBlocked), l, m.active);
  }

  /** The first reader or writer woken, in a memory that differs in data only. */
  lemma WakeInBox(m: Mem, mid: Mem, l: ListId)
    requires ListsInv(m) && (l.Readers? || l.Writers?) && Lst(m.lists, l) != [] && SameThreads(m, mid)
    requires mid.rq == m.rq && mid.lists == m.lists && mid.status == m.status && mid.at == m.at && mid.wait == m.wait
    requires mid.locked == m.locked
    ensures GoodIsrSection(m, WakeFirst(mid, l), {MboxBlocked})
  {
    DataIsGood(m, mid, {MboxBlocked});
    WakeFirstIsGood(mid, l);
    assert Fits(mid.status[Lst(mid.lists, l)[0]], l);
    hide RunQueuesOk, WaitListsOk, PlacesOk, Moves, ListsKept;
    IsrSectionsCompose(m, mid, WakeFirst(mid, l), {MboxBlocked});
  }

  /** A section of a mailbox, from either context. */
  ghost predicate GoodBoxSection(m: Mem, r: Mem, out: Out, blocking: bool) {
    && (ActiveRuns(m) ==> GoodSection(m, r, out, {MboxBlocked}, {MboxBlocked}))
    && (!blocking ==> GoodIsrSection(m, r, {MboxBlocked}) && !out.Yield? && !out.YieldHigher?)
  }

  lemma BoxSectionIsGood(m: Mem, r: Mem, out: Out, blocking: bool)
    requires GoodIsrSection(m, r, {MboxBlocked}) && (out.Done? || out.SwitchTo?)
    ensures GoodBoxSection(m, r, out, blocking)
  {
    hide Caller, ActiveRuns;
    if ActiveRuns(m) { IsrSectionIsGood(m, r, out, {MboxBlocked}, {MboxBlocked}); }
  }

  lemma PutIsGood(m: Mem, b: nat, msg: Msg, blocking: bool)
    requires ListsInv(m) && b in m.mbox
    ensures GoodBoxSection(m, PutMsg(m, b, msg, blocking).0, PutMsg(m, b, msg, blocking).1, blocking)
  {
    hide WakeFirst, WaitIn, PutSlot, RunQueuesOk, WaitListsOk, PlacesOk, Moves, ListsKept;
    var (r, out) := PutMsg(m, b, msg, blocking);
    var s := Lst(m.lists, Readers(b));
    if s != [] {
      assert Keyed(s, m.prio);
      WakeInBox(m, m.(buf := m.buf[s[0] := msg]), Readers(b));
      BoxSectionIsGood(m, r, out, blocking);
    } else if !Full(m.mbox[b].cib) {
      DataIsGood(m, r, {MboxBlocked});
      BoxSectionIsGood(m, r, out, blocking);
    } else if blocking {
      if ActiveRuns(m) { WaitInIsGood(m, Writers(b)); }
    } else {
      DataIsGood(m, m, {MboxBlocked});
      BoxSectionIsGood(m, r, out, blocking);
    }
  }

  lemma GetIsGood(m: Mem, b: nat, blocking: bool)
    requires ListsInv(m) && b in m.mbox
    ensures GoodBoxSection(m, GetMsg(m, b, blocking).0, GetMsg(m, b, blocking).1, blocking)
  {
    hide WakeFirst, WaitIn, GetSlot, RunQueuesOk, WaitListsOk, PlacesOk, Moves, ListsKept;
    var (r, out, _) := GetMsg(m, b, blocking);
    if Avail(m.mbox[b].cib) != 0 {
      var taken := m.(mbox := m.mbox[b := GetSlot(m.mbox[b]).0]);
      DataIsGood(m, taken, {MboxBlocked});
      if Lst(m.lists, Writers(b)) != [] { WakeInBox(m, taken, Writers(b)); }
      BoxSectionIsGood(m, r, out, blocking);
    } else if blocking {
      if ActiveRuns(m) {
        var waits := m.(wait := m.wait[m.active := Buffer]);
        CallersWaitDataIsFree(m, Buffer, WaitIn(waits, Readers(b)), {MboxBlocked}, {MboxBlocked});
        WaitInIsGood(waits, Readers(b));
      }
    } else {
      DataIsGood(m, m, {MboxBlocked});
      BoxSectionIsGood(m, r, out, blocking);
    }
  }
}
