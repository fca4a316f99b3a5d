/** Messages are conserved over every run: each accepted message is delivered
    once, in the order of entry, or is still held. */
module Conservation {
  import opened Names
  import opened Sequences
  import opened CircularIndex
  import opened KernelState
  import opened Scheduler
  import opened Threads
  import F = ThreadFlags
  import opened Messages
  import opened Mailboxes
  import opened Effects
  import opened Machine
  import opened PlainSteps
  import opened Separation
  import opened Requests

  function BufOf(buf: map<Pid, Msg>, t: Pid): Msg {
    if t in buf then buf[t] else BLANK
  }

  /** The messages of waiting senders, front to back. */
  function Held(w: seq<Pid>, buf: map<Pid, Msg>): seq<Msg> {
    seq(|w|, i requires 0 <= i < |w| => BufOf(buf, w[i]))
  }

  lemma HeldSame(w: seq<Pid>, buf: map<Pid, Msg>, buf': map<Pid, Msg>)
    requires forall t :: t in w ==> BufOf(buf', t) == BufOf(buf, t)
    ensures Held(w, buf') == Held(w, buf)
  {
    forall i | 0 <= i < |w|
      ensures BufOf(buf', w[i]) == BufOf(buf, w[i])
    {
      assert w[i] in w;
    }
  }

  lemma HeldSplice(w: seq<Pid>, n: nat, a: Pid, buf: map<Pid, Msg>)
    requires n <= |w|
    ensures Held(Splice(w, n, a), buf) == Held(w, buf)[..n] + [BufOf(buf, a)] + Held(w, buf)[n..]
  {
    hide BufOf;
    var r := Splice(w, n, a);
    forall i | 0 <= i < |r|
      ensures Held(r, buf)[i] == (Held(w, buf)[..n] + [BufOf(buf, a)] + Held(w, buf)[n..])[i]
    {
    }
  }

  lemma SpliceCounts(h: seq<Msg>, n: nat, msg: Msg)
    requires n <= |h|
    ensures multiset(h[..n] + [msg] + h[n..]) == multiset(h) + multiset{msg}
  {
    assert h == h[..n] + h[n..];
  }

  lemma HeldInsert(w: seq<Pid>, a: Pid, prio: map<Pid, nat>, buf: map<Pid, Msg>, msg: Msg)
    requires Keyed(w, prio) && a in prio && a !in w
    ensures multiset(Held(Insert(w, a, prio), buf[a := msg])) == multiset(Held(w, buf)) + multiset{msg}
  {
    var n := Passed(w, prio[a], prio);
    HeldSame(w, buf, buf[a := msg]);
    HeldSplice(w, n, a, buf[a := msg]);
    hide Held, Keyed, Insert, Passed;
    SpliceCounts(Held(w, buf), n, msg);
  }

  lemma HeldTail(w: seq<Pid>, buf: map<Pid, Msg>)
    requires w != []
    ensures Held(w, buf) == [BufOf(buf, w[0])] + Held(w[1..], buf)
  {
  }

  /** One receiver's account. What entered its queue was delivered or is queued,
      in order; what was accepted entered or is held by a waiting sender. Senders
      wait only for a full queue, and a waiting receiver has nothing to get. */
  ghost predicate Account(q: MsgQueue, st: Status, held: seq<Msg>, acc: seq<Msg>, ent: seq<Msg>, del: seq<Msg>) {
    && q.cib.read <= q.cib.write
    && ent == del + Items(q)
    && multiset(acc) == multiset(ent) + multiset(held)
    && (held != [] ==> |Items(q)| == |q.slots|)
    && (st == ReceiveBlocked ==> Items(q) == [] && held == [])
  }

  ghost predicate MsgsOk(prio: map<Pid, nat>, status: map<Pid, Status>, queue: map<Pid, MsgQueue>,
                         lists: map<ListId, seq<Pid>>, buf: map<Pid, Msg>, ms: MsgLog) {
    forall t :: t in prio ==>
      && t in queue && t in status
      && Account(queue[t], status[t], Held(Lst(lists, MsgWaiters(t)), buf),
                 Of(ms.accepted, t), Of(ms.entered, t), Of(ms.delivered, t))
  }

  ghost predicate MessagesOk(s: K) {
    MsgsOk(s.m.prio, s.m.status, s.m.queue, s.m.lists, s.m.buf, s.ms)
  }

  // One account at a time

  lemma AccountEnqueue(q: MsgQueue, st: Status, held: seq<Msg>, acc: seq<Msg>, ent: seq<Msg>, del: seq<Msg>, msg: Msg,
                       st': Status)
    requires Account(q, st, held, acc, ent, del) && Offer(q, msg).1 && q.cib.write + 1 < U32 && st' != ReceiveBlocked
    ensures Account(Offer(q, msg).0, st', held, acc + [msg], ent + [msg], del)
  {
    OfferAppends(q, msg);
    hide Offer, Items, Put;
    assert del + Items(q) + [msg] == del + (Items(q) + [msg]);
  }

  lemma AccountHand(q: MsgQueue, held: seq<Msg>, acc: seq<Msg>, ent: seq<Msg>, del: seq<Msg>, msg: Msg)
    requires Account(q, ReceiveBlocked, held, acc, ent, del)
    ensures Account(q, Pending, held, acc + [msg], ent + [msg], del + [msg])
  {
    hide Items;
  }

  lemma AccountPark(q: MsgQueue, st: Status, held: seq<Msg>, held': seq<Msg>, acc: seq<Msg>, ent: seq<Msg>,
                    del: seq<Msg>,
                    msg: Msg, st': Status)
    requires Account(q, st, held, acc, ent, del) && !Offer(q, msg).1 && st' != ReceiveBlocked
    requires multiset(held') == multiset(held) + multiset{msg}
    ensures Account(q, st', held', acc + [msg], ent, del)
  {
    OfferAppends(q, msg);
    hide Offer, Items, Put;
  }

  /** A receive without waiting senders. */
  lemma AccountTake(q: MsgQueue, st: Status, acc: seq<Msg>, ent: seq<Msg>, del: seq<Msg>, st': Status)
    requires Account(q, st, [], acc, ent, del) && (Take(q).1.Some? ==> st' != ReceiveBlocked)
    ensures Account(Take(q).0, st', [], acc, ent, if Take(q).1.Some? then del + [Take(q).1.value] else del)
  {
    TakeRemovesHead(q);
    hide Take, Items;
    if Take(q).1.Some? {
      assert del + Items(q) == del + [Take(q).1.value] + Items(Take(q).0);
    }
  }

  lemma AccountRefill(q: MsgQueue, mid: MsgQueue, q': MsgQueue, st: Status, held: seq<Msg>, acc: seq<Msg>,
                      ent: seq<Msg>, del: seq<Msg>, msg: Msg, got: Msg)
    requires Account(q, st, [msg] + held, acc, ent, del) && q'.cib.read <= q'.cib.write
    requires Items(q) == [got] + Items(mid) && Items(q') == Items(mid) + [msg] && |q'.slots| == |q.slots|
    ensures Account(q', Pending, held, acc, ent + [msg], del + [got])
  {
    hide Items;
    assert multiset(ent + [msg]) + multiset(held) == multiset(ent) + multiset([msg] + held);
    Reassociate(del, [got], Items(mid), [msg]);
  }

  lemma AccountDirect(q: MsgQueue, st: Status, held: seq<Msg>, acc: seq<Msg>, ent: seq<Msg>, del: seq<Msg>, msg: Msg)
    requires Account(q, st, [msg] + held, acc, ent, del) && Items(q) == []
    ensures Account(q, Pending, held, acc, ent + [msg], del + [msg])
  {
    hide Items;
    assert multiset(ent + [msg]) + multiset(held) == multiset(ent) + multiset([msg] + held);
  }

  /** The refill after a take never fails, and a receive with waiting senders
      pulls in exactly the first of them. */
  lemma AccountPull(q: MsgQueue, st: Status, held: seq<Msg>, acc: seq<Msg>, ent: seq<Msg>, del: seq<Msg>, msg: Msg)
    requires Account(q, st, [msg] + held, acc, ent, del) && q.cib.write + 1 < U32
    ensures Take(q).1.Some? ==> Offer(Take(q).0, msg).1
    ensures var got := if Take(q).1.Some? then Take(q).1.value else msg;
            Account(Refilled(q, msg), Pending, held, acc, ent + [msg], del + [got])
  {
    TakeRemovesHead(q);
    OfferAppends(Take(q).0, msg);
    assert q.cib.read <= q.cib.write && |Items(q)| == |q.slots|;
    hide Take, Offer, Items, Account;
    if Take(q).1.Some? {
      assert |Items(q)| == 1 + |Items(Take(q).0)|;
      AccountRefill(q, Take(q).0, Offer(Take(q).0, msg).0, st, held, acc, ent, del, msg, Take(q).1.value);
    } else {
      AccountDirect(q, st, held, acc, ent, del, msg);
    }
  }

  lemma Reassociate(del: seq<Msg>, got: seq<Msg>, rest: seq<Msg>, more: seq<Msg>)
    ensures (del + (got + rest)) + more == (del + got) + (rest + more)
  {
  }

  // All accounts

  lemma AccountStatus(q: MsgQueue, st: Status, held: seq<Msg>, acc: seq<Msg>, ent: seq<Msg>, del: seq<Msg>, st': Status)
    requires Account(q, st, held, acc, ent, del) && (st' == ReceiveBlocked ==> st == ReceiveBlocked)
    ensures Account(q, st', held, acc, ent, del)
  {
  }

  /** Every account but that of `t` is as before. */
  ghost predicate OthersSame(t: Pid, prio: map<Pid, nat>, status: map<Pid, Status>, status': map<Pid, Status>,
                             queue: map<Pid, MsgQueue>, queue': map<Pid, MsgQueue>) {
    forall u :: u in prio && u != t ==>
      && u in queue && u in queue' && queue'[u] == queue[u]
      && u in status && u in status' && (status'[u] == ReceiveBlocked ==> status[u] == ReceiveBlocked)
  }

  ghost predicate HeldElsewhere(t: Pid, lists: map<ListId, seq<Pid>>, buf: map<Pid, Msg>,
                                lists': map<ListId, seq<Pid>>, buf': map<Pid, Msg>) {
    forall u :: u != t ==> Held(Lst(lists', MsgWaiters(u)), buf') == Held(Lst(lists, MsgWaiters(u)), buf)
  }

  ghost predicate LogsElsewhere(t: Pid, ms: MsgLog, ms': MsgLog) {
    forall u :: u != t ==> Of(ms'.accepted, u) == Of(ms.accepted, u) && Of(ms'.entered, u) == Of(ms.entered, u)
                           && Of(ms'.delivered, u) == Of(ms.delivered, u)
  }

  lemma OneAccount(t: Pid, prio: map<Pid, nat>, status: map<Pid, Status>, queue: map<Pid, MsgQueue>,
                   lists: map<ListId, seq<Pid>>, buf: map<Pid, Msg>, ms: MsgLog, status': map<Pid, Status>,
                   queue': map<Pid, MsgQueue>, lists': map<ListId, seq<Pid>>, buf': map<Pid, Msg>, ms': MsgLog)
    requires MsgsOk(prio, status, queue, lists, buf, ms)
    requires OthersSame(t, prio, status, status', queue, queue')
    requires HeldElsewhere(t, lists, buf, lists', buf') && LogsElsewhere(t, ms, ms')
    requires t in prio ==>
               && t in queue' && t in status'
               && Account(queue'[t], status'[t], Held(Lst(lists', MsgWaiters(t)), buf'),
                          Of(ms'.accepted, t), Of(ms'.entered, t), Of(ms'.delivered, t))
    ensures MsgsOk(prio, status', queue', lists', buf', ms')
  {
    hide Account, Held, Of;
    forall u | u in prio
      ensures u in queue' && u in status'
      ensures Account(queue'[u], status'[u], Held(Lst(lists', MsgWaiters(u)), buf'),
                      Of(ms'.accepted, u), Of(ms'.entered, u), Of(ms'.delivered, u))
    {
      if u != t {
        assert Account(queue[u], status[u], Held(Lst(lists, MsgWaiters(u)), buf),
                       Of(ms.accepted, u), Of(ms.entered, u), Of(ms.delivered, u));
        AccountStatus(queue[u], status[u], Held(Lst(lists, MsgWaiters(u)), buf),
                      Of(ms.accepted, u), Of(ms.entered, u), Of(ms.delivered, u), status'[u]);
      }
    }
  }

  /** Writing the buffer of a thread that is no waiting sender. */
  lemma UnlistedBuffer(m: Mem, x: Pid, msg: Msg)
    requires ListsInv(m) && x in m.prio && !(m.at[x].Some? && m.at[x].value.MsgWaiters?)
    ensures forall u :: x !in Lst(m.lists, MsgWaiters(u))
    ensures forall u :: Held(Lst(m.lists, MsgWaiters(u)), m.buf[x := msg]) == Held(Lst(m.lists, MsgWaiters(u)), m.buf)
  {
    hide Held, RunQueuesOk, PlacesOk;
    forall u
      ensures x !in Lst(m.lists, MsgWaiters(u))
      ensures Held(Lst(m.lists, MsgWaiters(u)), m.buf[x := msg]) == Held(Lst(m.lists, MsgWaiters(u)), m.buf)
    {
      HeldSame(Lst(m.lists, MsgWaiters(u)), m.buf, m.buf[x := msg]);
    }
  }

  lemma LoggedElsewhere(t: Pid, ms: MsgLog, msg: Msg, fate: Fate)
    ensures LogsElsewhere(t, ms, SendLog(ms, t, msg, fate))
  {
  }

  // Sending

  ghost predicate Accounts(m: Mem, ms: MsgLog) {
    MsgsOk(m.prio, m.status, m.queue, m.lists, m.buf, ms)
  }

  lemma FlaggedStatus(m: Mem, status: map<Pid, Status>, r: Mem, t: Pid)
    requires Shape(m) && t in m.prio && Covers(m.prio, status) && Flagged(m, status, r, t)
    ensures OnlyWoken(t, m.prio, status, r.status)
  {
    hide F.Met;
  }

  /** Nobody but `t` changed its status, and `t` was at most woken. */
  ghost predicate OnlyWoken(t: Pid, prio: map<Pid, nat>, status: map<Pid, Status>, status': map<Pid, Status>) {
    forall u :: u in prio ==>
      u in status && u in status' && (status'[u] == status[u] || (u == t && status'[u] == Pending))
  }

  lemma MsgsEnqueue(prio: map<Pid, nat>, status: map<Pid, Status>, queue: map<Pid, MsgQueue>,
                    lists: map<ListId, seq<Pid>>, buf: map<Pid, Msg>, ms: MsgLog, t: Pid, msg: Msg, status': map<Pid,
                        Status>)
    requires MsgsOk(prio, status, queue, lists, buf, ms) && t in prio && OnlyWoken(t, prio, status, status')
    requires status[t] != ReceiveBlocked && Offer(queue[t], msg).1 && queue[t].cib.write + 1 < U32
    ensures MsgsOk(prio, status', queue[t := Offer(queue[t], msg).0], lists, buf, SendLog(ms, t, msg, Enqueued))
  {
    hide Held, Account, Offer;
    LoggedElsewhere(t, ms, msg, Enqueued);
    AccountEnqueue(queue[t], status[t], Held(Lst(lists, MsgWaiters(t)), buf),
                   Of(ms.accepted, t), Of(ms.entered, t), Of(ms.delivered, t), msg, status'[t]);
    OneAccount(t, prio, status, queue, lists, buf, ms,
               status', queue[t := Offer(queue[t], msg).0], lists, buf, SendLog(ms, t, msg, Enqueued));
  }

  lemma MsgsHand(prio: map<Pid, nat>, status: map<Pid, Status>, queue: map<Pid, MsgQueue>,
                 lists: map<ListId, seq<Pid>>, buf: map<Pid, Msg>, ms: MsgLog, t: Pid, msg: Msg)
    requires MsgsOk(prio, status, queue, lists, buf, ms) && t in prio && status[t] == ReceiveBlocked
    requires forall u :: Held(Lst(lists, MsgWaiters(u)), buf[t := msg]) == Held(Lst(lists, MsgWaiters(u)), buf)
    ensures MsgsOk(prio, status[t := Pending], queue, lists, buf[t := msg], SendLog(ms, t, msg, Handed))
  {
    hide Held, Account;
    LoggedElsewhere(t, ms, msg, Handed);
    AccountHand(queue[t], Held(Lst(lists, MsgWaiters(t)), buf),
                Of(ms.accepted, t), Of(ms.entered, t), Of(ms.delivered, t), msg);
    OneAccount(t, prio, status, queue, lists, buf, ms,
               status[t := Pending], queue, lists, buf[t := msg], SendLog(ms, t, msg, Handed));
  }

  lemma MsgsPark(prio: map<Pid, nat>, status: map<Pid, Status>, queue: map<Pid, MsgQueue>,
                 lists: map<ListId, seq<Pid>>, buf: map<Pid, Msg>, ms: MsgLog, t: Pid, msg: Msg, a: Pid,
                 w: seq<Pid>, st: Status, status': map<Pid, Status>)
    requires MsgsOk(prio, status, queue, lists, buf, ms) && t in prio && status[t] != ReceiveBlocked
    requires !Offer(queue[t], msg).1 && a != t && OnlyWoken(t, prio, status[a := st], status') && st != ReceiveBlocked
    requires forall u :: Held(Lst(lists, MsgWaiters(u)), buf[a := msg]) == Held(Lst(lists, MsgWaiters(u)), buf)
    requires multiset(Held(w, buf[a := msg])) == multiset(Held(Lst(lists, MsgWaiters(t)), buf)) + multiset{msg}
    ensures MsgsOk(prio, status', queue, lists[MsgWaiters(t) := w], buf[a := msg], SendLog(ms, t, msg, Waits))
  {
    hide Held, Account, Offer;
    LoggedElsewhere(t, ms, msg, Waits);
    AccountPark(queue[t], status[t], Held(Lst(lists, MsgWaiters(t)), buf), Held(w, buf[a := msg]),
                Of(ms.accepted, t), Of(ms.entered, t), Of(ms.delivered, t), msg, status'[t]);
    OneAccount(t, prio, status, queue, lists, buf, ms,
               status', queue, lists[MsgWaiters(t) := w], buf[a := msg], SendLog(ms, t, msg, Waits));
  }

  lemma EnqueueKeepsMsgs(m: Mem, r: Mem, t: Pid, msg: Msg, st: Status, ms: MsgLog)
    requires ListsInv(m) && t in m.prio && Sent(m, r, t, msg, Enqueued, st) && Accounts(m, ms)
    requires m.status[t] != ReceiveBlocked && Offer(m.queue[t], msg).1 && m.queue[t].cib.write + 1 < U32
    ensures MsgsOk(m.prio, r.status, r.queue, r.lists, r.buf, SendLog(ms, t, msg, Enqueued))
  {
    hide RunQueuesOk, WaitListsOk, PlacesOk, Flagged, Offer, MsgsOk, SendLog;
    FlaggedStatus(m, m.status, r, t);
    MsgsEnqueue(m.prio, m.status, m.queue, m.lists, m.buf, ms, t, msg, r.status);
  }

  lemma HandKeepsMsgs(m: Mem, r: Mem, t: Pid, msg: Msg, st: Status, ms: MsgLog)
    requires ListsInv(m) && t in m.prio && Sent(m, r, t, msg, Handed, st) && Accounts(m, ms)
    requires m.status[t] == ReceiveBlocked
    ensures MsgsOk(m.prio, r.status, r.queue, r.lists, r.buf, SendLog(ms, t, msg, Handed))
  {
    hide RunQueuesOk, WaitListsOk, MsgsOk, SendLog, Held;
    UnlistedStatus(m, t);
    UnlistedBuffer(m, t, msg);
    MsgsHand(m.prio, m.status, m.queue, m.lists, m.buf, ms, t, msg);
  }

  lemma ParkKeepsMsgs(m: Mem, r: Mem, t: Pid, msg: Msg, st: Status, ms: MsgLog)
    requires ListsInv(m) && t in m.prio && Sent(m, r, t, msg, Waits, st) && Accounts(m, ms)
    requires m.status[t] != ReceiveBlocked && !Offer(m.queue[t], msg).1 && m.at[m.active] == None
    requires st != ReceiveBlocked
    ensures MsgsOk(m.prio, r.status, r.queue, r.lists, r.buf, SendLog(ms, t, msg, Waits))
  {
    hide RunQueuesOk, WaitListsOk, PlacesOk, Flagged, MsgsOk, SendLog, Held, Insert, Offer;
    var a, w := m.active, Lst(m.lists, MsgWaiters(t));
    assert Keyed(w, m.prio);
    FlaggedStatus(m, m.status[a := st], r, t);
    UnlistedBuffer(m, a, msg);
    HeldInsert(w, a, m.prio, m.buf, msg);
    MsgsPark(m.prio, m.status, m.queue, m.lists, m.buf, ms, t, msg, a, Insert(w, a, m.prio), st, r.status);
  }

  /** What has to be known of a message's fate. */
  ghost predicate FateFits(m: Mem, t: Pid, msg: Msg, fate: Fate)
    requires Shape(m)
  {
    && (fate != Refused ==> t in m.prio)
    && match fate
       case Refused => true
       case Handed => m.status[t] == ReceiveBlocked
       case Enqueued => m.status[t] != ReceiveBlocked && Offer(m.queue[t], msg).1 && m.queue[t].cib.write + 1 < U32
       case Waits => m.status[t] != ReceiveBlocked && !Offer(m.queue[t], msg).1 && m.at[m.active] == None
  }

  lemma SentKeepsMsgs(m: Mem, r: Mem, t: Pid, msg: Msg, fate: Fate, st: Status, ms: MsgLog)
    requires ListsInv(m) && FateFits(m, t, msg, fate) && Sent(m, r, t, msg, fate, st) && Accounts(m, ms)
    requires st != ReceiveBlocked
    ensures MsgsOk(m.prio, r.status, r.queue, r.lists, r.buf, SendLog(ms, t, msg, fate))
  {
    if fate == Refused {
    } else {
      hide Sent, MsgsOk, ListsInv, Offer;
      match fate
      case Enqueued => EnqueueKeepsMsgs(m, r, t, msg, st, ms);
      case Handed => HandKeepsMsgs(m, r, t, msg, st, ms);
      case Waits => ParkKeepsMsgs(m, r, t, msg, st, ms);
    }
  }

  lemma FateIsFitting(m: Mem, t: Pid, msg: Msg, toSelf: bool, block: bool)
    requires Shape(m) && CountersFresh(m) && (toSelf ==> t in m.prio && m.status[t] != ReceiveBlocked)
    requires !toSelf && block ==> m.at[m.active] == None
    ensures FateFits(m, t, msg, FateOf(m, t, toSelf, block))
  {
    if t in m.prio { OfferSucceedsIff(m.queue[t], msg); }
    hide Offer, Put;
  }

  lemma SendKeepsMsgs(m: Mem, to: Pid, msg: Msg, block: bool, ms: MsgLog)
    requires ActiveRuns(m) && CountersFresh(m) && Accounts(m, ms)
    ensures var r, fate := Send(m, to, msg, block).0, FateOf(m, to, to == m.active, block);
            MsgsOk(m.prio, r.status, r.queue, r.lists, r.buf, SendLog(ms, to, msg.(sender := m.active), fate))
  {
    UnlistedStatus(m, m.active);
    SendEffect(m, to, msg, block);
    FateIsFitting(m, to, msg.(sender := m.active), to == m.active, block);
    hide RunQueuesOk, WaitListsOk, PlacesOk, Send, Sent, MsgsOk, SendLog, FateOf, FateFits;
    SentKeepsMsgs(m, Send(m, to, msg, block).0, to, msg.(sender := m.active), FateOf(m, to, to == m.active, block),
                  SendBlocked, ms);
  }

  lemma SendIntKeepsMsgs(m: Mem, to: Pid, msg: Msg, ms: MsgLog)
    requires ListsInv(m) && CountersFresh(m) && Accounts(m, ms)
    ensures var r, fate := SendInt(m, to, msg).0, FateOf(m, to, false, false);
            MsgsOk(m.prio, r.status, r.queue, r.lists, r.buf, SendLog(ms, to, msg.(sender := m.maxPid + 1), fate))
  {
    SendIntEffect(m, to, msg);
    FateIsFitting(m, to, msg.(sender := m.maxPid + 1), false, false);
    hide RunQueuesOk, WaitListsOk, PlacesOk, SendInt, Sent, MsgsOk, SendLog, FateOf, FateFits;
    SentKeepsMsgs(m, SendInt(m, to, msg).0, to, msg.(sender := m.maxPid + 1), FateOf(m, to, false, false), SendBlocked,
                  ms);
  }

  lemma MsgsBlocked(prio: map<Pid, nat>, status: map<Pid, Status>, queue: map<Pid, MsgQueue>,
                    lists: map<ListId, seq<Pid>>, buf: map<Pid, Msg>, ms: MsgLog, a: Pid, st: Status, msg: Msg)
    requires MsgsOk(prio, status, queue, lists, buf, ms) && a in prio && st != ReceiveBlocked
    requires forall u :: Held(Lst(lists, MsgWaiters(u)), buf[a := msg]) == Held(Lst(lists, MsgWaiters(u)), buf)
    ensures MsgsOk(prio, status[a := st], queue, lists, buf[a := msg], ms)
  {
    hide Held, Account;
    AccountStatus(queue[a], status[a], Held(Lst(lists, MsgWaiters(a)), buf),
                  Of(ms.accepted, a), Of(ms.entered, a), Of(ms.delivered, a), st);
    OneAccount(a, prio, status, queue, lists, buf, ms, status[a := st], queue, lists, buf[a := msg], ms);
  }

  lemma RequestKeepsMsgs(m: Mem, to: Pid, msg: Msg, ms: MsgLog)
    requires ActiveRuns(m) && CountersFresh(m) && Accounts(m, ms) && to in m.prio && to != m.active
    ensures var r, fate := SendReceive(m, to, msg).0, FateOf(m, to, false, true);
            MsgsOk(m.prio, r.status, r.queue, r.lists, r.buf, SendLog(ms, to, msg.(sender := m.active), fate))
  {
    hide RunQueuesOk, WaitListsOk, SendReceive, Requested, Sent, MsgsOk, SendLog, FateOf, FateFits, Caller, Held;
    var a, q, stamped := m.active, Requested(m, msg), msg.(sender := m.active);
    UnlistedStatus(m, a);
    RequestedIsSending(m, msg);
    RequestEffect(m, to, msg);
    UnlistedBuffer(m, a, stamped);
    MsgsBlocked(m.prio, m.status, m.queue, m.lists, m.buf, ms, a, ReplyBlocked, stamped);
    FateIsFitting(q, to, stamped, false, true);
    SentKeepsMsgs(q, SendReceive(m, to, msg).0, to, stamped, FateOf(m, to, false, true), ReplyBlocked, ms);
  }

  // Receiving

  lemma ReceiveLogsElsewhere(a: Pid, ms: MsgLog, m: Mem, got: Option<Msg>)
    requires Shape(m) && a == m.active
    ensures LogsElsewhere(a, ms, ReceiveLog(ms, m, got))
  {
  }

  /** The receiver's own account after a receive. */
  lemma ReceiveAccount(q: MsgQueue, st: Status, w: seq<Pid>, buf: map<Pid, Msg>, acc: seq<Msg>, ent: seq<Msg>,
                       del: seq<Msg>,
                       st': Status)
    requires Account(q, st, Held(w, buf), acc, ent, del) && q.cib.write + 1 < U32
    requires st' == ReceiveBlocked ==> w == [] && Take(q).1.None?
    ensures var taken := Take(q).1;
            if w == [] then Account(Take(q).0, st', Held(w, buf), acc, ent, if taken.Some? then del + [taken.value]
                else del)
            else Account(Refilled(q, BufOf(buf, w[0])), st', Held(w[1..], buf), acc, ent + [BufOf(buf, w[0])],
                         del + [if taken.Some? then taken.value else BufOf(buf, w[0])])
  {
    hide Account, Take, Refilled, BufOf;
    if w == [] {
      assert Held(w, buf) == [];
      AccountTake(q, st, acc, ent, del, st');
    } else {
      var msg := BufOf(buf, w[0]);
      HeldTail(w, buf);
      AccountPull(q, st, Held(w[1..], buf), acc, ent, del, msg);
      AccountStatus(Refilled(q, msg), Pending, Held(w[1..], buf), acc, ent + [msg],
                    del + [if Take(q).1.Some? then Take(q).1.value else msg], st');
    }
  }

  lemma MsgsReceive(prio: map<Pid, nat>, status: map<Pid, Status>, queue: map<Pid, MsgQueue>,
                    lists: map<ListId, seq<Pid>>, buf: map<Pid, Msg>, ms: MsgLog, a: Pid, status': map<Pid, Status>,
                    q: MsgQueue, lists': map<ListId, seq<Pid>>, ms': MsgLog)
    requires MsgsOk(prio, status, queue, lists, buf, ms) && a in prio && LogsElsewhere(a, ms, ms')
    requires forall u :: u in prio ==>
               u in status && u in status' && (status'[u] == ReceiveBlocked ==> u == a || status[u] == ReceiveBlocked)
    requires forall u :: u != a ==> Lst(lists', MsgWaiters(u)) == Lst(lists, MsgWaiters(u))
    requires a in status' && Account(q, status'[a], Held(Lst(lists', MsgWaiters(a)), buf),
                                     Of(ms'.accepted, a), Of(ms'.entered, a), Of(ms'.delivered, a))
    ensures MsgsOk(prio, status', queue[a := q], lists', buf, ms')
  {
    hide Held, Account, Of;
    OneAccount(a, prio, status, queue, lists, buf, ms, status', queue[a := q], lists', buf, ms');
  }

  lemma ReceiveStatus(m: Mem, block: bool)
    requires ActiveRuns(m)
    ensures var r := Receive(m, block).0;
            && forall u :: u in m.prio ==>
                 u in r.status && (r.status[u] == ReceiveBlocked ==> u == m.active || m.status[u] == ReceiveBlocked)
    ensures var r, w := Receive(m, block).0, Lst(m.lists, MsgWaiters(m.active));
            r.status[m.active] == ReceiveBlocked ==> w == [] && Take(m.queue[m.active]).1.None?
  {
    ReceiveEffect(m, block);
    if Lst(m.lists, MsgWaiters(m.active)) != [] { RemoveKeepsLists(m, MsgWaiters(m.active)); }
    hide RunQueuesOk, WaitListsOk, PlacesOk, Receive, Take, Refilled;
  }

  /** The caller's own account after a receive. */
  lemma ReceivedAccount(m: Mem, r: Mem, block: bool, got: Option<Msg>, ms: MsgLog)
    requires Shape(m) && CountersFresh(m) && Accounts(m, ms) && Received(m, r, block, got)
    requires m.active in r.status && m.active in r.queue && m.status[m.active] != ReceiveBlocked
    ensures var a, ms' := m.active, ReceiveLog(ms, m, got);
            Account(r.queue[a], r.status[a], Held(Lst(r.lists, MsgWaiters(a)), m.buf),
                    Of(ms'.accepted, a), Of(ms'.entered, a), Of(ms'.delivered, a))
  {
    hide LevelsOk, ListsKeyed, RunQueuesKeyed, Take, Refilled, Account, Held;
    var a, w := m.active, Lst(m.lists, MsgWaiters(m.active));
    assert Account(m.queue[a], m.status[a], Held(w, m.buf), Of(ms.accepted, a), Of(ms.entered, a), Of(ms.delivered, a));
    ReceiveAccount(m.queue[a], m.status[a], w, m.buf, Of(ms.accepted, a), Of(ms.entered, a), Of(ms.delivered, a),
                   r.status[a]);
    assert w != [] ==> BufOf(m.buf, w[0]) == m.buf[w[0]];
  }

  lemma ReceiveKeepsMsgs(m: Mem, block: bool, ms: MsgLog)
    requires ActiveRuns(m) && CountersFresh(m) && Accounts(m, ms)
    ensures var (r, _, got) := Receive(m, block);
            MsgsOk(m.prio, r.status, r.queue, r.lists, r.buf, ReceiveLog(ms, m, got))
  {
    hide RunQueuesOk, WaitListsOk, PlacesOk, LevelsOk, ListsKeyed, RunQueuesKeyed, Receive, Take, Refilled, Account,
      Held, LogsElsewhere, ReceiveLog, MsgsOk;
    var a := m.active;
    var (r, _, got) := Receive(m, block);
    ReceiveStatus(m, block);
    ReceiveEffect(m, block);
    ReceiveLogsElsewhere(a, ms, m, got);
    ReceivedAccount(m, r, block, got, ms);
    MsgsReceive(m.prio, m.status, m.queue, m.lists, m.buf, ms, a, r.status, r.queue[a], r.lists,
                ReceiveLog(ms, m, got));
  }

  // Everything else leaves the accounts alone

  lemma MsgsFrame(m: Mem, r: Mem, w: set<Status>, b: set<Status>, ms: MsgLog)
    requires Caller(m, r, w, b) && SendBlocked !in w + b && ReceiveBlocked !in b && Accounts(m, ms)
    requires r.queue == m.queue
    requires forall u :: Held(Lst(m.lists, MsgWaiters(u)), r.buf) == Held(Lst(m.lists, MsgWaiters(u)), m.buf)
    ensures Accounts(r, ms)
  {
    hide ListsInv, Account, Held, Of;
    forall t | t in r.prio
      ensures t in r.queue && t in r.status
      ensures Account(r.queue[t], r.status[t], Held(Lst(r.lists, MsgWaiters(t)), r.buf),
                      Of(ms.accepted, t), Of(ms.entered, t), Of(ms.delivered, t))
    {
      assert Lst(r.lists, MsgWaiters(t)) == Lst(m.lists, MsgWaiters(t));
      AccountStatus(m.queue[t], m.status[t], Held(Lst(m.lists, MsgWaiters(t)), m.buf),
                    Of(ms.accepted, t), Of(ms.entered, t), Of(ms.delivered, t), r.status[t]);
    }
  }

  lemma PlainKeepsMsgs(s: K, step: Step)
    requires Core(s) && RequestsOk(s) && MessagesOk(s) && Enabled(s, step) && Plain(step) && !step.DoInitQueue?
    ensures MessagesOk(Apply(s, step))
  {
    hide RequestsOk, Enabled, Apply, Core, Caller, PcMoves, MsgsOk, Held;
    ReplyIsSafe(s, step);
    CallKeepsCore(s, step);
    PlainKeepsMessages(s, step);
    MsgsFrame(s.m, Apply(s, step).m, Wakes(step), Blocks(step), s.ms);
  }

  lemma AccountInit(q: MsgQueue, st: Status, acc: seq<Msg>, ent: seq<Msg>, del: seq<Msg>, slots: seq<Msg>)
    requires Account(q, st, [], acc, ent, del) && q.slots == [] && IsSize(|slots|) && |slots| < U32
    ensures Account(NewQueue(slots), st, [], acc, ent, del)
  {
    InitIsEmpty(|slots|);
    EmptyQueues(q, slots);
    hide NewQueue, Items;
  }

  lemma EmptyQueues(q: MsgQueue, slots: seq<Msg>)
    requires q.slots == [] && IsSize(|slots|) && |slots| < U32
    ensures Items(q) == [] && Items(NewQueue(slots)) == [] && NewQueue(slots).cib.read <= NewQueue(slots).cib.write
  {
    InitIsEmpty(|slots|);
    OfferAppends(q, BLANK);
  }

  lemma MsgsInit(prio: map<Pid, nat>, status: map<Pid, Status>, queue: map<Pid, MsgQueue>,
                 lists: map<ListId, seq<Pid>>, buf: map<Pid, Msg>, ms: MsgLog, a: Pid, slots: seq<Msg>)
    requires MsgsOk(prio, status, queue, lists, buf, ms) && a in prio && Lst(lists, MsgWaiters(a)) == []
    requires queue[a].slots == [] && IsSize(|slots|) && |slots| < U32
    ensures MsgsOk(prio, status, queue[a := NewQueue(slots)], lists, buf, ms)
  {
    hide Account, Of, NewQueue;
    assert Held(Lst(lists, MsgWaiters(a)), buf) == [];
    AccountInit(queue[a], status[a], Of(ms.accepted, a), Of(ms.entered, a), Of(ms.delivered, a), slots);
    OneAccount(a, prio, status, queue, lists, buf, ms, status, queue[a := NewQueue(slots)], lists, buf, ms);
  }

  lemma InitQueueKeepsMsgs(s: K, slots: seq<Msg>)
    requires MessagesOk(s) && Shape(s.m) && IsSize(|slots|) && |slots| < U32
    requires Lst(s.m.lists, MsgWaiters(s.m.active)) == [] && s.m.queue[s.m.active].slots == []
    ensures MessagesOk(s.(m := InitQueue(s.m, slots)))
  {
    hide MsgsOk, NewQueue;
    MsgsInit(s.m.prio, s.m.status, s.m.queue, s.m.lists, s.m.buf, s.ms, s.m.active, slots);
  }

  lemma UnlistedBuffers(m: Mem, x: Pid, msg: Msg, r: Mem)
    requires ListsInv(m) && x in m.prio && !(m.at[x].Some? && m.at[x].value.MsgWaiters?) && r.buf == m.buf[x := msg]
    ensures forall u :: Held(Lst(m.lists, MsgWaiters(u)), r.buf) == Held(Lst(m.lists, MsgWaiters(u)), m.buf)
  {
    UnlistedBuffer(m, x, msg);
  }

  /** A reply goes to a thread that stands in no list. */
  lemma ReplyKeepsMsgs(m: Mem, t: Pid, reply: Msg, ms: MsgLog)
    requires ListsInv(m) && t in m.prio && m.status[t] == ReplyBlocked && m.at[t] == None && Accounts(m, ms)
    ensures Accounts(HandOver(m, t, reply), ms)
  {
    hide RunQueuesOk, WaitListsOk, PlacesOk, Moves, ListsKept, MsgsOk, Held, HandOver, ActiveRuns;
    HandOverIsGood(m, t, reply, {ReplyBlocked});
    HandOverEffect(m, t, reply, SendBlocked);
    UnlistedBuffers(m, t, reply, HandOver(m, t, reply));
    MsgsFrame(m, HandOver(m, t, reply), {ReplyBlocked}, {}, ms);
  }

  lemma PutKeepsMsgs(m: Mem, b: nat, msg: Msg, blocking: bool, ms: MsgLog)
    requires ListsInv(m) && b in m.mbox && Accounts(m, ms) && (ActiveRuns(m) || !blocking)
    ensures Accounts(PutMsg(m, b, msg, blocking).0, ms)
  {
    hide RunQueuesOk, WaitListsOk, PlacesOk, Moves, ListsKept, MsgsOk, Held, PutMsg, Full, PutSlot, Insert;
    var r, s := PutMsg(m, b, msg, blocking).0, Lst(m.lists, Readers(b));
    PutIsGood(m, b, msg, blocking);
    PutEffect(m, b, msg, blocking);
    assert Caller(m, r, {MboxBlocked}, {MboxBlocked}) || Caller(m, r, {MboxBlocked}, {});
    if s != [] {
      RemoveKeepsLists(m, Readers(b));
      UnlistedBuffers(m, s[0], msg, r);
    }
    if Caller(m, r, {MboxBlocked}, {MboxBlocked}) { MsgsFrame(m, r, {MboxBlocked}, {MboxBlocked}, ms); }
    else { MsgsFrame(m, r, {MboxBlocked}, {}, ms); }
  }

  lemma GetKeepsMsgs(m: Mem, b: nat, blocking: bool, ms: MsgLog)
    requires ListsInv(m) && b in m.mbox && Accounts(m, ms) && (ActiveRuns(m) || !blocking)
    ensures Accounts(GetMsg(m, b, blocking).0, ms)
  {
    hide RunQueuesOk, WaitListsOk, PlacesOk, Moves, ListsKept, MsgsOk, Held, GetMsg, Avail, GetSlot, Insert;
    var r := GetMsg(m, b, blocking).0;
    GetIsGood(m, b, blocking);
    GetEffect(m, b, blocking);
    assert Caller(m, r, {MboxBlocked}, {MboxBlocked}) || Caller(m, r, {MboxBlocked}, {});
    if Caller(m, r, {MboxBlocked}, {MboxBlocked}) { MsgsFrame(m, r, {MboxBlocked}, {MboxBlocked}, ms); }
    else { MsgsFrame(m, r, {MboxBlocked}, {}, ms); }
  }

  // Threads come and go

  lemma MsgsNew(prio: map<Pid, nat>, status: map<Pid, Status>, queue: map<Pid, MsgQueue>, lists: map<ListId, seq<Pid>>,
                buf: map<Pid, Msg>, ms: MsgLog, t: Pid, p: nat, st: Status)
    requires MsgsOk(prio, status, queue, lists, buf, ms) && t !in prio && Lst(lists, MsgWaiters(t)) == []
    requires st != ReceiveBlocked
    requires forall u :: t !in Lst(lists, MsgWaiters(u))
    ensures MsgsOk(prio[t := p], status[t := st], queue[t := NO_QUEUE], lists, buf[t := BLANK],
                   MsgLog(ms.accepted[t := []], ms.entered[t := []], ms.delivered[t := []]))
  {
    hide Held, Account;
    var ms' := MsgLog(ms.accepted[t := []], ms.entered[t := []], ms.delivered[t := []]);
    forall u
      ensures Held(Lst(lists, MsgWaiters(u)), buf[t := BLANK]) == Held(Lst(lists, MsgWaiters(u)), buf)
    {
      HeldSame(Lst(lists, MsgWaiters(u)), buf, buf[t := BLANK]);
    }
    OneAccount(t, prio, status, queue, lists, buf, ms,
               status[t := st], queue[t := NO_QUEUE], lists, buf[t := BLANK], ms');
    NewAccount(st, Lst(lists, MsgWaiters(t)), buf[t := BLANK]);
  }

  lemma NewAccount(st: Status, w: seq<Pid>, buf: map<Pid, Msg>)
    requires w == [] && st != ReceiveBlocked
    ensures Account(NO_QUEUE, st, Held(w, buf), [], [], [])
  {
    OfferAppends(NO_QUEUE, BLANK);
  }

  lemma CreateKeepsMsgs(s: K, prio: nat, sleeping: bool, wout: bool, flags: bv16)
    requires Core(s) && MessagesOk(s)
    ensures MessagesOk(StepCreate(s, prio, sleeping, wout, flags))
  {
    hide MsgsOk, Create, CoreInv, SettlePc;
    CoreLists(s.m, s.c);
    CreateAddsOne(s.m, prio, sleeping, wout, flags);
    CreateAddsData(s.m, prio, sleeping, wout, flags);
    var free := FreePid(s.m.prio, KERNEL_PID_FIRST, s.m.maxPid);
    if prio < |s.m.rq| && free.Some? {
      DeadHaveNoSenders(s.m, free.value);
      MsgsNew(s.m.prio, s.m.status, s.m.queue, s.m.lists, s.m.buf, s.ms, free.value, prio,
              if sleeping then Sleeping else Pending);
    }
  }

  lemma MsgsFewer(prio: map<Pid, nat>, status: map<Pid, Status>, queue: map<Pid, MsgQueue>,
                  lists: map<ListId, seq<Pid>>,
                  buf: map<Pid, Msg>, ms: MsgLog, prio': map<Pid, nat>, status': map<Pid, Status>)
    requires MsgsOk(prio, status, queue, lists, buf, ms)
    requires forall t :: t in prio' ==>
               t in prio && t in status' && (status'[t] == ReceiveBlocked ==> status[t] == ReceiveBlocked)
    ensures MsgsOk(prio', status', queue, lists, buf, ms)
  {
    hide Account, Held, Of;
    forall t | t in prio'
      ensures Account(queue[t], status'[t], Held(Lst(lists, MsgWaiters(t)), buf),
                      Of(ms.accepted, t), Of(ms.entered, t), Of(ms.delivered, t))
    {
      AccountStatus(queue[t], status[t], Held(Lst(lists, MsgWaiters(t)), buf),
                    Of(ms.accepted, t), Of(ms.entered, t), Of(ms.delivered, t), status'[t]);
    }
  }

  lemma ExitKeepsMsgs(s: K)
    requires MessagesOk(s) && ExitOk(s.m)
    ensures MessagesOk(StepExit(s))
  {
    hide MsgsOk, LevelsOk, ListsKeyed, RunQueuesKeyed, Best;
    MsgsFewer(s.m.prio, s.m.status, s.m.queue, s.m.lists, s.m.buf, s.ms, Exit(s.m).prio, Exit(s.m).status);
  }

  lemma InnerKeepsMsgs(s: K, step: Step)
    requires Core(s) && MessagesOk(s) && Enabled(s, step) && Inner(step)
    ensures MessagesOk(Apply(s, step))
  {
    hide Apply, CoreInv, MsgsOk, Enabled;
    CoreLists(s.m, s.c);
    InnerEffect(s, step);
    InnerKeepsLogs(s, step);
    MsgsFewer(s.m.prio, s.m.status, s.m.queue, s.m.lists, s.m.buf, s.ms, s.m.prio, Apply(s, step).m.status);
  }

  // The steps

  lemma SendStepKeepsMsgs(s: K, to: Pid, typ: nat, content: nat, blocking: bool)
    requires Core(s) && MessagesOk(s) && Defined(s.m, s.c) && Ready(s.m, s.c) && CountersFresh(s.m)
    ensures MessagesOk(StepSend(s, to, typ, content, blocking))
  {
    hide MsgsOk, Send, SettlePc, GivenLog, FateOf, SendLog;
    ReadyRuns(s.m, s.c);
    var msg := Msg(s.m.active, typ, content, s.nextId);
    SendKeepsMsgs(s.m, to, msg, blocking, s.ms);
    SendIsGood(s.m, to, msg, blocking);
  }

  lemma SendIntStepKeepsMsgs(s: K, to: Pid, typ: nat, content: nat)
    requires Core(s) && MessagesOk(s) && CountersFresh(s.m)
    ensures MessagesOk(StepSendInt(s, to, typ, content))
  {
    hide MsgsOk, SendInt, SettlePc, GivenLog, FateOf, SendLog, CoreInv;
    CoreLists(s.m, s.c);
    var msg := Msg(s.m.maxPid + 1, typ, content, s.nextId);
    SendIntKeepsMsgs(s.m, to, msg, s.ms);
    SendIntIsGood(s.m, to, msg);
  }

  lemma RequestStepKeepsMsgs(s: K, to: Pid, typ: nat, content: nat)
    requires Core(s) && MessagesOk(s) && Defined(s.m, s.c) && Ready(s.m, s.c) && CountersFresh(s.m)
    requires to in s.m.prio && to != s.m.active
    ensures MessagesOk(StepRequest(s, to, typ, content))
  {
    hide MsgsOk, SendReceive, SettlePc, GivenLog, FateOf, SendLog;
    ReadyRuns(s.m, s.c);
    var msg := Msg(s.m.active, typ, content, s.nextId);
    RequestKeepsMsgs(s.m, to, msg, s.ms);
    SendReceiveIsGood(s.m, to, msg);
  }

  lemma ReceiveStepKeepsMsgs(s: K, blocking: bool)
    requires Core(s) && MessagesOk(s) && Defined(s.m, s.c) && Ready(s.m, s.c) && CountersFresh(s.m)
    ensures MessagesOk(StepReceive(s, blocking))
  {
    hide MsgsOk, Receive, SettlePc, ReceiveOpen, ReceiveLog;
    ReadyRuns(s.m, s.c);
    ReceiveKeepsMsgs(s.m, blocking, s.ms);
    ReceiveIsGood(s.m, blocking);
  }

  lemma ReplyStepKeepsMsgs(s: K, t: Pid, reply: Msg)
    requires Core(s) && MessagesOk(s) && t in s.m.prio && (s.m.status[t] == ReplyBlocked ==> s.m.at[t] == None)
    ensures MessagesOk(StepReply(s, t, reply))
  {
    hide MsgsOk, HandOver, SettlePc, CoreInv;
    CoreLists(s.m, s.c);
    if s.m.status[t] == ReplyBlocked { ReplyKeepsMsgs(s.m, t, reply, s.ms); }
  }

  lemma PutStepKeepsMsgs(s: K, b: nat, typ: nat, content: nat, blocking: bool)
    requires Core(s) && MessagesOk(s) && b in s.m.mbox && (ActiveRuns(s.m) || !blocking)
    ensures MessagesOk(StepPut(s, b, typ, content, blocking))
  {
    hide MsgsOk, PutMsg, SettlePc, PutLog, CoreInv;
    CoreLists(s.m, s.c);
    PutKeepsMsgs(s.m, b, Msg(KERNEL_PID_UNDEF, typ, content, s.nextId), blocking, s.ms);
  }

  lemma GetStepKeepsMsgs(s: K, b: nat, blocking: bool)
    requires Core(s) && MessagesOk(s) && b in s.m.mbox && (ActiveRuns(s.m) || !blocking)
    ensures MessagesOk(StepGet(s, b, blocking))
  {
    hide MsgsOk, GetMsg, SettlePc, GetLog, CoreInv;
    CoreLists(s.m, s.c);
    GetKeepsMsgs(s.m, b, blocking, s.ms);
  }

  /** The messaging calls. */
  lemma TalkKeepsMessages(s: K, step: Step)
    requires Core(s) && RequestsOk(s) && MessagesOk(s) && Enabled(s, step)
    requires step.DoSend? || step.DoRequest? || step.DoReceive? || step.DoReply? || step.DoSendInt?
    ensures MessagesOk(Apply(s, step))
  {
    hide Core, RequestsOk, MessagesOk, Shape, Ready, StepSend, StepRequest, StepReceive, StepReply, StepSendInt,
      CountersFresh, ExitOk, ActiveRuns;
    ReplyIsSafe(s, step);
    if step.DoSend? {
      SendStepKeepsMsgs(s, step.to, step.typ, step.content, step.blocking);
    } else if step.DoRequest? {
      RequestStepKeepsMsgs(s, step.to, step.typ, step.content);
    } else if step.DoReceive? {
      ReceiveStepKeepsMsgs(s, step.blocking);
    } else if step.DoReply? {
      ReplyStepKeepsMsgs(s, step.t, step.reply);
    } else {
      SendIntStepKeepsMsgs(s, step.to, step.typ, step.content);
    }
  }

  lemma CallKeepsMessages(s: K, step: Step)
    requires Core(s) && RequestsOk(s) && MessagesOk(s) && Enabled(s, step) && !Inner(step)
    ensures MessagesOk(Apply(s, step))
  {
    hide Core, RequestsOk, MessagesOk, Enabled, Apply;
    if step.DoCreate? || step.DoExit? || step.DoInitQueue? {
      LifeKeepsMessages(s, step);
    } else if step.DoPut? || step.DoGet? {
      BoxKeepsMessages(s, step);
    } else if Plain(step) {
      PlainKeepsMsgs(s, step);
    } else {
      TalkKeepsMessages(s, step);
    }
  }

  lemma LifeKeepsMessages(s: K, step: Step)
    requires Core(s) && RequestsOk(s) && MessagesOk(s) && Enabled(s, step)
    requires step.DoCreate? || step.DoExit? || step.DoInitQueue?
    ensures MessagesOk(Apply(s, step))
  {
    hide Core, RequestsOk, MessagesOk, LevelsOk, ListsKeyed, RunQueuesKeyed, Ready, StepCreate, StepExit, InitQueue,
      ExitOk, IsSize;
    if step.DoCreate? {
      CreateKeepsMsgs(s, step.prio, step.sleeping, step.wout, step.flags);
    } else if step.DoExit? {
      ExitKeepsMsgs(s);
    } else {
      InitQueueKeepsMsgs(s, step.slots);
    }
  }

  lemma BoxKeepsMessages(s: K, step: Step)
    requires Core(s) && RequestsOk(s) && MessagesOk(s) && Enabled(s, step) && (step.DoPut? || step.DoGet?)
    ensures MessagesOk(Apply(s, step))
  {
    hide Core, RequestsOk, MessagesOk, Shape, Ready, StepPut, StepGet, ActiveRuns;
    if step.blocking { ReadyIsUser(s); }
    if step.DoPut? {
      PutStepKeepsMsgs(s, step.b, step.typ, step.content, step.blocking);
    } else {
      GetStepKeepsMsgs(s, step.b, step.blocking);
    }
  }

  // No message is accepted twice

  ghost predicate IdsOk(acc: map<Pid, seq<Msg>>, next: nat) {
    forall t :: NoDup(Of(acc, t)) && forall i :: 0 <= i < |Of(acc, t)| ==> Of(acc, t)[i].id < next
  }

  lemma IdsGrow(acc: map<Pid, seq<Msg>>, next: nat, t: Pid)
    requires IdsOk(acc, next)
    ensures IdsOk(acc, next + 1) && IdsOk(acc[t := []], next)
  {
    var renewed := acc[t := []];
    forall u
      ensures NoDup(Of(renewed, u)) && forall i :: 0 <= i < |Of(renewed, u)| ==> Of(renewed, u)[i].id < next
    {
      assert NoDup(Of(acc, u));
    }
  }

  lemma IdsSent(ms: MsgLog, next: nat, t: Pid, msg: Msg, fate: Fate)
    requires IdsOk(ms.accepted, next) && msg.id == next
    ensures IdsOk(SendLog(ms, t, msg, fate).accepted, next + 1)
  {
    IdsGrow(ms.accepted, next, t);
    var acc := Logged(ms.accepted, t, msg);
    forall u
      ensures NoDup(Of(acc, u)) && forall i :: 0 <= i < |Of(acc, u)| ==> Of(acc, u)[i].id < next + 1
    {
      assert NoDup(Of(ms.accepted, u));
    }
  }

  ghost predicate NumbersOk(s: K) {
    IdsOk(s.ms.accepted, s.nextId)
  }

  lemma StepKeepsNumbers(s: K, step: Step)
    requires NumbersOk(s) && Enabled(s, step)
    ensures NumbersOk(Apply(s, step))
  {
    if Inner(step) {
      hide IdsOk, Enabled, Apply;
      InnerKeepsLogs(s, step);
    } else if Plain(step) && !step.DoInitQueue? {
      hide IdsOk, Enabled, Apply, SameData;
      PlainKeepsMessages(s, step);
    } else {
      hide Enabled, Apply, NumbersOk;
      CarryKeepsNumbers(s, step);
    }
  }

  lemma CarryKeepsNumbers(s: K, step: Step)
    requires NumbersOk(s) && Enabled(s, step) && !Inner(step) && (!Plain(step) || step.DoInitQueue?)
    ensures NumbersOk(Apply(s, step))
  {
    hide IdsOk, Create, Exit, ExitOk, Send, SendInt, SendReceive, Receive, HandOver, PutMsg, GetMsg, InitQueue,
      SettleMem, SettlePc, SendLog, GivenLog, FateOf, ReceiveOpen, PutLog, GetLog, CountersFresh;
    var acc, n := s.ms.accepted, s.nextId;
    match step
    case DoSend(to, typ, content, blocking) =>
      IdsSent(s.ms, n, to, Msg(s.m.active, typ, content, n), FateOf(s.m, to, to == s.m.active, blocking));
    case DoRequest(to, typ, content) => IdsSent(s.ms, n, to, Msg(s.m.active, typ, content, n), FateOf(s.m, to, false,
        true));
    case DoSendInt(to, typ, content) =>
      IdsSent(s.ms, n, to, Msg(s.m.maxPid + 1, typ, content, n), FateOf(s.m, to, false, false));
    case DoPut(_, _, _, _) => IdsGrow(acc, n, 0);
    case DoCreate(_, _, _, _) =>
      var free := FreePid(s.m.prio, KERNEL_PID_FIRST, s.m.maxPid);
      if free.Some? { IdsGrow(acc, n, free.value); }
    case _ =>
  }
}
