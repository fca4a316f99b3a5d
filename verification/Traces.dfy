/** Where the message of an unanswered request is, and that the record of it is
    right: parked with its sender, queued, received, or lost with its receiver. */
module Traces {
  import opened Names
  import opened Sequences
  import opened CircularIndex
  import opened KernelState
  import opened Scheduler
  import opened Threads
  import opened Messages
  import opened Effects
  import opened Machine
  import opened Requests
  import opened Conservation

  type Lines = map<Pid, seq<Msg>>

  /** What the message queues hold. */
  ghost function LinesOf(prio: map<Pid, nat>, queue: map<Pid, MsgQueue>): Lines {
    map t | t in prio && t in queue :: Items(queue[t])
  }

  predicate Lies(lines: Lines, u: Pid, msg: Msg) {
    u in lines && msg in lines[u]
  }

  predicate ListedAt(at: map<Pid, Option<ListId>>, t: Pid, u: Pid) {
    t in at && at[t] == Some(MsgWaiters(u))
  }

  ghost predicate PlacedAt(t: Pid, q: Request, at: map<Pid, Option<ListId>>, buf: map<Pid, Msg>, lines: Lines) {
    && q.msg.sender == t && t in buf
    && (q.phase == Parked ==> ListedAt(at, t, q.to) && buf[t] == q.msg)
    && (q.phase == Queued ==> Lies(lines, q.to, q.msg))
    && (forall u :: Lies(lines, u, q.msg) ==> u == q.to && q.phase == Queued)
  }

  ghost predicate Placed(at: map<Pid, Option<ListId>>, buf: map<Pid, Msg>, lines: Lines, open: map<Pid, Request>,
                         next: nat) {
    forall t :: t in open ==> PlacedAt(t, open[t], at, buf, lines) && open[t].msg.id < next
  }

  /** A message that waits in a sender's buffer bears the sender's name. */
  ghost predicate Stamped(prio: map<Pid, nat>, at: map<Pid, Option<ListId>>, buf: map<Pid, Msg>) {
    forall t, u :: t in prio && ListedAt(at, t, u) ==> t in buf && buf[t].sender == t
  }

  ghost predicate TracedOk(s: K) {
    Placed(s.m.at, s.m.buf, LinesOf(s.m.prio, s.m.queue), s.open, s.nextId) && Stamped(s.m.prio, s.m.at, s.m.buf)
  }

  /** The messages delivered to `u` grew by this one. */
  predicate Delivers(del: map<Pid, seq<Msg>>, del': map<Pid, seq<Msg>>, u: Pid, msg: Msg) {
    Of(del', u) == Of(del, u) + [msg]
  }

  /** What a step does to requests: one that was open and still is counts as
      received from now on exactly if it was, or is now, delivered to its
      receiver; a new one has a new number. */
  ghost predicate Follows(open: map<Pid, Request>, del: map<Pid, seq<Msg>>, open': map<Pid, Request>,
                          del': map<Pid, seq<Msg>>,
                          next: nat) {
    forall t :: t in open' ==>
      && (if t in open then open'[t].msg == open[t].msg && open'[t].to == open[t].to else next <= open'[t].msg.id)
      && (open'[t].phase == Seen
          <==> (t in open && open[t].phase == Seen) || Delivers(del, del', open'[t].to, open'[t].msg))
  }

  /** Only numbered messages are delivered. */
  ghost predicate NumberedDeliveries(del: map<Pid, seq<Msg>>, del': map<Pid, seq<Msg>>, next: nat) {
    forall u, msg :: Delivers(del, del', u, msg) ==> msg.id < next
  }

  // Changes that touch no open request

  lemma PlacedSame(at: map<Pid, Option<ListId>>, buf: map<Pid, Msg>, lines: Lines, open: map<Pid, Request>, next: nat,
                   at': map<Pid, Option<ListId>>, buf': map<Pid, Msg>, lines': Lines, next': nat)
    requires Placed(at, buf, lines, open, next) && next <= next'
    requires forall t, u :: t in open ==> (Lies(lines', u, open[t].msg) <==> Lies(lines, u, open[t].msg))
    requires forall t :: t in open ==> t in buf'
    requires forall t, u :: t in open && ListedAt(at, t, u) ==> ListedAt(at', t, u) && buf'[t] == buf[t]
    ensures Placed(at', buf', lines', open, next')
  {
  }

  lemma NothingFollows(open: map<Pid, Request>, del: map<Pid, seq<Msg>>, next: nat, next': nat)
    ensures Follows(open, del, open, del, next) && NumberedDeliveries(del, del, next')
  {
    forall u, msg
      ensures !Delivers(del, del, u, msg)
    {
      assert |Of(del, u) + [msg]| == |Of(del, u)| + 1;
    }
  }

  /** A new message in a queue is not an open request. */
  lemma LinesAppend(at: map<Pid, Option<ListId>>, buf: map<Pid, Msg>, lines: Lines, open: map<Pid, Request>, next: nat,
                    u: Pid,
                    msg: Msg)
    requires Placed(at, buf, lines, open, next) && u in lines && msg.id == next
    ensures Placed(at, buf, lines[u := lines[u] + [msg]], open, next + 1)
  {
    PlacedSame(at, buf, lines, open, next, at, buf, lines[u := lines[u] + [msg]], next + 1);
  }

  /** Nor is a new message that is delivered at once. */
  lemma HandedFollows(open: map<Pid, Request>, at: map<Pid, Option<ListId>>, buf: map<Pid, Msg>, lines: Lines,
                      next: nat,
                      del: map<Pid, seq<Msg>>, u: Pid, msg: Msg)
    requires Placed(at, buf, lines, open, next) && msg.id == next
    ensures Follows(open, del, open, Logged(del, u, msg), next)
    ensures NumberedDeliveries(del, Logged(del, u, msg), next + 1)
  {
    LoggedDelivers(del, u, msg);
    hide Logged, Delivers, PlacedAt;
  }

  lemma LoggedDelivers(del: map<Pid, seq<Msg>>, u: Pid, msg: Msg)
    ensures forall v, x :: Delivers(del, Logged(del, u, msg), v, x) <==> v == u && x == msg
  {
    forall v, x
      ensures Delivers(del, Logged(del, u, msg), v, x) <==> v == u && x == msg
    {
      if v != u {
        assert |Of(del, v) + [x]| == |Of(del, v)| + 1;
      } else {
        assert (Of(del, u) + [msg])[|Of(del, u)|] == msg && (Of(del, u) + [x])[|Of(del, u)|] == x;
      }
    }
  }

  // A request

  lemma PlacedNew(at: map<Pid, Option<ListId>>, buf: map<Pid, Msg>, lines: Lines, open: map<Pid, Request>, next: nat,
                  a: Pid, q: Request)
    requires Placed(at, buf, lines, open, next) && q.msg.id < next && PlacedAt(a, q, at, buf, lines)
    ensures Placed(at, buf, lines, open[a := q], next)
  {
    hide PlacedAt;
  }

  // Receiving: the first waiting sender's message enters, then one is taken

  lemma PullPlaced(prio: map<Pid, nat>, at: map<Pid, Option<ListId>>, buf: map<Pid, Msg>, lines: Lines,
                   open: map<Pid, Request>, next: nat, a: Pid,
                   h: Pid)
    requires Placed(at, buf, lines, open, next) && Stamped(prio, at, buf) && h in prio && ListedAt(at, h, a) && h in buf
    requires a in lines
    requires h in open ==> open[h].phase == Parked
    ensures Placed(at[h := None], buf, lines[a := lines[a] + [buf[h]]], MarkQueued(open, h), next)
    ensures Stamped(prio, at[h := None], buf)
    ensures var open' := MarkQueued(open, h);
            open'.Keys == open.Keys && forall t :: t in open ==>
              open'[t].msg == open[t].msg && open'[t].to == open[t].to
                  && (open'[t].phase == Seen <==> open[t].phase == Seen)
  {
    var at', lines', open' := at[h := None], lines[a := lines[a] + [buf[h]]], MarkQueued(open, h);
    assert forall t, u :: ListedAt(at', t, u) ==> ListedAt(at, t, u);
    forall t | t in open'
      ensures PlacedAt(t, open'[t], at', buf, lines')
    {
      PullPlacedAt(prio, at, buf, lines, open, a, h, t);
    }
  }

  lemma PullPlacedAt(prio: map<Pid, nat>, at: map<Pid, Option<ListId>>, buf: map<Pid, Msg>, lines: Lines,
                     open: map<Pid, Request>, a: Pid,
                     h: Pid, t: Pid)
    requires Stamped(prio, at, buf) && h in prio && ListedAt(at, h, a) && h in buf && a in lines && t in open
    requires PlacedAt(t, open[t], at, buf, lines) && (h in open ==> open[h].phase == Parked)
    ensures t in MarkQueued(open, h)
    ensures PlacedAt(t, MarkQueued(open, h)[t], at[h := None], buf, lines[a := lines[a] + [buf[h]]])
  {
    var lines' := lines[a := lines[a] + [buf[h]]];
    assert forall u, msg :: Lies(lines', u, msg) <==> Lies(lines, u, msg) || (u == a && msg == buf[h]);
  }

  lemma TakePlaced(at: map<Pid, Option<ListId>>, buf: map<Pid, Msg>, lines: Lines, open: map<Pid, Request>, next: nat,
                   a: Pid,
                   got: Msg, rest: seq<Msg>)
    requires Placed(at, buf, lines, open, next) && a in lines && lines[a] == [got] + rest && got !in rest
    ensures Placed(at, buf, lines[a := rest], MarkSeen(open, got), next)
    ensures var open' := MarkSeen(open, got);
            open'.Keys == open.Keys && forall t :: t in open ==>
              && open'[t].msg == open[t].msg && open'[t].to == open[t].to
              && (open'[t].phase == Seen <==> open[t].phase == Seen || (open[t].msg == got && open[t].to == a))
  {
    var lines' := lines[a := rest];
    assert Lies(lines, a, got);
    assert forall u, msg :: Lies(lines', u, msg) <==> Lies(lines, u, msg) && !(u == a && msg == got);
    var open' := MarkSeen(open, got);
    forall t | t in open'
      ensures PlacedAt(t, open'[t], at, buf, lines')
    {
      assert PlacedAt(t, open[t], at, buf, lines);
    }
  }

  /** Delivering `got` to `a` is what makes a request seen. */
  lemma ReceiveFollows(open: map<Pid, Request>, open': map<Pid, Request>, del: map<Pid, seq<Msg>>, a: Pid, got: Msg,
                       next: nat)
    requires open'.Keys == open.Keys && forall t :: t in open ==>
               && open'[t].msg == open[t].msg && open'[t].to == open[t].to
               && (open'[t].phase == Seen <==> open[t].phase == Seen || (open[t].msg == got && open[t].to == a))
    ensures Follows(open, del, open', Logged(del, a, got), next)
  {
    LoggedDelivers(del, a, got);
    hide Logged, Delivers;
    forall t | t in open'
      ensures t in open
    {
      assert t in open'.Keys;
    }
  }

  // Answers and exits

  lemma PlacedFewer(at: map<Pid, Option<ListId>>, buf: map<Pid, Msg>, lines: Lines, open: map<Pid, Request>, next: nat,
                    t: Pid,
                    del: map<Pid, seq<Msg>>)
    requires Placed(at, buf, lines, open, next)
    ensures Placed(at, buf, lines, open - {t}, next) && Follows(open, del, open - {t}, del, next)
  {
    NothingFollows(open, del, next, next);
    hide PlacedAt, Delivers;
  }

  lemma PlacedLost(at: map<Pid, Option<ListId>>, buf: map<Pid, Msg>, lines: Lines, open: map<Pid, Request>, next: nat,
                   a: Pid,
                   del: map<Pid, seq<Msg>>)
    requires Placed(at, buf, lines, open, next)
    ensures Placed(at, buf, lines - {a}, MarkLost(open, a), next) && Follows(open, del, MarkLost(open, a), del, next)
  {
    NothingFollows(open, del, next, next);
    hide Delivers;
    var lines', open' := lines - {a}, MarkLost(open, a);
    assert forall u, msg :: Lies(lines', u, msg) <==> Lies(lines, u, msg) && u != a;
    forall t | t in open'
      ensures PlacedAt(t, open'[t], at, buf, lines')
    {
      assert PlacedAt(t, open[t], at, buf, lines);
    }
  }

  // The queues of a safe kernel

  /** Nothing queued or held is there twice, and all of it has a number. */
  lemma AccountDistinct(q: MsgQueue, st: Status, held: seq<Msg>, acc: seq<Msg>, ent: seq<Msg>, del: seq<Msg>, next: nat,
                        x: Msg)
    requires Account(q, st, held, acc, ent, del) && NoDup(acc) && x in Items(q) + held
    requires forall i :: 0 <= i < |acc| ==> acc[i].id < next
    ensures x.id < next && multiset(Items(q) + held)[x] == 1
  {
    hide Items, NoDup;
    assert multiset(Items(q) + held) == multiset(Items(q)) + multiset(held);
    assert multiset(acc) == multiset(del) + multiset(Items(q) + held);
    assert x in multiset(Items(q) + held);
    assert multiset(acc)[x] > 0;
    assert x in multiset(acc);
    OnceInSequence(acc, x);
  }

  ghost predicate Sound(m: Mem, ms: MsgLog, next: nat) {
    MsgsOk(m.prio, m.status, m.queue, m.lists, m.buf, ms) && IdsOk(ms.accepted, next)
  }

  /** Every queued message has a number. */
  ghost predicate Numbered(lines: Lines, next: nat) {
    forall u, x :: Lies(lines, u, x) ==> x.id < next
  }

  lemma LinesAreNumbered(m: Mem, ms: MsgLog, next: nat)
    requires Sound(m, ms, next)
    ensures Numbered(LinesOf(m.prio, m.queue), next)
  {
    hide Account, Items, Held, NoDup;
    forall u, x | Lies(LinesOf(m.prio, m.queue), u, x)
      ensures x.id < next
    {
      var held := Held(Lst(m.lists, MsgWaiters(u)), m.buf);
      assert NoDup(Of(ms.accepted, u));
      AccountDistinct(m.queue[u], m.status[u], held, Of(ms.accepted, u), Of(ms.entered, u), Of(ms.delivered, u), next,
                      x);
    }
  }

  // Sending

  lemma LinesOffer(prio: map<Pid, nat>, queue: map<Pid, MsgQueue>, t: Pid, msg: Msg)
    requires t in prio && t in queue && Offer(queue[t], msg).1
    ensures var lines := LinesOf(prio, queue);
            t in lines && LinesOf(prio, queue[t := Offer(queue[t], msg).0]) == lines[t := lines[t] + [msg]]
  {
    OfferAppends(queue[t], msg);
    hide Items, Offer;
  }

  /** Two buffers and places that differ only for a thread that is in no list. */
  lemma PlacedElsewhere(prio: map<Pid, nat>, at: map<Pid, Option<ListId>>, buf: map<Pid, Msg>, lines: Lines,
                        open: map<Pid, Request>, next: nat,
                        t: Pid, msg: Msg)
    requires Placed(at, buf, lines, open, next) && Stamped(prio, at, buf) && t in at && at[t] == None
    ensures Placed(at, buf[t := msg], lines, open, next) && Stamped(prio, at, buf[t := msg])
  {
    PlacedSame(at, buf, lines, open, next, at, buf[t := msg], lines, next);
  }

  lemma PlacedJoins(prio: map<Pid, nat>, at: map<Pid, Option<ListId>>, buf: map<Pid, Msg>, lines: Lines,
                    open: map<Pid, Request>, next: nat,
                    t: Pid, msg: Msg, u: Pid)
    requires Placed(at, buf, lines, open, next) && Stamped(prio, at, buf) && t in at && at[t] == None && t !in open
    requires msg.sender == t
    ensures Placed(at[t := Some(MsgWaiters(u))], buf[t := msg], lines, open, next)
    ensures Stamped(prio, at[t := Some(MsgWaiters(u))], buf[t := msg])
  {
    var at' := at[t := Some(MsgWaiters(u))];
    PlacedSame(at, buf, lines, open, next, at', buf[t := msg], lines, next);
    forall v, w | v in prio && ListedAt(at', v, w)
      ensures v in buf[t := msg] && buf[t := msg][v].sender == v
    {
      if v != t { assert ListedAt(at, v, w); }
    }
  }

  lemma PlacedLater(at: map<Pid, Option<ListId>>, buf: map<Pid, Msg>, lines: Lines, open: map<Pid, Request>, next: nat)
    requires Placed(at, buf, lines, open, next)
    ensures Placed(at, buf, lines, open, next + 1)
  {
    hide PlacedAt;
  }

  lemma SentTraces(m: Mem, r: Mem, t: Pid, msg: Msg, fate: Fate, st: Status, open: map<Pid, Request>, ms: MsgLog)
    requires ListsInv(m) && r.prio == m.prio && FateFits(m, t, msg, fate) && Sent(m, r, t, msg, fate, st)
    requires Placed(m.at, m.buf, LinesOf(m.prio, m.queue), open, msg.id) && Stamped(m.prio, m.at, m.buf)
    requires fate == Waits ==> m.active !in open && msg.sender == m.active
    ensures Placed(r.at, r.buf, LinesOf(r.prio, r.queue), open, msg.id + 1) && Stamped(m.prio, r.at, r.buf)
    ensures Follows(open, ms.delivered, open, SendLog(ms, t, msg, fate).delivered, msg.id)
    ensures NumberedDeliveries(ms.delivered, SendLog(ms, t, msg, fate).delivered, msg.id + 1)
  {
    hide RunQueuesOk, WaitListsOk, PlacesOk, Placed, Stamped, LinesOf, Follows, NumberedDeliveries, Flagged, Offer,
      Insert, Logged,
      Moves;
    var lines := LinesOf(m.prio, m.queue);
    PlacedLater(m.at, m.buf, lines, open, msg.id);
    NothingFollows(open, ms.delivered, msg.id, msg.id + 1);
    if fate == Enqueued {
      LinesOffer(m.prio, m.queue, t, msg);
      LinesAppend(m.at, m.buf, lines, open, msg.id, t, msg);
    } else if fate == Handed {
      UnlistedStatus(m, t);
      HandedFollows(open, m.at, m.buf, lines, msg.id, ms.delivered, t, msg);
      PlacedElsewhere(m.prio, m.at, m.buf, lines, open, msg.id + 1, t, msg);
    } else if fate == Waits {
      PlacedJoins(m.prio, m.at, m.buf, lines, open, msg.id + 1, m.active, msg, t);
    }
  }

  // Requesting

  lemma NewPlacedAt(a: Pid, to: Pid, msg: Msg, fate: Fate, at: map<Pid, Option<ListId>>, buf: map<Pid, Msg>,
                    lines: Lines,
                    lines': Lines)
    requires msg.sender == a && a in buf && Numbered(lines, msg.id) && fate != Refused
    requires if fate == Enqueued then to in lines && lines' == lines[to := lines[to] + [msg]] else lines' == lines
    requires fate == Waits ==> ListedAt(at, a, to) && buf[a] == msg
    ensures PlacedAt(a, Request(msg, to, PhaseOf(fate)), at, buf, lines')
  {
    assert forall u, x :: Lies(lines', u, x) <==> Lies(lines, u, x) || (fate == Enqueued && u == to && x == msg);
  }

  lemma FollowsNew(open: map<Pid, Request>, ms: MsgLog, a: Pid, to: Pid, msg: Msg, fate: Fate)
    requires Follows(open, ms.delivered, open, SendLog(ms, to, msg, fate).delivered, msg.id) && a !in open
    ensures Follows(open, ms.delivered, open[a := Request(msg, to, PhaseOf(fate))], SendLog(ms, to, msg,
        fate).delivered, msg.id)
  {
    LoggedDelivers(ms.delivered, to, msg);
    NothingFollows(map[a := Request(msg, to, Parked)], ms.delivered, 0, 0);
    hide Delivers, Logged;
  }

  lemma RequestTraces(m: Mem, to: Pid, msg: Msg, open: map<Pid, Request>, ms: MsgLog)
    requires ActiveRuns(m) && CountersFresh(m) && to in m.prio && to != m.active && msg.sender == m.active
    requires m.active !in open
    requires Placed(m.at, m.buf, LinesOf(m.prio, m.queue), open, msg.id) && Stamped(m.prio, m.at, m.buf)
    requires Numbered(LinesOf(m.prio, m.queue), msg.id)
    ensures var r, fate := SendReceive(m, to, msg).0, FateOf(m, to, false, true);
            var open' := open[m.active := Request(msg, to, PhaseOf(fate))];
            && Placed(r.at, r.buf, LinesOf(r.prio, r.queue), open', msg.id + 1) && Stamped(m.prio, r.at, r.buf)
            && Follows(open, ms.delivered, open', SendLog(ms, to, msg, fate).delivered, msg.id)
            && NumberedDeliveries(ms.delivered, SendLog(ms, to, msg, fate).delivered, msg.id + 1)
  {
    hide RunQueuesOk, WaitListsOk, PlacesOk, SendReceive, Requested, FateOf, PhaseOf, SendLog, Placed, PlacedAt,
      Stamped, LinesOf,
      Follows, NumberedDeliveries, Numbered, Caller, Flagged, Offer, Insert;
    var a, q, lines := m.active, Requested(m, msg), LinesOf(m.prio, m.queue);
    var r, fate := SendReceive(m, to, msg).0, FateOf(m, to, false, true);
    UnlistedStatus(m, a);
    RequestedIsSending(m, msg);
    RequestEffect(m, to, msg);
    RequestPrio(m, to, msg);
    FateIsFitting(q, to, msg, false, true);
    PlacedElsewhere(m.prio, m.at, m.buf, lines, open, msg.id, a, msg);
    SentTraces(q, r, to, msg, fate, ReplyBlocked, open, ms);
    if fate == Enqueued { LinesOffer(m.prio, m.queue, to, msg); }
    NewPlacedAt(a, to, msg, fate, r.at, r.buf, lines, LinesOf(r.prio, r.queue));
    PlacedNew(r.at, r.buf, LinesOf(r.prio, r.queue), open, msg.id + 1, a, Request(msg, to, PhaseOf(fate)));
    FollowsNew(open, ms, a, to, msg, fate);
  }

  lemma RequestPrio(m: Mem, to: Pid, msg: Msg)
    requires ActiveRuns(m) && to in m.prio && to != m.active
    ensures SendReceive(m, to, msg).0.prio == m.prio
  {
    hide SendReceive, ListsInv, Moves, ListsKept;
    SendReceiveIsGood(m, to, msg);
  }

  // Receiving

  lemma LinesUpdate(prio: map<Pid, nat>, queue: map<Pid, MsgQueue>, a: Pid, f: MsgQueue)
    requires a in prio && a in queue
    ensures LinesOf(prio, queue[a := f]) == LinesOf(prio, queue)[a := Items(f)]
  {
    hide Items;
  }

  /** What a receive finds in the queue and in front of the list of senders. */
  lemma ReceiveItems(q: MsgQueue, st: Status, w: seq<Pid>, buf: map<Pid, Msg>, acc: seq<Msg>, ent: seq<Msg>,
                     del: seq<Msg>,
                     next: nat)
    requires Account(q, st, Held(w, buf), acc, ent, del) && NoDup(acc) && q.cib.write + 1 < U32
    requires forall i :: 0 <= i < |acc| ==> acc[i].id < next
    ensures var taken := Take(q).1;
            && (taken.None? ==> Items(q) == [] && Take(q).0 == q)
            && (taken.Some? ==>
                  && Items(q) == [taken.value] + Items(Take(q).0)
                  && taken.value !in Items(Take(q).0) && taken.value.id < next)
            && (w != [] ==>
                  var b := BufOf(buf, w[0]);
                  && b.id < next && (taken.None? ==> Refilled(q, b) == q)
                  && (taken.Some? ==> taken.value != b && Items(Refilled(q, b)) == Items(Take(q).0) + [b]))
  {
    hide NoDup, BufOf, Items, Take, Offer, Held, Account;
    AccountOrder(q, st, Held(w, buf), acc, ent, del);
    TakeRemovesHead(q);
    var taken, held := Take(q).1, Held(w, buf);
    if taken.Some? {
      AccountDistinct(q, st, held, acc, ent, del, next, taken.value);
      OnlyInFront(taken.value, Items(Take(q).0), held);
    }
    if w != [] {
      HeldTail(w, buf);
      var b := BufOf(buf, w[0]);
      assert b == held[0] && b in Items(q) + held;
      AccountPull(q, st, Held(w[1..], buf), acc, ent, del, b);
      OfferAppends(Take(q).0, b);
      AccountDistinct(q, st, held, acc, ent, del, next, b);
    }
  }

  lemma AccountOrder(q: MsgQueue, st: Status, held: seq<Msg>, acc: seq<Msg>, ent: seq<Msg>, del: seq<Msg>)
    requires Account(q, st, held, acc, ent, del)
    ensures q.cib.read <= q.cib.write
  {
  }

  lemma OnlyInFront(x: Msg, rest: seq<Msg>, held: seq<Msg>)
    requires multiset([x] + rest + held)[x] == 1
    ensures x !in rest && x !in held
  {
    assert [x] + rest + held == [x] + (rest + held);
    assert multiset(rest + held)[x] == 0;
    assert x !in rest + held;
  }

  lemma TakeTraces(at: map<Pid, Option<ListId>>, buf: map<Pid, Msg>, lines: Lines, open: map<Pid, Request>, next: nat,
                   a: Pid,
                   got: Msg, rest: seq<Msg>, del: map<Pid, seq<Msg>>)
    requires Placed(at, buf, lines, open, next) && a in lines && lines[a] == [got] + rest && got !in rest
    requires got.id < next
    ensures Placed(at, buf, lines[a := rest], MarkSeen(open, got), next)
    ensures Follows(open, del, MarkSeen(open, got), Logged(del, a, got), next)
    ensures NumberedDeliveries(del, Logged(del, a, got), next)
  {
    hide Placed, MarkSeen, Logged, Delivers;
    TakePlaced(at, buf, lines, open, next, a, got, rest);
    ReceiveFollows(open, MarkSeen(open, got), del, a, got, next);
    LoggedDelivers(del, a, got);
  }

  lemma PullTakeTraces(prio: map<Pid, nat>, at: map<Pid, Option<ListId>>, buf: map<Pid, Msg>, lines: Lines,
                       open: map<Pid, Request>, next: nat,
                       a: Pid, h: Pid, got: Msg, rest: seq<Msg>, del: map<Pid, seq<Msg>>)
    requires Placed(at, buf, lines, open, next) && Stamped(prio, at, buf) && h in prio && ListedAt(at, h, a) && h in buf
    requires a in lines
    requires h in open ==> open[h].phase == Parked
    requires lines[a] + [buf[h]] == [got] + rest && got !in rest && got.id < next
    ensures var open' := MarkSeen(MarkQueued(open, h), got);
            && Placed(at[h := None], buf, lines[a := rest], open', next) && Stamped(prio, at[h := None], buf)
            && Follows(open, del, open', Logged(del, a, got), next)
            && NumberedDeliveries(del, Logged(del, a, got), next)
  {
    hide Placed, Stamped, MarkSeen, MarkQueued, Logged, Delivers;
    PullPlaced(prio, at, buf, lines, open, next, a, h);
    var lines', mid := lines[a := lines[a] + [buf[h]]], MarkQueued(open, h);
    TakePlaced(at[h := None], buf, lines', mid, next, a, got, rest);
    assert lines'[a := rest] == lines[a := rest];
    ReceiveFollows(open, MarkSeen(mid, got), del, a, got, next);
    LoggedDelivers(del, a, got);
  }

  lemma HeadIsListed(m: Mem, a: Pid, open: map<Pid, Request>)
    requires ListsInv(m) && Lst(m.lists, MsgWaiters(a)) != [] && OpenOk(m.prio, m.status, m.at, open)
    ensures var h := Lst(m.lists, MsgWaiters(a))[0];
            h in m.prio && ListedAt(m.at, h, a) && (h in open ==> open[h].phase == Parked)
  {
    var h := Lst(m.lists, MsgWaiters(a))[0];
    assert h in Lst(m.lists, MsgWaiters(a));
  }

  /** What a receive does for its caller's queue, with nobody waiting to send. */
  lemma TakeQueued(m: Mem, r: Mem, block: bool, got: Option<Msg>, open: map<Pid, Request>, del: map<Pid, seq<Msg>>,
                   next: nat)
    requires Shape(m) && Lst(m.lists, MsgWaiters(m.active)) == [] && Received(m, r, block, got)
    requires Placed(m.at, m.buf, LinesOf(m.prio, m.queue), open, next) && Stamped(m.prio, m.at, m.buf)
    requires var q := m.queue[m.active];
             if got.None? then Take(q).0 == q
             else Items(q) == [got.value] + Items(Take(q).0) && got.value !in Items(Take(q).0) && got.value.id < next
    ensures var open' := if got.None? then open else MarkSeen(open, got.value);
            var del' := if got.None? then del else Logged(del, m.active, got.value);
            && Placed(r.at, r.buf, LinesOf(m.prio, r.queue), open', next) && Stamped(m.prio, r.at, r.buf)
            && Follows(open, del, open', del', next) && NumberedDeliveries(del, del', next)
  {
    hide RunQueuesOk, WaitListsOk, PlacesOk, LevelsOk, ListsKeyed, RunQueuesKeyed, Take, Refilled, Items, Account, Held,
      NoDup,
      Placed, Stamped, ListedAt, LinesOf, Follows, NumberedDeliveries, OpenOk, MarkQueued, MarkSeen, Logged;
    var a, q := m.active, m.queue[m.active];
    LinesHas(m.prio, m.queue, a);
    NothingFollows(open, del, next, next);
    LinesUpdate(m.prio, m.queue, a, Take(q).0);
    assert m.queue[a := q] == m.queue;
    if got.Some? {
      TakeTraces(m.at, m.buf, LinesOf(m.prio, m.queue), open, next, a, got.value, Items(Take(q).0), del);
    }
  }

  /** The same with the first waiting sender's message. */
  lemma TakePulled(m: Mem, r: Mem, block: bool, got: Msg, open: map<Pid, Request>, del: map<Pid, seq<Msg>>, next: nat,
                   h: Pid,
                   rest: seq<Msg>)
    requires Shape(m) && Lst(m.lists, MsgWaiters(m.active)) != [] && Lst(m.lists, MsgWaiters(m.active))[0] == h
    requires Received(m, r, block, Some(got)) && h in m.prio && ListedAt(m.at, h, m.active)
    requires (h in open ==> open[h].phase == Parked)
    requires Placed(m.at, m.buf, LinesOf(m.prio, m.queue), open, next) && Stamped(m.prio, m.at, m.buf)
    requires h in m.buf && Items(m.queue[m.active]) + [m.buf[h]] == [got] + rest && got !in rest && got.id < next
    requires Items(Refilled(m.queue[m.active], m.buf[h])) == rest
    ensures var open', del' := MarkSeen(MarkQueued(open, h), got), Logged(del, m.active, got);
            && Placed(r.at, r.buf, LinesOf(m.prio, r.queue), open', next) && Stamped(m.prio, r.at, r.buf)
            && Follows(open, del, open', del', next) && NumberedDeliveries(del, del', next)
  {
    hide RunQueuesOk, WaitListsOk, PlacesOk, LevelsOk, ListsKeyed, RunQueuesKeyed, Take, Refilled, Items, Account, Held,
      NoDup,
      Placed, Stamped, ListedAt, LinesOf, Follows, NumberedDeliveries, OpenOk, MarkQueued, MarkSeen, Logged;
    LinesHas(m.prio, m.queue, m.active);
    LinesUpdate(m.prio, m.queue, m.active, Refilled(m.queue[m.active], m.buf[h]));
    PullTakeTraces(m.prio, m.at, m.buf, LinesOf(m.prio, m.queue), open, next, m.active, h, got, rest, del);
  }

  lemma PullQueued(m: Mem, r: Mem, block: bool, got: Option<Msg>, open: map<Pid, Request>, del: map<Pid, seq<Msg>>,
                   next: nat)
    requires ListsInv(m) && Lst(m.lists, MsgWaiters(m.active)) != [] && Received(m, r, block, got)
    requires Placed(m.at, m.buf, LinesOf(m.prio, m.queue), open, next) && Stamped(m.prio, m.at, m.buf)
    requires OpenOk(m.prio, m.status, m.at, open)
    requires var q, b := m.queue[m.active], BufOf(m.buf, Lst(m.lists, MsgWaiters(m.active))[0]);
             var taken := Take(q).1;
             && b.id < next
             && (taken.None? ==> Items(q) == [] && Refilled(q, b) == q)
             && (taken.Some? ==>
                   && Items(q) == [taken.value] + Items(Take(q).0) && taken.value !in Items(Take(q).0)
                   && taken.value.id < next && taken.value != b && Items(Refilled(q, b)) == Items(Take(q).0) + [b])
    ensures var h := Lst(m.lists, MsgWaiters(m.active))[0];
            got.Some? &&
            var open', del' := MarkSeen(MarkQueued(open, h), got.value), Logged(del, m.active, got.value);
            && Placed(r.at, r.buf, LinesOf(m.prio, r.queue), open', next) && Stamped(m.prio, r.at, r.buf)
            && Follows(open, del, open', del', next) && NumberedDeliveries(del, del', next)
  {
    hide RunQueuesOk, WaitListsOk, PlacesOk, LevelsOk, ListsKeyed, RunQueuesKeyed, Take, Refilled, Items, Placed,
      Stamped, ListedAt, LinesOf, Follows, NumberedDeliveries, OpenOk, MarkQueued, MarkSeen, Logged;
    var a, q, h := m.active, m.queue[m.active], Lst(m.lists, MsgWaiters(m.active))[0];
    HeadIsListed(m, a, open);
    var rest := if Take(q).1.Some? then Items(Take(q).0) + [m.buf[h]] else [];
    assert Items(q) + [m.buf[h]] == [got.value] + rest;
    TakePulled(m, r, block, got.value, open, del, next, h, rest);
  }

  lemma ReceiveTraces(m: Mem, block: bool, open: map<Pid, Request>, ms: MsgLog, next: nat)
    requires ActiveRuns(m) && CountersFresh(m) && Sound(m, ms, next) && OpenOk(m.prio, m.status, m.at, open)
    requires Placed(m.at, m.buf, LinesOf(m.prio, m.queue), open, next) && Stamped(m.prio, m.at, m.buf)
    ensures var (r, _, got) := Receive(m, block);
            var open', ms' := ReceiveOpen(open, m, got), ReceiveLog(ms, m, got);
            && Placed(r.at, r.buf, LinesOf(m.prio, r.queue), open', next) && Stamped(m.prio, r.at, r.buf)
            && Follows(open, ms.delivered, open', ms'.delivered, next)
            && NumberedDeliveries(ms.delivered, ms'.delivered, next)
  {
    hide Receive, RunQueuesOk, WaitListsOk, PlacesOk, LevelsOk, ListsKeyed, RunQueuesKeyed, Take, Refilled, Items,
      Account, Held, NoDup,
      Placed, Stamped, ListedAt, LinesOf, Follows, NumberedDeliveries, OpenOk, MarkQueued, MarkSeen, Logged;
    var a, q, w := m.active, m.queue[m.active], Lst(m.lists, MsgWaiters(m.active));
    ReceiveEffect(m, block);
    var (r, _, got) := Receive(m, block);
    assert NoDup(Of(ms.accepted, a));
    ReceiveItems(q, m.status[a], w, m.buf, Of(ms.accepted, a), Of(ms.entered, a), Of(ms.delivered, a), next);
    if w == [] {
      TakeQueued(m, r, block, got, open, ms.delivered, next);
    } else {
      PullQueued(m, r, block, got, open, ms.delivered, next);
    }
  }

  lemma LinesHas(prio: map<Pid, nat>, queue: map<Pid, MsgQueue>, a: Pid)
    requires a in prio && a in queue
    ensures a in LinesOf(prio, queue) && LinesOf(prio, queue)[a] == Items(queue[a])
  {
    hide Items;
  }

  // Other calls

  /** A thread outside the lists of senders moves. */
  lemma PlacedMoves(prio: map<Pid, nat>, at: map<Pid, Option<ListId>>, buf: map<Pid, Msg>, lines: Lines,
                    open: map<Pid, Request>,
                    next: nat, t: Pid, l: Option<ListId>, msg: Msg)
    requires Placed(at, buf, lines, open, next) && Stamped(prio, at, buf) && t in at && t in buf
    requires (at[t].Some? ==> !at[t].value.MsgWaiters?) && (l.Some? ==> !l.value.MsgWaiters?)
    ensures Placed(at[t := l], buf[t := msg], lines, open, next) && Stamped(prio, at[t := l], buf[t := msg])
    ensures Placed(at[t := l], buf, lines, open, next) && Stamped(prio, at[t := l], buf)
  {
    var at' := at[t := l];
    PlacedSame(at, buf, lines, open, next, at', buf[t := msg], lines, next);
    PlacedSame(at, buf, lines, open, next, at', buf, lines, next);
    forall v, w | v in prio && ListedAt(at', v, w)
      ensures v != t && v in buf && buf[v].sender == v
    {
      assert ListedAt(at, v, w);
    }
  }

  /** Nobody joins or leaves a list of senders. */
  lemma FrameTraces(m: Mem, r: Mem, w: set<Status>, b: set<Status>, lines: Lines, open: map<Pid, Request>, next: nat)
    requires ListsInv(m) && Caller(m, r, w, b) && SendBlocked !in w + b && OpenOk(m.prio, m.status, m.at, open)
    requires r.buf == m.buf && Placed(m.at, m.buf, lines, open, next) && Stamped(m.prio, m.at, m.buf)
    ensures Placed(r.at, r.buf, lines, open, next) && Stamped(m.prio, r.at, r.buf)
  {
    forall t, u | t in m.prio
      ensures ListedAt(r.at, t, u) <==> ListedAt(m.at, t, u)
    {
      SameSenders(m, r, w, b, t, u);
    }
    hide Caller, ListedAt, Lies;
    PlacedSame(m.at, m.buf, lines, open, next, r.at, r.buf, lines, next);
  }

  lemma SameSenders(m: Mem, r: Mem, w: set<Status>, b: set<Status>, t: Pid, u: Pid)
    requires ListsInv(m) && Caller(m, r, w, b) && SendBlocked !in w + b && t in m.prio
    ensures ListedAt(r.at, t, u) <==> ListedAt(m.at, t, u)
  {
    assert Lst(r.lists, MsgWaiters(u)) == Lst(m.lists, MsgWaiters(u));
    assert t in Lst(m.lists, MsgWaiters(u)) <==> m.at[t] == Some(MsgWaiters(u));
    assert t in Lst(r.lists, MsgWaiters(u)) <==> r.at[t] == Some(MsgWaiters(u));
    hide Moves, RunQueuesOk, PlacesOk;
  }
}
