/** A mailbox is a bounded first-in first-out queue, as long as a writer that was
    woken stores its message before the mailbox is used again. */
module Boxes {
  import opened Names
  import opened Sequences
  import opened CircularIndex
  import opened KernelState
  import opened Scheduler
  import opened Threads
  import opened Mutexes
  import F = ThreadFlags
  import opened Messages
  import opened Mailboxes
  import opened Effects
  import opened Machine
  import opened PlainSteps
  import opened Separation
  import opened Requests

  /** The thread is going to store a message in `b` when it runs. */
  predicate Writing(pc: Pc, b: nat) {
    (pc.Gap? || pc.Rotating? || pc.Do?) && pc.k.PutDone? && pc.k.mbox == b
  }

  /** A writer that was woken and has not stored its message yet. */
  ghost predicate Owed(prio: map<Pid, nat>, pc: map<Pid, Pc>, status: map<Pid, Status>, b: nat, t: Pid) {
    t in prio && t in pc && Writing(pc[t], b) && On(status, t)
  }

  /** One mailbox: within its capacity, in order, no reader waits while there is
      a message, and there is room for a writer that was woken. */
  ghost predicate BoxFits(f: Mailbox, readers: seq<Pid>, puts: seq<Msg>, gets: seq<Msg>) {
    && Valid(f.cib, |f.slots|)
    && puts == gets + Contents(f.cib, f.slots)
    && (readers != [] ==> Avail(f.cib) == 0)
  }

  ghost predicate RoomFor(f: Mailbox, readers: seq<Pid>) {
    Avail(f.cib) < |f.slots| && readers == []
  }

  ghost predicate OwedOk(prio: map<Pid, nat>, pc: map<Pid, Pc>, status: map<Pid, Status>, b: nat, f: Mailbox,
                         readers: seq<Pid>) {
    && (forall t :: Owed(prio, pc, status, b, t) ==> RoomFor(f, readers))
    && (forall t, u :: Owed(prio, pc, status, b, t) && Owed(prio, pc, status, b, u) ==> t == u)
  }

  ghost predicate BoxesInOrder(lists: map<ListId, seq<Pid>>, mbox: map<nat, Mailbox>, bx: BoxLog) {
    forall b :: b in mbox ==> BoxFits(mbox[b], Lst(lists, Readers(b)), Of(bx.puts, b), Of(bx.gets, b))
  }

  ghost predicate WritersInOrder(prio: map<Pid, nat>, pc: map<Pid, Pc>, status: map<Pid, Status>,
                                 lists: map<ListId, seq<Pid>>, mbox: map<nat, Mailbox>) {
    forall b :: b in mbox ==> OwedOk(prio, pc, status, b, mbox[b], Lst(lists, Readers(b)))
  }

  ghost predicate MailboxesOk(s: K) {
    && BoxesInOrder(s.m.lists, s.m.mbox, s.bx)
    && WritersInOrder(s.m.prio, s.c.pc, s.m.status, s.m.lists, s.m.mbox)
  }

  /** No writer that was woken is still to store its message in `b`. */
  ghost predicate NoneOwed(prio: map<Pid, nat>, pc: map<Pid, Pc>, status: map<Pid, Status>, b: nat) {
    forall t :: !Owed(prio, pc, status, b, t)
  }

  ghost predicate Settled(s: K, b: nat) {
    NoneOwed(s.m.prio, s.c.pc, s.m.status, b)
  }

  ghost predicate Orderly(s: K, step: Step) {
    (step.DoPut? ==> Settled(s, step.b)) && (step.DoGet? ==> Settled(s, step.b))
  }

  // One mailbox

  lemma HandFits(f: Mailbox, readers: seq<Pid>, readers': seq<Pid>, puts: seq<Msg>, gets: seq<Msg>, msg: Msg)
    requires BoxFits(f, readers, puts, gets) && readers != []
    ensures BoxFits(f, readers', puts + [msg], gets + [msg])
  {
    assert Contents(f.cib, f.slots) == [];
  }

  lemma StoreFits(f: Mailbox, readers: seq<Pid>, puts: seq<Msg>, gets: seq<Msg>, msg: Msg)
    requires BoxFits(f, readers, puts, gets) && readers == [] && Avail(f.cib) < |f.slots|
    ensures BoxFits(PutSlot(f, msg), readers, puts + [msg], gets)
  {
    FullIffAvailIsSize(f.cib, |f.slots|);
    PutAppends(f.cib, f.slots, msg);
    assert gets + Contents(f.cib, f.slots) + [msg] == gets + (Contents(f.cib, f.slots) + [msg]);
  }

  lemma TakeFits(f: Mailbox, readers: seq<Pid>, puts: seq<Msg>, gets: seq<Msg>)
    requires BoxFits(f, readers, puts, gets) && Avail(f.cib) != 0
    ensures BoxFits(GetSlot(f).0, readers, puts, gets + [GetSlot(f).1]) && RoomFor(GetSlot(f).0, readers)
  {
    GetTakesHead(f.cib, f.slots);
    GetKeepsValid(f.cib, |f.slots|);
    var msg := GetSlot(f).1;
    assert gets + ([msg] + Contents(GetSlot(f).0.cib, f.slots)) == gets + [msg] + Contents(GetSlot(f).0.cib, f.slots);
  }

  /** What _mbox_put does behind its wait, where it looks at nothing: without
      a free slot the mailbox overflows, and a reader that has come to wait
      stays asleep beside the message. */
  lemma StoreFitsIff(f: Mailbox, readers: seq<Pid>, puts: seq<Msg>, gets: seq<Msg>, msg: Msg)
    requires BoxFits(f, readers, puts, gets)
    ensures Valid(PutSlot(f, msg).cib, |f.slots|) <==> Avail(f.cib) < |f.slots|
    ensures BoxFits(PutSlot(f, msg), readers, puts + [msg], gets) <==> RoomFor(f, readers)
  {
    if Avail(f.cib) >= |f.slots| {
      var _ := SizeBound(|f.slots|);
    } else {
      FullIffAvailIsSize(f.cib, |f.slots|);
      PutAppends(f.cib, f.slots, msg);
      assert |Contents(PutSlot(f, msg).cib, PutSlot(f, msg).slots)| > 0;
      if readers == [] { StoreFits(f, [], puts, gets, msg); }
    }
  }

  // All mailboxes

  ghost predicate BoxesElsewhere(b: nat, lists: map<ListId, seq<Pid>>, mbox: map<nat, Mailbox>,
                                 lists': map<ListId, seq<Pid>>,
                                 mbox': map<nat, Mailbox>) {
    forall c :: c in mbox' && c != b ==>
        c in mbox && mbox'[c] == mbox[c] && Lst(lists', Readers(c)) == Lst(lists, Readers(c))
  }

  ghost predicate BoxLogsElsewhere(b: nat, bx: BoxLog, bx': BoxLog) {
    forall c :: c != b ==> Of(bx'.puts, c) == Of(bx.puts, c) && Of(bx'.gets, c) == Of(bx.gets, c)
  }

  lemma OneBox(b: nat, lists: map<ListId, seq<Pid>>, mbox: map<nat, Mailbox>, bx: BoxLog,
               lists': map<ListId, seq<Pid>>, mbox': map<nat, Mailbox>, bx': BoxLog)
    requires BoxesInOrder(lists, mbox, bx) && BoxesElsewhere(b, lists, mbox, lists', mbox')
    requires BoxLogsElsewhere(b, bx, bx')
    requires b in mbox' ==> BoxFits(mbox'[b], Lst(lists', Readers(b)), Of(bx'.puts, b), Of(bx'.gets, b))
    ensures BoxesInOrder(lists', mbox', bx')
  {
    hide BoxFits, Of;
  }

  /** Only writers of `b` may be owed now that were not before. */
  ghost predicate OwedElsewhere(b: nat, prio: map<Pid, nat>, pc: map<Pid, Pc>, status: map<Pid, Status>,
                                prio': map<Pid, nat>, pc': map<Pid, Pc>, status': map<Pid, Status>) {
    forall c, t :: c != b && Owed(prio', pc', status', c, t) ==> Owed(prio, pc, status, c, t)
  }

  lemma OneOwed(b: nat, prio: map<Pid, nat>, pc: map<Pid, Pc>, status: map<Pid, Status>, lists: map<ListId, seq<Pid>>,
                mbox: map<nat, Mailbox>, prio': map<Pid, nat>, pc': map<Pid, Pc>, status': map<Pid, Status>,
                lists': map<ListId, seq<Pid>>, mbox': map<nat, Mailbox>)
    requires WritersInOrder(prio, pc, status, lists, mbox) && BoxesElsewhere(b, lists, mbox, lists', mbox')
    requires OwedElsewhere(b, prio, pc, status, prio', pc', status')
    requires b in mbox' ==> OwedOk(prio', pc', status', b, mbox'[b], Lst(lists', Readers(b)))
    ensures WritersInOrder(prio', pc', status', lists', mbox')
  {
    hide Owed, RoomFor;
    forall c | c in mbox'
      ensures OwedOk(prio', pc', status', c, mbox'[c], Lst(lists', Readers(c)))
    {
      if c != b { assert OwedOk(prio, pc, status, c, mbox[c], Lst(lists, Readers(c))); }
    }
  }

  /** Nobody is owed who was not before, and mailboxes and readers are the same. */
  lemma OwedFewer(prio: map<Pid, nat>, pc: map<Pid, Pc>, status: map<Pid, Status>, lists: map<ListId, seq<Pid>>,
                  mbox: map<nat, Mailbox>, prio': map<Pid, nat>, pc': map<Pid, Pc>, status': map<Pid, Status>,
                  lists': map<ListId, seq<Pid>>)
    requires WritersInOrder(prio, pc, status, lists, mbox)
    requires forall c, t :: Owed(prio', pc', status', c, t) ==> Owed(prio, pc, status, c, t)
    requires forall c :: c in mbox ==> Lst(lists', Readers(c)) == Lst(lists, Readers(c))
    ensures WritersInOrder(prio', pc', status', lists', mbox)
  {
    hide Owed, RoomFor;
    forall c | c in mbox
      ensures OwedOk(prio', pc', status', c, mbox[c], Lst(lists', Readers(c)))
    {
      assert OwedOk(prio, pc, status, c, mbox[c], Lst(lists, Readers(c)));
    }
  }

  /** Program counters after a call: a runnable caller owes nothing. */
  lemma OwedPc(c: Ctl, c': Ctl, a: Pid, b: set<Status>, prio: map<Pid, nat>, status: map<Pid, Status>,
               lists: map<ListId, seq<Pid>>, mbox: map<nat, Mailbox>)
    requires WritersInOrder(prio, c.pc, status, lists, mbox) && PcMoves(c, c', a, status, b)
    requires forall t :: t in prio ==> t in c.pc
    ensures WritersInOrder(prio, c'.pc, status, lists, mbox)
  {
    hide WritersInOrder;
    forall d, t | Owed(prio, c'.pc, status, d, t)
      ensures Owed(prio, c.pc, status, d, t)
    {
    }
    OwedFewer(prio, c.pc, status, lists, mbox, prio, c'.pc, status, lists);
  }

  // Sections about other things

  lemma OwedFrame(m: Mem, r: Mem, w: set<Status>, b: set<Status>, pc: map<Pid, Pc>)
    requires Caller(m, r, w, b) && AllAgree(m.prio, pc, m.status, m.at, m.wait) && MboxBlocked !in w + b
    requires WritersInOrder(m.prio, pc, m.status, m.lists, m.mbox)
    ensures WritersInOrder(m.prio, pc, r.status, r.lists, m.mbox)
  {
    hide WritersInOrder, ListsInv, Moves, Agree;
    forall c, t | Owed(m.prio, pc, r.status, c, t)
      ensures Owed(m.prio, pc, m.status, c, t)
    {
      WriterWasOn(m, r, w, b, pc, t, c);
    }
    OwedFewer(m.prio, pc, m.status, m.lists, m.mbox, m.prio, pc, r.status, r.lists);
  }

  lemma WriterWasOn(m: Mem, r: Mem, w: set<Status>, b: set<Status>, pc: map<Pid, Pc>, t: Pid, c: nat)
    requires Shape(m) && Shape(r) && r.prio == m.prio && t in m.prio && MboxBlocked !in w
    requires Moves(w, b, m.active, m.prio, m.status, m.at, m.wait, r.status, r.at, r.wait)
    requires t in pc && Agree(pc[t], m.status[t], m.at[t], m.wait[t]) && Writing(pc[t], c) && On(r.status, t)
    ensures On(m.status, t)
  {
  }

  lemma BoxesFrame(m: Mem, r: Mem, w: set<Status>, b: set<Status>, bx: BoxLog)
    requires Caller(m, r, w, b) && MboxBlocked !in w + b && BoxesInOrder(m.lists, m.mbox, bx)
    ensures BoxesInOrder(r.lists, m.mbox, bx)
  {
    hide ListsInv, Moves, BoxFits, Of, Shape;
    forall c | c in m.mbox
      ensures BoxFits(m.mbox[c], Lst(r.lists, Readers(c)), Of(bx.puts, c), Of(bx.gets, c))
    {
      assert Lst(r.lists, Readers(c)) == Lst(m.lists, Readers(c));
    }
  }

  // Putting and getting, on the records

  lemma BoxesHand(lists: map<ListId, seq<Pid>>, mbox: map<nat, Mailbox>, bx: BoxLog, b: nat, msg: Msg)
    requires BoxesInOrder(lists, mbox, bx) && b in mbox && Lst(lists, Readers(b)) != []
    ensures BoxesInOrder(lists[Readers(b) := Lst(lists, Readers(b))[1..]], mbox,
                         BoxLog(Logged(bx.puts, b, msg), Logged(bx.gets, b, msg)))
  {
    hide BoxFits;
    var s := Lst(lists, Readers(b));
    HandFits(mbox[b], s, s[1..], Of(bx.puts, b), Of(bx.gets, b), msg);
    OneBox(b, lists, mbox, bx, lists[Readers(b) := s[1..]], mbox,
           BoxLog(Logged(bx.puts, b, msg), Logged(bx.gets, b, msg)));
  }

  lemma BoxesStore(lists: map<ListId, seq<Pid>>, mbox: map<nat, Mailbox>, bx: BoxLog, b: nat, msg: Msg)
    requires BoxesInOrder(lists, mbox, bx) && b in mbox && RoomFor(mbox[b], Lst(lists, Readers(b)))
    ensures BoxesInOrder(lists, mbox[b := PutSlot(mbox[b], msg)], BoxLog(Logged(bx.puts, b, msg), bx.gets))
  {
    hide BoxFits, PutSlot;
    StoreFits(mbox[b], Lst(lists, Readers(b)), Of(bx.puts, b), Of(bx.gets, b), msg);
    OneBox(b, lists, mbox, bx, lists, mbox[b := PutSlot(mbox[b], msg)], BoxLog(Logged(bx.puts, b, msg), bx.gets));
  }

  lemma BoxesStoreIff(lists: map<ListId, seq<Pid>>, mbox: map<nat, Mailbox>, bx: BoxLog, b: nat, msg: Msg)
    requires BoxesInOrder(lists, mbox, bx) && b in mbox
    ensures BoxesInOrder(lists, mbox[b := PutSlot(mbox[b], msg)], BoxLog(Logged(bx.puts, b, msg), bx.gets))
            <==> RoomFor(mbox[b], Lst(lists, Readers(b)))
  {
    hide BoxFits, PutSlot, RoomFor;
    StoreFitsIff(mbox[b], Lst(lists, Readers(b)), Of(bx.puts, b), Of(bx.gets, b), msg);
    if RoomFor(mbox[b], Lst(lists, Readers(b))) { BoxesStore(lists, mbox, bx, b, msg); }
  }

  lemma BoxesTake(lists: map<ListId, seq<Pid>>, mbox: map<nat, Mailbox>, bx: BoxLog, b: nat)
    requires BoxesInOrder(lists, mbox, bx) && b in mbox && Avail(mbox[b].cib) != 0
    ensures var (f, msg) := GetSlot(mbox[b]);
            BoxesInOrder(lists, mbox[b := f], BoxLog(bx.puts, Logged(bx.gets, b, msg)))
  {
    hide BoxFits, GetSlot, Avail;
    var (f, msg) := GetSlot(mbox[b]);
    TakeFits(mbox[b], Lst(lists, Readers(b)), Of(bx.puts, b), Of(bx.gets, b));
    OneBox(b, lists, mbox, bx, lists, mbox[b := f], BoxLog(bx.puts, Logged(bx.gets, b, msg)));
  }

  /** Readers join an empty mailbox; writers come and go. */
  lemma BoxesJoin(lists: map<ListId, seq<Pid>>, mbox: map<nat, Mailbox>, bx: BoxLog, b: nat, w: seq<Pid>)
    requires BoxesInOrder(lists, mbox, bx)
    ensures BoxesInOrder(lists[Writers(b) := w], mbox, bx)
    ensures b in mbox && Avail(mbox[b].cib) == 0 ==> BoxesInOrder(lists[Readers(b) := w], mbox, bx)
  {
    hide Contents, Avail;
  }

  lemma PutKeepsBoxes(m: Mem, b: nat, msg: Msg, blocking: bool, bx: BoxLog)
    requires Shape(m) && b in m.mbox && BoxesInOrder(m.lists, m.mbox, bx)
    ensures var (r, out) := PutMsg(m, b, msg, blocking); BoxesInOrder(r.lists, r.mbox, PutLog(bx, m, b, msg, out))
  {
    hide PutMsg, BoxesInOrder, PutSlot, Insert, Logged, Full;
    PutEffect(m, b, msg, blocking);
    var s, f := Lst(m.lists, Readers(b)), m.mbox[b];
    if s != [] {
      BoxesHand(m.lists, m.mbox, bx, b, msg);
    } else if !Full(f.cib) {
      RoomIff(m.lists, m.mbox, bx, b);
      BoxesStore(m.lists, m.mbox, bx, b, msg.(sender := m.active));
    } else {
      assert Keyed(Lst(m.lists, Writers(b)), m.prio);
      BoxesJoin(m.lists, m.mbox, bx, b, Insert(Lst(m.lists, Writers(b)), m.active, m.prio));
    }
  }

  lemma RoomIff(lists: map<ListId, seq<Pid>>, mbox: map<nat, Mailbox>, bx: BoxLog, b: nat)
    requires BoxesInOrder(lists, mbox, bx) && b in mbox && Lst(lists, Readers(b)) == []
    ensures Full(mbox[b].cib) <==> !RoomFor(mbox[b], Lst(lists, Readers(b)))
  {
    FullIffAvailIsSize(mbox[b].cib, |mbox[b].slots|);
  }

  lemma GetKeepsBoxes(m: Mem, b: nat, blocking: bool, bx: BoxLog)
    requires Shape(m) && b in m.mbox && BoxesInOrder(m.lists, m.mbox, bx)
    ensures var (r, _, got) := GetMsg(m, b, blocking); BoxesInOrder(r.lists, r.mbox, GetLog(bx, b, got))
  {
    hide GetMsg, BoxesInOrder, GetSlot, Insert, Logged, Avail;
    GetEffect(m, b, blocking);
    var f, w := m.mbox[b], Lst(m.lists, Writers(b));
    if Avail(f.cib) != 0 {
      BoxesTake(m.lists, m.mbox, bx, b);
      var (g, msg) := GetSlot(f);
      if w != [] { BoxesJoin(m.lists, m.mbox[b := g], BoxLog(bx.puts, Logged(bx.gets, b, msg)), b, w[1..]); }
    } else {
      assert Keyed(Lst(m.lists, Readers(b)), m.prio);
      BoxesJoin(m.lists, m.mbox, bx, b, Insert(Lst(m.lists, Readers(b)), m.active, m.prio));
    }
  }

  // Who is owed room

  ghost predicate NoMoreOwed(prio: map<Pid, nat>, pc: map<Pid, Pc>, status: map<Pid, Status>,
                             status': map<Pid, Status>) {
    forall c, t :: Owed(prio, pc, status', c, t) ==> Owed(prio, pc, status, c, t)
  }

  /** A woken reader owes nothing. */
  lemma ReaderOwesNothing(m: Mem, c: Ctl, b: nat)
    requires CoreInv(m, c) && Lst(m.lists, Readers(b)) != []
    ensures var h := Lst(m.lists, Readers(b))[0]; h in c.pc && forall d :: !Writing(c.pc[h], d)
  {
    var h := Lst(m.lists, Readers(b))[0];
    RemoveKeepsLists(m, Readers(b));
    assert Fits(m.status[h], Readers(b));
    assert Agree(c.pc[h], m.status[h], m.at[h], m.wait[h]);
    hide RunQueuesOk, WaitListsOk, PlacesOk;
  }

  lemma OwedChange(prio: map<Pid, nat>, pc: map<Pid, Pc>, status: map<Pid, Status>, t: Pid, st: Status)
    requires OnRunqueue(st) ==> t in pc && forall d :: !Writing(pc[t], d)
    ensures NoMoreOwed(prio, pc, status, status[t := st])
  {
  }

  /** A change to a mailbox that owes nobody room. */
  lemma OwedUnder(b: nat, prio: map<Pid, nat>, pc: map<Pid, Pc>, status: map<Pid, Status>, lists: map<ListId, seq<Pid>>,
                  mbox: map<nat, Mailbox>, status': map<Pid, Status>, lists': map<ListId, seq<Pid>>, mbox': map<nat,
                      Mailbox>)
    requires WritersInOrder(prio, pc, status, lists, mbox) && BoxesElsewhere(b, lists, mbox, lists', mbox')
    requires NoMoreOwed(prio, pc, status, status') && NoneOwed(prio, pc, status, b)
    ensures WritersInOrder(prio, pc, status', lists', mbox')
  {
    hide Owed, RoomFor, WritersInOrder;
    OneOwed(b, prio, pc, status, lists, mbox, prio, pc, status', lists', mbox');
  }

  lemma PutElsewhere(m: Mem, b: nat, msg: Msg, blocking: bool)
    requires Shape(m) && b in m.mbox
    ensures var r := PutMsg(m, b, msg, blocking).0; BoxesElsewhere(b, m.lists, m.mbox, r.lists, r.mbox)
  {
    hide PutMsg, PutSlot, Insert, Full;
    PutEffect(m, b, msg, blocking);
  }

  lemma PutKeepsOwed(m: Mem, c: Ctl, b: nat, msg: Msg, blocking: bool)
    requires CoreInv(m, c) && b in m.mbox && NoneOwed(m.prio, c.pc, m.status, b)
    requires WritersInOrder(m.prio, c.pc, m.status, m.lists, m.mbox)
    ensures var r := PutMsg(m, b, msg, blocking).0; WritersInOrder(m.prio, c.pc, r.status, r.lists, r.mbox)
  {
    hide CoreInv, PutMsg, NoneOwed, NoMoreOwed, WritersInOrder, BoxesElsewhere, Full, PutSlot, Insert, Writing;
    CoreLists(m, c);
    PutEffect(m, b, msg, blocking);
    PutElsewhere(m, b, msg, blocking);
    var r, s := PutMsg(m, b, msg, blocking).0, Lst(m.lists, Readers(b));
    if s != [] {
      ReaderOwesNothing(m, c, b);
      OwedChange(m.prio, c.pc, m.status, s[0], Pending);
    } else {
      OwedChange(m.prio, c.pc, m.status, m.active, MboxBlocked);
      NoMoreSame(m.prio, c.pc, m.status);
    }
    OwedUnder(b, m.prio, c.pc, m.status, m.lists, m.mbox, r.status, r.lists, r.mbox);
  }

  lemma NoMoreSame(prio: map<Pid, nat>, pc: map<Pid, Pc>, status: map<Pid, Status>)
    ensures NoMoreOwed(prio, pc, status, status)
  {
  }

  lemma WriterOwesHere(m: Mem, c: Ctl, b: nat)
    requires CoreInv(m, c) && Lst(m.lists, Writers(b)) != []
    ensures var h := Lst(m.lists, Writers(b))[0]; h in c.pc && forall d :: Writing(c.pc[h], d) ==> d == b
  {
    var h := Lst(m.lists, Writers(b))[0];
    RemoveKeepsLists(m, Writers(b));
    assert Fits(m.status[h], Writers(b));
    assert Agree(c.pc[h], m.status[h], m.at[h], m.wait[h]);
    hide RunQueuesOk, WaitListsOk, PlacesOk;
  }

  /** The woken writer is the only one that is owed room, and there is room. */
  lemma OwedFirst(b: nat, prio: map<Pid, nat>, pc: map<Pid, Pc>, status: map<Pid, Status>, lists: map<ListId, seq<Pid>>,
                  mbox: map<nat, Mailbox>, h: Pid, w: seq<Pid>, f: Mailbox)
    requires WritersInOrder(prio, pc, status, lists, mbox) && NoneOwed(prio, pc, status, b)
    requires h in pc && (forall d :: Writing(pc[h], d) ==> d == b) && RoomFor(f, Lst(lists, Readers(b)))
    ensures WritersInOrder(prio, pc, status[h := Pending], lists[Writers(b) := w], mbox[b := f])
  {
    hide RoomFor, WritersInOrder;
    var lists', status', mbox' := lists[Writers(b) := w], status[h := Pending], mbox[b := f];
    assert forall c, t :: Owed(prio, pc, status', c, t) ==> (c == b && t == h) || Owed(prio, pc, status, c, t);
    OneOwed(b, prio, pc, status, lists, mbox, prio, pc, status', lists', mbox');
  }

  lemma GetKeepsOwed(m: Mem, c: Ctl, b: nat, blocking: bool, bx: BoxLog)
    requires CoreInv(m, c) && b in m.mbox && NoneOwed(m.prio, c.pc, m.status, b)
    requires WritersInOrder(m.prio, c.pc, m.status, m.lists, m.mbox) && BoxesInOrder(m.lists, m.mbox, bx)
    ensures var r := GetMsg(m, b, blocking).0; WritersInOrder(m.prio, c.pc, r.status, r.lists, r.mbox)
  {
    hide CoreInv, GetMsg, NoneOwed, NoMoreOwed, WritersInOrder, BoxesInOrder, Avail, GetSlot, Insert, Writing, RoomFor;
    CoreLists(m, c);
    GetEffect(m, b, blocking);
    var r, f, w := GetMsg(m, b, blocking).0, m.mbox[b], Lst(m.lists, Writers(b));
    if Avail(f.cib) != 0 && w != [] {
      WriterOwesHere(m, c, b);
      RoomAfterTake(m.lists, m.mbox, bx, b);
      OwedFirst(b, m.prio, c.pc, m.status, m.lists, m.mbox, w[0], w[1..], GetSlot(f).0);
    } else {
      OwedChange(m.prio, c.pc, m.status, m.active, MboxBlocked);
      NoMoreSame(m.prio, c.pc, m.status);
      OwedUnder(b, m.prio, c.pc, m.status, m.lists, m.mbox, r.status, r.lists, r.mbox);
    }
  }

  lemma RoomAfterTake(lists: map<ListId, seq<Pid>>, mbox: map<nat, Mailbox>, bx: BoxLog, b: nat)
    requires BoxesInOrder(lists, mbox, bx) && b in mbox && Avail(mbox[b].cib) != 0
    ensures RoomFor(GetSlot(mbox[b]).0, Lst(lists, Readers(b)))
  {
    TakeFits(mbox[b], Lst(lists, Readers(b)), Of(bx.puts, b), Of(bx.gets, b));
  }

  // The woken writer stores its message

  lemma OwedDone(b: nat, prio: map<Pid, nat>, pc: map<Pid, Pc>, status: map<Pid, Status>, lists: map<ListId, seq<Pid>>,
                 mbox: map<nat, Mailbox>, a: Pid, f: Mailbox)
    requires WritersInOrder(prio, pc, status, lists, mbox) && b in mbox && Owed(prio, pc, status, b, a)
    ensures RoomFor(mbox[b], Lst(lists, Readers(b)))
    ensures WritersInOrder(prio, pc[a := User], status, lists, mbox[b := f])
  {
    hide RoomFor;
    assert OwedOk(prio, pc, status, b, mbox[b], Lst(lists, Readers(b)));
    var pc', mbox' := pc[a := User], mbox[b := f];
    assert forall c, t :: Owed(prio, pc', status, c, t) ==> t != a && Owed(prio, pc, status, c, t);
    OneOwed(b, prio, pc, status, lists, mbox, prio, pc', status, lists, mbox');
  }

  lemma ResumeKeepsBoxes(s: K, b: nat, msg: Msg)
    requires Core(s) && MailboxesOk(s) && Defined(s.m, s.c) && b in s.m.mbox
    requires s.c.pc[s.m.active] == Do(PutDone(b, msg))
    ensures MailboxesOk(StepResume(s, PutDone(b, msg)))
  {
    hide CoreInv, PutSlot, BoxesInOrder, WritersInOrder, Owed, RoomFor, Logged, ResumeMem;
    WriterRuns(s, b);
    StoreFields(s.m, b, msg);
    var stamped := msg.(sender := s.m.active);
    OwedDone(b, s.m.prio, s.c.pc, s.m.status, s.m.lists, s.m.mbox, s.m.active, PutSlot(s.m.mbox[b], stamped));
    BoxesStore(s.m.lists, s.m.mbox, s.bx, b, stamped);
  }

  lemma StoreFields(m: Mem, b: nat, msg: Msg)
    requires Shape(m) && b in m.mbox
    ensures var r := ResumeMem(m, PutDone(b, msg));
            && r.mbox == m.mbox[b := PutSlot(m.mbox[b], msg.(sender := m.active))]
            && r.prio == m.prio && r.status == m.status && r.lists == m.lists
  {
    hide PutSlot;
  }

  lemma WriterRuns(s: K, b: nat)
    requires Core(s) && Defined(s.m, s.c) && s.c.pc[s.m.active].Do? && Writing(s.c.pc[s.m.active], b)
    ensures Owed(s.m.prio, s.c.pc, s.m.status, b, s.m.active)
  {
  }

  // The steps

  /** The mailboxes after a call, with the program counters of before. */
  ghost predicate BoxesBeforePc(s: K, s': K) {
    && BoxesInOrder(s'.m.lists, s'.m.mbox, s'.bx)
    && WritersInOrder(s.m.prio, s.c.pc, s'.m.status, s'.m.lists, s'.m.mbox)
  }

  lemma PutStepKeepsBoxes(s: K, b: nat, typ: nat, content: nat, blocking: bool)
    requires Core(s) && MailboxesOk(s) && b in s.m.mbox && Settled(s, b)
    ensures BoxesBeforePc(s, StepPut(s, b, typ, content, blocking))
  {
    hide CoreInv, PutMsg, BoxesInOrder, WritersInOrder, SettlePc, PutLog, NoneOwed;
    CoreLists(s.m, s.c);
    var msg := Msg(KERNEL_PID_UNDEF, typ, content, s.nextId);
    PutKeepsBoxes(s.m, b, msg, blocking, s.bx);
    PutKeepsOwed(s.m, s.c, b, msg, blocking);
  }

  lemma GetStepKeepsBoxes(s: K, b: nat, blocking: bool)
    requires Core(s) && MailboxesOk(s) && b in s.m.mbox && Settled(s, b)
    ensures BoxesBeforePc(s, StepGet(s, b, blocking))
  {
    hide CoreInv, GetMsg, BoxesInOrder, WritersInOrder, SettlePc, GetLog, NoneOwed;
    CoreLists(s.m, s.c);
    GetKeepsBoxes(s.m, b, blocking, s.bx);
    GetKeepsOwed(s.m, s.c, b, blocking, s.bx);
  }

  lemma OtherCallsKeepBoxLog(s: K, step: Step)
    requires Enabled(s, step) && !Inner(step) && !step.DoPut? && !step.DoGet?
    ensures Apply(s, step).bx == s.bx
  {
    hide Shape, Create, FreePid, Exit, ExitOk, Sleep, YieldThread, Lock, Unlock, UnlockAndSleep, Send, SendReceive,
      SendInt,
      Receive, HandOver, Wakeup, F.Set, F.Clear, F.WaitAny, F.WaitAll, InitQueue, SettleMem, SettlePc, SendLog,
      GivenLog,
      FateOf, LockLog, UnlockLog, ReceiveLog, ReceiveOpen, CountersFresh;
  }

  lemma OthersSpareBoxes(step: Step)
    requires !step.DoPut? && !step.DoGet?
    ensures MboxBlocked !in Wakes(step) + Blocks(step)
  {
  }

  lemma OtherCallKeepsBoxes(s: K, step: Step)
    requires Core(s) && RequestsOk(s) && MailboxesOk(s) && Enabled(s, step) && !Inner(step)
    requires !step.DoCreate? && !step.DoExit? && !step.DoPut? && !step.DoGet?
    ensures BoxesBeforePc(s, Apply(s, step))
  {
    hide RequestsOk, Enabled, Apply, CoreInv, Moves, ListsKept, ListsInv, PcMoves, AllAgree, BoxesInOrder,
      WritersInOrder, Wakes, Blocks;
    OthersSpareBoxes(step);
    CoreAgrees(s.m, s.c);
    ReplyIsSafe(s, step);
    CallKeepsCore(s, step);
    OtherCallsKeepBoxLog(s, step);
    var s' := Apply(s, step);
    BoxesFrame(s.m, s'.m, Wakes(step), Blocks(step), s.bx);
    OwedFrame(s.m, s'.m, Wakes(step), Blocks(step), s.c.pc);
  }

  lemma CallKeepsBoxes(s: K, step: Step)
    requires Core(s) && RequestsOk(s) && MailboxesOk(s) && Enabled(s, step) && !Inner(step) && Orderly(s, step)
    requires !step.DoCreate? && !step.DoExit?
    ensures BoxesBeforePc(s, Apply(s, step))
  {
    hide Core, RequestsOk, MailboxesOk, Shape, Ready, StepPut, StepGet, BoxesBeforePc, Settled, CountersFresh, ExitOk;
    if step.DoPut? {
      PutStepKeepsBoxes(s, step.b, step.typ, step.content, step.blocking);
    } else if step.DoGet? {
      GetStepKeepsBoxes(s, step.b, step.blocking);
    } else {
      hide Apply, Enabled;
      OtherCallKeepsBoxes(s, step);
    }
  }

  lemma CallKeepsMailboxes(s: K, step: Step)
    requires Core(s) && RequestsOk(s) && MailboxesOk(s) && Enabled(s, step) && !Inner(step) && Orderly(s, step)
    requires !step.DoCreate? && !step.DoExit?
    ensures MailboxesOk(Apply(s, step))
  {
    hide RequestsOk, Enabled, Apply, CoreInv, Moves, ListsKept, ListsInv, PcMoves, BoxesInOrder, WritersInOrder,
      Orderly;
    ReplyIsSafe(s, step);
    CallKeepsCore(s, step);
    CallKeepsBoxes(s, step);
    CoreKeys(s.m, s.c);
    var s' := Apply(s, step);
    OwedPc(s.c, s'.c, s.m.active, Blocks(step), s.m.prio, s'.m.status, s'.m.lists, s'.m.mbox);
  }

  // Threads come and go

  lemma OwedNew(prio: map<Pid, nat>, pc: map<Pid, Pc>, status: map<Pid, Status>, lists: map<ListId, seq<Pid>>,
                mbox: map<nat, Mailbox>, t: Pid, p: nat, st: Status, a: Pid, q: Pc)
    requires WritersInOrder(prio, pc, status, lists, mbox) && t !in prio && (q.User? || q.Switch?)
    ensures WritersInOrder(prio[t := p], pc[t := User], status[t := st], lists, mbox)
    ensures WritersInOrder(prio[t := p], pc[t := User][a := q], status[t := st], lists, mbox)
  {
    var prio', status' := prio[t := p], status[t := st];
    var pc1, pc2 := pc[t := User], pc[t := User][a := q];
    hide WritersInOrder;
    assert forall c, u :: Owed(prio', pc1, status', c, u) ==> Owed(prio, pc, status, c, u);
    assert forall c, u :: Owed(prio', pc2, status', c, u) ==> Owed(prio, pc, status, c, u);
    OwedFewer(prio, pc, status, lists, mbox, prio', pc1, status', lists);
    OwedFewer(prio, pc, status, lists, mbox, prio', pc2, status', lists);
  }

  lemma CreateKeepsMailboxes(s: K, prio: nat, sleeping: bool, wout: bool, flags: bv16)
    requires Defined(s.m, s.c) && MailboxesOk(s)
    ensures MailboxesOk(StepCreate(s, prio, sleeping, wout, flags))
  {
    hide BoxesInOrder, WritersInOrder, StepCreate, FreePid, Shape;
    CreateMaps(s, prio, sleeping, wout, flags);
    var free := FreePid(s.m.prio, KERNEL_PID_FIRST, s.m.maxPid);
    if prio < |s.m.rq| && free.Some? {
      OwedNew(s.m.prio, s.c.pc, s.m.status, s.m.lists, s.m.mbox, free.value, prio,
              if sleeping then Sleeping else Pending, s.m.active, Switch(prio));
    }
  }

  /** The maps that mailboxes depend on, after a thread was created. */
  lemma CreateMaps(s: K, prio: nat, sleeping: bool, wout: bool, flags: bv16)
    requires Defined(s.m, s.c)
    ensures var free, s' := FreePid(s.m.prio, KERNEL_PID_FIRST, s.m.maxPid), StepCreate(s, prio, sleeping, wout, flags);
            && s'.m.lists == s.m.lists && s'.m.mbox == s.m.mbox && s'.bx == s.bx
            && if prio >= |s.m.rq| || free.None? then
                 s'.m.prio == s.m.prio && s'.m.status == s.m.status && s'.c.pc == s.c.pc
               else
                 var t, pc := free.value, s.c.pc[free.value := User];
                 && t !in s.m.prio && s'.m.prio == s.m.prio[t := prio]
                 && s'.m.status == s.m.status[t := if sleeping then Sleeping else Pending]
                 && (s'.c.pc == pc || s'.c.pc == pc[s.m.active := Switch(prio)])
  {
    hide Create, FreePid, LevelsOk, ListsKeyed, RunQueuesKeyed;
    CreateAddsOne(s.m, prio, sleeping, wout, flags);
    CreateAddsData(s.m, prio, sleeping, wout, flags);
  }

  lemma ExitKeepsMailboxes(s: K)
    requires Core(s) && MailboxesOk(s) && Defined(s.m, s.c) && Ready(s.m, s.c) && ExitOk(s.m)
    ensures MailboxesOk(StepExit(s))
  {
    ReadyRuns(s.m, s.c);
    PopKeepsLists(s.m, s.m.active, Stopped);
    NextThreadIsBest(SetStatus(s.m, s.m.active, Stopped));
    hide RunQueuesOk, WaitListsOk, PlacesOk, BoxesInOrder, WritersInOrder, CoreInv;
    var s' := StepExit(s);
    OwedFewer(s.m.prio, s.c.pc, s.m.status, s.m.lists, s.m.mbox, s'.m.prio, s'.c.pc, s'.m.status, s.m.lists);
  }

  // Between sections

  lemma InnerBoxes(s: K, step: Step)
    requires Enabled(s, step) && Inner(step) && (step.Resume? ==> !s.c.pc[s.m.active].k.PutDone?)
    ensures Apply(s, step).bx == s.bx && Apply(s, step).m.mbox == s.m.mbox
    ensures var pc := Apply(s, step).c.pc;
            forall t, b :: t in pc && Writing(pc[t], b) ==> t in s.c.pc && Writing(s.c.pc[t], b)
  {
    hide SchedRun, RotateActive, ResumeMem, Shape;
    InnerMbox(s, step);
  }

  ghost predicate SameBoxes(m: Mem, r: Mem) {
    r.mbox == m.mbox
  }

  lemma RotateBoxes(m: Mem)
    requires Shape(m)
    ensures SameBoxes(m, RotateActive(m)) && SameBoxes(m, m)
  {
  }

  lemma RunBoxes(m: Mem)
    requires Shape(m)
    ensures Runnable(m) ==> SameBoxes(m, SchedRun(m))
    ensures Runnable(RotateActive(m)) ==> SameBoxes(m, SchedRun(RotateActive(m)))
  {
    RotateBoxes(m);
    hide RotateActive, Best;
  }

  lemma ResumeBoxes(m: Mem, k: Cont)
    requires Shape(m) && !k.PutDone?
    ensures SameBoxes(m, ResumeMem(m, k))
  {
    hide F.Without, F.Part, F.LowestFlag, LevelsOk, ListsKeyed, RunQueuesKeyed;
  }

  lemma InnerMbox(s: K, step: Step)
    requires Enabled(s, step) && Inner(step) && (step.Resume? ==> !s.c.pc[s.m.active].k.PutDone?)
    ensures SameBoxes(s.m, Apply(s, step).m)
  {
    hide Shape, SameBoxes, StepSchedule, StepMoveToTail, StepResume, StepIsrExit;
    SelfBoxes(s.m);
    match step
    case Schedule => ScheduleBoxes(s);
    case MoveToTail => ScheduleBoxes(s);
    case Resume => ResumeStepBoxes(s, s.c.pc[s.m.active].k);
    case IsrExit(rotate) => IsrExitBoxes(s, rotate);
    case _ =>
  }

  lemma SelfBoxes(m: Mem)
    ensures SameBoxes(m, m)
  {
  }

  lemma ScheduleBoxes(s: K)
    requires Defined(s.m, s.c)
    ensures CanRun(s.m) && s.c.pc[s.m.active].Gap? ==> SameBoxes(s.m, StepSchedule(s).m)
    ensures s.c.pc[s.m.active].Rotating? ==> SameBoxes(s.m, StepMoveToTail(s).m)
  {
    hide LevelsOk, ListsKeyed, RunQueuesKeyed, SchedRun, RotateActive, SameBoxes;
    RunBoxes(s.m);
    RotateBoxes(s.m);
  }

  lemma ResumeStepBoxes(s: K, k: Cont)
    requires Defined(s.m, s.c) && !k.PutDone?
    ensures SameBoxes(s.m, StepResume(s, k).m)
  {
    hide LevelsOk, ListsKeyed, RunQueuesKeyed, ResumeMem, SameBoxes;
    ResumeBoxes(s.m, k);
  }

  lemma IsrExitBoxes(s: K, rotate: bool)
    requires CanRun(s.m)
    ensures SameBoxes(s.m, StepIsrExit(s, rotate).m)
  {
    hide LevelsOk, ListsKeyed, RunQueuesKeyed, SchedRun, RotateActive, SameBoxes;
    SelfBoxes(s.m);
    RunBoxes(s.m);
    RotateBoxes(s.m);
  }

  lemma InnerKeepsMailboxes(s: K, step: Step)
    requires Core(s) && MailboxesOk(s) && Enabled(s, step) && Inner(step)
    ensures MailboxesOk(Apply(s, step))
  {
    if step.Resume? && s.c.pc[s.m.active].k.PutDone? {
      hide Core, MailboxesOk, StepResume;
      ResumeKeepsBoxes(s, s.c.pc[s.m.active].k.mbox, s.c.pc[s.m.active].k.msg);
    } else {
      hide Apply, CoreInv, BoxesInOrder, WritersInOrder, Writing;
      CoreLists(s.m, s.c);
      InnerEffect(s, step);
      InnerBoxes(s, step);
      var s' := Apply(s, step);
      OwedFewer(s.m.prio, s.c.pc, s.m.status, s.m.lists, s.m.mbox, s'.m.prio, s'.c.pc, s'.m.status, s'.m.lists);
    }
  }

  // Without any assumption on who uses the mailboxes when

  ghost predicate InOrder(s: K) {
    BoxesInOrder(s.m.lists, s.m.mbox, s.bx)
  }

  /** If the step is the store of a writer that has waited, there is room for
      its message and no reader waits. */
  ghost predicate FindsRoom(s: K, step: Step)
    requires Enabled(s, step)
  {
    step.Resume? && s.c.pc[s.m.active].k.PutDone? ==>
      var b := s.c.pc[s.m.active].k.mbox; RoomFor(s.m.mbox[b], Lst(s.m.lists, Readers(b)))
  }

  lemma OtherCallKeepsOrder(s: K, step: Step)
    requires Core(s) && RequestsOk(s) && InOrder(s) && Enabled(s, step) && !Inner(step)
    requires !step.DoCreate? && !step.DoExit? && !step.DoPut? && !step.DoGet?
    ensures InOrder(Apply(s, step))
  {
    hide RequestsOk, Enabled, Apply, CoreInv, Moves, ListsKept, ListsInv, PcMoves, BoxesInOrder, Wakes, Blocks;
    OthersSpareBoxes(step);
    ReplyIsSafe(s, step);
    CallKeepsCore(s, step);
    OtherCallsKeepBoxLog(s, step);
    BoxesFrame(s.m, Apply(s, step).m, Wakes(step), Blocks(step), s.bx);
  }

  lemma CallKeepsOrder(s: K, step: Step)
    requires Core(s) && RequestsOk(s) && InOrder(s) && Enabled(s, step) && !Inner(step) && !step.DoCreate?
    requires !step.DoExit?
    ensures InOrder(Apply(s, step))
  {
    hide Core, RequestsOk, InOrder, Shape, Ready, StepPut, StepGet, CountersFresh, ExitOk;
    if step.DoPut? {
      PutKeepsOrder(s, step.b, step.typ, step.content, step.blocking);
    } else if step.DoGet? {
      GetKeepsOrder(s, step.b, step.blocking);
    } else {
      hide Apply, Enabled;
      OtherCallKeepsOrder(s, step);
    }
  }

  lemma PutKeepsOrder(s: K, b: nat, typ: nat, content: nat, blocking: bool)
    requires Shape(s.m) && InOrder(s) && b in s.m.mbox
    ensures InOrder(StepPut(s, b, typ, content, blocking))
  {
    hide PutMsg, BoxesInOrder, SettlePc, PutLog, LevelsOk, ListsKeyed, RunQueuesKeyed;
    PutKeepsBoxes(s.m, b, Msg(KERNEL_PID_UNDEF, typ, content, s.nextId), blocking, s.bx);
  }

  lemma GetKeepsOrder(s: K, b: nat, blocking: bool)
    requires Shape(s.m) && InOrder(s) && b in s.m.mbox
    ensures InOrder(StepGet(s, b, blocking))
  {
    hide GetMsg, BoxesInOrder, SettlePc, GetLog, LevelsOk, ListsKeyed, RunQueuesKeyed;
    GetKeepsBoxes(s.m, b, blocking, s.bx);
  }

  lemma ThreadsKeepOrder(s: K, step: Step)
    requires InOrder(s) && Enabled(s, step) && (step.DoCreate? || step.DoExit?)
    ensures InOrder(Apply(s, step))
  {
    hide BoxesInOrder, Create, FreePid, LevelsOk, ListsKeyed, RunQueuesKeyed, Best, SettlePc;
    if step.DoCreate? {
      CreateAddsOne(s.m, step.prio, step.sleeping, step.wout, step.flags);
      CreateAddsData(s.m, step.prio, step.sleeping, step.wout, step.flags);
    }
  }

  lemma StoreKeepsOrderIff(s: K, b: nat, msg: Msg)
    requires Defined(s.m, s.c) && InOrder(s) && b in s.m.mbox
    ensures InOrder(StepResume(s, PutDone(b, msg))) <==> RoomFor(s.m.mbox[b], Lst(s.m.lists, Readers(b)))
  {
    hide PutSlot, BoxesInOrder, RoomFor, Logged, ResumeMem, LevelsOk, ListsKeyed, RunQueuesKeyed;
    StoreFields(s.m, b, msg);
    BoxesStoreIff(s.m.lists, s.m.mbox, s.bx, b, msg.(sender := s.m.active));
  }

  lemma InnerKeepsOrder(s: K, step: Step)
    requires Core(s) && InOrder(s) && Enabled(s, step) && Inner(step)
    requires (step.Resume? ==> !s.c.pc[s.m.active].k.PutDone?)
    ensures InOrder(Apply(s, step))
  {
    hide Apply, Enabled, CoreInv, BoxesInOrder;
    CoreLists(s.m, s.c);
    InnerEffect(s, step);
    InnerBoxes(s, step);
  }

  /** One step keeps all mailboxes in order exactly if it is not a late store
      without room. */
  lemma StepKeepsOrderIff(s: K, step: Step)
    requires Core(s) && RequestsOk(s) && InOrder(s) && Enabled(s, step)
    ensures InOrder(Apply(s, step)) <==> FindsRoom(s, step)
  {
    hide Core, RequestsOk, InOrder, RoomFor;
    if Inner(step) {
      if step.Resume? && s.c.pc[s.m.active].k.PutDone? {
        hide StepResume, Shape;
        StoreKeepsOrderIff(s, s.c.pc[s.m.active].k.mbox, s.c.pc[s.m.active].k.msg);
      } else {
        hide Apply, CallEnabled;
        InnerKeepsOrder(s, step);
      }
    } else {
      hide Apply, Enabled;
      if step.DoCreate? || step.DoExit? { ThreadsKeepOrder(s, step); } else { CallKeepsOrder(s, step); }
    }
  }
}
