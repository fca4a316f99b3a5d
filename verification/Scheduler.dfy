/** core/sched.c and the list handling of core/thread.c: the primitives from
    which every kernel operation is composed, and the invariant about run
    queues and wait lists that each of them keeps. */
module Scheduler {
  import opened Names
  import opened Sequences
  import opened KernelState

  predicate On(status: map<Pid, Status>, t: Pid) {
    t in status && OnRunqueue(status[t])
  }

  lemma RunQueuesKeyedAfter(rq: seq<seq<Pid>>, prio: map<Pid, nat>, p: nat, q: seq<Pid>)
    requires RunQueuesKeyed(rq, prio) && p < |rq|
    requires forall t :: t in q ==> t in prio
    ensures RunQueuesKeyed(rq[p := q], prio)
  {
    var after := rq[p := q];
    forall i, t | 0 <= i < |rq| && t in after[i]
      ensures t in prio
    {
      if i != p { assert t in rq[i]; }
    }
  }

  /** clist_lpop: whatever is first leaves. */
  function Tail<T>(s: seq<T>): seq<T> {
    if s == [] then [] else s[1..]
  }

  /** sched_set_status: a thread that leaves the run queue is taken off by a
      blind pop of its level. */
  ghost function SetStatus(m: Mem, t: Pid, st: Status): (r: Mem)
    requires Shape(m) && t in m.prio
    ensures Shape(r) && r.active == m.active && r.prio == m.prio
  {
    var p, was := m.prio[t], m.status[t];
    var q :=
      if OnRunqueue(st) && !OnRunqueue(was) then m.rq[p] + [t]
      else if !OnRunqueue(st) && OnRunqueue(was) then Tail(m.rq[p])
      else m.rq[p];
    assert forall u :: u in m.rq[p] ==> u in m.prio;
    RunQueuesKeyedAfter(m.rq, m.prio, p, q);
    m.(rq := m.rq[p := q], status := m.status[t := st])
  }

  /** It does not look at the mutexes. */
  lemma SetStatusElsewhere(m: Mem, t: Pid, st: Status, locked: set<nat>)
    requires Shape(m) && t in m.prio
    ensures SetStatus(m, t, st).locked == m.locked
    ensures SetStatus(m.(locked := locked), t, st) == SetStatus(m, t, st).(locked := locked)
  {
    hide LevelsOk, ListsKeyed, RunQueuesKeyed;
  }

  /** The first level with a runnable thread, or the number of levels. */
  function Best(rq: seq<seq<Pid>>): (p: nat)
    ensures p <= |rq|
    ensures forall i :: 0 <= i < p ==> rq[i] == []
    ensures p < |rq| ==> rq[p] != []
  {
    if rq == [] || rq[0] != [] then 0 else 1 + Best(rq[1..])
  }

  /** The lowest level of run queues that differ in one level, not in emptiness. */
  lemma {:induction false} BestOfUpdate(rq: seq<seq<Pid>>, p: nat, q: seq<Pid>)
    requires p < |rq| && (q == [] <==> rq[p] == [])
    ensures Best(rq[p := q]) == Best(rq)
    decreases |rq|
  {
    if rq[0] == [] {
      if p == 0 {
        assert rq[p := q][1..] == rq[1..];
      } else {
        assert rq[p := q][1..] == rq[1..][p - 1 := q];
        BestOfUpdate(rq[1..], p - 1, q);
      }
    }
  }

  predicate Runnable(m: Mem) {
    Best(m.rq) < |m.rq|
  }

  function NextThread(m: Mem): Pid
    requires Runnable(m)
  {
    m.rq[Best(m.rq)][0]
  }

  /** sched_run */
  ghost function SchedRun(m: Mem): (r: Mem)
    requires Shape(m) && Runnable(m)
    ensures Shape(r)
  {
    var t := NextThread(m);
    assert t in m.rq[Best(m.rq)];
    if t == m.active then m.(csr := false)
    else
      var st := if m.status[m.active] == Running then m.status[m.active := Pending] else m.status;
      m.(csr := false, status := st[t := Running], active := t)
  }

  /** sched_switch yields iff this holds. */
  predicate ShouldYield(m: Mem, other: nat)
    requires m.active in m.prio
  {
    !On(m.status, m.active) || m.prio[m.active] > other
  }

  /** The critical section of thread_yield. */
  ghost function RotateActive(m: Mem): (r: Mem)
    requires Shape(m)
    ensures Shape(r) && r.active == m.active && r.prio == m.prio
    ensures Best(r.rq) == Best(m.rq) && |r.rq| == |m.rq|
  {
    var p := m.prio[m.active];
    BestOfUpdate(m.rq, p, Rotate(m.rq[p]));
    assert forall u :: u in m.rq[p] ==> u in m.prio;
    RunQueuesKeyedAfter(m.rq, m.prio, p, Rotate(m.rq[p]));
    if On(m.status, m.active) then m.(rq := m.rq[p := Rotate(m.rq[p])]) else m
  }

  lemma ListsKeyedAfter(lists: map<ListId, seq<Pid>>, prio: map<Pid, nat>, l: ListId, s: seq<Pid>)
    requires ListsKeyed(lists, prio) && Keyed(s, prio)
    ensures ListsKeyed(lists[l := s], prio)
  {
    var after := lists[l := s];
    forall k
      ensures Keyed(Lst(after, k), prio)
    {
      assert Keyed(Lst(lists, k), prio);
    }
  }

  /** thread_add_to_list */
  ghost function AddToList(m: Mem, l: ListId, t: Pid): (r: Mem)
    requires Shape(m) && t in m.prio
    ensures Shape(r) && r.active == m.active && r.prio == m.prio
  {
    InsertMembers(Lst(m.lists, l), t, m.prio);
    ListsKeyedAfter(m.lists, m.prio, l, Insert(Lst(m.lists, l), t, m.prio));
    m.(lists := m.lists[l := Insert(Lst(m.lists, l), t, m.prio)], at := m.at[t := Some(l)])
  }

  /** list_remove_head on a wait list that is not empty. */
  ghost function RemoveHead(m: Mem, l: ListId): (r: Mem)
    requires Shape(m) && Lst(m.lists, l) != []
    ensures Shape(r) && r.active == m.active && r.prio == m.prio
  {
    var h := Lst(m.lists, l)[0];
    assert Keyed(Lst(m.lists, l), m.prio);
    ListsKeyedAfter(m.lists, m.prio, l, Lst(m.lists, l)[1..]);
    m.(lists := m.lists[l := Lst(m.lists, l)[1..]], at := m.at[h := None])
  }

  // The invariant about lists

  /** The status a thread must have to stand in a list. */
  predicate Fits(st: Status, l: ListId) {
    match l
    case MsgWaiters(_) => st.SendBlocked? || st.ReplyBlocked?
    case MutexQueue(_) => st.MutexBlocked?
    case Readers(_) => st.MboxBlocked?
    case Writers(_) => st.MboxBlocked?
  }

  /** A thread is in the run queue of its own priority iff its status says so. */
  ghost predicate RunQueuesOk(rq: seq<seq<Pid>>, prio: map<Pid, nat>, status: map<Pid, Status>) {
    && (forall p :: 0 <= p < |rq| ==> NoDup(rq[p]))
    && (forall p, t {:trigger t in rq[p]} :: 0 <= p < |rq| ==>
          (t in rq[p] <==> t in prio && On(status, t) && prio[t] == p))
  }

  /** A thread is in exactly the wait list recorded for it, and every wait
      list is sorted by priority. */
  ghost predicate WaitListsOk(lists: map<ListId, seq<Pid>>, prio: map<Pid, nat>, at: map<Pid, Option<ListId>>)
    requires Covers(prio, at) && ListsKeyed(lists, prio)
  {
    && (forall l :: NoDup(Lst(lists, l)) && Sorted(Lst(lists, l), prio))
    && (forall l, t {:trigger t in Lst(lists, l)} :: t in Lst(lists, l) <==> t in prio && at[t] == Some(l))
  }

  /** The status of a thread in a wait list fits the kind of list. */
  ghost predicate PlacesOk(prio: map<Pid, nat>, status: map<Pid, Status>, at: map<Pid, Option<ListId>>)
    requires Covers(prio, at) && Covers(prio, status)
  {
    forall t {:trigger at[t]} :: t in prio && at[t].Some? ==>
      && Fits(status[t], at[t].value)
      && (at[t].value.MsgWaiters? ==> at[t].value.pid in prio)
  }

  ghost predicate ListsInv(m: Mem) {
    && Shape(m)
    && RunQueuesOk(m.rq, m.prio, m.status)
    && WaitListsOk(m.lists, m.prio, m.at)
    && PlacesOk(m.prio, m.status, m.at)
  }

  /** `t` is the first of its level, as the blind pop needs. */
  ghost predicate AtHead(m: Mem, t: Pid)
    requires Shape(m)
  {
    t in m.prio && m.rq[m.prio[t]] != [] && m.rq[m.prio[t]][0] == t
  }

  // Each primitive keeps the invariant

  /** Leaving the run queue: right iff the thread is the first of its level. */
  lemma PopKeepsLists(m: Mem, t: Pid, st: Status)
    requires ListsInv(m) && AtHead(m, t) && On(m.status, t) && !OnRunqueue(st)
    ensures ListsInv(SetStatus(m, t, st))
  {
    var r := SetStatus(m, t, st);
    TailMembers(m.rq[m.prio[t]]);
    forall p, u | 0 <= p < |r.rq|
      ensures u in r.rq[p] <==> u in r.prio && On(r.status, u) && r.prio[u] == p
    {
      assert u in m.rq[p] <==> u in m.prio && On(m.status, u) && m.prio[u] == p;
    }
  }

  /** The blind pop is right exactly when the thread is the first of its level:
      otherwise another thread vanishes from the run queue while runnable. */
  lemma BlindPopIsRightIff(m: Mem, t: Pid, st: Status)
    requires ListsInv(m) && t in m.prio && On(m.status, t) && !OnRunqueue(st)
    ensures ListsInv(SetStatus(m, t, st)) <==> AtHead(m, t)
  {
    var p := m.prio[t];
    assert t in m.rq[p];
    if AtHead(m, t) {
      PopKeepsLists(m, t, st);
    } else {
      var r, h := SetStatus(m, t, st), m.rq[p][0];
      assert h in m.rq[p];
      TailMembers(m.rq[p]);
      assert h !in r.rq[p] && h in r.prio && On(r.status, h) && r.prio[h] == p;
    }
  }

  lemma PushKeepsLists(m: Mem, t: Pid, st: Status)
    requires ListsInv(m) && t in m.prio && !On(m.status, t) && OnRunqueue(st) && m.at[t] == None
    ensures ListsInv(SetStatus(m, t, st))
  {
    var r := SetStatus(m, t, st);
    AppendMembers(m.rq[m.prio[t]], t);
    forall p, u | 0 <= p < |r.rq|
      ensures u in r.rq[p] <==> u in r.prio && On(r.status, u) && r.prio[u] == p
    {
      assert u in m.rq[p] <==> u in m.prio && On(m.status, u) && m.prio[u] == p;
    }
  }

  /** From one blocked status to another, outside all wait lists. */
  lemma RelabelKeepsLists(m: Mem, t: Pid, st: Status)
    requires ListsInv(m) && t in m.prio && !On(m.status, t) && !OnRunqueue(st) && m.at[t] == None
    ensures ListsInv(SetStatus(m, t, st))
  {
    var r := SetStatus(m, t, st);
    assert r.rq == m.rq;
  }

  lemma AddKeepsLists(m: Mem, l: ListId, t: Pid)
    requires ListsInv(m) && t in m.prio && m.at[t] == None && Fits(m.status[t], l)
    requires l.MsgWaiters? ==> l.pid in m.prio
    ensures ListsInv(AddToList(m, l, t))
  {
    var r := AddToList(m, l, t);
    var s := Lst(m.lists, l);
    InsertMembers(s, t, m.prio);
    InsertKeepsNoDup(s, t, m.prio);
    InsertKeepsSorted(s, t, m.prio);
    forall k
      ensures NoDup(Lst(r.lists, k)) && Sorted(Lst(r.lists, k), r.prio)
    {
      if k != l { assert Lst(r.lists, k) == Lst(m.lists, k); }
    }
    forall k, u
      ensures u in Lst(r.lists, k) <==> u in r.prio && r.at[u] == Some(k)
    {
      if k != l { assert Lst(r.lists, k) == Lst(m.lists, k); }
      assert u in Lst(m.lists, k) <==> u in m.prio && m.at[u] == Some(k);
    }
  }

  lemma RemoveKeepsLists(m: Mem, l: ListId)
    requires ListsInv(m) && Lst(m.lists, l) != []
    ensures ListsInv(RemoveHead(m, l))
    ensures var h := Lst(m.lists, l)[0]; h in m.prio && m.at[h] == Some(l) && !On(m.status, h)
  {
    var r := RemoveHead(m, l);
    var h := Lst(m.lists, l)[0];
    assert h in Lst(m.lists, l);
    TailMembers(Lst(m.lists, l));
    forall k
      ensures NoDup(Lst(r.lists, k)) && Sorted(Lst(r.lists, k), r.prio)
    {
      if k != l { assert Lst(r.lists, k) == Lst(m.lists, k); }
    }
    forall k, u
      ensures u in Lst(r.lists, k) <==> u in r.prio && r.at[u] == Some(k)
    {
      if k != l { assert Lst(r.lists, k) == Lst(m.lists, k); }
      assert u in Lst(m.lists, k) <==> u in m.prio && m.at[u] == Some(k);
    }
  }

  lemma RotateKeepsLists(m: Mem)
    requires ListsInv(m)
    ensures ListsInv(RotateActive(m))
  {
    if On(m.status, m.active) {
      RotateMembers(m.rq[m.prio[m.active]]);
    }
  }

  /** The thread sched_run picks is runnable, first of its level, and no
      runnable thread has a better priority. */
  lemma NextThreadIsBest(m: Mem)
    requires ListsInv(m) && Runnable(m)
    ensures var t := NextThread(m); t in m.prio && On(m.status, t) && AtHead(m, t)
    ensures forall u :: u in m.prio && On(m.status, u) ==> m.prio[NextThread(m)] <= m.prio[u]
  {
    var p := Best(m.rq);
    assert m.rq[p][0] in m.rq[p];
    forall u | u in m.prio && On(m.status, u)
      ensures m.prio[NextThread(m)] <= m.prio[u]
    {
      assert u in m.rq[m.prio[u]];
    }
  }

  /** Changing Running to Pending or back moves nobody. */
  lemma SameRunnable(m: Mem, status: map<Pid, Status>)
    requires ListsInv(m) && Covers(m.prio, status)
    requires forall u :: On(status, u) <==> On(m.status, u)
    requires forall u :: u in m.prio && !On(m.status, u) ==> status[u] == m.status[u]
    ensures RunQueuesOk(m.rq, m.prio, status) && PlacesOk(m.prio, status, m.at)
  {
    forall t | t in m.prio && m.at[t].Some?
      ensures Fits(status[t], m.at[t].value)
    {
      assert Fits(m.status[t], m.at[t].value);
    }
  }

  lemma RunKeepsLists(m: Mem)
    requires ListsInv(m) && Runnable(m)
    ensures ListsInv(SchedRun(m))
    ensures forall u :: On(SchedRun(m).status, u) <==> On(m.status, u)
    ensures var r := SchedRun(m); r.active == NextThread(m) && AtHead(r, r.active) && On(r.status, r.active)
  {
    NextThreadIsBest(m);
    SameRunnable(m, SchedRun(m).status);
  }

  // What a section does to threads

  /** A thread was left alone, or was woken from one of the statuses `w`, or it
      waits for a reply and its request was taken out of the list it was in. */
  predicate Undisturbed(w: set<Status>, st: Status, at: Option<ListId>, wait: WaitData,
                        st': Status, at': Option<ListId>, wait': WaitData) {
    || (st' == st && (OnRunqueue(st) || (at' == at && wait' == wait)))
    || (st in w && OnRunqueue(st'))
    || (SendBlocked in w && st == ReplyBlocked && st' == st && wait' == wait && at' == None)
  }

  /** Every thread was left undisturbed, except that a runnable caller may have
      taken one of the statuses `b`. */
  ghost predicate Moves(w: set<Status>, b: set<Status>, a: Pid, prio: map<Pid, nat>,
                        status: map<Pid, Status>, at: map<Pid, Option<ListId>>, wait: map<Pid, WaitData>,
                        status': map<Pid, Status>, at': map<Pid, Option<ListId>>, wait': map<Pid, WaitData>) {
    forall t {:trigger status'[t]} {:trigger at'[t]} {:trigger wait'[t]} :: t in prio ==>
      && t in status && t in at && t in wait && t in status' && t in at' && t in wait'
      && (|| Undisturbed(w, status[t], at[t], wait[t], status'[t], at'[t], wait'[t])
          || (t == a && OnRunqueue(status[t]) && (OnRunqueue(status'[t]) || status'[t] in b)))
  }

  /** The caller may take a status of `b` at any time. */
  lemma CallerMoves(w: set<Status>, b: set<Status>, m: Mem, mid: Mem, st: Status, l: Option<ListId>, d: WaitData)
    requires Shape(m) && On(m.status, m.active) && st in b && mid.prio == m.prio
    requires Moves(w, b, m.active, m.prio, m.status, m.at, m.wait, mid.status, mid.at, mid.wait)
    ensures Moves(w, b, m.active, m.prio, m.status, m.at, m.wait,
                  mid.status[m.active := st], mid.at[m.active := l], mid.wait[m.active := d])
  {
  }

  /** The status a plain waiter in the list has. */
  function KindOf(l: ListId): Status {
    match l
    case MsgWaiters(_) => SendBlocked
    case MutexQueue(_) => MutexBlocked
    case Readers(_) => MboxBlocked
    case Writers(_) => MboxBlocked
  }

  ghost predicate ListsKept(kinds: set<Status>, lists: map<ListId, seq<Pid>>, lists': map<ListId, seq<Pid>>) {
    forall l {:trigger Lst(lists', l)} {:trigger Lst(lists, l)} :: KindOf(l) !in kinds ==>
        Lst(lists', l) == Lst(lists, l)
  }

  ghost predicate BoxesKept(mbox: map<nat, Mailbox>, mbox': map<nat, Mailbox>) {
    forall b :: b in mbox ==> b in mbox'
  }

  ghost predicate SameThreads(m: Mem, r: Mem) {
    && Shape(m) && Shape(r) && r.prio == m.prio && r.active == m.active && |r.rq| == |m.rq| && BoxesKept(m.mbox, r.mbox)
    && (m.csr ==> r.csr)
  }

  /** A blocked thread that will go on with `k` is blocked in the matching way. */
  predicate Waiting(k: Cont, st: Status, at: Option<ListId>, wait: WaitData) {
    match k
    case Return => st.Sleeping? && at == None
    case LockDone(x) => st.MutexBlocked? && at == Some(MutexQueue(x))
    case SendDone => st.SendBlocked? && at.Some? && at.value.MsgWaiters? && wait.Buffer?
    case RecvDone => st.ReceiveBlocked? && at == None && wait.Buffer?
    case ReplyDone => st.ReplyBlocked? && (at.Some? ==> at.value.MsgWaiters?) && wait.Buffer?
    case ClearAny(mask) => st.FlagBlockedAny? && at == None && wait == Mask(mask)
    case ReadOne(mask) => st.FlagBlockedAny? && at == None && wait == Mask(mask)
    case ClearAll(mask) => st.FlagBlockedAll? && at == None && wait == Mask(mask)
    case ClearOne(_, _) => false
    case PutDone(b, _) => st.MboxBlocked? && at == Some(Writers(b))
    case GetDone(b) => st.MboxBlocked? && at == Some(Readers(b)) && wait.Buffer?
  }

  /** What a running thread can rely on: it is the first of its level. */
  ghost predicate ActiveRuns(m: Mem) {
    ListsInv(m) && On(m.status, m.active) && AtHead(m, m.active)
  }

  /** What a section that may wake from `w` and block its caller as in `b` may
      have done so far: the lists are in order, other threads were at most
      woken, and only lists, locks and mailboxes of the matching kinds changed. */
  ghost predicate Caller(m: Mem, r: Mem, w: set<Status>, b: set<Status>) {
    && SameThreads(m, r) && ListsInv(r)
    && Moves(w, b, m.active, m.prio, m.status, m.at, m.wait, r.status, r.at, r.wait)
    && ListsKept(w + b, m.lists, r.lists)
    && (MutexBlocked in w + b || r.locked == m.locked)
    && (MboxBlocked in w + b || r.mbox == m.mbox)
  }

  /** A section called by a running thread. Unless it yields it leaves the
      caller running; if it yields, a caller that is off the run queue waits as
      its continuation expects, and one that is not has nothing left to do. */
  ghost predicate GoodSection(m: Mem, r: Mem, out: Out, w: set<Status>, b: set<Status>) {
    && Caller(m, r, w, b)
    && match out
       case Done(_) => ActiveRuns(r)
       case SwitchTo(_) => ActiveRuns(r)
       case YieldHigher(k) => Blocked(r, k)
       case Yield(k) => Blocked(r, k)
  }

  ghost predicate Blocked(r: Mem, k: Cont)
    requires Shape(r)
  {
    && (if On(r.status, r.active) then k == Return
        else Waiting(k, r.status[r.active], r.at[r.active], r.wait[r.active]))
    && (k.PutDone? ==> k.mbox in r.mbox)
  }

  /** A section called by an interrupt service routine: it only wakes. */
  ghost predicate GoodIsrSection(m: Mem, r: Mem, w: set<Status>) {
    Caller(m, r, w, {}) && (ActiveRuns(m) ==> ActiveRuns(r))
  }

  lemma IsrSectionsCompose(m: Mem, r: Mem, q: Mem, w: set<Status>)
    requires GoodIsrSection(m, r, w) && GoodIsrSection(r, q, w)
    ensures GoodIsrSection(m, q, w)
  {
    hide RunQueuesOk, WaitListsOk, PlacesOk;
  }

  /** A section that blocked its caller may go on to wake others. */
  lemma CallerThenIsr(m: Mem, mid: Mem, r: Mem, w: set<Status>, b: set<Status>)
    requires Caller(m, mid, w, b) && GoodIsrSection(mid, r, w)
    ensures Caller(m, r, w, b)
  {
    hide RunQueuesOk, WaitListsOk, PlacesOk;
  }

  /** A blocked caller whom the rest of the section cannot wake stays blocked. */
  lemma StaysBlocked(m: Mem, r: Mem, w: set<Status>, k: Cont)
    requires GoodIsrSection(m, r, w) && SendBlocked !in w && Blocked(m, k) && m.status[m.active] !in w
    ensures Blocked(r, k)
  {
    hide RunQueuesOk, WaitListsOk, PlacesOk, ListsKept;
  }

  /** What is good in an interrupt service routine is good in a running thread. */
  lemma IsrSectionIsGood(m: Mem, r: Mem, out: Out, w: set<Status>, b: set<Status>)
    requires GoodIsrSection(m, r, w) && ActiveRuns(m) && (out.Done? || out.SwitchTo?)
    ensures GoodSection(m, r, out, w, b)
  {
    hide RunQueuesOk, WaitListsOk, PlacesOk, Moves, ListsKept;
    Widen(m, r, w, {}, w, b);
  }

  /** Allowing more wake-ups and more ways to block. */
  lemma Widen(m: Mem, r: Mem, w: set<Status>, b: set<Status>, w': set<Status>, b': set<Status>)
    requires Caller(m, r, w, b) && w <= w' && b <= b'
    ensures Caller(m, r, w', b')
  {
    hide RunQueuesOk, WaitListsOk, PlacesOk;
  }

  /** What a runnable thread's wait_data holds does not matter. */
  lemma WaitDataIsFree(m: Mem, r: Mem, t: Pid, d: WaitData, w: set<Status>)
    requires GoodIsrSection(m, r, w) && t in r.prio && On(r.status, t)
    ensures GoodIsrSection(m, r.(wait := r.wait[t := d]), w)
  {
    hide RunQueuesOk, WaitListsOk, PlacesOk;
  }

  /** Nor does what the running caller's held before. */
  lemma CallersWaitDataIsFree(m: Mem, d: WaitData, r: Mem, w: set<Status>, b: set<Status>)
    requires ActiveRuns(m)
    ensures ActiveRuns(m.(wait := m.wait[m.active := d]))
    ensures Caller(m.(wait := m.wait[m.active := d]), r, w, b) ==> Caller(m, r, w, b)
  {
    hide RunQueuesOk, WaitListsOk, PlacesOk;
  }

  /** The same memory but for fields that no thread's blocking depends on. */
  lemma DataIsGood(m: Mem, r: Mem, w: set<Status>)
    requires ListsInv(m) && SameThreads(m, r)
    requires r.rq == m.rq && r.lists == m.lists && r.status == m.status && r.at == m.at && r.wait == m.wait
    requires (MutexBlocked in w || r.locked == m.locked) && (MboxBlocked in w || r.mbox == m.mbox)
    ensures GoodIsrSection(m, r, w)
  {
    hide RunQueuesOk, WaitListsOk, PlacesOk;
  }

  lemma PushIsGood(m: Mem, t: Pid, st: Status, w: set<Status>)
    requires ListsInv(m) && t in m.prio && m.status[t] in w && !On(m.status, t) && OnRunqueue(st) && m.at[t] == None
    ensures GoodIsrSection(m, SetStatus(m, t, st), w)
  {
    PushKeepsLists(m, t, st);
  }

  lemma PopIsGood(m: Mem, st: Status, w: set<Status>, b: set<Status>)
    requires ActiveRuns(m) && !OnRunqueue(st) && st in b
    ensures var r := SetStatus(m, m.active, st);
            Caller(m, r, w, b) && r.at[m.active] == None && r.status[m.active] == st
  {
    PopKeepsLists(m, m.active, st);
  }
}
