/** The kernel as it is written: thread control blocks, list heads and a bit
    cache updated in place. Each method is one interrupts-disabled section of
    the C code and is proved to do to the memory what the specification says. */
module KernelCode {
  import opened Names
  import opened Bits
  import opened Sequences
  import opened Links
  import opened CircularIndex
  import opened KernelState
  import S = Scheduler
  import F = ThreadFlags
  import Mutexes
  import M = Messages
  import B = Mailboxes
  import opened KernelLinks
  import opened Threads
  import opened Machine
  import opened KernelSteps

  class Kernel {
    const links: Memory
    const maxPid: nat
    const levels: nat
    var bitcache: nat
    var prio: map<Pid, nat>
    var status: map<Pid, Status>
    var flags: map<Pid, bv16>
    var wait: map<Pid, WaitData>
    var buf: map<Pid, Msg>
    var queue: map<Pid, MsgQueue>
    var mbox: map<nat, Mailbox>
    var active: Pid
    var csr: bool
    ghost var at: map<Pid, Option<ListId>>
    ghost var rq: seq<seq<Pid>>
    ghost var lists: map<ListId, seq<Pid>>
    ghost var locked: set<nat>

    ghost function Abs(): Mem
      reads this
    {
      Mem(prio, status, at, flags, wait, buf, queue, rq, lists, locked, mbox, active, csr, maxPid)
    }

    ghost predicate Valid()
      reads this, links
    {
      S.ListsInv(Abs()) && Linked(links.next, bitcache, prio, rq, lists, locked) && |rq| == levels
    }

    /** What kernel_init leaves: the idle thread, the main thread, which runs,
        and nothing in any wait list. Mailboxes are empty. */
    constructor (levels: nat, mainPrio: nat, pids: nat, mutexes: set<nat>, boxes: map<nat, Mailbox>)
      requires mainPrio + 1 < levels && forall b :: b in boxes ==> Avail(boxes[b].cib) == 0
      ensures fresh(links) && Valid() && BootedMem(Abs(), 2, 1, levels - 1, mainPrio) && mbox == boxes && maxPid == pids
      ensures forall x :: x in mutexes ==> WaitHead(MutexQueue(x)) in links.next
      ensures forall b :: b in boxes ==> WaitHead(Readers(b)) in links.next && WaitHead(Writers(b)) in links.next
    {
      hide S.ListsInv, Linked, BootNext, BootQueues, BootedMem, Or, BoxOk;
      links := new Memory(BootNext(levels, mainPrio, mutexes, boxes.Keys));
      this.levels, maxPid, active, csr := levels, pids, 2, false;
      bitcache := Or(Pow2(mainPrio), Pow2(levels - 1));
      prio, status := map[1 := levels - 1, 2 := mainPrio], map[1 := Pending, 2 := Running];
      flags, wait := map[1 := 0, 2 := 0], map[1 := NoData, 2 := NoData];
      buf, queue := map[1 := BLANK, 2 := BLANK], map[1 := NO_QUEUE, 2 := NO_QUEUE];
      mbox := boxes;
      at, lists, locked := map[1 := None, 2 := None], map[], {};
      rq := BootQueues(levels, mainPrio);
      new;
      BootMemory(levels, mainPrio, pids, boxes);
      BootLinked(levels, mainPrio, mutexes, boxes.Keys);
      BootHeads(levels, mainPrio, mutexes, boxes.Keys);
    }

    /** The links and the bit cache of a thread that joins its run queue. */
    method LinkIn(t: Pid)
      requires Valid() && t in prio && !S.On(status, t) && at[t] == None
      modifies this`bitcache, links
      ensures prio[t] < |rq| && Linked(links.next, bitcache, prio, rq[prio[t] := rq[prio[t]] + [t]], lists, locked)
      ensures links.next.Keys == old(links.next.Keys)
    {
      hide S.ListsInv, Linked, Ring, Only;
      ghost var m := Abs();
      var p := prio[t];
      ReadyToPush(links.next, bitcache, m, t);
      links.RPush(RqHead(p), Entry(t), Nodes(rq[p]));
      PushLinked(old(links.next), links.next, bitcache, m, t);
      SameKeys(old(links.next), links.next, RqHead(p), Nodes(rq[p]) + [Entry(t)]);
      bitcache := Or(bitcache, Pow2(p));
    }

    /** Those of the first thread of a run queue, which leaves. */
    method LinkOut(t: Pid)
      requires Valid() && t in prio && S.On(status, t) && S.AtHead(Abs(), t)
      modifies this`bitcache, links
      ensures prio[t] < |rq| && rq[prio[t]] != []
      ensures Linked(links.next, bitcache, prio, rq[prio[t] := rq[prio[t]][1..]], lists, locked)
      ensures links.next.Keys == old(links.next.Keys)
    {
      hide S.ListsInv, Linked, Ring, Only;
      ghost var m := Abs();
      var p := prio[t];
      ReadyToPop(links.next, bitcache, m, t);
      var _ := links.LPop(RqHead(p), Nodes(rq[p]));
      PopLinked(old(links.next), links.next, bitcache, m, t);
      SameKeys(old(links.next), links.next, RqHead(p), Nodes(rq[p]));
      NodesParts(rq[p], t);
      RingIsEmpty(links.next, RqHead(p), rq[p][1..]);
      if links.next[RqHead(p)] == Null {
        bitcache := AndNot(bitcache, Pow2(p));
      }
    }

    /** sched_set_status for a thread that becomes runnable. */
    method Enqueue(t: Pid, st: Status)
      requires Valid() && t in prio && at[t] == None && OnRunqueue(st) && !S.On(status, t)
      modifies this`bitcache, this`status, this`rq, links
      ensures Valid() && links.next.Keys == old(links.next.Keys)
      ensures Abs() == S.SetStatus(old(Abs()), t, st)
    {
      hide S.ListsInv, Linked, S.SetStatus, LevelsOk, ListsKeyed, RunQueuesKeyed;
      ShapeOfLists(Abs());
      StatusEffect(Abs(), t, st);
      LinkIn(t);
      rq, status := rq[prio[t] := rq[prio[t]] + [t]], status[t := st];
    }

    /** sched_set_status for the caller, or another thread first in its run queue, that is to block. */
    method Dequeue(t: Pid, st: Status)
      requires Valid() && t in prio && at[t] == None && !OnRunqueue(st) && S.On(status, t) && S.AtHead(Abs(), t)
      modifies this`bitcache, this`status, this`rq, links
      ensures Valid() && links.next.Keys == old(links.next.Keys)
      ensures Abs() == S.SetStatus(old(Abs()), t, st)
    {
      hide S.ListsInv, Linked, S.SetStatus, LevelsOk, ListsKeyed, RunQueuesKeyed;
      ShapeOfLists(Abs());
      StatusEffect(Abs(), t, st);
      LinkOut(t);
      rq, status := rq[prio[t] := rq[prio[t]][1..]], status[t := st];
    }

    /** sched_set_status */
    method SetStatus(t: Pid, st: Status)
      requires Valid() && t in prio && at[t] == None && (!OnRunqueue(st) && S.On(status, t) ==> S.AtHead(Abs(), t))
      modifies this`bitcache, this`status, this`rq, links
      ensures Valid() && links.next.Keys == old(links.next.Keys)
      ensures Abs() == S.SetStatus(old(Abs()), t, st)
    {
      hide S.ListsInv, Linked, S.SetStatus, LevelsOk, ListsKeyed, RunQueuesKeyed;
      ShapeOfLists(Abs());
      if OnRunqueue(st) && !OnRunqueue(status[t]) {
        Enqueue(t, st);
      } else if !OnRunqueue(st) && OnRunqueue(status[t]) {
        Dequeue(t, st);
      } else {
        StatusEffect(Abs(), t, st);
        status := status[t := st];
      }
    }

    /** The thread that sched_run picks. Some run queue is not empty, so the
        search for the lowest bit ends. */
    method PickNext() returns (next: Pid)
      requires Valid() && S.Runnable(Abs())
      ensures next == S.NextThread(Abs())
    {
      hide S.ListsInv, Linked, Ring, Bit, S.Best;
      LowestBitIsBest(links.next, bitcache, Abs());
      var nextrq := Lsb(bitcache);
      LowestIs(bitcache, nextrq, S.Best(rq));
      next := links.next[links.next[RqHead(nextrq)]].thread;
    }

    /** The part of sched_run behind the choice. */
    method Activate(next: Pid)
      requires Valid() && active in status && S.ListsInv(Activated(Abs(), next))
      modifies this`csr, this`status, this`active
      ensures Valid() && Abs() == Activated(old(Abs()), next)
    {
      hide S.ListsInv, Linked;
      csr := false;
      if active != next {
        if status[active] == Running {
          status := status[active := Pending];
        }
        status, active := status[next := Running], next;
      }
    }

    /** sched_run */
    method SchedRun()
      requires Valid() && S.Runnable(Abs())
      modifies this`csr, this`status, this`active
      ensures Valid() && Abs() == S.SchedRun(old(Abs()))
    {
      hide S.ListsInv, Linked, Shape, S.SchedRun, S.NextThread, S.Runnable, Activated;
      ReadyToRun(Abs());
      var next := PickNext();
      Activate(next);
    }

    /** sched_switch, for a caller whose section ended as `out`. Outside an
        interrupt the yield that may follow is a step of its own. */
    method SchedSwitch(out: Out, isr: bool)
      requires Valid() && active in prio && active in status
      modifies this`csr
      ensures Valid() && Abs() == SettleMem(old(Abs()), isr, out)
    {
      hide S.ListsInv, Linked;
      if out.SwitchTo? {
        if !OnRunqueue(status[active]) || prio[active] > out.prio {
          if isr {
            RequestSwitch();
          }
        }
      }
    }

    /** The section of thread_yield. */
    method RotateActive()
      requires Valid()
      modifies this`rq, links
      ensures Valid() && links.next.Keys == old(links.next.Keys)
      ensures Abs() == S.RotateActive(old(Abs()))
    {
      hide S.ListsInv, Linked, Ring, Only;
      ghost var m := Abs();
      ShapeOfLists(m);
      S.RotateKeepsLists(m);
      if OnRunqueue(status[active]) {
        var p := prio[active];
        LevelIsLinked(links.next, bitcache, m, p);
        links.LPopRPush(RqHead(p), Nodes(rq[p]));
        RotateLinked(old(links.next), links.next, bitcache, m, p);
        SameKeys(old(links.next), links.next, RqHead(p), []);
        rq := rq[p := Rotate(rq[p])];
      }
    }

    /** The walk of thread_add_to_list: past every thread of the same or a better priority. */
    method FindPlace(l: ListId, t: Pid) returns (place: Ref, ghost k: nat)
      requires t in prio && Good(links.next) && Keyed(Lst(lists, l), prio)
      requires Linear(links.next, WaitHead(l), Nodes(Lst(lists, l)))
      ensures k == Passed(Lst(lists, l), prio[t], prio)
      ensures place == if k == 0 then WaitHead(l) else Entry(Lst(lists, l)[k - 1])
    {
      hide Linear, Nodes;
      ghost var s := Lst(lists, l);
      place, k := WaitHead(l), 0;
      WalkAt(links.next, l, s, 0);
      while links.next[place] != Null
        invariant k <= |s| && place == (if k == 0 then WaitHead(l) else Entry(s[k - 1])) && place in links.next
        invariant links.next[place] == if k < |s| then Entry(s[k]) else Null
        invariant forall i :: 0 <= i < k ==> prio[s[i]] <= prio[t]
        decreases |s| - k
      {
        if prio[links.next[place].thread] > prio[t] {
          break;
        }
        place := links.next[place];
        k := k + 1;
        WalkAt(links.next, l, s, k);
      }
      PassedIs(s, prio[t], prio, k);
    }

    /** The links of a thread that joins a wait list. */
    method LinkWaiter(l: ListId, t: Pid)
      requires Valid() && t in prio && at[t] == None && !S.On(status, t) && WaitHead(l) in links.next
      requires l.MutexQueue? ==> l.mutex in locked && Lst(lists, l) != []
      modifies links
      ensures Keyed(Lst(lists, l), prio)
      ensures Linked(links.next, bitcache, prio, rq, lists[l := Insert(Lst(lists, l), t, prio)], locked)
      ensures links.next.Keys == old(links.next.Keys)
    {
      hide S.ListsInv, Linked, Linear, Only, LevelsOk, RunQueuesKeyed, Insert, Splice;
      ghost var m, s := Abs(), Lst(lists, l);
      ShapeOfLists(m);
      assert Keyed(s, prio);
      ReadyToJoin(links.next, bitcache, m, l, t);
      var place, k := FindPlace(l, t);
      links.ListAdd(place, Entry(t), WaitHead(l), Nodes(s), k);
      JoinLinked(old(links.next), links.next, bitcache, m, l, t, k);
      SameKeys(old(links.next), links.next, WaitHead(l), Splice(Nodes(s), k, Entry(t)));
    }

    /** thread_add_to_list */
    method AddToList(l: ListId, t: Pid)
      requires Valid() && t in prio && at[t] == None && !S.On(status, t) && S.Fits(status[t], l)
      requires WaitHead(l) in links.next
      requires (l.MsgWaiters? ==> l.pid in prio) && (l.MutexQueue? ==> l.mutex in locked && Lst(lists, l) != [])
      modifies this`at, this`lists, links
      ensures Valid() && links.next.Keys == old(links.next.Keys)
      ensures Abs() == S.AddToList(old(Abs()), l, t)
    {
      hide S.ListsInv, Linked, LevelsOk, RunQueuesKeyed, Insert;
      ghost var m := Abs();
      ShapeOfLists(m);
      S.AddKeepsLists(m, l, t);
      LinkWaiter(l, t);
      lists, at := lists[l := Insert(Lst(lists, l), t, prio)], at[t := Some(l)];
    }

    /** The links of a wait list whose first thread leaves. */
    method UnlinkFirst(l: ListId) returns (t: Pid)
      requires Valid() && Lst(lists, l) != []
      modifies links
      ensures t == Lst(lists, l)[0] && WaitHead(l) in links.next && links.next.Keys == old(links.next.Keys)
      ensures Linked(links.next, bitcache, prio, rq, lists[l := Lst(lists, l)[1..]], AfterLeaving(l, lists, locked))
    {
      hide S.ListsInv, Linked, Linear, Only, Nodes;
      ReadyToLeave(links.next, bitcache, Abs(), l);
      var head := links.ListRemoveHead(WaitHead(l), Nodes(Lst(lists, l)));
      LeaveLinked(old(links.next), links.next, bitcache, Abs(), l);
      t := head.thread;
    }

    /** list_remove_head on a wait list. The word of a mutex whose last waiter
        leaves is NULL, as if the mutex were free, until it is written. */
    method RemoveHead(l: ListId) returns (t: Pid)
      requires Valid() && Lst(lists, l) != []
      modifies this`at, this`lists, this`locked, links
      ensures Valid() && t == old(Lst(lists, l))[0] && WaitHead(l) in links.next
      ensures links.next.Keys == old(links.next.Keys)
      ensures Abs() == S.RemoveHead(old(Abs()), l).(locked := AfterLeaving(l, old(lists), old(locked)))
    {
      hide S.ListsInv, Linked, LevelsOk, RunQueuesKeyed, AfterLeaving;
      ShapeOfLists(Abs());
      LeaveKeepsLists(Abs(), l);
      t := UnlinkFirst(l);
      lists, at, locked := lists[l := Lst(lists, l)[1..]], at[t := None], AfterLeaving(l, lists, locked);
    }

    /** The word of a mutex that nobody waits for. */
    method WriteWord(x: nat, word: Ref)
      requires Valid() && WaitHead(MutexQueue(x)) in links.next && Lst(lists, MutexQueue(x)) == []
      requires (word == Null || word == Locked)
      modifies this`locked, links
      ensures Valid() && links.next.Keys == old(links.next.Keys)
      ensures locked == if word == Locked then old(locked) + {x} else old(locked) - {x}
    {
      hide S.ListsInv, Linked;
      WordLinked(links.next, bitcache, Abs(), x, word);
      SameListsInv(Abs(), Abs().(locked := if word == Locked then locked + {x} else locked - {x}));
      links.next := links.next[WaitHead(MutexQueue(x)) := word];
      locked := if word == Locked then locked + {x} else locked - {x};
    }

    /** The first waiter of a mutex replaces the sentinel. */
    method JoinFirst(x: nat)
      requires Valid() && active in prio && at[active] == None && status[active] == MutexBlocked
      requires WaitHead(MutexQueue(x)) in links.next && x in locked && Lst(lists, MutexQueue(x)) == []
      modifies this`at, this`lists, links
      ensures Valid() && links.next.Keys == old(links.next.Keys) && Shape(old(Abs()))
      ensures Abs() == S.AddToList(old(Abs()), MutexQueue(x), active)
    {
      hide S.ListsInv, Linked, LevelsOk, ListsKeyed, RunQueuesKeyed, Insert;
      var head := WaitHead(MutexQueue(x));
      ShapeOfLists(Abs());
      S.AddKeepsLists(Abs(), MutexQueue(x), active);
      FirstWaiter(links.next, bitcache, Abs(), x, active);
      links.next := links.next[head := Entry(active)];
      links.next := links.next[links.next[head] := Null];
      lists, at := lists[MutexQueue(x) := Insert([], active, prio)], at[active := Some(MutexQueue(x))];
    }

    /** Queueing in _mutex_lock. */
    method JoinMutex(x: nat)
      requires Valid() && active in prio && at[active] == None && status[active] == MutexBlocked
      requires WaitHead(MutexQueue(x)) in links.next && x in locked
      modifies this`at, this`lists, links
      ensures Valid() && links.next.Keys == old(links.next.Keys) && Shape(old(Abs()))
      ensures Abs() == S.AddToList(old(Abs()), MutexQueue(x), active)
    {
      hide S.ListsInv, Linked, LevelsOk, ListsKeyed, RunQueuesKeyed, S.AddToList;
      ShapeOfLists(Abs());
      WordTells(links.next, bitcache, Abs(), x);
      if links.next[WaitHead(MutexQueue(x))] == Locked {
        JoinFirst(x);
      } else {
        AddToList(MutexQueue(x), active);
      }
    }

    /** _mutex_lock */
    method MutexLock(x: nat, blocking: bool) returns (out: Out)
      requires Valid() && S.ActiveRuns(Abs()) && WaitHead(MutexQueue(x)) in links.next
      modifies this`bitcache, this`status, this`rq, this`at, this`lists, this`locked, links
      ensures Valid() && links.next.Keys == old(links.next.Keys)
      ensures Abs() == Mutexes.Lock(old(Abs()), x, blocking).0 && out == Mutexes.Lock(old(Abs()), x, blocking).1
    {
      hide S.ListsInv, Linked, LevelsOk, ListsKeyed, RunQueuesKeyed, Insert;
      ghost var m := Abs();
      ShapeOfLists(m);
      WordTells(links.next, bitcache, m, x);
      if links.next[WaitHead(MutexQueue(x))] == Null {
        WriteWord(x, Locked);
        out := Done(1);
      } else if blocking {
        UnlistedStatus(m, active);
        SetStatus(active, MutexBlocked);
        JoinMutex(x);
        out := YieldHigher(LockDone(x));
      } else {
        out := Done(0);
      }
    }

    /** list_remove_head on the list of a mailbox or of a receiver. */
    method TakeWaiter(l: ListId) returns (t: Option<Pid>)
      requires Valid() && WaitHead(l) in links.next && !l.MutexQueue?
      modifies this`at, this`lists, this`locked, links
      ensures Valid() && links.next.Keys == old(links.next.Keys) && Shape(old(Abs()))
      ensures old(Lst(lists, l)) == [] ==> t == None && Abs() == old(Abs())
      ensures old(Lst(lists, l)) != [] ==> t == Some(old(Lst(lists, l))[0]) && Abs() == S.RemoveHead(old(Abs()), l)
    {
      hide S.ListsInv, Linked, LevelsOk, ListsKeyed, RunQueuesKeyed;
      ShapeOfLists(Abs());
      HeadTells(links.next, bitcache, Abs(), l);
      if links.next[WaitHead(l)] == Null {
        t := None;
      } else {
        var head := RemoveHead(l);
        t := Some(head);
      }
    }

    /** The word after a waiter was taken: the mutex is not free. */
    method KeepLocked(x: nat)
      requires Valid() && WaitHead(MutexQueue(x)) in links.next
      modifies this`locked, links
      ensures Valid() && links.next.Keys == old(links.next.Keys) && Abs() == old(Abs()).(locked := old(locked) + {x})
    {
      hide S.ListsInv, Linked;
      WordTells(links.next, bitcache, Abs(), x);
      if links.next[WaitHead(MutexQueue(x))] == Null {
        WriteWord(x, Locked);
      }
    }

    /** The waiter that mutex_unlock wakes; the mutex stays locked. */
    method WakeNextOwner(x: nat) returns (t: Pid)
      requires Valid() && x in locked && Lst(lists, MutexQueue(x)) != []
      modifies this`bitcache, this`status, this`rq, this`at, this`lists, this`locked, links
      ensures Valid() && links.next.Keys == old(links.next.Keys) && Shape(old(Abs()))
      ensures t == old(Lst(lists, MutexQueue(x)))[0] && t in prio
      ensures Abs() == Mutexes.WakeFirst(old(Abs()), MutexQueue(x))
    {
      hide S.ListsInv, Linked, Shape, Mutexes.WakeFirst, S.RemoveHead, S.SetStatus, AfterLeaving;
      WakeIs(Abs(), x);
      t := RemoveHead(MutexQueue(x));
      SetStatus(t, Pending);
      KeepLocked(x);
    }

    /** mutex_unlock */
    method MutexUnlock(x: nat) returns (out: Out)
      requires Valid() && WaitHead(MutexQueue(x)) in links.next
      modifies this`bitcache, this`status, this`rq, this`at, this`lists, this`locked, links
      ensures Valid() && links.next.Keys == old(links.next.Keys) && Shape(old(Abs()))
      ensures Abs() == Mutexes.Unlock(old(Abs()), x).0 && out == Mutexes.Unlock(old(Abs()), x).1
    {
      hide S.ListsInv, Linked, LevelsOk, ListsKeyed, RunQueuesKeyed, Mutexes.WakeFirst;
      ghost var m := Abs();
      ShapeOfLists(m);
      WordTells(links.next, bitcache, m, x);
      var head := WaitHead(MutexQueue(x));
      if links.next[head] == Null {
        out := Done(0);
      } else if links.next[head] == Locked {
        WriteWord(x, Null);
        out := Done(0);
      } else {
        var t := WakeNextOwner(x);
        out := SwitchTo(prio[t]);
      }
    }

    /** mutex_unlock_and_sleep */
    method MutexUnlockAndSleep(x: nat) returns (out: Out)
      requires Valid() && S.ActiveRuns(Abs()) && WaitHead(MutexQueue(x)) in links.next
      modifies this`bitcache, this`status, this`rq, this`at, this`lists, this`locked, links
      ensures Valid() && links.next.Keys == old(links.next.Keys)
      ensures Abs() == Mutexes.UnlockAndSleep(old(Abs()), x).0 && out == Mutexes.UnlockAndSleep(old(Abs()), x).1
    {
      hide S.ListsInv, Linked, LevelsOk, ListsKeyed, RunQueuesKeyed, Mutexes.Unlock;
      MayUnlockAndSleep(Abs(), x);
      var _ := MutexUnlock(x);
      SetStatus(active, Sleeping);
      out := YieldHigher(Return);
    }

    /** thread_sleep, not in an interrupt. */
    method ThreadSleep() returns (out: Out)
      requires Valid() && S.ActiveRuns(Abs())
      modifies this`bitcache, this`status, this`rq, links
      ensures Valid() && links.next.Keys == old(links.next.Keys)
      ensures Abs() == Threads.Sleep(old(Abs())).0 && out == Threads.Sleep(old(Abs())).1
    {
      hide S.ListsInv, Linked, LevelsOk, ListsKeyed, RunQueuesKeyed;
      MayBlock(Abs());
      SetStatus(active, Sleeping);
      out := YieldHigher(Return);
    }

    /** thread_wakeup */
    method ThreadWakeup(t: Pid) returns (out: Out)
      requires Valid()
      modifies this`bitcache, this`status, this`rq, links
      ensures Valid() && links.next.Keys == old(links.next.Keys) && Shape(old(Abs()))
      ensures Abs() == Threads.Wakeup(old(Abs()), t).0 && out == Threads.Wakeup(old(Abs()), t).1
    {
      hide S.ListsInv, Linked, LevelsOk, ListsKeyed, RunQueuesKeyed;
      ShapeOfLists(Abs());
      if t in prio && status[t] == Sleeping {
        UnlistedStatus(Abs(), t);
        SetStatus(t, Running);
        out := SwitchTo(prio[t]);
      } else {
        out := Done(STATUS_NOT_FOUND);
      }
    }

    /** thread_flags_wake */
    method FlagsWake(t: Pid) returns (wakeup: bool)
      requires Valid() && t in prio
      modifies this`bitcache, this`status, this`rq, this`csr, links
      ensures Valid() && links.next.Keys == old(links.next.Keys) && Shape(old(Abs()))
      ensures Abs() == F.Wake(old(Abs()), t) && wakeup == F.Met(old(status[t]), flags[t], wait[t])
    {
      hide S.ListsInv, Linked, LevelsOk, ListsKeyed, RunQueuesKeyed, F.HasAny, F.HasAll;
      ShapeOfLists(Abs());
      var mask := if wait[t].Mask? then wait[t].mask else 0;
      wakeup := false;
      if status[t] == FlagBlockedAny {
        wakeup := F.HasAny(flags[t], mask);
      } else if status[t] == FlagBlockedAll {
        wakeup := F.HasAll(flags[t], mask);
      }
      if wakeup {
        UnlistedStatus(Abs(), t);
        SetStatus(t, Pending);
        SameListsInv(Abs(), Abs().(csr := true));
        csr := true;
      }
    }

    /** Setting flags, in thread_flags_set and on every message that waits. */
    method SetFlags(t: Pid, mask: bv16) returns (wakeup: bool)
      requires Valid() && t in prio
      modifies this`bitcache, this`status, this`rq, this`csr, this`flags, links
      ensures Valid() && links.next.Keys == old(links.next.Keys) && Shape(old(Abs()))
      ensures Abs() == F.SetAndWake(old(Abs()), t, mask)
      ensures wakeup == F.Met(old(status[t]), F.With(old(flags[t]), mask), wait[t])
    {
      hide S.ListsInv, Linked, LevelsOk, ListsKeyed, RunQueuesKeyed, F.Met, F.With;
      ShapeOfLists(Abs());
      SameListsInv(Abs(), Abs().(flags := flags[t := F.With(flags[t], mask)]));
      flags := flags[t := F.With(flags[t], mask)];
      wakeup := FlagsWake(t);
    }

    /** thread_flags_set */
    method ThreadFlagsSet(t: Pid, mask: bv16) returns (out: Out)
      requires Valid() && t in prio
      modifies this`bitcache, this`status, this`rq, this`csr, this`flags, links
      ensures Valid() && links.next.Keys == old(links.next.Keys) && Shape(old(Abs()))
      ensures Abs() == F.Set(old(Abs()), t, mask).0 && out == F.Set(old(Abs()), t, mask).1
    {
      hide S.ListsInv, Linked, LevelsOk, ListsKeyed, RunQueuesKeyed, F.Met, F.With, F.SetAndWake;
      var wakeup := SetFlags(t, mask);
      out := if wakeup then YieldHigher(Return) else Done(0);
    }

    /** _thread_flags_clear_atomic */
    method FlagsClear(t: Pid, mask: bv16) returns (cleared: bv16)
      requires Valid() && t in prio
      modifies this`flags
      ensures Valid() && Shape(old(Abs()))
      ensures Abs() == F.Clear(old(Abs()), t, mask).0 && cleared == F.Clear(old(Abs()), t, mask).1
    {
      hide S.ListsInv, Linked, LevelsOk, ListsKeyed, RunQueuesKeyed, F.Part, F.Without;
      ShapeOfLists(Abs());
      SameListsInv(Abs(), Abs().(flags := flags[t := F.Without(flags[t], mask)]));
      cleared := F.Part(flags[t], mask);
      flags := flags[t := F.Without(flags[t], mask)];
    }

    /** The caller's wait_data holds this mask. */
    method PointToMask(mask: bv16)
      requires Valid()
      modifies this`wait
      ensures Valid() && Abs() == old(Abs()).(wait := old(wait)[active := Mask(mask)])
    {
      hide S.ListsInv, Linked;
      SameListsInv(Abs(), Abs().(wait := wait[active := Mask(mask)]));
      wait := wait[active := Mask(mask)];
    }

    /** _thread_flags_wait */
    method FlagsWait(mask: bv16, st: Status, k: Cont) returns (out: Out)
      requires Valid() && S.ActiveRuns(Abs()) && !OnRunqueue(st)
      modifies this`bitcache, this`status, this`rq, this`wait, links
      ensures Valid() && links.next.Keys == old(links.next.Keys)
      ensures Abs() == F.WaitFor(old(Abs()), mask, st, k).0 && out == F.WaitFor(old(Abs()), mask, st, k).1
    {
      hide S.ListsInv, Linked, LevelsOk, ListsKeyed, RunQueuesKeyed, S.SetStatus;
      MayBlock(Abs());
      PointToMask(mask);
      SetStatus(active, st);
      out := YieldHigher(k);
    }

    /** _thread_flags_wait_any */
    method FlagsWaitAny(mask: bv16, k: Cont) returns (out: Out)
      requires Valid() && S.ActiveRuns(Abs())
      modifies this`bitcache, this`status, this`rq, this`wait, links
      ensures Valid() && links.next.Keys == old(links.next.Keys)
      ensures Abs() == F.WaitAny(old(Abs()), mask, k).0 && out == F.WaitAny(old(Abs()), mask, k).1
    {
      hide S.ListsInv, Linked, LevelsOk, ListsKeyed, RunQueuesKeyed, F.WaitFor, F.HasAny;
      MayBlock(Abs());
      if !F.HasAny(flags[active], mask) {
        out := FlagsWait(mask, FlagBlockedAny, k);
      } else {
        out := Done(0);
      }
    }

    /** The first section of thread_flags_wait_all. */
    method FlagsWaitAll(mask: bv16) returns (out: Out)
      requires Valid() && S.ActiveRuns(Abs())
      modifies this`bitcache, this`status, this`rq, this`wait, links
      ensures Valid() && links.next.Keys == old(links.next.Keys)
      ensures Abs() == F.WaitAll(old(Abs()), mask).0 && out == F.WaitAll(old(Abs()), mask).1
    {
      hide S.ListsInv, Linked, LevelsOk, ListsKeyed, RunQueuesKeyed, F.WaitFor, F.HasAll;
      MayBlock(Abs());
      if !F.HasAll(flags[active], mask) {
        out := FlagsWait(mask, FlagBlockedAll, ClearAll(mask));
      } else {
        out := Done(0);
      }
    }

    /** queue_msg */
    method QueueMsg(t: Pid, msg: Msg) returns (queued: bool)
      requires Valid() && t in prio
      modifies this`bitcache, this`status, this`rq, this`csr, this`flags, this`queue, links
      ensures Valid() && links.next.Keys == old(links.next.Keys) && Shape(old(Abs()))
      ensures (!queued ==> Abs() == old(Abs())) && Abs() == M.QueueMsg(old(Abs()), t, msg).0
      ensures queued == M.QueueMsg(old(Abs()), t, msg).1
    {
      hide S.ListsInv, Linked, LevelsOk, ListsKeyed, RunQueuesKeyed, F.SetAndWake, Offer;
      ShapeOfLists(Abs());
      var offered := Offer(queue[t], msg);
      queued := offered.1;
      if queued {
        SameListsInv(Abs(), Abs().(queue := queue[t := offered.0]));
        queue := queue[t := offered.0];
        var _ := SetFlags(t, F.MSG_WAITING);
      }
    }

    /** Copying a message to a thread that waits for one, and waking it. */
    method HandOver(t: Pid, msg: Msg)
      requires Valid() && t in prio && at[t] == None
      modifies this`bitcache, this`status, this`rq, this`buf, links
      ensures Valid() && links.next.Keys == old(links.next.Keys) && Shape(old(Abs()))
      ensures Abs() == M.HandOver(old(Abs()), t, msg)
    {
      hide S.ListsInv, Linked, LevelsOk, ListsKeyed, RunQueuesKeyed;
      ShapeOfLists(Abs());
      SameListsInv(Abs(), Abs().(buf := buf[t := msg]));
      buf := buf[t := msg];
      SetStatus(t, Pending);
    }

    /** The caller's wait_data points to this message. */
    method PointTo(msg: Msg)
      requires Valid()
      modifies this`wait, this`buf
      ensures Valid() && Abs() == old(Abs()).(wait := old(wait)[active := Buffer], buf := old(buf)[active := msg])
    {
      hide S.ListsInv, Linked;
      SameListsInv(Abs(), Abs().(wait := wait[active := Buffer], buf := buf[active := msg]));
      wait, buf := wait[active := Buffer], buf[active := msg];
    }

    /** The sender goes blocked: it joins the waiters of the receiver. */
    method ListSender(t: Pid, msg: Msg)
      requires Valid() && t in prio && at[active] == None && (status[active] == ReplyBlocked || S.ActiveRuns(Abs()))
      modifies this`bitcache, this`status, this`rq, this`at, this`lists, this`wait, this`buf, links
      ensures Valid() && links.next.Keys == old(links.next.Keys) && Shape(old(Abs()))
      ensures Abs() == M.Listed(old(Abs()), t, msg)
    {
      hide S.ListsInv, Linked, S.SetStatus, S.AddToList, LevelsOk, ListsKeyed, RunQueuesKeyed;
      ShapeOfLists(Abs());
      HasWaitHead(links.next, bitcache, Abs(), t);
      var st := if status[active] == ReplyBlocked then ReplyBlocked else SendBlocked;
      PointTo(msg);
      StatusFrame(Abs(), active, st);
      SetStatus(active, st);
      AddToList(MsgWaiters(t), active);
    }

    /** _msg_send, for a caller that runs or has just become ReplyBlocked. */
    method SendSection(t: Pid, msg: Msg, block: bool) returns (out: Out)
      requires Valid() && t != active && at[active] == None && (status[active] == ReplyBlocked || S.ActiveRuns(Abs()))
      modifies this`bitcache, this`status, this`rq, this`at, this`lists, this`csr, this`flags, this`wait, this`buf,
        this`queue, links
      ensures Valid() && links.next.Keys == old(links.next.Keys) && Shape(old(Abs()))
      ensures Abs() == M.SendSection(old(Abs()), t, msg, block).0 && out == M.SendSection(old(Abs()), t, msg, block).1
    {
      hide S.ListsInv, Linked, LevelsOk, ListsKeyed, RunQueuesKeyed, M.QueueMsg, M.Listed, M.HandOver, F.SetAndWake;
      ghost var m := Abs();
      ShapeOfLists(m);
      if t !in prio {
        out := Done(-1);
      } else if status[t] != ReceiveBlocked {
        var replying := status[active] == ReplyBlocked;
        var queued := QueueMsg(t, msg);
        if queued {
          out := if replying then YieldHigher(ReplyDone) else Done(1);
        } else if !block {
          out := Done(0);
        } else {
          ListSender(t, msg);
          var _ := SetFlags(t, F.MSG_WAITING);
          out := YieldHigher(if replying then ReplyDone else SendDone);
        }
      } else {
        var replying := status[active] == ReplyBlocked;
        UnlistedStatus(m, t);
        HandOver(t, msg);
        out := YieldHigher(if replying then ReplyDone else Return);
      }
    }

    /** msg_send and msg_try_send from a thread. */
    method MsgSend(t: Pid, msg: Msg, block: bool) returns (out: Out)
      requires Valid() && S.ActiveRuns(Abs())
      modifies this`bitcache, this`status, this`rq, this`at, this`lists, this`csr, this`flags, this`wait, this`buf,
        this`queue, links
      ensures Valid() && links.next.Keys == old(links.next.Keys)
      ensures Abs() == M.Send(old(Abs()), t, msg, block).0 && out == M.Send(old(Abs()), t, msg, block).1
    {
      hide S.ListsInv, Linked, LevelsOk, ListsKeyed, RunQueuesKeyed, M.QueueMsg, M.SendSection;
      MayBlock(Abs());
      var stamped := msg.(sender := active);
      if active == t {
        var queued := QueueMsg(t, stamped);
        out := Done(if queued then 1 else 0);
      } else {
        out := SendSection(t, stamped, block);
      }
    }

    /** msg_send_int */
    method MsgSendInt(t: Pid, msg: Msg) returns (out: Out)
      requires Valid()
      modifies this`bitcache, this`status, this`rq, this`csr, this`flags, this`buf, this`queue, links
      ensures Valid() && links.next.Keys == old(links.next.Keys) && Shape(old(Abs()))
      ensures Abs() == M.SendInt(old(Abs()), t, msg).0 && out == M.SendInt(old(Abs()), t, msg).1
    {
      hide S.ListsInv, Linked, LevelsOk, ListsKeyed, RunQueuesKeyed, M.QueueMsg, M.HandOver;
      ShapeOfLists(Abs());
      var stamped := msg.(sender := maxPid + 1);
      if t !in prio {
        out := Done(-1);
      } else if status[t] == ReceiveBlocked {
        UnlistedStatus(Abs(), t);
        HandOver(t, stamped);
        RequestSwitch();
        out := Done(1);
      } else {
        var queued := QueueMsg(t, stamped);
        out := Done(if queued then 1 else 0);
      }
    }

    /** sched_context_switch_request is set. */
    method RequestSwitch()
      requires Valid()
      modifies this`csr
      ensures Valid() && Abs() == old(Abs()).(csr := true)
    {
      hide S.ListsInv, Linked;
      SameListsInv(Abs(), Abs().(csr := true));
      csr := true;
    }

    /** msg_send_receive */
    method MsgSendReceive(t: Pid, msg: Msg) returns (out: Out)
      requires Valid() && S.ActiveRuns(Abs()) && t != active
      modifies this`bitcache, this`status, this`rq, this`at, this`lists, this`csr, this`flags, this`wait, this`buf,
        this`queue, links
      ensures Valid() && links.next.Keys == old(links.next.Keys)
      ensures Abs() == M.SendReceive(old(Abs()), t, msg).0 && out == M.SendReceive(old(Abs()), t, msg).1
    {
      hide S.ListsInv, Linked, LevelsOk, ListsKeyed, RunQueuesKeyed, S.SetStatus, M.SendSection;
      MayBlock(Abs());
      StatusFrame(Abs(), active, ReplyBlocked);
      SetStatus(active, ReplyBlocked);
      PointTo(msg.(sender := active));
      out := SendSection(t, msg.(sender := active), true);
    }

    /** msg_reply. The requester is in no list: it was received from. */
    method MsgReply(t: Pid, reply: Msg) returns (out: Out)
      requires Valid() && t in prio && (status[t] == ReplyBlocked ==> at[t] == None)
      modifies this`bitcache, this`status, this`rq, this`buf, links
      ensures Valid() && links.next.Keys == old(links.next.Keys) && Shape(old(Abs()))
      ensures Abs() == M.Reply(old(Abs()), t, reply).0 && out == M.Reply(old(Abs()), t, reply).1
    {
      hide S.ListsInv, Linked, LevelsOk, ListsKeyed, RunQueuesKeyed, M.HandOver;
      ShapeOfLists(Abs());
      if status[t] != ReplyBlocked {
        out := Done(-1);
      } else {
        HandOver(t, reply);
        out := SwitchTo(prio[t]);
      }
    }

    /** msg_reply_int */
    method MsgReplyInt(t: Pid, reply: Msg) returns (out: Out)
      requires Valid() && t in prio && (status[t] == ReplyBlocked ==> at[t] == None)
      modifies this`bitcache, this`status, this`rq, this`buf, this`csr, links
      ensures Valid() && links.next.Keys == old(links.next.Keys) && Shape(old(Abs()))
      ensures Abs() == M.ReplyInt(old(Abs()), t, reply).0 && out == M.ReplyInt(old(Abs()), t, reply).1
    {
      hide S.ListsInv, Linked, LevelsOk, ListsKeyed, RunQueuesKeyed, M.HandOver;
      ShapeOfLists(Abs());
      if status[t] != ReplyBlocked {
        out := Done(-1);
      } else {
        HandOver(t, reply);
        RequestSwitch();
        out := Done(1);
      }
    }

    /** The part of _msg_receive that takes the first waiting sender off the list. */
    method ReleaseSender(sender: Pid)
      requires Valid() && sender in prio && at[sender] == None
      modifies this`bitcache, this`status, this`rq, this`wait, links
      ensures Valid() && links.next.Keys == old(links.next.Keys) && Shape(old(Abs()))
      ensures old(status[sender]) == ReplyBlocked ==> Abs() == old(Abs())
      ensures old(status[sender]) != ReplyBlocked ==>
                Abs() == S.SetStatus(old(Abs()), sender, Pending).(wait := old(wait)[sender := NoData])
    {
      hide S.ListsInv, Linked, LevelsOk, ListsKeyed, RunQueuesKeyed;
      ShapeOfLists(Abs());
      if status[sender] != ReplyBlocked {
        SameListsInv(Abs(), Abs().(wait := wait[sender := NoData]));
        wait := wait[sender := NoData];
        SetStatus(sender, Pending);
      }
    }

    /** msg_init_queue */
    method MsgInitQueue(slots: seq<Msg>)
      requires Valid() && IsSize(|slots|) && |slots| < U32
      modifies this`queue
      ensures Valid() && Shape(old(Abs())) && Abs() == M.InitQueue(old(Abs()), slots)
    {
      hide S.ListsInv, Linked, LevelsOk, ListsKeyed, RunQueuesKeyed;
      ShapeOfLists(Abs());
      SameListsInv(Abs(), Abs().(queue := queue[active := NewQueue(slots)]));
      queue := queue[active := NewQueue(slots)];
    }

    /** The first part of _msg_receive: the oldest queued message, or else the
        caller's wait_data points to where one is to go. */
    method TakeQueued() returns (got: Option<Msg>)
      requires Valid()
      modifies this`queue, this`wait
      ensures Valid() && Shape(old(Abs())) && got == Take(old(queue)[active]).1
      ensures Abs() == LookedUp(old(Abs()))
    {
      hide S.ListsInv, Linked, LevelsOk, ListsKeyed, RunQueuesKeyed, Take;
      ShapeOfLists(Abs());
      var taken := Take(queue[active]);
      got := taken.1;
      SameListsInv(Abs(), LookedUp(Abs()));
      if got.Some? {
        queue := queue[active := taken.0];
      } else {
        wait := wait[active := Buffer];
      }
    }

    /** The message of the first waiter goes into the slot just freed, if there is one. */
    method Refill(got: bool, sender: Pid)
      requires Valid() && sender in prio
      modifies this`queue
      ensures Valid() && Shape(old(Abs()))
      ensures Abs() == if got then old(Abs()).(queue := old(queue)[active := Offer(old(queue)[active],
          buf[sender]).0]) else old(Abs())
    {
      hide S.ListsInv, Linked, LevelsOk, ListsKeyed, RunQueuesKeyed, Offer;
      ShapeOfLists(Abs());
      if got {
        var f := Offer(queue[active], buf[sender]).0;
        SameListsInv(Abs(), Abs().(queue := queue[active := f]));
        queue := queue[active := f];
      }
    }

    /** Taking the first waiting sender. */
    method PullSender(got: bool) returns (sender: Pid)
      requires Valid() && Lst(lists, MsgWaiters(active)) != []
      modifies this`bitcache, this`status, this`rq, this`at, this`lists, this`locked, this`wait, this`queue, links
      ensures Valid() && links.next.Keys == old(links.next.Keys) && Shape(old(Abs()))
      ensures sender == old(Lst(lists, MsgWaiters(active)))[0] && sender in prio && Abs() == Pulled(old(Abs()), got)
    {
      hide S.ListsInv, Linked, LevelsOk, ListsKeyed, RunQueuesKeyed, Keyed, Offer, S.SetStatus;
      ShapeOfLists(Abs());
      FirstIsThread(Abs(), MsgWaiters(active));
      sender := RemoveHead(MsgWaiters(active));
      Refill(got, sender);
      ReleaseSender(sender);
    }

    /** _msg_receive */
    method MsgReceive(block: bool) returns (out: Out, msg: Option<Msg>)
      requires Valid() && S.ActiveRuns(Abs())
      modifies this`bitcache, this`status, this`rq, this`at, this`lists, this`locked, this`wait, this`queue, links
      ensures Valid() && links.next.Keys == old(links.next.Keys)
      ensures Abs() == M.Receive(old(Abs()), block).0
      ensures out == M.Receive(old(Abs()), block).1 && msg == M.Receive(old(Abs()), block).2
    {
      hide S.ListsInv, Linked, LevelsOk, ListsKeyed, RunQueuesKeyed, Take, S.SetStatus, M.Receive, Pulled, LookedUp;
      ghost var m := Abs();
      MayBlock(m);
      ReceiveIs(m, block);
      var head := WaitHead(MsgWaiters(active));
      HasWaitHead(links.next, bitcache, m, active);
      HeadTells(links.next, bitcache, m, MsgWaiters(active));
      if !block && links.next[head] == Null && Take(queue[active]).1.None? {
        return Done(-1), None;
      }
      msg := TakeQueued();
      if links.next[head] == Null {
        if msg.Some? {
          out := Done(1);
        } else {
          SetStatus(active, ReceiveBlocked);
          out := YieldHigher(RecvDone);
        }
      } else {
        var before := status;
        var sender := PullSender(msg.Some?);
        msg := if msg.Some? then msg else Some(buf[sender]);
        var switch := before[sender] != ReplyBlocked && prio[sender] < levels - 1;
        out := if switch then SwitchTo(prio[sender]) else Done(1);
      }
    }

    /** thread_yield */
    method ThreadYield() returns (out: Out)
      requires Valid()
      modifies this`rq, links
      ensures Valid() && links.next.Keys == old(links.next.Keys) && Shape(old(Abs()))
      ensures Abs() == Threads.YieldThread(old(Abs())).0 && out == Threads.YieldThread(old(Abs())).1
    {
      hide S.ListsInv, Linked, LevelsOk, ListsKeyed, RunQueuesKeyed, S.RotateActive;
      ShapeOfLists(Abs());
      RotateActive();
      out := YieldHigher(Return);
    }

    /** _wake_waiter, for the first waiter of a mailbox. */
    method WakeWaiter(t: Pid) returns (out: Out)
      requires Valid() && t in prio && at[t] == None
      modifies this`bitcache, this`status, this`rq, links
      ensures Valid() && links.next.Keys == old(links.next.Keys) && Shape(old(Abs()))
      ensures Abs() == S.SetStatus(old(Abs()), t, Pending) && out == SwitchTo(prio[t])
    {
      hide S.ListsInv, Linked, LevelsOk, ListsKeyed, RunQueuesKeyed;
      ShapeOfLists(Abs());
      SetStatus(t, Pending);
      out := SwitchTo(prio[t]);
    }

    /** _wait */
    method WaitIn(l: ListId)
      requires Valid() && S.ActiveRuns(Abs()) && (l.Readers? || l.Writers?) && WaitHead(l) in links.next
      modifies this`bitcache, this`status, this`rq, this`at, this`lists, links
      ensures Valid() && links.next.Keys == old(links.next.Keys) && Abs() == B.WaitIn(old(Abs()), l)
    {
      hide S.ListsInv, Linked, LevelsOk, ListsKeyed, RunQueuesKeyed, S.SetStatus, S.AddToList;
      MayBlock(Abs());
      StatusFrame(Abs(), active, MboxBlocked);
      SetStatus(active, MboxBlocked);
      AddToList(l, active);
    }

    /** The end of _mbox_put, at once or behind the wait. */
    method MboxStore(b: nat, msg: Msg)
      requires Valid() && b in mbox
      modifies this`mbox
      ensures Valid() && Shape(old(Abs())) && Abs() == B.Store(old(Abs()), b, msg)
    {
      hide S.ListsInv, Linked, LevelsOk, ListsKeyed, RunQueuesKeyed, PutSlot;
      ShapeOfLists(Abs());
      SameListsInv(Abs(), Abs().(mbox := mbox[b := PutSlot(mbox[b], msg.(sender := active))]));
      mbox := mbox[b := PutSlot(mbox[b], msg.(sender := active))];
    }

    /** _mbox_put, up to its wait. */
    method MboxPut(b: nat, msg: Msg, blocking: bool) returns (out: Out)
      requires Valid() && (blocking ==> S.ActiveRuns(Abs())) && b in mbox && WaitHead(Readers(b)) in links.next
      requires WaitHead(Writers(b)) in links.next
      modifies this`bitcache, this`status, this`rq, this`at, this`lists, this`locked, this`buf, this`mbox, links
      ensures Valid() && links.next.Keys == old(links.next.Keys) && Shape(old(Abs()))
      ensures Abs() == B.PutMsg(old(Abs()), b, msg, blocking).0 && out == B.PutMsg(old(Abs()), b, msg, blocking).1
    {
      hide S.ListsInv, Linked, LevelsOk, ListsKeyed, RunQueuesKeyed, S.SetStatus, B.WaitIn, B.Store, Full;
      ghost var m := Abs();
      ShapeOfLists(m);
      var next := TakeWaiter(Readers(b));
      if next.Some? {
        FirstIsThread(m, Readers(b));
        SameListsInv(Abs(), Abs().(buf := buf[next.value := msg]));
        buf := buf[next.value := msg];
        out := WakeWaiter(next.value);
      } else if Full(mbox[b].cib) {
        if blocking {
          WaitIn(Writers(b));
          out := Yield(PutDone(b, msg));
        } else {
          out := Done(0);
        }
      } else {
        MboxStore(b, msg);
        out := Done(1);
      }
    }

    /** _mbox_get */
    method MboxGet(b: nat, blocking: bool) returns (out: Out, msg: Option<Msg>)
      requires Valid() && (blocking ==> S.ActiveRuns(Abs())) && b in mbox && WaitHead(Readers(b)) in links.next
      requires WaitHead(Writers(b)) in links.next
      modifies this`bitcache, this`status, this`rq, this`at, this`lists, this`locked, this`wait, this`mbox, links
      ensures Valid() && links.next.Keys == old(links.next.Keys) && Shape(old(Abs()))
      ensures Abs() == B.GetMsg(old(Abs()), b, blocking).0
      ensures out == B.GetMsg(old(Abs()), b, blocking).1 && msg == B.GetMsg(old(Abs()), b, blocking).2
    {
      hide S.ListsInv, Linked, LevelsOk, ListsKeyed, RunQueuesKeyed, S.SetStatus, S.AddToList, GetSlot, Avail;
      ghost var m := Abs();
      ShapeOfLists(m);
      msg := None;
      if Avail(mbox[b].cib) != 0 {
        var got := GetSlot(mbox[b]);
        SameListsInv(Abs(), Abs().(mbox := mbox[b := got.0]));
        mbox, msg := mbox[b := got.0], Some(got.1);
        var next := TakeWaiter(Writers(b));
        if next.Some? {
          FirstIsThread(m, Writers(b));
          out := WakeWaiter(next.value);
        } else {
          out := Done(1);
        }
      } else if blocking {
        SameListsInv(Abs(), Abs().(wait := wait[active := Buffer]));
        wait := wait[active := Buffer];
        WaitIn(Readers(b));
        out := Yield(GetDone(b));
      } else {
        out := Done(0);
      }
    }

    /** The scan of thread_create for a pid that is not in use. */
    method FindFreePid() returns (free: Option<Pid>)
      ensures free == FreePid(prio, KERNEL_PID_FIRST, maxPid)
    {
      var i := KERNEL_PID_FIRST;
      while i <= maxPid
        invariant FreePid(prio, i, maxPid) == FreePid(prio, KERNEL_PID_FIRST, maxPid)
      {
        if i !in prio {
          return Some(i);
        }
        i := i + 1;
      }
      free := None;
    }

    /** The link fields of a new thread control block. */
    method InitLinks(t: Pid, ghost priority: nat)
      requires Valid() && t !in prio
      modifies links
      ensures Linked(links.next, bitcache, prio[t := priority], rq, lists, locked)
      ensures old(links.next.Keys) <= links.next.Keys
    {
      hide S.ListsInv, Linked;
      NewcomerLinked(links.next, bitcache, Abs(), t, priority);
      links.next := links.next[Entry(t) := Null];
      links.next := links.next[WaitHead(MsgWaiters(t)) := Null];
    }

    /** The fields of the new thread control block that say nothing about lists. */
    method InitData(t: Pid, word: bv16)
      requires Valid()
      modifies this`flags, this`wait, this`buf, this`queue
      ensures Valid()
      ensures Abs() == old(Abs()).(flags := old(flags)[t := word], wait := old(wait)[t := NoData],
                                   buf := old(buf)[t := BLANK], queue := old(queue)[t := NO_QUEUE])
    {
      hide S.ListsInv, Linked;
      SameListsInv(Abs(), Abs().(flags := flags[t := word], wait := wait[t := NoData],
                                 buf := buf[t := BLANK], queue := queue[t := NO_QUEUE]));
      flags, wait, buf, queue := flags[t := word], wait[t := NoData], buf[t := BLANK], queue[t := NO_QUEUE];
    }

    /** The new thread control block. */
    method InitThread(t: Pid, priority: nat, word: bv16)
      requires Valid() && t !in prio && priority < levels
      modifies this`prio, this`status, this`at, this`flags, this`wait, this`buf, this`queue, links
      ensures Valid() && Shape(old(Abs())) && Abs() == Threads.AddThread(old(Abs()), t, priority, word)
      ensures old(links.next.Keys) <= links.next.Keys
    {
      hide S.ListsInv, Linked, Shape, Threads.AddThread;
      AddThreadIs(Abs(), t, priority, word);
      InitData(t, word);
      InitLinks(t, priority);
      prio, status, at := prio[t := priority], status[t := Stopped], at[t := None];
    }

    /** thread_create; `word` is what the flags word of the new thread happens to hold. */
    method ThreadCreate(priority: nat, sleeping: bool, lazy: bool, word: bv16) returns (out: Out)
      requires Valid()
      modifies this, links
      ensures Valid() && Shape(old(Abs())) && old(links.next.Keys) <= links.next.Keys
      ensures Abs() == Threads.Create(old(Abs()), priority, sleeping, lazy, word).0
      ensures out == Threads.Create(old(Abs()), priority, sleeping, lazy, word).1
    {
      hide S.ListsInv, Linked, LevelsOk, ListsKeyed, RunQueuesKeyed, S.SetStatus;
      ShapeOfLists(Abs());
      if priority >= levels {
        return Done(-EINVAL);
      }
      var free := FindFreePid();
      if free.None? {
        return Done(-EOVERFLOW);
      }
      var t := free.value;
      InitThread(t, priority, word);
      if sleeping {
        SetStatus(t, Sleeping);
        out := Done(t);
      } else {
        SetStatus(t, Pending);
        out := if lazy then Done(t) else SwitchTo(priority);
      }
    }

    /** The stopped thread is forgotten and this one runs. */
    method SwitchAway(next: Pid)
      requires Valid()
      requires S.ListsInv(Abs().(prio := prio - {active}, status := status[next := Running], active := next,
          csr := false))
      modifies this`prio, this`csr, this`status, this`active
      ensures Valid() && Abs() == old(Abs()).(prio := old(prio) - {old(active)}, status := old(status)[next := Running],
                                              active := next, csr := false)
    {
      hide S.ListsInv, Linked;
      FewerThreads(links.next, bitcache, Abs(), active);
      prio, csr, status, active := prio - {active}, false, status[next := Running], next;
    }

    /** sched_task_exit with the sched_run behind it. Nobody may be waiting to
        send to the thread, and another thread is runnable. */
    method TaskExit(ghost idle: Pid)
      requires Valid() && S.ActiveRuns(Abs()) && Lst(lists, MsgWaiters(active)) == []
      requires idle in prio && S.On(status, idle) && idle != active
      modifies this, links
      ensures Valid() && ExitOk(old(Abs())) && Abs() == Threads.Exit(old(Abs()))
      ensures links.next.Keys == old(links.next.Keys)
    {
      hide S.ListsInv, Linked, LevelsOk, ListsKeyed, RunQueuesKeyed, S.SetStatus, S.NextThread, ExitOk, Threads.Exit;
      MayBlock(Abs());
      ExitIs(Abs(), idle);
      SetStatus(active, Stopped);
      var next := PickNext();
      SwitchAway(next);
    }
  }
}
