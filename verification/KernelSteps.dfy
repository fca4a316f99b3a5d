/** What the assignments of each kernel section do to the lists as they lie in
    memory, and what they need of them. */
module KernelSteps {
  import opened Names
  import opened Bits
  import opened Sequences
  import opened Links
  import opened CircularIndex
  import opened KernelState
  import S = Scheduler
  import Mutexes
  import M = Messages
  import opened KernelLinks
  import opened Threads
  import opened Machine
  import opened Theorems

  /** Where the threads of a level, or of a list, are not. */
  lemma ElsewhereFromRunQueue(m: Mem, t: Pid)
    requires S.ListsInv(m) && t in m.prio
    ensures forall i, u {:trigger u in m.rq[i]} :: 0 <= i < |m.rq| && i != m.prio[t] && u in m.rq[i] ==>
              u !in m.rq[m.prio[t]] && u != t
    ensures forall l, u {:trigger u in Lst(m.lists, l)} :: u in Lst(m.lists, l) ==> u !in m.rq[m.prio[t]]
  {
  }

  lemma PushLinked(next: Nexts, next': Nexts, cache: nat, m: Mem, t: Pid)
    requires S.ListsInv(m) && Linked(next, cache, m.prio, m.rq, m.lists, m.locked)
    requires t in m.prio && !S.On(m.status, t) && m.at[t] == None
    requires var p := m.prio[t];
             Ring(next', RqHead(p), Nodes(m.rq[p]) + [Entry(t)])
                 && Only(next, next', RqHead(p), Nodes(m.rq[p]) + [Entry(t)])
    ensures var p := m.prio[t];
            Linked(next', Or(cache, Pow2(p)), m.prio, m.rq[p := m.rq[p] + [t]], m.lists, m.locked)
  {
    hide HasNodes, S.ListsInv, RqLinked, WaitLinked, CacheOk, Ring, Only, Nodes, Or, Pow2;
    ShapeOfLists(m);
    var p := m.prio[t];
    var q := m.rq[p] + [t];
    NodesParts(m.rq[p], t);
    ElsewhereAndNewcomer(m, t);
    SameKeys(next, next', RqHead(p), Nodes(q));
    SameNodes(next, next', m.prio);
    RqAfter(next, next', m.rq, p, q, q);
    WaitUntouched(next, next', p, q, m.lists, m.locked);
    CacheSet(cache, m.rq, p, q);
  }

  lemma ElsewhereAndNewcomer(m: Mem, t: Pid)
    requires S.ListsInv(m) && t in m.prio && !S.On(m.status, t) && m.at[t] == None
    ensures forall i, u {:trigger u in m.rq[i]} :: 0 <= i < |m.rq| && i != m.prio[t] && u in m.rq[i] ==>
              u !in m.rq[m.prio[t]] + [t]
    ensures forall l, u {:trigger u in Lst(m.lists, l)} :: u in Lst(m.lists, l) ==> u !in m.rq[m.prio[t]] + [t]
  {
    ElsewhereFromRunQueue(m, t);
  }

  lemma CacheAfterPop(cache: nat, rq: seq<seq<Pid>>, p: nat)
    requires CacheOk(cache, rq) && p < |rq| && rq[p] != []
    ensures CacheOk(if rq[p][1..] == [] then AndNot(cache, Pow2(p)) else cache, rq[p := rq[p][1..]])
  {
    if rq[p][1..] == [] { CacheClear(cache, rq, p); }
  }

  lemma PopLinked(next: Nexts, next': Nexts, cache: nat, m: Mem, t: Pid)
    requires S.ListsInv(m) && Linked(next, cache, m.prio, m.rq, m.lists, m.locked)
    requires t in m.prio && S.On(m.status, t) && S.AtHead(m, t)
    requires var p := m.prio[t];
             Ring(next', RqHead(p), Nodes(m.rq[p])[1..]) && Only(next, next', RqHead(p), Nodes(m.rq[p]))
    ensures var p := m.prio[t];
            Linked(next', if m.rq[p][1..] == [] then AndNot(cache, Pow2(p)) else cache, m.prio, m.rq[p := m.rq[p][1..]],
                   m.lists, m.locked)
  {
    var p := m.prio[t];
    NodesParts(m.rq[p], t);
    ElsewhereFromRunQueue(m, t);
    SameKeys(next, next', RqHead(p), Nodes(m.rq[p]));
    SameNodes(next, next', m.prio);
    hide HasNodes, S.ListsInv, RqLinked, WaitLinked, CacheOk, Ring, Only, Nodes, AndNot, Pow2;
    RqAfter(next, next', m.rq, p, m.rq[p], m.rq[p][1..]);
    WaitUntouched(next, next', p, m.rq[p], m.lists, m.locked);
    CacheAfterPop(cache, m.rq, p);
  }

  lemma ShapeOfLists(m: Mem)
    requires S.ListsInv(m)
    ensures Shape(m)
  {
  }

  /** sched_set_status, by what becomes of the run queue. */
  lemma StatusEffect(m: Mem, t: Pid, st: Status)
    requires S.ListsInv(m) && t in m.prio && m.at[t] == None
    requires (!OnRunqueue(st) && S.On(m.status, t) ==> S.AtHead(m, t))
    ensures var p := m.prio[t]; p < |m.rq| && S.ListsInv(S.SetStatus(m, t, st))
    ensures var p := m.prio[t];
            var rq := if OnRunqueue(st) && !S.On(m.status, t) then m.rq[p := m.rq[p] + [t]]
                      else if !OnRunqueue(st) && S.On(m.status, t) then m.rq[p := m.rq[p][1..]] else m.rq;
            S.SetStatus(m, t, st) == m.(rq := rq, status := m.status[t := st])
  {
    if OnRunqueue(st) && !S.On(m.status, t) {
      S.PushKeepsLists(m, t, st);
    } else if !OnRunqueue(st) && S.On(m.status, t) {
      S.PopKeepsLists(m, t, st);
    } else {
      SameQueueStatus(m, t, st);
      assert m.rq[m.prio[t] := m.rq[m.prio[t]]] == m.rq;
    }
    hide S.RunQueuesOk, S.WaitListsOk, S.PlacesOk;
  }

  lemma StatusFrame(m: Mem, t: Pid, st: Status)
    requires Shape(m) && t in m.prio
    ensures S.SetStatus(m, t, st).status == m.status[t := st] && S.SetStatus(m, t, st).at == m.at
    ensures S.SetStatus(m, t, st).lists == m.lists && S.SetStatus(m, t, st).locked == m.locked
  {
  }

  /** A change of status that moves nobody. */
  lemma SameQueueStatus(m: Mem, t: Pid, st: Status)
    requires S.ListsInv(m) && t in m.prio && (OnRunqueue(st) <==> S.On(m.status, t)) && m.at[t] == None
    ensures S.ListsInv(S.SetStatus(m, t, st))
  {
  }

  /** What clist_rpush needs. */
  lemma ReadyToPush(next: Nexts, cache: nat, m: Mem, t: Pid)
    requires S.ListsInv(m) && Linked(next, cache, m.prio, m.rq, m.lists, m.locked) && t in m.prio && !S.On(m.status, t)
    ensures Good(next) && m.prio[t] < |m.rq| && t in m.status && Ring(next, RqHead(m.prio[t]), Nodes(m.rq[m.prio[t]]))
    ensures Entry(t) in next && Entry(t) !in Nodes(m.rq[m.prio[t]])
  {
    NodesMembers(m.rq[m.prio[t]]);
    hide Ring;
  }

  /** What clist_lpop needs. */
  lemma ReadyToPop(next: Nexts, cache: nat, m: Mem, t: Pid)
    requires S.ListsInv(m) && Linked(next, cache, m.prio, m.rq, m.lists, m.locked) && t in m.prio && S.AtHead(m, t)
    ensures Good(next) && m.prio[t] < |m.rq| && t in m.status && Ring(next, RqHead(m.prio[t]), Nodes(m.rq[m.prio[t]]))
    ensures m.rq[m.prio[t]] != [] && Nodes(m.rq[m.prio[t]]) != []
  {
    hide Ring;
  }

  /** The head of a circle is NULL exactly if it is empty. */
  lemma RingIsEmpty(next: Nexts, list: Ref, s: seq<Pid>)
    requires Good(next) && Ring(next, list, Nodes(s))
    ensures list in next && (next[list] == Null <==> s == [])
  {
  }

  lemma LevelIsLinked(next: Nexts, cache: nat, m: Mem, p: nat)
    requires Linked(next, cache, m.prio, m.rq, m.lists, m.locked) && p < |m.rq|
    ensures Good(next) && Ring(next, RqHead(p), Nodes(m.rq[p]))
  {
    hide Ring;
  }

  lemma RotateLinked(next: Nexts, next': Nexts, cache: nat, m: Mem, p: nat)
    requires S.ListsInv(m) && Linked(next, cache, m.prio, m.rq, m.lists, m.locked) && p < |m.rq|
    requires Ring(next', RqHead(p), Rotate(Nodes(m.rq[p]))) && Only(next, next', RqHead(p), [])
    ensures Linked(next', cache, m.prio, m.rq[p := Rotate(m.rq[p])], m.lists, m.locked)
  {
    hide S.RunQueuesOk, S.WaitListsOk, S.PlacesOk, Ring, Only, WaitAt;
    NodesParts(m.rq[p], 0);
    assert Nodes([]) == [];
    RqAfter(next, next', m.rq, p, [], Rotate(m.rq[p]));
    WaitUntouched(next, next', p, [], m.lists, m.locked);
    SameKeys(next, next', RqHead(p), []);
    SameNodes(next, next', m.prio);
  }

  lemma SameKeys(next: Nexts, next': Nexts, list: Ref, s: seq<Ref>)
    requires Only(next, next', list, s)
    ensures next.Keys == next'.Keys
  {
  }

  /** The lowest bit of the cache is the best level, whose first thread is behind
      the last one. */
  lemma LowestBitIsBest(next: Nexts, cache: nat, m: Mem)
    requires S.ListsInv(m) && Linked(next, cache, m.prio, m.rq, m.lists, m.locked) && S.Runnable(m)
    ensures var p := S.Best(m.rq);
            && cache != 0 && Bit(cache, p) && (forall q :: 0 <= q < p ==> !Bit(cache, q))
            && RqHead(p) in next && next[RqHead(p)] in next && next[next[RqHead(p)]] == Entry(S.NextThread(m))
            && m.active in m.status && S.NextThread(m) in m.prio
  {
    hide S.WaitListsOk, S.PlacesOk, S.RunQueuesOk, WaitLinked;
    var p := S.Best(m.rq);
    S.NextThreadIsBest(m);
    ABitMakesNonZero(cache, p);
    assert Ring(next, RqHead(p), Nodes(m.rq[p]));
    var s := Nodes(m.rq[p]);
    assert next[s[|s| - 1]] == s[0];
  }

  lemma ReadyToRun(m: Mem)
    requires S.ListsInv(m) && S.Runnable(m)
    ensures Shape(m) && m.active in m.status && S.ListsInv(S.SchedRun(m))
    ensures S.SchedRun(m) == Activated(m, S.NextThread(m))
  {
    S.RunKeepsLists(m);
    hide S.ListsInv, LevelsOk, ListsKeyed, RunQueuesKeyed, S.NextThread;
  }

  /** The memory once `t` runs. */
  ghost function Activated(m: Mem, t: Pid): Mem {
    if t == m.active then m.(csr := false)
    else
      var before := if m.active in m.status && m.status[m.active] == Running then m.status[m.active := Pending]
                    else m.status;
      m.(csr := false, status := before[t := Running], active := t)
  }

  lemma LowestIs(v: nat, r: nat, p: nat)
    requires Bit(v, r) && (forall q :: 0 <= q < r ==> !Bit(v, q)) && Bit(v, p)
    requires (forall q :: 0 <= q < p ==> !Bit(v, q))
    ensures r == p
  {
  }

  // Wait lists

  /** What lies behind the first `k` nodes of a wait list. */
  lemma WalkAt(next: Nexts, l: ListId, s: seq<Pid>, k: nat)
    requires Linear(next, WaitHead(l), Nodes(s)) && k <= |s|
    ensures var place := if k == 0 then WaitHead(l) else Entry(s[k - 1]);
            place in next && next[place] == if k < |s| then Entry(s[k]) else Null
  {
    if k > 0 { assert next[Nodes(s)[k - 1]] == if k < |s| then Nodes(s)[k] else Null; }
  }

  lemma ReadyToJoin(next: Nexts, cache: nat, m: Mem, l: ListId, t: Pid)
    requires S.ListsInv(m) && Linked(next, cache, m.prio, m.rq, m.lists, m.locked) && t in m.prio && m.at[t] == None
    requires WaitHead(l) in next && (l.MutexQueue? ==> Lst(m.lists, l) != [])
    ensures Good(next) && Linear(next, WaitHead(l), Nodes(Lst(m.lists, l)))
    ensures Entry(t) in next && Entry(t) !in Nodes(Lst(m.lists, l)) && t !in Lst(m.lists, l)
  {
    NodesMembers(Lst(m.lists, l));
    hide Linear, S.RunQueuesOk, S.PlacesOk, RqLinked, CacheOk;
    assert WaitAt(next, l, Lst(m.lists, l), IsLocked(l, m.locked));
  }

  lemma JoinLinked(next: Nexts, next': Nexts, cache: nat, m: Mem, l: ListId, t: Pid, k: nat)
    requires S.ListsInv(m) && Linked(next, cache, m.prio, m.rq, m.lists, m.locked)
    requires t in m.prio && !S.On(m.status, t) && m.at[t] == None && WaitHead(l) in next
    requires (l.MutexQueue? ==> l.mutex in m.locked)
    requires Keyed(Lst(m.lists, l), m.prio) && k == Passed(Lst(m.lists, l), m.prio[t], m.prio)
    requires var s := Splice(Nodes(Lst(m.lists, l)), k, Entry(t));
             Linear(next', WaitHead(l), s) && Only(next, next', WaitHead(l), s)
    ensures Linked(next', cache, m.prio, m.rq, m.lists[l := Insert(Lst(m.lists, l), t, m.prio)], m.locked)
  {
    var s := Lst(m.lists, l);
    var q := Insert(s, t, m.prio);
    NodesParts(s, t);
    InsertMembers(s, t, m.prio);
    WaitersElsewhere(m, l, t);
    hide S.ListsInv, Linear, Only, Insert, RqLinked, WaitLinked, CacheOk, HasNodes, Nodes;
    RqUntouched(next, next', m.rq, l, q);
    WaitAfter(next, next', l, q, m.lists, m.locked, q, m.locked);
    SameKeys(next, next', WaitHead(l), Nodes(q));
    SameNodes(next, next', m.prio);
  }

  /** The threads of a wait list, and one more that is in none, are in no other. */
  lemma WaitersElsewhere(m: Mem, l: ListId, t: Pid)
    requires S.ListsInv(m) && t in m.prio && !S.On(m.status, t) && m.at[t] == None
    ensures forall i, u {:trigger u in m.rq[i]} :: 0 <= i < |m.rq| && u in m.rq[i] ==> u != t && u !in Lst(m.lists, l)
    ensures forall k, u {:trigger u in Lst(m.lists, k)} :: k != l && u in Lst(m.lists, k) ==>
              u != t && u !in Lst(m.lists, l)
  {
  }

  /** Who is locked while the head of a list is being taken. */
  function AfterLeaving(l: ListId, lists: map<ListId, seq<Pid>>, locked: set<nat>): set<nat> {
    if l.MutexQueue? && |Lst(lists, l)| == 1 then locked - {l.mutex} else locked
  }

  lemma ReadyToLeave(next: Nexts, cache: nat, m: Mem, l: ListId)
    requires S.ListsInv(m) && Linked(next, cache, m.prio, m.rq, m.lists, m.locked) && Lst(m.lists, l) != []
    ensures Good(next) && WaitHead(l) in next && Linear(next, WaitHead(l), Nodes(Lst(m.lists, l)))
    ensures Nodes(Lst(m.lists, l)) != [] && Nodes(Lst(m.lists, l))[0] == Entry(Lst(m.lists, l)[0])
  {
    hide Linear, S.ListsInv, RqLinked, CacheOk;
    assert WaitAt(next, l, Lst(m.lists, l), IsLocked(l, m.locked));
  }

  lemma LeaveLinked(next: Nexts, next': Nexts, cache: nat, m: Mem, l: ListId)
    requires S.ListsInv(m) && Linked(next, cache, m.prio, m.rq, m.lists, m.locked) && Lst(m.lists, l) != []
    requires Linear(next', WaitHead(l), Nodes(Lst(m.lists, l))[1..]) && Only(next, next', WaitHead(l), [])
    ensures next'.Keys == next.Keys
    ensures Linked(next', cache, m.prio, m.rq, m.lists[l := Lst(m.lists, l)[1..]], AfterLeaving(l, m.lists, m.locked))
  {
    hide S.ListsInv, Linear, Only, RqLinked, WaitLinked, CacheOk, HasNodes, Nodes;
    var s := Lst(m.lists, l);
    WaitersHaveHead(next, m, l);
    NodesParts(s, 0);
    NoNodes();
    SameKeys(next, next', WaitHead(l), []);
    SameNodes(next, next', m.prio);
    RqUntouched(next, next', m.rq, l, []);
    WaitAfter(next, next', l, [], m.lists, m.locked, s[1..], AfterLeaving(l, m.lists, m.locked));
  }

  lemma WaitersHaveHead(next: Nexts, m: Mem, l: ListId)
    requires WaitLinked(next, m.lists, m.locked) && Lst(m.lists, l) != []
    ensures WaitHead(l) in next && (l.MutexQueue? ==> l.mutex in m.locked)
  {
    hide WaitAt;
  }

  lemma NoNodes()
    ensures Nodes([]) == []
  {
  }

  lemma LeaveKeepsLists(m: Mem, l: ListId)
    requires S.ListsInv(m) && Lst(m.lists, l) != []
    ensures Shape(m) && S.ListsInv(S.RemoveHead(m, l).(locked := AfterLeaving(l, m.lists, m.locked)))
  {
    S.RemoveKeepsLists(m, l);
    hide S.RunQueuesOk, S.WaitListsOk, S.PlacesOk;
  }

  // The mutex word

  /** NULL, MUTEX_LOCKED or the first waiter. */
  lemma WordTells(next: Nexts, cache: nat, m: Mem, x: nat)
    requires Linked(next, cache, m.prio, m.rq, m.lists, m.locked) && WaitHead(MutexQueue(x)) in next
    ensures var word, w := next[WaitHead(MutexQueue(x))], Lst(m.lists, MutexQueue(x));
            && (word == Null <==> x !in m.locked) && (word == Locked <==> x in m.locked && w == [])
            && (w != [] ==> word == Entry(w[0])) && (x !in m.locked ==> w == [])
  {
    hide RqLinked, CacheOk, HasNodes;
    assert WaitAt(next, MutexQueue(x), Lst(m.lists, MutexQueue(x)), IsLocked(MutexQueue(x), m.locked));
  }

  lemma WordLinked(next: Nexts, cache: nat, m: Mem, x: nat, word: Ref)
    requires Linked(next, cache, m.prio, m.rq, m.lists, m.locked) && WaitHead(MutexQueue(x)) in next
    requires Lst(m.lists, MutexQueue(x)) == [] && (word == Null || word == Locked)
    ensures Linked(next[WaitHead(MutexQueue(x)) := word], cache, m.prio, m.rq, m.lists,
                   if word == Locked then m.locked + {x} else m.locked - {x})
  {
    var l, next' := MutexQueue(x), next[WaitHead(MutexQueue(x)) := word];
    var locked' := if word == Locked then m.locked + {x} else m.locked - {x};
    assert Nodes([]) == [];
    RqUntouched(next, next', m.rq, l, []);
    hide RqLinked, CacheOk, HasNodes;
    forall k | WaitHead(k) in next'
      ensures WaitAt(next', k, Lst(m.lists, k), IsLocked(k, locked'))
    {
      if k != l { WaitFrame(next, next', WaitHead(l), [], k, Lst(m.lists, k), IsLocked(k, m.locked)); }
    }
  }

  /** ListsInv does not speak of what threads and mailboxes hold. */
  lemma SameListsInv(m: Mem, r: Mem)
    requires S.ListsInv(m) && r.prio == m.prio && r.status == m.status && r.at == m.at && r.rq == m.rq
    requires r.lists == m.lists
    requires r.active == m.active && m.flags.Keys <= r.flags.Keys && m.wait.Keys <= r.wait.Keys
    requires m.buf.Keys <= r.buf.Keys && m.queue.Keys <= r.queue.Keys
    ensures S.ListsInv(r)
  {
    hide S.RunQueuesOk, S.WaitListsOk, S.PlacesOk;
  }

  lemma FirstWaiter(next: Nexts, cache: nat, m: Mem, x: nat, a: Pid)
    requires S.ListsInv(m) && Linked(next, cache, m.prio, m.rq, m.lists, m.locked) && WaitHead(MutexQueue(x)) in next
    requires a in m.prio && !S.On(m.status, a) && m.at[a] == None && x in m.locked && Lst(m.lists, MutexQueue(x)) == []
    ensures Entry(a) in next
    ensures Linked(next[WaitHead(MutexQueue(x)) := Entry(a)][Entry(a) := Null], cache, m.prio, m.rq,
                   m.lists[MutexQueue(x) := Insert([], a, m.prio)], m.locked)
  {
    var l, next' := MutexQueue(x), next[WaitHead(MutexQueue(x)) := Entry(a)][Entry(a) := Null];
    assert Insert([], a, m.prio) == [a];
    WaitersElsewhere(m, l, a);
    hide S.ListsInv, RqLinked, WaitLinked, CacheOk;
    OneNode(next, WaitHead(l), a);
    hide Linear, Only, HasNodes;
    RqUntouched(next, next', m.rq, l, [a]);
    WaitAfter(next, next', l, [a], m.lists, m.locked, [a], m.locked);
    SameKeys(next, next', WaitHead(l), Nodes([a]));
    SameNodes(next, next', m.prio);
  }

  lemma OneNode(next: Nexts, head: Ref, a: Pid)
    requires head in next && Entry(a) in next && head != Entry(a)
    ensures var next' := next[head := Entry(a)][Entry(a) := Null];
            Linear(next', head, Nodes([a])) && Only(next, next', head, Nodes([a]))
  {
    assert Nodes([a]) == [Entry(a)];
  }

  lemma FirstIsThread(m: Mem, l: ListId)
    requires S.ListsInv(m) && Lst(m.lists, l) != []
    ensures Lst(m.lists, l)[0] in m.prio
  {
    assert Keyed(Lst(m.lists, l), m.prio);
  }

  /** mutex_unlock takes the first waiter out and makes it runnable, with the
      mutex locked again. */
  lemma WakeIs(m: Mem, x: nat)
    requires S.ListsInv(m) && x in m.locked && Lst(m.lists, MutexQueue(x)) != []
    ensures var l, t := MutexQueue(x), Lst(m.lists, MutexQueue(x))[0];
            var left := S.RemoveHead(m, l).(locked := AfterLeaving(l, m.lists, m.locked));
            && Shape(m) && Shape(left) && t in left.prio && left.at[t] == None && left.status == m.status
            && !S.On(m.status, t)
            && S.SetStatus(left, t, Pending).(locked := left.locked + {x}) == Mutexes.WakeFirst(m, l)
            && S.SetStatus(left, t, Pending).locked == left.locked
  {
    var l := MutexQueue(x);
    FirstIsThread(m, l);
    S.RemoveKeepsLists(m, l);
    hide S.ListsInv, LevelsOk, ListsKeyed, RunQueuesKeyed, S.SetStatus;
    var left := AfterLeaving(l, m.lists, m.locked);
    S.SetStatusElsewhere(S.RemoveHead(m, l), Lst(m.lists, l)[0], Pending, left);
    assert left + {x} == m.locked;
  }

  /** The caller of a section can be taken off its run queue. */
  lemma MayBlock(m: Mem)
    requires S.ActiveRuns(m)
    ensures S.ListsInv(m) && Shape(m) && m.at[m.active] == None && S.AtHead(m, m.active) && S.On(m.status, m.active)
  {
    UnlistedStatus(m, m.active);
    hide S.RunQueuesOk, S.WaitListsOk, S.PlacesOk;
  }

  lemma MayUnlockAndSleep(m: Mem, x: nat)
    requires S.ActiveRuns(m)
    ensures Shape(m)
    ensures var r := Mutexes.Unlock(m, x).0;
            Shape(r) && r.active in r.prio && r.at[r.active] == None && S.AtHead(r, r.active)
  {
    hide S.ListsInv, Mutexes.Unlock;
    MayBlock(m);
    Mutexes.UnlockIsGood(m, x);
    MayBlock(Mutexes.Unlock(m, x).0);
  }

  lemma HasWaitHead(next: Nexts, cache: nat, m: Mem, t: Pid)
    requires Linked(next, cache, m.prio, m.rq, m.lists, m.locked) && t in m.prio
    ensures WaitHead(MsgWaiters(t)) in next
  {
    hide RqLinked, WaitLinked, CacheOk;
  }

  /** The memory once _msg_receive has looked into the queue. */
  ghost function LookedUp(m: Mem): Mem
    requires Shape(m)
  {
    var (f, got) := Take(m.queue[m.active]);
    if got.Some? then m.(queue := m.queue[m.active := f]) else m.(wait := m.wait[m.active := Buffer])
  }

  /** The memory once the first waiting sender was taken. */
  ghost function Pulled(m: Mem, got: bool): Mem
    requires Shape(m) && Lst(m.lists, MsgWaiters(m.active)) != []
  {
    var a, h := m.active, Lst(m.lists, MsgWaiters(m.active))[0];
    assert Keyed(Lst(m.lists, MsgWaiters(m.active)), m.prio);
    var q := if got then m.(queue := m.queue[a := Offer(m.queue[a], m.buf[h]).0]) else m;
    M.ReleaseSender(q, MsgWaiters(a))
  }

  /** _msg_receive in these two steps. */
  lemma ReceiveIs(m: Mem, block: bool)
    requires Shape(m)
    ensures var (r, out, msg) := M.Receive(m, block);
            var s, got := Lst(m.lists, MsgWaiters(m.active)), Take(m.queue[m.active]).1;
            && Shape(LookedUp(m)) && LookedUp(m).lists == m.lists && LookedUp(m).active == m.active
            && LookedUp(m).prio == m.prio && LookedUp(m).status == m.status && LookedUp(m).buf == m.buf
            && LookedUp(m).at == m.at && LookedUp(m).rq == m.rq
            && (s == [] && got.Some? ==> r == LookedUp(m) && out == Done(1) && msg == got)
            && (s == [] && got.None? && !block ==> r == m && out == Done(-1) && msg == None)
            && (s == [] && got.None? && block ==>
                  r == S.SetStatus(LookedUp(m), m.active, ReceiveBlocked) && out == YieldHigher(RecvDone)
                      && msg == None)
            && (s != [] ==>
                  && s[0] in m.prio && r == Pulled(LookedUp(m), got.Some?)
                  && msg == (if got.Some? then got else Some(m.buf[s[0]]))
                  && out == if m.status[s[0]] != ReplyBlocked && m.prio[s[0]] < |m.rq| - 1 then SwitchTo(m.prio[s[0]])
                      else Done(1))
  {
    hide Take, Offer, S.SetStatus, M.ReleaseSender, LevelsOk, RunQueuesKeyed;
    var a, s, taken := m.active, Lst(m.lists, MsgWaiters(m.active)), Take(m.queue[m.active]);
    if s != [] {
      assert Keyed(s, m.prio);
      var f := M.Refilled(m.queue[a], m.buf[s[0]]);
      assert taken.1.Some? ==> m.queue[a := taken.0][a := f] == m.queue[a := f] && m.wait[a := m.wait[a]] == m.wait;
      assert taken.1.None? ==> m.queue[a := m.queue[a]] == m.queue;
    }
  }

  /** A pid that is not in use is in no list, and nobody waits to send to it. */
  lemma NewcomerElsewhere(m: Mem, t: Pid)
    requires S.ListsInv(m) && t !in m.prio
    ensures forall i, u {:trigger u in m.rq[i]} :: 0 <= i < |m.rq| && u in m.rq[i] ==> u != t
    ensures forall l, u {:trigger u in Lst(m.lists, l)} :: u in Lst(m.lists, l) ==> u != t
    ensures Lst(m.lists, MsgWaiters(t)) == []
  {
    DeadHaveNoSenders(m, t);
  }

  lemma NewcomerRings(next: Nexts, next': Nexts, rq: seq<seq<Pid>>, t: Pid)
    requires RqLinked(next, rq) && next' == next[Entry(t) := Null][WaitHead(MsgWaiters(t)) := Null]
    requires forall i, u {:trigger u in rq[i]} :: 0 <= i < |rq| && u in rq[i] ==> u != t
    ensures RqLinked(next', rq)
  {
    forall p | 0 <= p < |rq|
      ensures Ring(next', RqHead(p), Nodes(rq[p]))
    {
      NodesMembers(rq[p]);
      assert Ring(next, RqHead(p), Nodes(rq[p]));
    }
  }

  lemma NewcomerWaits(next: Nexts, next': Nexts, lists: map<ListId, seq<Pid>>, locked: set<nat>, t: Pid)
    requires WaitLinked(next, lists, locked) && next' == next[Entry(t) := Null][WaitHead(MsgWaiters(t)) := Null]
    requires forall l, u {:trigger u in Lst(lists, l)} :: u in Lst(lists, l) ==> u != t
    requires Lst(lists, MsgWaiters(t)) == []
    ensures WaitLinked(next', lists, locked)
  {
    forall l | WaitHead(l) in next'
      ensures WaitAt(next', l, Lst(lists, l), IsLocked(l, locked))
    {
      NodesMembers(Lst(lists, l));
      if l != MsgWaiters(t) { assert WaitAt(next, l, Lst(lists, l), IsLocked(l, locked)); }
    }
  }

  lemma NewcomerLinked(next: Nexts, cache: nat, m: Mem, t: Pid, prio: nat)
    requires S.ListsInv(m) && Linked(next, cache, m.prio, m.rq, m.lists, m.locked) && t !in m.prio
    ensures Linked(next[Entry(t) := Null][WaitHead(MsgWaiters(t)) := Null], cache, m.prio[t := prio], m.rq, m.lists,
        m.locked)
  {
    hide S.ListsInv, RqLinked, WaitLinked, CacheOk, HasNodes;
    NewcomerElsewhere(m, t);
    var next' := next[Entry(t) := Null][WaitHead(MsgWaiters(t)) := Null];
    NewcomerRings(next, next', m.rq, t);
    NewcomerWaits(next, next', m.lists, m.locked, t);
    NewcomerNodes(next, next', m.prio, t, prio);
  }

  lemma NewcomerNodes(next: Nexts, next': Nexts, prio: map<Pid, nat>, t: Pid, p: nat)
    requires HasNodes(next, prio) && next' == next[Entry(t) := Null][WaitHead(MsgWaiters(t)) := Null]
    ensures HasNodes(next', prio[t := p])
  {
  }

  lemma AddThreadIs(m: Mem, t: Pid, prio: nat, flags: bv16)
    requires S.ListsInv(m) && t !in m.prio && prio < |m.rq|
    ensures Shape(m) && S.ListsInv(Threads.AddThread(m, t, prio, flags))
    ensures var r := Threads.AddThread(m, t, prio, flags);
            r == Mem(m.prio[t := prio], m.status[t := Stopped], m.at[t := None], m.flags[t := flags],
                m.wait[t := NoData],
                     m.buf[t := BLANK], m.queue[t := NO_QUEUE], m.rq, m.lists, m.locked, m.mbox, m.active, m.csr,
                         m.maxPid)
  {
    Threads.AddThreadKeepsLists(m, t, prio, flags);
    hide S.RunQueuesOk, S.WaitListsOk, S.PlacesOk;
  }

  /** Exit, as a change of the memory that sched_set_status leaves. */
  lemma ExitIs(m: Mem, idle: Pid)
    requires S.ActiveRuns(m) && Lst(m.lists, MsgWaiters(m.active)) == []
    requires idle in m.prio && S.On(m.status, idle) && idle != m.active
    ensures ExitOk(m) && S.ListsInv(Threads.Exit(m))
    ensures var r := S.SetStatus(m, m.active, Stopped);
            && S.Runnable(r)
            && Threads.Exit(m) == r.(prio := r.prio - {m.active}, status := r.status[S.NextThread(r) := Running],
                                     active := S.NextThread(r), csr := false)
  {
    Threads.ExitKeepsLists(m, idle);
    hide S.ListsInv, S.SetStatus, S.NextThread;
  }

  lemma FewerThreads(next: Nexts, cache: nat, m: Mem, t: Pid)
    requires Linked(next, cache, m.prio, m.rq, m.lists, m.locked)
    ensures Linked(next, cache, m.prio - {t}, m.rq, m.lists, m.locked)
  {
    hide RqLinked, WaitLinked, CacheOk;
  }

  /** The head of any other list is NULL exactly if nobody waits there. */
  lemma HeadTells(next: Nexts, cache: nat, m: Mem, l: ListId)
    requires Linked(next, cache, m.prio, m.rq, m.lists, m.locked) && WaitHead(l) in next && !l.MutexQueue?
    ensures Good(next) && (next[WaitHead(l)] == Null <==> Lst(m.lists, l) == [])
  {
    hide RqLinked, CacheOk, HasNodes;
    assert WaitAt(next, l, Lst(m.lists, l), IsLocked(l, m.locked));
  }

  // The first memory

  function BootQueues(levels: nat, mainPrio: nat): (rq: seq<seq<Pid>>)
    requires mainPrio + 1 < levels
    ensures |rq| == levels && rq[mainPrio] == [2] && rq[levels - 1] == [1]
    ensures forall p :: 0 <= p < levels && p != mainPrio && p != levels - 1 ==> rq[p] == []
  {
    seq(levels, p => if p == mainPrio then [2] else if p == levels - 1 then [1] else [])
  }

  function BootKeys(levels: nat, mutexes: set<nat>, boxes: set<nat>): set<Ref> {
    (set p | 0 <= p < levels :: RqHead(p)) + (set x | x in mutexes :: WaitHead(MutexQueue(x)))
    + (set b | b in boxes :: WaitHead(Readers(b))) + (set b | b in boxes :: WaitHead(Writers(b)))
    + {WaitHead(MsgWaiters(1)), WaitHead(MsgWaiters(2)), Entry(1), Entry(2)}
  }

  function BootNext(levels: nat, mainPrio: nat, mutexes: set<nat>, boxes: set<nat>): Nexts
    requires mainPrio + 1 < levels
  {
    map r | r in BootKeys(levels, mutexes, boxes) ::
      if r == RqHead(mainPrio) || r == Entry(2) then Entry(2)
      else if r == RqHead(levels - 1) || r == Entry(1) then Entry(1) else Null
  }

  lemma BootRings(levels: nat, mainPrio: nat, mutexes: set<nat>, boxes: set<nat>)
    requires mainPrio + 1 < levels
    ensures RqLinked(BootNext(levels, mainPrio, mutexes, boxes), BootQueues(levels, mainPrio))
  {
    var next, rq := BootNext(levels, mainPrio, mutexes, boxes), BootQueues(levels, mainPrio);
    forall p | 0 <= p < levels
      ensures Ring(next, RqHead(p), Nodes(rq[p]))
    {
      assert RqHead(p) in BootKeys(levels, mutexes, boxes);
      assert rq[p] == [] || rq[p] == [1] || rq[p] == [2];
    }
  }

  lemma BootWaits(levels: nat, mainPrio: nat, mutexes: set<nat>, boxes: set<nat>)
    requires mainPrio + 1 < levels
    ensures WaitLinked(BootNext(levels, mainPrio, mutexes, boxes), map[], {})
  {
  }

  lemma BootCache(levels: nat, mainPrio: nat)
    requires mainPrio + 1 < levels
    ensures CacheOk(Or(Pow2(mainPrio), Pow2(levels - 1)), BootQueues(levels, mainPrio))
  {
    hide Or, Bit, Pow2;
    var rq := BootQueues(levels, mainPrio);
    forall p | 0 <= p < levels
      ensures Bit(Or(Pow2(mainPrio), Pow2(levels - 1)), p) <==> rq[p] != []
    {
      BitOfOr(Pow2(mainPrio), Pow2(levels - 1), p);
      BitOfPow2(mainPrio, p);
      BitOfPow2(levels - 1, p);
    }
  }

  lemma BootGood(levels: nat, mainPrio: nat, mutexes: set<nat>, boxes: set<nat>)
    requires mainPrio + 1 < levels
    ensures var next := BootNext(levels, mainPrio, mutexes, boxes);
            && Good(next) && Entry(1) in next && Entry(2) in next
            && WaitHead(MsgWaiters(1)) in next && WaitHead(MsgWaiters(2)) in next
  {
  }

  lemma BootLinked(levels: nat, mainPrio: nat, mutexes: set<nat>, boxes: set<nat>)
    requires mainPrio + 1 < levels
    ensures Linked(BootNext(levels, mainPrio, mutexes, boxes), Or(Pow2(mainPrio), Pow2(levels - 1)),
                   map[1 := levels - 1, 2 := mainPrio], BootQueues(levels, mainPrio), map[], {})
  {
    hide RqLinked, WaitLinked, CacheOk, Or, Pow2, BootQueues, BootNext, Good;
    BootGood(levels, mainPrio, mutexes, boxes);
    BootRings(levels, mainPrio, mutexes, boxes);
    BootWaits(levels, mainPrio, mutexes, boxes);
    BootCache(levels, mainPrio);
  }

  ghost function BootMem(levels: nat, mainPrio: nat, pids: nat, boxes: map<nat, Mailbox>): Mem
    requires mainPrio + 1 < levels
  {
    Mem(map[1 := levels - 1, 2 := mainPrio], map[1 := Pending, 2 := Running], map[1 := None, 2 := None],
        map[1 := 0, 2 := 0], map[1 := NoData, 2 := NoData], map[1 := BLANK, 2 := BLANK],
        map[1 := NO_QUEUE, 2 := NO_QUEUE], BootQueues(levels, mainPrio), map[], {}, boxes, 2, false, pids)
  }

  lemma BootMemory(levels: nat, mainPrio: nat, pids: nat, boxes: map<nat, Mailbox>)
    requires mainPrio + 1 < levels && forall b :: b in boxes ==> Avail(boxes[b].cib) == 0
    ensures var m := BootMem(levels, mainPrio, pids, boxes);
            BootedMem(m, 2, 1, levels - 1, mainPrio) && S.ListsInv(m)
  {
    hide BootQueues, Avail;
    BootKeepsLists(BootMem(levels, mainPrio, pids, boxes), 2, 1, levels - 1, mainPrio);
  }

  lemma BootHeads(levels: nat, mainPrio: nat, mutexes: set<nat>, boxes: set<nat>)
    requires mainPrio + 1 < levels
    ensures var next := BootNext(levels, mainPrio, mutexes, boxes);
            && (forall x :: x in mutexes ==> WaitHead(MutexQueue(x)) in next)
            && (forall b :: b in boxes ==> WaitHead(Readers(b)) in next && WaitHead(Writers(b)) in next)
  {
  }
}
