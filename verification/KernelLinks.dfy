/** How the kernel's lists lie in memory: one circle per run queue, one linear
    list per wait list, the mutex word, and the bit cache. */
module KernelLinks {
  import opened Names
  import opened Bits
  import opened Sequences
  import opened Links
  import opened KernelState

  /** The link fields of these threads. */
  function Nodes(s: seq<Pid>): seq<Ref> {
    seq(|s|, i requires 0 <= i < |s| => Entry(s[i]))
  }

  lemma NodesMembers(s: seq<Pid>)
    ensures forall t :: Entry(t) in Nodes(s) <==> t in s
    ensures forall r :: r in Nodes(s) ==> r.Entry?
    ensures NoDup(s) ==> NoDup(Nodes(s))
  {
    forall t
      ensures Entry(t) in Nodes(s) <==> t in s
    {
      if t in s {
        var i :| 0 <= i < |s| && s[i] == t;
        assert Nodes(s)[i] == Entry(t);
      }
    }
  }

  lemma NodesParts(s: seq<Pid>, t: Pid)
    ensures Nodes(s + [t]) == Nodes(s) + [Entry(t)]
    ensures s != [] ==> Nodes(s[1..]) == Nodes(s)[1..]
    ensures Nodes(Rotate(s)) == Rotate(Nodes(s))
    ensures forall k :: 0 <= k <= |s| ==> Nodes(Splice(s, k, t)) == Splice(Nodes(s), k, Entry(t))
  {
  }

  // Run queues

  ghost predicate RqLinked(next: Nexts, rq: seq<seq<Pid>>) {
    forall p :: 0 <= p < |rq| ==> Ring(next, RqHead(p), Nodes(rq[p]))
  }

  lemma RqAfter(next: Nexts, next': Nexts, rq: seq<seq<Pid>>, p: nat, touched: seq<Pid>, q: seq<Pid>)
    requires RqLinked(next, rq) && p < |rq| && Only(next, next', RqHead(p), Nodes(touched))
    requires Ring(next', RqHead(p), Nodes(q))
    requires forall i, t {:trigger t in rq[i]} :: 0 <= i < |rq| && i != p && t in rq[i] ==> t !in touched
    ensures RqLinked(next', rq[p := q])
  {
    NodesMembers(touched);
    hide Ring, Only;
    forall i | 0 <= i < |rq|
      ensures Ring(next', RqHead(i), Nodes(rq[p := q][i]))
    {
      if i != p {
        NodesMembers(rq[i]);
        RingFrame(next, next', RqHead(p), Nodes(touched), RqHead(i), Nodes(rq[i]));
      }
    }
  }

  lemma RqUntouched(next: Nexts, next': Nexts, rq: seq<seq<Pid>>, l: ListId, touched: seq<Pid>)
    requires RqLinked(next, rq) && Only(next, next', WaitHead(l), Nodes(touched))
    requires forall i, t {:trigger t in rq[i]} :: 0 <= i < |rq| && t in rq[i] ==> t !in touched
    ensures RqLinked(next', rq)
  {
    NodesMembers(touched);
    hide Ring, Only;
    forall i | 0 <= i < |rq|
      ensures Ring(next', RqHead(i), Nodes(rq[i]))
    {
      NodesMembers(rq[i]);
      RingFrame(next, next', WaitHead(l), Nodes(touched), RqHead(i), Nodes(rq[i]));
    }
  }

  // Wait lists

  /** A locked mutex without waiters holds MUTEX_LOCKED; every other wait list
      is a linear list. */
  ghost predicate WaitAt(next: Nexts, l: ListId, s: seq<Pid>, locked: bool) {
    if s == [] && locked then WaitHead(l) in next && next[WaitHead(l)] == Locked
    else Linear(next, WaitHead(l), Nodes(s))
  }

  predicate IsLocked(l: ListId, locked: set<nat>) {
    l.MutexQueue? && l.mutex in locked
  }

  ghost predicate WaitLinked(next: Nexts, lists: map<ListId, seq<Pid>>, locked: set<nat>) {
    && (forall l :: WaitHead(l) in next ==> WaitAt(next, l, Lst(lists, l), IsLocked(l, locked)))
    && (forall l :: Lst(lists, l) != [] ==> WaitHead(l) in next && (l.MutexQueue? ==> IsLocked(l, locked)))
  }

  lemma WaitFrame(next: Nexts, next': Nexts, list: Ref, touched: seq<Pid>, l: ListId, s: seq<Pid>, locked: bool)
    requires WaitAt(next, l, s, locked) && Only(next, next', list, Nodes(touched)) && list != WaitHead(l)
    requires !list.Entry?
    requires forall t :: t in s ==> t !in touched
    ensures WaitAt(next', l, s, locked)
  {
    NodesMembers(touched);
    NodesMembers(s);
    if !(s == [] && locked) {
      hide Only, Linear;
      LinearFrame(next, next', list, Nodes(touched), WaitHead(l), Nodes(s));
    }
  }

  lemma WaitUntouched(next: Nexts, next': Nexts, p: nat, touched: seq<Pid>, lists: map<ListId, seq<Pid>>,
                      locked: set<nat>)
    requires WaitLinked(next, lists, locked) && Only(next, next', RqHead(p), Nodes(touched))
    requires forall l, t {:trigger t in Lst(lists, l)} :: t in Lst(lists, l) ==> t !in touched
    ensures WaitLinked(next', lists, locked)
  {
    hide WaitAt;
    assert next.Keys == next'.Keys;
    forall l | WaitHead(l) in next'
      ensures WaitAt(next', l, Lst(lists, l), IsLocked(l, locked))
    {
      assert WaitHead(l) in next;
      WaitFrame(next, next', RqHead(p), touched, l, Lst(lists, l), IsLocked(l, locked));
    }
  }

  lemma WaitAfter(next: Nexts, next': Nexts, l: ListId, touched: seq<Pid>, lists: map<ListId, seq<Pid>>,
                  locked: set<nat>,
                  s: seq<Pid>, locked': set<nat>)
    requires WaitLinked(next, lists, locked) && Only(next, next', WaitHead(l), Nodes(touched)) && WaitHead(l) in next
    requires WaitAt(next', l, s, IsLocked(l, locked')) && (s != [] && l.MutexQueue? ==> IsLocked(l, locked'))
    requires forall k, t {:trigger t in Lst(lists, k)} :: k != l && t in Lst(lists, k) ==> t !in touched
    requires forall x :: MutexQueue(x) != l ==> (x in locked' <==> x in locked)
    ensures WaitLinked(next', lists[l := s], locked')
  {
    hide WaitAt;
    assert next.Keys == next'.Keys;
    var lists' := lists[l := s];
    forall k | WaitHead(k) in next'
      ensures WaitAt(next', k, Lst(lists', k), IsLocked(k, locked'))
    {
      assert WaitHead(k) in next;
      if k != l {
        assert Lst(lists', k) == Lst(lists, k);
        assert IsLocked(k, locked') == IsLocked(k, locked);
        WaitFrame(next, next', WaitHead(l), touched, k, Lst(lists, k), IsLocked(k, locked));
      }
    }
    forall k | Lst(lists', k) != []
      ensures WaitHead(k) in next' && (k.MutexQueue? ==> IsLocked(k, locked'))
    {
      if k != l { assert Lst(lists, k) != []; }
    }
  }

  // The bit cache

  /** A bit is set exactly if its run queue is not empty. */
  ghost predicate CacheOk(cache: nat, rq: seq<seq<Pid>>) {
    forall p :: 0 <= p < |rq| ==> (Bit(cache, p) <==> rq[p] != [])
  }

  lemma CacheSet(cache: nat, rq: seq<seq<Pid>>, p: nat, q: seq<Pid>)
    requires CacheOk(cache, rq) && p < |rq| && q != []
    ensures CacheOk(Or(cache, Pow2(p)), rq[p := q])
  {
    forall i | 0 <= i < |rq|
      ensures Bit(Or(cache, Pow2(p)), i) <==> rq[p := q][i] != []
    {
      BitOfOr(cache, Pow2(p), i);
      BitOfPow2(p, i);
    }
  }

  lemma CacheClear(cache: nat, rq: seq<seq<Pid>>, p: nat)
    requires CacheOk(cache, rq) && p < |rq|
    ensures CacheOk(AndNot(cache, Pow2(p)), rq[p := []])
  {
    forall i | 0 <= i < |rq|
      ensures Bit(AndNot(cache, Pow2(p)), i) <==> rq[p := []][i] != []
    {
      BitOfAndNot(cache, Pow2(p), i);
      BitOfPow2(p, i);
    }
  }

  /** Every thread has a link field and a list of waiting senders. */
  ghost predicate HasNodes(next: Nexts, prio: map<Pid, nat>) {
    forall t :: t in prio ==> Entry(t) in next && WaitHead(MsgWaiters(t)) in next
  }

  lemma SameNodes(next: Nexts, next': Nexts, prio: map<Pid, nat>)
    requires HasNodes(next, prio) && next.Keys == next'.Keys
    ensures HasNodes(next', prio)
  {
    forall t | t in prio
      ensures Entry(t) in next' && WaitHead(MsgWaiters(t)) in next'
    {
      assert Entry(t) in next.Keys && WaitHead(MsgWaiters(t)) in next.Keys;
    }
  }

  ghost predicate Linked(next: Nexts, cache: nat, prio: map<Pid, nat>, rq: seq<seq<Pid>>, lists: map<ListId, seq<Pid>>,
                         locked: set<nat>) {
    && Good(next) && RqLinked(next, rq) && WaitLinked(next, lists, locked) && CacheOk(cache, rq)
    && HasNodes(next, prio)
  }
}
