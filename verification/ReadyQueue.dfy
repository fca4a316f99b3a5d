/** The run queues, one per priority, are one queue sorted by priority, stable
    among equals. */
module ReadyQueue {
  import opened Names
  import opened Sequences
  import opened KernelState
  import opened Scheduler

  /** All levels, best first. */
  function Flat(rq: seq<seq<Pid>>): seq<Pid> {
    if rq == [] then [] else rq[0] + Flat(rq[1..])
  }

  lemma {:induction false} FlatSplits(a: seq<seq<Pid>>, b: seq<seq<Pid>>)
    ensures Flat(a + b) == Flat(a) + Flat(b)
  {
    if a == [] {
      assert a + b == b;
    } else {
      FlatSplits(a[1..], b);
      assert (a + b)[1..] == a[1..] + b;
    }
  }

  /** The levels before, at and behind p. */
  lemma FlatAround(rq: seq<seq<Pid>>, p: nat, q: seq<Pid>)
    requires p < |rq|
    ensures Flat(rq[p := q]) == Flat(rq[..p]) + q + Flat(rq[p + 1..])
  {
    var r := rq[p := q];
    assert r == rq[..p] + ([q] + rq[p + 1..]);
    FlatSplits(rq[..p], [q] + rq[p + 1..]);
    assert ([q] + rq[p + 1..])[1..] == rq[p + 1..];
  }

  lemma {:induction false} FlatMember(rq: seq<seq<Pid>>, i: nat) returns (p: nat)
    requires i < |Flat(rq)|
    ensures p < |rq| && Flat(rq)[i] in rq[p]
    decreases |rq|
  {
    if i < |rq[0]| {
      p := 0;
    } else {
      var k := FlatMember(rq[1..], i - |rq[0]|);
      p := k + 1;
    }
  }

  lemma {:induction false} FlatHolds(rq: seq<seq<Pid>>, p: nat, t: Pid)
    requires p < |rq| && t in rq[p]
    ensures t in Flat(rq)
    decreases |rq|
  {
    if p > 0 {
      assert rq[1..][p - 1] == rq[p];
      FlatHolds(rq[1..], p - 1, t);
    }
  }

  /** The levels from `from` on hold threads of these levels' priorities. */
  ghost predicate LevelsHold(rq: seq<seq<Pid>>, from: nat, prio: map<Pid, nat>) {
    forall p, t {:trigger t in rq[p]} :: 0 <= p < |rq| && t in rq[p] ==> t in prio && prio[t] == from + p
  }

  lemma LevelsOfRunQueues(m: Mem)
    requires ListsInv(m)
    ensures LevelsHold(m.rq, 0, m.prio)
  {
  }

  lemma FlatKeyed(rq: seq<seq<Pid>>, from: nat, prio: map<Pid, nat>)
    requires LevelsHold(rq, from, prio)
    ensures forall i :: 0 <= i < |Flat(rq)| ==> Flat(rq)[i] in prio && from <= prio[Flat(rq)[i]] < from + |rq|
  {
    forall i | 0 <= i < |Flat(rq)|
      ensures Flat(rq)[i] in prio && from <= prio[Flat(rq)[i]] < from + |rq|
    {
      var p := FlatMember(rq, i);
    }
  }

  /** Exactly the runnable threads, each once, sorted by priority. */
  lemma FlatIsTheRunnable(m: Mem)
    requires ListsInv(m)
    ensures forall t :: t in Flat(m.rq) <==> t in m.prio && On(m.status, t)
    ensures Keyed(Flat(m.rq), m.prio) && Sorted(Flat(m.rq), m.prio) && NoDup(Flat(m.rq))
  {
    LevelsOfRunQueues(m);
    FlatKeyed(m.rq, 0, m.prio);
    forall t
      ensures t in Flat(m.rq) <==> t in m.prio && On(m.status, t)
    {
      if t in Flat(m.rq) {
        var i :| 0 <= i < |Flat(m.rq)| && Flat(m.rq)[i] == t;
        var p := FlatMember(m.rq, i);
      }
      if t in m.prio && On(m.status, t) {
        assert t in m.rq[m.prio[t]];
        FlatHolds(m.rq, m.prio[t], t);
      }
    }
    FlatSorted(m.rq, 0, m.prio);
    FlatNoDup(m.rq, 0, m.prio);
  }

  lemma LevelsTail(rq: seq<seq<Pid>>, from: nat, prio: map<Pid, nat>)
    requires LevelsHold(rq, from, prio) && rq != []
    ensures LevelsHold(rq[1..], from + 1, prio)
  {
    forall k, t | 0 <= k < |rq| - 1 && t in rq[1..][k]
      ensures t in prio && prio[t] == from + 1 + k
    {
      assert t in rq[k + 1];
    }
  }

  lemma {:induction false} FlatNoDup(rq: seq<seq<Pid>>, from: nat, prio: map<Pid, nat>)
    requires LevelsHold(rq, from, prio) && forall p :: 0 <= p < |rq| ==> NoDup(rq[p])
    ensures NoDup(Flat(rq))
    decreases |rq|
  {
    if rq != [] {
      LevelsTail(rq, from, prio);
      FlatNoDup(rq[1..], from + 1, prio);
      FlatKeyed(rq[1..], from + 1, prio);
      var s, n := Flat(rq), |rq[0]|;
      forall i, j | 0 <= i < j < |s|
        ensures s[i] != s[j]
      {
        if i < n { assert s[i] in rq[0]; }
        if j >= n { assert s[j] == Flat(rq[1..])[j - n]; }
        if i >= n { assert s[i] == Flat(rq[1..])[i - n]; }
      }
    }
  }

  lemma {:induction false} FlatSorted(rq: seq<seq<Pid>>, from: nat, prio: map<Pid, nat>)
    requires LevelsHold(rq, from, prio)
    ensures Keyed(Flat(rq), prio) && Sorted(Flat(rq), prio)
    decreases |rq|
  {
    FlatKeyed(rq, from, prio);
    if rq != [] {
      LevelsTail(rq, from, prio);
      FlatSorted(rq[1..], from + 1, prio);
      FlatKeyed(rq[1..], from + 1, prio);
      var s, n := Flat(rq), |rq[0]|;
      forall i, j | 0 <= i < j < |s|
        ensures prio[s[i]] <= prio[s[j]]
      {
        if i < n { assert s[i] in rq[0]; }
        if j >= n { assert s[j] == Flat(rq[1..])[j - n]; }
        if j < n { assert s[j] in rq[0]; }
        if i >= n { assert s[i] == Flat(rq[1..])[i - n]; }
      }
    }
  }

  lemma LevelsParts(rq: seq<seq<Pid>>, p: nat, prio: map<Pid, nat>)
    requires LevelsHold(rq, 0, prio) && p <= |rq|
    ensures LevelsHold(rq[..p], 0, prio) && LevelsHold(rq[p..], p, prio)
  {
    forall k, t | 0 <= k < p && t in rq[..p][k]
      ensures t in prio && prio[t] == k
    {
      assert t in rq[k];
    }
    forall k, t | 0 <= k < |rq| - p && t in rq[p..][k]
      ensures t in prio && prio[t] == p + k
    {
      assert t in rq[p + k];
    }
  }

  /** How far the insertion walks: past the levels up to its own. */
  lemma FlatPasses(rq: seq<seq<Pid>>, p: nat, prio: map<Pid, nat>)
    requires LevelsHold(rq, 0, prio) && p < |rq|
    ensures Keyed(Flat(rq), prio) && Passed(Flat(rq), p, prio) == |Flat(rq[..p]) + rq[p]|
    ensures Flat(rq) == Flat(rq[..p]) + rq[p] + Flat(rq[p + 1..])
  {
    FlatKeyed(rq, 0, prio);
    LevelsParts(rq, p, prio);
    LevelsParts(rq, p + 1, prio);
    FlatKeyed(rq[..p], 0, prio);
    FlatKeyed(rq[p + 1..], p + 1, prio);
    FlatAround(rq, p, rq[p]);
    assert rq[p := rq[p]] == rq;
    var front, back := Flat(rq[..p]) + rq[p], Flat(rq[p + 1..]);
    assert Flat(rq) == front + back;
    forall i | 0 <= i < |front|
      ensures prio[Flat(rq)[i]] <= p
    {
      assert Flat(rq)[i] == front[i];
      if i >= |Flat(rq[..p])| { assert front[i] in rq[p]; }
    }
    if back != [] { assert Flat(rq)[|front|] == back[0]; }
    PassedIs(Flat(rq), p, prio, |front|);
  }

  lemma FlatPush(rq: seq<seq<Pid>>, t: Pid, prio: map<Pid, nat>)
    requires LevelsHold(rq, 0, prio) && t in prio && prio[t] < |rq|
    ensures Keyed(Flat(rq), prio) && Flat(rq[prio[t] := rq[prio[t]] + [t]]) == Insert(Flat(rq), t, prio)
  {
    var p := prio[t];
    FlatPasses(rq, p, prio);
    FlatAround(rq, p, rq[p] + [t]);
    hide LevelsHold, Flat, Keyed;
    var front, back := Flat(rq[..p]) + rq[p], Flat(rq[p + 1..]);
    assert Flat(rq[..p]) + (rq[p] + [t]) + back == front + [t] + back;
    assert (front + back)[..|front|] == front && (front + back)[|front|..] == back;
  }

  lemma FlatPop(rq: seq<seq<Pid>>, p: nat)
    requires p < |rq| && rq[p] != []
    ensures var n := |Flat(rq[..p])|;
            n < |Flat(rq)| && Flat(rq)[n] == rq[p][0] && Flat(rq[p := rq[p][1..]]) == Without(Flat(rq), n)
  {
    FlatAround(rq, p, rq[p]);
    FlatAround(rq, p, rq[p][1..]);
    assert rq[p := rq[p]] == rq;
    hide Flat;
    WithoutMiddle(Flat(rq[..p]), rq[p], Flat(rq[p + 1..]));
  }

  lemma WithoutMiddle(front: seq<Pid>, mid: seq<Pid>, back: seq<Pid>)
    requires mid != []
    ensures (front + mid + back)[|front|] == mid[0]
    ensures Without(front + mid + back, |front|) == front + mid[1..] + back
  {
    var all := front + mid + back;
    assert all[..|front|] == front;
    assert all[|front| + 1..] == mid[1..] + back;
    assert front + (mid[1..] + back) == front + mid[1..] + back;
  }

  /** A thread that becomes runnable is inserted by priority, behind its equals. */
  lemma PushInserts(m: Mem, t: Pid, st: Status)
    requires ListsInv(m) && t in m.prio && !On(m.status, t) && OnRunqueue(st)
    ensures Keyed(Flat(m.rq), m.prio) && Flat(SetStatus(m, t, st).rq) == Insert(Flat(m.rq), t, m.prio)
  {
    hide Flat, LevelsHold, RunQueuesOk, WaitListsOk, PlacesOk;
    LevelsOfRunQueues(m);
    FlatPush(m.rq, t, m.prio);
  }

  /** A thread that stops running is taken out, if it is the first of its level. */
  lemma PopRemoves(m: Mem, t: Pid, st: Status)
    requires ListsInv(m) && AtHead(m, t) && On(m.status, t) && !OnRunqueue(st)
    ensures var n := |Flat(m.rq[..m.prio[t]])|;
            n < |Flat(m.rq)| && Flat(m.rq)[n] == t && Flat(SetStatus(m, t, st).rq) == Without(Flat(m.rq), n)
  {
    hide Flat, RunQueuesOk, WaitListsOk, PlacesOk;
    FlatPop(m.rq, m.prio[t]);
  }

  lemma {:induction false} BestIsFirst(rq: seq<seq<Pid>>)
    ensures Best(rq) < |rq| <==> Flat(rq) != []
    ensures Best(rq) < |rq| ==> Flat(rq)[0] == rq[Best(rq)][0]
    decreases |rq|
  {
    if rq != [] && rq[0] == [] { BestIsFirst(rq[1..]); }
  }

  /** sched_run picks the first of the queue: the earliest queued of the best. */
  lemma RunPicksTheFirst(m: Mem)
    requires ListsInv(m)
    ensures Runnable(m) <==> Flat(m.rq) != []
    ensures Runnable(m) ==> NextThread(m) == Flat(m.rq)[0] && SchedRun(m).active == Flat(m.rq)[0]
  {
    BestIsFirst(m.rq);
  }

  // Yielding among the best

  ghost predicate BestRuns(m: Mem) {
    ActiveRuns(m) && m.prio[m.active] == Best(m.rq)
  }

  /** thread_yield of the first of the best level. */
  lemma YieldRotates(m: Mem)
    requires BestRuns(m)
    ensures var r, p := RotateActive(m), Best(m.rq);
            && p < |m.rq| && ListsInv(r) && r.prio == m.prio && Best(r.rq) == p && p < |r.rq|
            && r.rq[p] == Rotate(m.rq[p])
            && r.active == m.active
  {
    RotateKeepsLists(m);
    hide RunQueuesOk, WaitListsOk, PlacesOk;
  }

  /** sched_run starts the first of the best level. */
  lemma RunStartsTheBest(m: Mem)
    requires ListsInv(m) && Runnable(m)
    ensures var r := SchedRun(m); BestRuns(r) && r.prio == m.prio && r.rq == m.rq
  {
    RunKeepsLists(m);
    NextThreadIsBest(m);
    hide RunQueuesOk, WaitListsOk, PlacesOk;
    assert m.rq[Best(m.rq)][0] in m.rq[Best(m.rq)];
  }

  lemma BestIsFirstOfLevel(m: Mem)
    requires BestRuns(m)
    ensures Best(m.rq) < |m.rq| && m.rq[Best(m.rq)] != [] && m.rq[Best(m.rq)][0] == m.active
  {
  }

  /** A running thread that no runnable thread is better than. */
  lemma NobodyBetter(m: Mem)
    requires ActiveRuns(m) && forall t :: t in m.prio && On(m.status, t) ==> m.prio[m.active] <= m.prio[t]
    ensures BestRuns(m)
  {
    assert m.rq[m.prio[m.active]] != [];
    NextThreadIsBest(m);
    assert NextThread(m) in m.rq[Best(m.rq)];
    assert m.prio[NextThread(m)] == Best(m.rq);
  }
}
