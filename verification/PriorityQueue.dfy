/** core/priority_queue.c: a linear list kept sorted by priority. */
module PriorityQueues {
  import opened Names
  import opened Sequences
  import opened Links

  class PriorityQueueMemory {
    var next: Nexts
    var priority: map<Ref, nat>

    constructor (init: Nexts, prio: map<Ref, nat>)
      ensures next == init && priority == prio
    {
      next, priority := init, prio;
    }

    /** A sorted queue of exactly the nodes `s`. */
    ghost predicate Queue(root: Ref, s: seq<Ref>)
      reads this
    {
      Good(next) && Linear(next, root, s) && Keyed(s, priority) && Sorted(s, priority)
    }

    /** The new node goes behind those of the same priority; the queue stays
        sorted and gains exactly this node. */
    method Add(root: Ref, node: Ref, ghost s: seq<Ref>)
      requires Queue(root, s)
      requires node in next && node in priority && node !in s && node != root
      modifies this`next
      ensures Queue(root, Insert(s, node, priority))
      ensures Only(old(next), next, root, Insert(s, node, priority))
    {
      var at := root;
      ghost var k := 0;
      while next[at] != Null
        invariant k <= |s| && next == old(next)
        invariant at == if k == 0 then root else s[k - 1]
        invariant forall i :: 0 <= i < k ==> priority[s[i]] <= priority[node]
        decreases |s| - k
      {
        assert next[at] != node;
        if priority[next[at]] > priority[node] {
          Placed(next, priority, root, s, k, at, node);
          next := next[node := next[at]];
          next := next[at := node];
          return;
        }
        at := next[at];
        k := k + 1;
      }
      Placed(next, priority, root, s, k, at, node);
      assert next[node := Null][at := node] == next[at := node][node := Null];
      next := next[at := node];
      next := next[node := Null];
    }

    method RemoveHead(root: Ref, ghost s: seq<Ref>) returns (head: Ref)
      requires Queue(root, s)
      modifies this`next
      ensures s == [] ==> head == Null && next == old(next)
      ensures s != [] ==> head == s[0] && Queue(root, s[1..])
      ensures Only(old(next), next, root, [])
    {
      head := next[root];
      if head != Null {
        next := next[root := next[head]];
      }
    }

    /** Deletes exactly the given node, and clears its link. */
    method Remove(root: Ref, node: Ref, ghost s: seq<Ref>)
      requires Queue(root, s) && node != Null
      modifies this`next
      ensures node !in s ==> next == old(next)
      ensures node in s ==>
                && node in next && next[node] == Null
                && exists k :: 0 <= k < |s| && s[k] == node && Queue(root, Without(s, k))
      ensures Only(old(next), next, root, s)
    {
      var at := root;
      ghost var k := 0;
      while next[at] != Null
        invariant k <= |s| && next == old(next)
        invariant at == if k == 0 then root else s[k - 1]
        invariant forall i :: 0 <= i < k ==> s[i] != node
        decreases |s| - k
      {
        if next[at] == node {
          Deleted(next, priority, root, s, k, at);
          next := next[at := next[node]];
          next := next[node := Null];
          return;
        }
        at := next[at];
        k := k + 1;
      }
    }
  }

  /** Where the walk of Add stops is where the node belongs. */
  lemma Placed(next: Nexts, key: map<Ref, nat>, root: Ref, s: seq<Ref>, k: nat, at: Ref, node: Ref)
    requires Linear(next, root, s) && Keyed(s, key) && Sorted(s, key) && k <= |s|
    requires at == if k == 0 then root else s[k - 1]
    requires node in next && node in key && node !in s && node != root
    requires forall i :: 0 <= i < k ==> key[s[i]] <= key[node]
    requires k < |s| ==> key[s[k]] > key[node]
    ensures var after, t := next[node := next[at]][at := node], Insert(s, node, key);
            Linear(after, root, t) && Keyed(t, key) && Sorted(t, key) && Only(next, after, root, t)
  {
    PassedIs(s, key[node], key, k);
    SpliceLinear(next, root, s, k, at, node);
    InsertKeepsSorted(s, node, key);
    InsertMembers(s, node, key);
  }

  lemma Deleted(next: Nexts, key: map<Ref, nat>, root: Ref, s: seq<Ref>, k: nat, at: Ref)
    requires Linear(next, root, s) && Keyed(s, key) && Sorted(s, key) && k < |s|
    requires at == if k == 0 then root else s[k - 1]
    ensures var after, t := next[at := next[s[k]]][s[k] := Null], Without(s, k);
            Linear(after, root, t) && Keyed(t, key) && Sorted(t, key) && Only(next, after, root, s)
  {
    CutLinear(next, root, s, k, at);
    WithoutNoDup(s, k);
    SortedWithout(s, k, key);
    LinearFrame(next[at := next[s[k]]], next[at := next[s[k]]][s[k] := Null], s[k], [], root, Without(s, k));
  }

  lemma SortedWithout(s: seq<Ref>, k: nat, key: map<Ref, nat>)
    requires k < |s| && Keyed(s, key) && Sorted(s, key)
    ensures Keyed(Without(s, k), key) && Sorted(Without(s, k), key)
  {
    var t := Without(s, k);
    forall i | 0 <= i < |t|
      ensures t[i] in key
    {
      assert t[i] == if i < k then s[i] else s[i + 1];
    }
    forall i, j | 0 <= i < j < |t|
      ensures key[t[i]] <= key[t[j]]
    {
      var i', j' := if i < k then i else i + 1, if j < k then j else j + 1;
      assert t[i] == s[i'] && t[j] == s[j'];
    }
  }
}
