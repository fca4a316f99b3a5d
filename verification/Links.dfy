/** core/include/list.h and core/include/clist.h: intrusive lists. A node has
    nothing but a `next` field, so the memory of all lists is one map. Reading
    or writing through an address outside the map is an error that every
    method below is proved not to commit; Null and Locked are outside. */
module Links {
  import opened Names
  import opened Sequences

  type Nexts = map<Ref, Ref>

  ghost predicate Good(next: Nexts) {
    Null !in next && Locked !in next
  }

  /** `list` is the head of a linear list of exactly the nodes `s`. */
  ghost predicate Linear(next: Nexts, list: Ref, s: seq<Ref>) {
    && list in next && list !in s && NoDup(s)
    && (forall i :: 0 <= i < |s| ==> s[i] in next)
    && next[list] == (if s == [] then Null else s[0])
    && (forall i {:trigger next[s[i]]} :: 0 <= i < |s| ==> next[s[i]] == if i + 1 < |s| then s[i + 1] else Null)
  }

  /** `list` points to the last of a circle of exactly the nodes `s`. */
  ghost predicate Ring(next: Nexts, list: Ref, s: seq<Ref>) {
    && list in next && list !in s && NoDup(s)
    && (forall i :: 0 <= i < |s| ==> s[i] in next)
    && next[list] == (if s == [] then Null else s[|s| - 1])
    && (forall i {:trigger next[s[i]]} :: 0 <= i < |s| ==> next[s[i]] == if i + 1 < |s| then s[i + 1] else s[0])
  }

  /** Only the head and the nodes `s` may have changed. */
  ghost predicate Only(before: Nexts, after: Nexts, list: Ref, s: seq<Ref>) {
    && before.Keys == after.Keys
    && forall r :: r in before && r != list && r !in s ==> after[r] == before[r]
  }

  /** A list none of whose nodes was touched is still there. */
  lemma LinearFrame(before: Nexts, after: Nexts, list: Ref, s: seq<Ref>, other: Ref, t: seq<Ref>)
    requires Only(before, after, list, s) && Linear(before, other, t)
    requires other != list && other !in s && list !in t
    requires forall i :: 0 <= i < |t| ==> t[i] !in s
    ensures Linear(after, other, t)
  {
  }

  lemma RingFrame(before: Nexts, after: Nexts, list: Ref, s: seq<Ref>, other: Ref, t: seq<Ref>)
    requires Only(before, after, list, s) && Ring(before, other, t)
    requires other != list && other !in s && list !in t
    requires forall i :: 0 <= i < |t| ==> t[i] !in s
    ensures Ring(after, other, t)
  {
  }

  /** Two assignments put `node` behind the k-th place. */
  lemma SpliceLinear(next: Nexts, list: Ref, s: seq<Ref>, k: nat, place: Ref, node: Ref)
    requires Linear(next, list, s) && k <= |s|
    requires place == if k == 0 then list else s[k - 1]
    requires node in next && node !in s && node != list
    ensures Linear(next[node := next[place]][place := node], list, Splice(s, k, node))
  {
    var after, t := next[node := next[place]][place := node], Splice(s, k, node);
    SpliceNoDup(s, k, node);
    forall i | 0 <= i < |t|
      ensures t[i] in after && after[t[i]] == if i + 1 < |t| then t[i + 1] else Null
    {
      if i + 1 < k {
        assert t[i] == s[i] && t[i + 1] == s[i + 1] && next[s[i]] == s[i + 1];
      } else if i + 1 == k {
        assert t[i] == place && t[i + 1] == node;
      } else if i == k {
        assert t[i] == node && (i + 1 < |t| ==> t[i + 1] == s[k]);
      } else {
        assert t[i] == s[i - 1] && (i + 1 < |t| ==> t[i + 1] == s[i]);
        assert next[s[i - 1]] == if i < |s| then s[i] else Null;
      }
    }
  }

  /** One assignment takes the k-th node out of a linear list. */
  lemma CutLinear(next: Nexts, list: Ref, s: seq<Ref>, k: nat, place: Ref)
    requires Linear(next, list, s) && k < |s|
    requires place == if k == 0 then list else s[k - 1]
    ensures Linear(next[place := next[s[k]]], list, Without(s, k))
  {
    var after, t := next[place := next[s[k]]], Without(s, k);
    WithoutNoDup(s, k);
    forall i | 0 <= i < |t|
      ensures t[i] in after && after[t[i]] == if i + 1 < |t| then t[i + 1] else Null
    {
      if i + 1 < k {
        assert t[i] == s[i] && t[i + 1] == s[i + 1] && next[s[i]] == s[i + 1];
      } else if i + 1 == k {
        assert t[i] == place && (i + 1 < |t| ==> t[i + 1] == s[k + 1]);
      } else {
        assert t[i] == s[i + 1] && (i + 1 < |t| ==> t[i + 1] == s[i + 2]);
        assert next[s[i + 1]] == if i + 2 < |s| then s[i + 2] else Null;
      }
    }
  }

  /** One assignment takes a node that is not the first out of a ring, and
      another moves the head when that node was the last. */
  lemma CutRing(next: Nexts, list: Ref, s: seq<Ref>, k: nat)
    requires Ring(next, list, s) && 0 < k < |s|
    ensures var cut := next[s[k - 1] := next[s[k]]];
            Ring(if k == |s| - 1 then cut[list := s[k - 1]] else cut, list, Without(s, k))
  {
    var cut := next[s[k - 1] := next[s[k]]];
    var after, t := if k == |s| - 1 then cut[list := s[k - 1]] else cut, Without(s, k);
    WithoutNoDup(s, k);
    assert t[0] == s[0];
    forall i | 0 <= i < |t|
      ensures t[i] in after && after[t[i]] == if i + 1 < |t| then t[i + 1] else t[0]
    {
      if i + 1 < k {
        assert t[i] == s[i] && t[i + 1] == s[i + 1] && next[s[i]] == s[i + 1];
      } else if i + 1 == k {
        assert t[i] == s[k - 1] && (i + 1 < |t| ==> t[i + 1] == s[k + 1]);
      } else {
        assert t[i] == s[i + 1] && (i + 1 < |t| ==> t[i + 1] == s[i + 2]);
        assert next[s[i + 1]] == if i + 2 < |s| then s[i + 2] else s[0];
      }
    }
  }

  class Memory {
    var next: Nexts

    constructor (init: Nexts)
      ensures next == init
    {
      next := init;
    }

    // list.h

    /** Inserts `node` behind the k-th place of the list. */
    method ListAdd(place: Ref, node: Ref, ghost list: Ref, ghost s: seq<Ref>, ghost k: nat)
      requires Linear(next, list, s) && k <= |s|
      requires place == if k == 0 then list else s[k - 1]
      requires node in next && node !in s && node != list
      modifies this
      ensures Linear(next, list, Splice(s, k, node))
      ensures Only(old(next), next, list, Splice(s, k, node))
    {
      SpliceLinear(next, list, s, k, place, node);
      SpliceNoDup(s, k, node);
      next := next[node := next[place]];
      next := next[place := node];
    }

    method ListRemoveHead(list: Ref, ghost s: seq<Ref>) returns (head: Ref)
      requires Good(next) && Linear(next, list, s)
      modifies this
      ensures s == [] ==> head == Null && next == old(next)
      ensures s != [] ==> head == s[0] && Linear(next, list, s[1..])
      ensures Only(old(next), next, list, [])
    {
      head := next[list];
      if head != Null {
        next := next[list := next[head]];
      }
    }

    /** Removes `node` wherever it is; returns Null if it is not in the list. */
    method ListRemove(list: Ref, node: Ref, ghost s: seq<Ref>) returns (r: Ref)
      requires Good(next) && Linear(next, list, s) && node != Null
      modifies this
      ensures node !in s ==> r == Null && next == old(next)
      ensures node in s ==> r == node && exists k :: 0 <= k < |s| && s[k] == node && Linear(next, list, Without(s, k))
      ensures Only(old(next), next, list, s)
    {
      var at := list;
      ghost var k := 0;
      while next[at] != Null
        invariant k <= |s| && next == old(next)
        invariant at == if k == 0 then list else s[k - 1]
        invariant forall i :: 0 <= i < k ==> s[i] != node
        decreases |s| - k
      {
        if next[at] == node {
          CutLinear(next, list, s, k, at);
          next := next[at := next[node]];
          return node;
        }
        at := next[at];
        k := k + 1;
      }
      return next[at];
    }

    // clist.h

    method RPush(list: Ref, node: Ref, ghost s: seq<Ref>)
      requires Good(next) && Ring(next, list, s)
      requires node in next && node !in s && node != list
      modifies this
      ensures Ring(next, list, s + [node])
      ensures Only(old(next), next, list, s + [node])
    {
      if next[list] != Null {
        next := next[node := next[next[list]]];
        next := next[next[list] := node];
      } else {
        next := next[node := node];
      }
      next := next[list := node];
    }

    method LPush(list: Ref, node: Ref, ghost s: seq<Ref>)
      requires Good(next) && Ring(next, list, s)
      requires node in next && node !in s && node != list
      modifies this
      ensures Ring(next, list, [node] + s)
      ensures Only(old(next), next, list, [node] + s)
    {
      if next[list] != Null {
        next := next[node := next[next[list]]];
        next := next[next[list] := node];
      } else {
        next := next[node := node];
        next := next[list := node];
      }
    }

    method LPop(list: Ref, ghost s: seq<Ref>) returns (first: Ref)
      requires Good(next) && Ring(next, list, s)
      modifies this
      ensures s == [] ==> first == Null && next == old(next)
      ensures s != [] ==> first == s[0] && Ring(next, list, s[1..])
      ensures Only(old(next), next, list, s)
    {
      if next[list] != Null {
        first := next[next[list]];
        if next[list] == first {
          next := next[list := Null];
        } else {
          next := next[next[list] := next[first]];
        }
      } else {
        first := Null;
      }
    }

    method LPopRPush(list: Ref, ghost s: seq<Ref>)
      requires Good(next) && Ring(next, list, s)
      modifies this
      ensures Ring(next, list, Rotate(s))
      ensures Only(old(next), next, list, [])
    {
      if next[list] != Null {
        next := next[list := next[next[list]]];
      }
    }

    method LPeek(list: Ref, ghost s: seq<Ref>) returns (r: Ref)
      requires Good(next) && Ring(next, list, s)
      ensures r == if s == [] then Null else s[0]
    {
      if next[list] != Null { return next[next[list]]; }
      return Null;
    }

    method RPeek(list: Ref, ghost s: seq<Ref>) returns (r: Ref)
      requires Ring(next, list, s)
      ensures r == if s == [] then Null else s[|s| - 1]
    {
      return next[list];
    }

    /** Rotates until the last node is the first, then pops it. */
    method RPop(list: Ref, ghost s: seq<Ref>) returns (last: Ref)
      requires Good(next) && Ring(next, list, s)
      modifies this
      ensures s == [] ==> last == Null && next == old(next)
      ensures s != [] ==> last == s[|s| - 1] && Ring(next, list, s[..|s| - 1])
      ensures Only(old(next), next, list, s)
    {
      if next[list] != Null {
        last := next[list];
        ghost var k := 0;
        assert Cycle(s, 0) == s;
        while next[next[list]] != last
          invariant 0 <= k < |s| && Ring(next, list, Cycle(s, k))
          invariant Only(old(next), next, list, s)
          decreases |s| - k
        {
          assert Cycle(s, k)[0] == s[k];
          LPopRPush(list, Cycle(s, k));
          CycleStep(s, k);
          k := k + 1;
        }
        assert Cycle(s, k)[0] == s[k];
        assert Cycle(s, k)[1..] == s[..|s| - 1];
        last := LPop(list, Cycle(s, k));
      } else {
        last := Null;
      }
    }

    /** The node pointing to `node`, looking at s[0], s[1], ... in turn. */
    method FindBefore(list: Ref, node: Ref, ghost s: seq<Ref>) returns (pos: Ref)
      requires Good(next) && Ring(next, list, s) && node != Null
      ensures node !in s ==> pos == Null
      ensures node in s ==> pos in s && next[pos] == node
    {
      pos := next[list];
      if pos == Null {
        return Null;
      }
      pos := next[pos];
      ghost var k := 0;
      while next[pos] != node && pos != next[list]
        invariant 0 <= k < |s| && pos == s[k]
        invariant forall i :: 0 < i <= k ==> s[i] != node
        decreases |s| - k
      {
        pos := next[pos];
        k := k + 1;
      }
      if next[pos] == node { return pos; }
      return Null;
    }

    method Find(list: Ref, node: Ref, ghost s: seq<Ref>) returns (r: Ref)
      requires Good(next) && Ring(next, list, s) && node != Null
      ensures r == if node in s then node else Null
    {
      var before := FindBefore(list, node, s);
      if before != Null { return next[before]; }
      return Null;
    }

    /** The node behind `before` is unlinked; it may be the last one. */
    method CutBehind(list: Ref, node: Ref, before: Ref, ghost s: seq<Ref>)
      requires Good(next) && Ring(next, list, s) && s != [] && node in s && s[0] != node
      requires before in s && before in next && next[before] == node
      modifies this
      ensures exists k :: 0 <= k < |s| && s[k] == node && Ring(next, list, Without(s, k))
      ensures Only(old(next), next, list, s)
    {
      ghost var k :| 0 <= k < |s| && s[k] == before;
      CutRing(next, list, s, k + 1);
      next := next[before := next[next[before]]];
      if node == next[list] {
        next := next[list := before];
      }
    }

    /** Removes `node` wherever it is: first, middle, last or alone. */
    method Remove(list: Ref, node: Ref, ghost s: seq<Ref>) returns (r: Ref)
      requires Good(next) && Ring(next, list, s) && node != Null
      modifies this
      ensures node !in s ==> r == Null && next == old(next)
      ensures node in s ==> r == node && exists k :: 0 <= k < |s| && s[k] == node && Ring(next, list, Without(s, k))
      ensures Only(old(next), next, list, s)
    {
      r := Null;
      if next[list] != Null {
        if next[next[list]] == node {
          r := LPop(list, s);
          assert Without(s, 0) == s[1..];
        } else {
          var before := FindBefore(list, node, s);
          if before != Null {
            CutBehind(list, node, before, s);
            r := node;
          }
        }
      }
    }
  }
}
