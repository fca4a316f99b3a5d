/** Sequences without repetition, and the stable insertion by priority that
    every wait list of the kernel uses. */
module Sequences {
  import opened Bits

  ghost predicate NoDup<T(!new)>(s: seq<T>) {
    forall i, j :: 0 <= i < j < |s| ==> s[i] != s[j]
  }

  ghost predicate Keyed<T(!new)>(s: seq<T>, key: map<T, nat>) {
    forall i :: 0 <= i < |s| ==> s[i] in key
  }

  ghost predicate Sorted<T(!new)>(s: seq<T>, key: map<T, nat>)
    requires Keyed(s, key)
  {
    forall i, j :: 0 <= i < j < |s| ==> key[s[i]] <= key[s[j]]
  }

  /** How many elements at the front the walk passes: those whose key is not greater. */
  ghost function Passed<T(!new)>(s: seq<T>, k: nat, key: map<T, nat>): (n: nat)
    requires Keyed(s, key)
    ensures n <= |s|
    ensures forall i :: 0 <= i < n ==> key[s[i]] <= k
    ensures n < |s| ==> key[s[n]] > k
  {
    if s == [] || key[s[0]] > k then 0
    else
      assert forall i :: 0 <= i < |s| - 1 ==> s[1..][i] == s[i + 1];
      1 + Passed(s[1..], k, key)
  }

  /** The walk has found the place when it cannot pass the next element. */
  lemma PassedIs<T(!new)>(s: seq<T>, k: nat, key: map<T, nat>, n: nat)
    requires Keyed(s, key) && n <= |s|
    requires forall i :: 0 <= i < n ==> key[s[i]] <= k
    requires n < |s| ==> key[s[n]] > k
    ensures Passed(s, k, key) == n
  {
  }

  /** `x` placed behind everything of the same or a smaller key. */
  ghost function Insert<T(!new)>(s: seq<T>, x: T, key: map<T, nat>): (r: seq<T>)
    requires Keyed(s, key) && x in key
    ensures |r| == |s| + 1
  {
    Splice(s, Passed(s, key[x], key), x)
  }

  lemma InsertMembers<T(!new)>(s: seq<T>, x: T, key: map<T, nat>)
    requires Keyed(s, key) && x in key
    ensures Keyed(Insert(s, x, key), key)
    ensures forall y :: y in Insert(s, x, key) <==> y == x || y in s
  {
    SpliceMembers(s, Passed(s, key[x], key), x);
  }

  lemma InsertKeepsNoDup<T(!new)>(s: seq<T>, x: T, key: map<T, nat>)
    requires Keyed(s, key) && x in key && NoDup(s) && x !in s
    ensures NoDup(Insert(s, x, key))
  {
    SpliceNoDup(s, Passed(s, key[x], key), x);
  }

  lemma InsertKeepsSorted<T(!new)>(s: seq<T>, x: T, key: map<T, nat>)
    requires Keyed(s, key) && x in key && Sorted(s, key)
    ensures Keyed(Insert(s, x, key), key) && Sorted(Insert(s, x, key), key)
  {
    InsertMembers(s, x, key);
    var n := Passed(s, key[x], key);
    var r := Insert(s, x, key);
    forall i, j | 0 <= i < j < |r|
      ensures key[r[i]] <= key[r[j]]
    {
      if i == n {
        assert r[j] == s[j - 1];
        if n < j - 1 { assert key[s[n]] <= key[s[j - 1]]; }
      }
    }
  }

  /** Somewhere in `s`, `a` stands before `b`. */
  ghost predicate Before<T(!new)>(s: seq<T>, a: T, b: T) {
    exists i, j :: 0 <= i < j < |s| && s[i] == a && s[j] == b
  }

  lemma InsertKeepsOrder<T(!new)>(s: seq<T>, x: T, key: map<T, nat>, a: T, b: T)
    requires Keyed(s, key) && x in key && Before(s, a, b)
    ensures Before(Insert(s, x, key), a, b)
  {
    var i, j :| 0 <= i < j < |s| && s[i] == a && s[j] == b;
    var n := Passed(s, key[x], key);
    var r := Insert(s, x, key);
    var i', j' := if i < n then i else i + 1, if j < n then j else j + 1;
    assert r[i'] == a && r[j'] == b;
  }

  /** Nobody of the same or a better key is overtaken. */
  lemma InsertStandsBehind<T(!new)>(s: seq<T>, x: T, key: map<T, nat>, a: T)
    requires Keyed(s, key) && x in key && Sorted(s, key)
    requires a in s && key[a] <= key[x]
    ensures Before(Insert(s, x, key), a, x)
  {
    var i :| 0 <= i < |s| && s[i] == a;
    var n := Passed(s, key[x], key);
    assert i < n;
    var r := Insert(s, x, key);
    assert r[i] == a && r[n] == x;
  }

  lemma TailMembers<T(!new)>(s: seq<T>)
    requires s != [] && NoDup(s)
    ensures NoDup(s[1..])
    ensures forall y :: y in s[1..] <==> y in s && y != s[0]
  {
    forall y
      ensures y in s[1..] <==> y in s && y != s[0]
    {
      if y in s && y != s[0] {
        var i :| 0 <= i < |s| && s[i] == y;
        assert s[1..][i - 1] == y;
      }
    }
  }

  lemma AppendMembers<T(!new)>(s: seq<T>, x: T)
    requires NoDup(s) && x !in s
    ensures NoDup(s + [x])
    ensures forall y :: y in s + [x] <==> y == x || y in s
  {
  }

  /** The first element moved to the end. */
  function Rotate<T>(s: seq<T>): (r: seq<T>)
    ensures |r| == |s|
  {
    if s == [] then [] else s[1..] + [s[0]]
  }

  lemma RotateMembers<T(!new)>(s: seq<T>)
    requires NoDup(s)
    ensures NoDup(Rotate(s))
    ensures forall y :: y in Rotate(s) <==> y in s
  {
    if s != [] {
      TailMembers(s);
      AppendMembers(s[1..], s[0]);
    }
  }

  /** The n-th element of a queue rotated i times. */
  lemma {:induction false} RotatedAt<T>(s: seq<T>, i: nat, j: nat)
    requires j < |s|
    ensures |Rotated(s, i)| == |s| && Rotated(s, i)[j] == s[(i + j) % |s|]
    decreases i
  {
    if i > 0 {
      var n := |s|;
      RotatedAt(s, i - 1, if j + 1 < n then j + 1 else 0);
      if j + 1 == n {
        assert (i + j) % n == (i - 1) % n by {
          assert i + j == i - 1 + n;
          assert (i - 1 + n) % n == (i - 1) % n by { AddDivisor(i - 1, n); }
        }
      }
    }
  }

  lemma AddDivisor(a: nat, d: nat)
    requires d > 0
    ensures (a + d) % d == a % d
  {
    assert d * (a / d + 1) == d * (a / d) + d;
    RemainderIs(a + d, d, a / d + 1, a % d);
  }

  function Rotated<T>(s: seq<T>, i: nat): seq<T> {
    if i == 0 then s else Rotate(Rotated(s, i - 1))
  }

  /** `s` with its element at position k removed. */
  function Without<T>(s: seq<T>, k: nat): (r: seq<T>)
    requires k < |s|
    ensures |r| == |s| - 1
  {
    s[..k] + s[k + 1..]
  }

  /** `s` with `x` put at position k. */
  function Splice<T>(s: seq<T>, k: nat, x: T): (r: seq<T>)
    requires k <= |s|
    ensures |r| == |s| + 1
  {
    s[..k] + [x] + s[k..]
  }

  lemma SpliceNoDup<T(!new)>(s: seq<T>, k: nat, x: T)
    requires k <= |s| && NoDup(s) && x !in s
    ensures NoDup(Splice(s, k, x))
    ensures forall y :: y in Splice(s, k, x) <==> y == x || y in s
  {
    SpliceMembers(s, k, x);
    var r := Splice(s, k, x);
    forall i, j | 0 <= i < j < |r|
      ensures r[i] != r[j]
    {
      var i', j' := if i < k then i else i - 1, if j < k then j else j - 1;
      if i != k && j != k { assert s[i'] != s[j']; }
    }
  }

  lemma SpliceMembers<T(!new)>(s: seq<T>, k: nat, x: T)
    requires k <= |s|
    ensures forall y :: y in Splice(s, k, x) <==> y == x || y in s
  {
    assert s == s[..k] + s[k..];
    forall y
      ensures y in Splice(s, k, x) <==> y == x || y in s
    {
      assert y in s <==> y in s[..k] || y in s[k..];
    }
  }

  lemma WithoutNoDup<T(!new)>(s: seq<T>, k: nat)
    requires k < |s| && NoDup(s)
    ensures NoDup(Without(s, k))
    ensures forall y :: y in Without(s, k) <==> y in s && y != s[k]
  {
    assert s == s[..k] + [s[k]] + s[k + 1..];
    forall y
      ensures y in Without(s, k) <==> y in s && y != s[k]
    {
      assert y in s <==> y in s[..k] || y == s[k] || y in s[k + 1..];
    }
  }

  /** `s` begun at position k. */
  function Cycle<T>(s: seq<T>, k: nat): (r: seq<T>)
    requires k <= |s|
    ensures |r| == |s|
  {
    s[k..] + s[..k]
  }

  lemma CycleStep<T>(s: seq<T>, k: nat)
    requires k < |s|
    ensures Rotate(Cycle(s, k)) == Cycle(s, k + 1)
  {
  }

  lemma SomeMember<T>(s: seq<T>)
    ensures s == [] || exists x :: x in s
  {
    if s != [] { assert s[0] in s; }
  }

  lemma {:induction false} OnceInSequence<T(!new)>(q: seq<T>, x: T)
    requires NoDup(q) && x in q
    ensures multiset(q)[x] == 1
    decreases |q|
  {
    var n := |q| - 1;
    assert q == q[..n] + [q[n]];
    if x == q[n] {
      assert x !in q[..n];
    } else {
      OnceInSequence(q[..n], x);
    }
  }
}
