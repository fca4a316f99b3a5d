/** core/ringbuffer.c: a bounded FIFO of bytes in a ring. */
module RingBuffers {
  import opened Names
  import opened Bits
  import opened CircularIndex

  type byte = x: nat | x < 256 witness 0

  // What n calls of ringbuffer_get_one return and leave, on the abstract FIFO.
  function GetOnes(s: seq<byte>, n: nat): (seq<byte>, seq<byte>)
    decreases n
  {
    if n == 0 || s == [] then ([], s)
    else
      var (got, rest) := GetOnes(s[1..], n - 1);
      ([s[0]] + got, rest)
  }

  /** One bulk read of n is n single reads, for every n, also beyond the end. */
  lemma {:induction false} BulkGetIsRepeatedGet(s: seq<byte>, n: nat)
    ensures var k := if n > |s| then |s| else n;
            GetOnes(s, n) == (s[..k], s[k..])
    decreases n
  {
    if n != 0 && s != [] {
      BulkGetIsRepeatedGet(s[1..], n - 1);
      var k := if n > |s| then |s| else n;
      assert s[..k] == [s[0]] + s[1..][..k - 1];
      assert s[k..] == s[1..][k - 1..];
    }
  }

  lemma RingStep(start: nat, i: nat, size: nat)
    requires start <= size && i <= size && size > 0
    ensures start + i < size ==> (start + i) % size == start + i
    ensures size <= start + i < 2 * size ==> (start + i) % size == start + i - size
    ensures start + i == 2 * size ==> (start + i) % size == 0
  {
    if size <= start + i < 2 * size {
      RemainderIs(start + i, size, 1, start + i - size);
    } else if start + i == 2 * size {
      RemainderIs(start + i, size, 2, 0);
    }
  }

  lemma {:induction false} WindowSplit<T>(slots: seq<T>, start: nat, n: nat, k: nat)
    requires k <= n && (n > 0 ==> slots != [])
    ensures Window(slots, start, n) == Window(slots, start, k) + Window(slots, start + k, n - k)
    decreases k
  {
    if k > 0 {
      WindowSplit(slots, start + 1, n - 1, k - 1);
      assert start + 1 + (k - 1) == start + k;
    }
  }

  /** Writing behind a window makes it one longer. */
  lemma WindowGrows(was: seq<byte>, start: nat, n: nat, pos: nat, c: byte)
    requires n < |was| && start <= |was| && pos < |was| && pos == (start + n) % |was|
    ensures Window(was[pos := c], start, n + 1) == Window(was, start, n) + [c]
  {
    forall i | 0 <= i <= n
      ensures Window(was[pos := c], start, n + 1)[i] == (Window(was, start, n) + [c])[i]
    {
      WindowAt(was[pos := c], start, n + 1, i);
      if i < n {
        WindowAt(was, start, n, i);
        RemaindersDiffer(start + i, start + n, |was|);
      }
    }
  }

  class RingBuffer {
    const buf: array<byte>
    var start: nat
    var avail: nat

    /** Positions stay below 2^32. */
    ghost predicate Bounded() {
      buf.Length < 0x8000_0000
    }

    /** The read position lies inside the buffer. */
    ghost predicate Valid()
      reads this
    {
      Bounded() && avail <= buf.Length && (start < buf.Length || start == 0)
    }

    /** As Valid, but the read position may stand one past the end. */
    ghost predicate Loose()
      reads this
    {
      Bounded() && avail <= buf.Length && start <= buf.Length
    }

    /** The bytes held, oldest first. */
    ghost function Contents(): (s: seq<byte>)
      reads this, buf
      requires Loose()
    {
      Window(buf[..], start, avail)
    }

    constructor (buffer: array<byte>)
      requires buffer.Length < 0x8000_0000
      ensures buf == buffer && Valid() && start == 0 && Contents() == []
    {
      buf := buffer;
      start, avail := 0, 0;
    }

    /** Another header over the same bytes, as ringbuffer_peek makes on its stack. */
    constructor Copy(rb: RingBuffer)
      ensures buf == rb.buf && start == rb.start && avail == rb.avail
    {
      buf := rb.buf;
      start, avail := rb.start, rb.avail;
    }

    method AddTail(c: byte)
      requires Loose() && avail < buf.Length
      modifies this`avail, buf
      ensures Loose() && avail == old(avail) + 1 && Contents() == old(Contents()) + [c]
    {
      ghost var was := buf[..];
      var pos := start + avail;
      RingStep(start, avail, buf.Length);
      avail := avail + 1;
      if pos >= buf.Length {
        pos := pos - buf.Length;
      }
      buf[pos] := c;
      assert buf[..] == was[pos := c];
      WindowGrows(was, start, avail - 1, pos, c);
    }

    /** The oldest byte, or None for a read outside the buffer, behind which
        nothing can be said. The read is inside exactly if the read position is. */
    method GetHead() returns (c: Option<byte>)
      requires Loose() && avail > 0
      modifies this
      ensures Loose() && (c.Some? <==> old(start) < buf.Length)
      ensures c.Some? ==> Valid() && avail == old(avail) - 1 && [c.value] + Contents() == old(Contents())
    {
      if start == buf.Length {
        return None;
      }
      c := Some(buf[start]);
      RingStep(start, 0, buf.Length);
      ghost var first := start;
      avail := avail - 1;
      if avail == 0 {
        start := 0;
      } else {
        start := start + 1;
        if start == buf.Length {
          start := 0;
          RingStep(0, 0, buf.Length);
          RingStep(first, 1, buf.Length);
          WindowCongruent(buf[..], first + 1, 0, avail);
        }
      }
    }

    method Add(data: seq<byte>) returns (i: nat)
      requires Loose()
      modifies this`avail, buf
      ensures Loose() && avail == old(avail) + i
      ensures i == if |data| > buf.Length - old(avail) then buf.Length - old(avail) else |data|
      ensures Contents() == old(Contents()) + data[..i]
    {
      i := 0;
      while i < |data| && avail != buf.Length
        invariant Loose() && i <= |data|
        invariant avail == old(avail) + i
        invariant Contents() == old(Contents()) + data[..i]
      {
        AddTail(data[i]);
        assert data[..i + 1] == data[..i] + [data[i]];
        i := i + 1;
      }
    }

    /** Overwrites the oldest byte when full; returns it, or -1. */
    method AddOne(c: byte) returns (result: Option<int>)
      requires Loose() && buf.Length > 0
      modifies this, buf
      ensures Loose() && (result.None? <==> old(avail) == buf.Length && old(start) == buf.Length)
      ensures old(avail) < buf.Length ==> result == Some(-1) && Contents() == old(Contents()) + [c]
      ensures old(avail) == buf.Length && result.Some? ==>
                result == Some(old(Contents())[0] as int) && Contents() == old(Contents())[1..] + [c]
    {
      result := Some(-1);
      if avail == buf.Length {
        var oldest := GetHead();
        if oldest.None? {
          return None;
        }
        result := Some(oldest.value);
        assert Contents() == old(Contents())[1..];
      }
      AddTail(c);
    }

    method GetOne() returns (result: Option<int>)
      requires Loose()
      modifies this
      ensures Loose() && (result.None? <==> old(avail) > 0 && old(start) == buf.Length)
      ensures old(Contents()) == [] ==> result == Some(-1) && Contents() == []
      ensures old(Contents()) != [] && result.Some? ==>
                result == Some(old(Contents())[0] as int) && Contents() == old(Contents())[1..]
    {
      if avail != 0 {
        var c := GetHead();
        if c.None? {
          return None;
        }
        result := Some(c.value);
        assert Contents() == old(Contents())[1..];
      } else {
        result := Some(-1);
      }
    }

    /** The copy of the first k bytes, in one part or in two around the end. */
    method CopyOut(out: array<byte>, k: nat)
      requires Loose() && out != buf && 0 < k <= avail && k <= out.Length
      modifies out
      ensures out[..k] == Window(buf[..], start, k)
      ensures forall i :: k <= i < out.Length ==> out[i] == old(out[i])
    {
      var tillEnd := buf.Length - start;
      if tillEnd >= k {
        forall i | 0 <= i < k { out[i] := buf[start + i]; }
      } else {
        forall i | 0 <= i < tillEnd { out[i] := buf[start + i]; }
        forall i | 0 <= i < k - tillEnd { out[tillEnd + i] := buf[i]; }
      }
      forall i | 0 <= i < k
        ensures out[i] == Window(buf[..], start, k)[i]
      {
        WindowAt(buf[..], start, k, i);
        RingStep(start, i, buf.Length);
      }
    }

    /** The read position moves past the first k bytes. From one past the end
        a read of the whole buffer brings it back there. */
    method Advance(k: nat)
      requires Loose() && 0 < k <= avail
      modifies this
      ensures Loose() && Contents() == old(Contents())[k..]
      ensures Valid() <==> old(start) < buf.Length || k < buf.Length
    {
      ghost var s0 := start;
      WindowSplit(buf[..], start, avail, k);
      RingStep(s0, k, buf.Length);
      var tillEnd := buf.Length - start;
      if tillEnd >= k {
        if tillEnd == k {
          start := 0;
        } else {
          start := start + k;
        }
      } else {
        start := k - tillEnd;
      }
      avail := avail - k;
      RingStep(0, start, buf.Length);
      WindowCongruent(buf[..], s0 + k, start, avail);
    }

    /** Right wherever the read position stands. */
    method Get(out: array<byte>, n: nat) returns (k: nat)
      requires Loose() && out != buf && n <= out.Length
      modifies this, out
      ensures Loose() && (Valid() <==> buf.Length == 0 || old(start) < buf.Length || 0 < k < buf.Length)
      ensures k <= n && forall i :: k <= i < out.Length ==> out[i] == old(out[i])
      ensures out[..k] == GetOnes(old(Contents()), n).0
      ensures Contents() == GetOnes(old(Contents()), n).1
    {
      ghost var was := Contents();
      k := n;
      if k > avail {
        k := avail;
      }
      BulkGetIsRepeatedGet(was, n);
      if k > 0 {
        WindowSplit(buf[..], start, avail, k);
        CopyOut(out, k);
        Advance(k);
      } else {
        assert out[..k] == [] && was[..k] == [];
        assert was[k..] == was;
      }
    }

    method PeekOne() returns (result: Option<int>)
      requires Loose()
      ensures result.None? <==> avail > 0 && start == buf.Length
      ensures result.Some? ==> result.value == if Contents() == [] then -1 else Contents()[0]
    {
      var rb := new RingBuffer.Copy(this);
      result := rb.GetOne();
    }

    method Peek(out: array<byte>, n: nat) returns (k: nat)
      requires Loose() && out != buf && n <= out.Length
      modifies out
      ensures k <= n && out[..k] == GetOnes(Contents(), n).0
    {
      var rb := new RingBuffer.Copy(this);
      k := rb.Get(out, n);
    }

    /** Discards n bytes. The bytes left are right in every case, but the read
        position is left one past the end exactly when the sum is the size or,
        from there, twice the size. */
    method Remove(n: nat) returns (k: nat)
      requires Loose()
      modifies this
      ensures Loose() && k == (if n > old(avail) then old(avail) else n)
      ensures Contents() == GetOnes(old(Contents()), n).1
      ensures avail == old(avail) - k && (!Valid() ==> start == buf.Length)
      ensures Valid() <==> n > old(avail) || buf.Length == 0 || old(start) + n !in {buf.Length, 2 * buf.Length}
    {
      ghost var was := Contents();
      BulkGetIsRepeatedGet(was, n);
      if n > avail {
        k := avail;
        start, avail := 0, 0;
        assert was[k..] == [];
      } else {
        k := n;
        Skip(n);
      }
    }

    method Skip(n: nat)
      requires Loose() && n <= avail
      modifies this
      ensures Loose() && avail == old(avail) - n && Contents() == old(Contents())[n..]
      ensures start == if old(start) + n > buf.Length then old(start) + n - buf.Length else old(start) + n
    {
      ghost var s0 := start;
      WindowSplit(buf[..], start, avail, n);
      start := start + n;
      avail := avail - n;
      if start > buf.Length {
        start := start - buf.Length;
        RingStep(s0, n, buf.Length);
        RingStep(0, start, buf.Length);
        WindowCongruent(buf[..], s0 + n, start, avail);
      }
    }
  }

  /** Two bytes are added to a buffer of two and removed, one is added, and the
      next ringbuffer_get_one reads outside the buffer. */
  method RemoveThenReadOutside() returns (rb: RingBuffer, read: Option<int>)
    ensures rb.Loose() && rb.avail > 0 && rb.start == rb.buf.Length && read == None
  {
    var bytes := new byte[2](_ => 0);
    rb := new RingBuffer(bytes);
    var _ := rb.Add([1, 2]);
    var _ := rb.Remove(2);
    var _ := rb.Add([3]);
    read := rb.PeekOne();
  }
}
