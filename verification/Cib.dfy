/** core/include/cib.h: two free-running 32-bit counters, masked to a
    power-of-two index. Together with an array they form a FIFO. */
module CircularIndex {
  import opened Bits

  const U32: nat := 0x1_0000_0000
  const I32: nat := 0x8000_0000

  type u32 = x: nat | x < U32

  datatype Cib = Cib(read: u32, write: u32, mask: u32)

  /** Conversion of an unsigned word to `int`. */
  function Int32(x: u32): int {
    if x < I32 then x else x - U32
  }

  /** Increment of a 32-bit counter. */
  function Inc(x: u32): u32 {
    if x + 1 == U32 then 0 else x + 1
  }

  /** Size minus one as an unsigned word: all ones for size zero. */
  function MaskOf(size: u32): u32 {
    if size == 0 then U32 - 1 else size - 1
  }

  function Init(size: u32): Cib {
    Cib(0, 0, MaskOf(size))
  }

  /** The difference of the counters as an unsigned word. */
  function Avail(c: Cib): u32 {
    if c.write >= c.read then c.write - c.read else c.write + U32 - c.read
  }

  predicate Full(c: Cib) {
    Int32(Avail(c)) > Int32(c.mask)
  }

  function ReadIndex(c: Cib): nat {
    And(c.read, c.mask)
  }

  function WriteIndex(c: Cib): nat {
    And(c.write, c.mask)
  }

  /** cib_get_unsafe and cib_put_unsafe, after their index was taken. */
  function AdvanceRead(c: Cib): Cib {
    c.(read := Inc(c.read))
  }

  function AdvanceWrite(c: Cib): Cib {
    c.(write := Inc(c.write))
  }

  /** cib_get compares the counters, not their difference. */
  function Get(c: Cib): (Cib, int) {
    if c.write > c.read then (AdvanceRead(c), ReadIndex(c) as int) else (c, -1)
  }

  function Put(c: Cib): (Cib, int) {
    if Int32(Avail(c)) <= Int32(c.mask) then (AdvanceWrite(c), WriteIndex(c) as int) else (c, -1)
  }

  /** Sizes cib_init accepts: zero, or a power of two up to half of MAXINT. */
  ghost predicate IsSize(size: nat) {
    size == 0 || exists k: nat :: k <= 30 && size == Pow2(k)
  }

  ghost predicate Valid(c: Cib, size: nat) {
    && IsSize(size)
    && size < U32 && c.mask == MaskOf(size)
    && Avail(c) <= size
  }

  // Arithmetic of sizes

  lemma {:induction false} Pow2Splits(a: nat, b: nat)
    ensures Pow2(a) * Pow2(b) == Pow2(a + b)
  {
    if a > 0 {
      Pow2Splits(a - 1, b);
      assert Pow2(a) * Pow2(b) == 2 * (Pow2(a - 1) * Pow2(b));
    }
  }

  lemma PowersOfWord()
    ensures Pow2(30) == 0x4000_0000 && Pow2(32) == U32
  {
    assert Pow2(8) == 256 && Pow2(16) == 0x1_0000;
    Pow2Splits(16, 16);
    assert Pow2(32) == 4 * Pow2(30);
  }

  lemma SizeBound(size: nat) returns (q: nat)
    requires IsSize(size) && size != 0
    ensures size <= 0x4000_0000
    ensures q * size == U32
  {
    var k: nat :| k <= 30 && size == Pow2(k);
    PowersOfWord();
    q := Pow2(32 - k);
    Pow2Splits(32 - k, k);
    PowerBelow(k, 30);
  }

  lemma {:induction false} PowerBelow(a: nat, b: nat)
    requires a <= b
    ensures Pow2(a) <= Pow2(b)
    decreases b
  {
    if a < b { PowerBelow(a, b - 1); }
  }

  lemma MaskedIndex(x: nat, size: nat)
    requires IsSize(size) && size != 0
    ensures And(x, size - 1) == x % size < size
  {
    var k: nat :| k <= 30 && size == Pow2(k);
    MaskIsRemainder(x, k);
  }

  lemma RemaindersDiffer(a: nat, b: nat, d: nat)
    requires a < b < a + d
    ensures a % d != b % d
  {
    if a % d == b % d {
      var e := b / d - a / d;
      assert d * e == b - a by {
        assert a == d * (a / d) + a % d;
        assert b == d * (b / d) + b % d;
        assert d * e == d * (b / d) - d * (a / d);
      }
      MultipleIsFar(d, e);
      assert false;
    }
  }

  lemma WrapKeepsRemainder(x: u32, size: nat)
    requires IsSize(size) && size != 0
    ensures Inc(x) % size == (x + 1) % size
  {
    if x + 1 == U32 {
      var q := SizeBound(size);
      RemainderIs(U32, size, q, 0);
    }
  }

  // What the counters say

  lemma FullIffAvailIsSize(c: Cib, size: nat)
    requires Valid(c, size)
    ensures Full(c) <==> Avail(c) == size
    ensures Put(c).1 == -1 <==> Full(c)
  {
    if size != 0 { var _ := SizeBound(size); }
  }

  /** `cib_get` finds the buffer empty exactly when it is, unless the write
      counter has wrapped below the read counter; then it misses everything. */
  lemma GetAgreesIffNotWrapped(c: Cib, size: nat)
    requires Valid(c, size)
    ensures (Get(c).1 >= 0 <==> Avail(c) != 0) <==> c.read <= c.write
    ensures c.write < c.read ==> Get(c) == (c, -1) && Avail(c) != 0
  {
    if c.write < c.read {
      assert Avail(c) == c.write - c.read + U32;
    }
  }

  /** A buffer of one slot whose write counter wraps: full, yet `cib_get` reports empty. */
  lemma WrappedGetMissesMessage()
    ensures var c := AdvanceWrite(Cib(U32 - 1, U32 - 1, 0));
            Valid(c, 1) && Avail(c) == 1 && Full(c) && Get(c).1 == -1
  {
    assert Pow2(0) == 1;
  }

  lemma PutKeepsValid(c: Cib, size: nat)
    requires Valid(c, size) && !Full(c)
    ensures Valid(AdvanceWrite(c), size)
    ensures Avail(AdvanceWrite(c)) == Avail(c) + 1
    ensures size != 0 && WriteIndex(c) == c.write % size < size
    ensures c.read <= c.write && c.write + 1 < U32 ==> c.read <= AdvanceWrite(c).write
  {
    FullIffAvailIsSize(c, size);
    var _ := SizeBound(size);
    MaskedIndex(c.write, size);
  }

  lemma GetKeepsValid(c: Cib, size: nat)
    requires Valid(c, size) && Avail(c) != 0
    ensures Valid(AdvanceRead(c), size)
    ensures Avail(AdvanceRead(c)) == Avail(c) - 1
    ensures size != 0 && ReadIndex(c) == c.read % size < size
    ensures c.read <= c.write ==> AdvanceRead(c).read <= c.write
  {
    var _ := SizeBound(size);
    MaskedIndex(c.read, size);
  }

  // The FIFO formed with an array

  /** `n` consecutive slots of a ring, beginning at counter value `start`. */
  function Window<T>(slots: seq<T>, start: nat, n: nat): (w: seq<T>)
    requires n > 0 ==> slots != []
    ensures |w| == n
    decreases n
  {
    if n == 0 then [] else [slots[start % |slots|]] + Window(slots, start + 1, n - 1)
  }

  function Contents<T>(c: Cib, slots: seq<T>): (w: seq<T>)
    requires Avail(c) <= |slots|
    ensures |w| == Avail(c)
  {
    Window(slots, c.read, Avail(c))
  }

  lemma {:induction false} WindowAt<T>(slots: seq<T>, start: nat, n: nat, i: nat)
    requires slots != [] && i < n
    ensures Window(slots, start, n)[i] == slots[(start + i) % |slots|]
    decreases n
  {
    if i > 0 {
      WindowAt(slots, start + 1, n - 1, i - 1);
      assert start + 1 + (i - 1) == start + i;
    }
  }

  lemma {:induction false} WindowCongruent<T>(slots: seq<T>, a: nat, b: nat, n: nat)
    requires slots != [] && a % |slots| == b % |slots|
    ensures Window(slots, a, n) == Window(slots, b, n)
    decreases n
  {
    if n > 0 {
      SuccCongruent(a, b, |slots|);
      WindowCongruent(slots, a + 1, b + 1, n - 1);
    }
  }

  lemma SuccCongruent(a: nat, b: nat, d: nat)
    requires d > 0 && a % d == b % d
    ensures (a + 1) % d == (b + 1) % d
  {
    SuccRemainder(a, d);
    SuccRemainder(b, d);
  }

  lemma SuccRemainder(a: nat, d: nat)
    requires d > 0
    ensures (a + 1) % d == if a % d + 1 == d then 0 else a % d + 1
  {
    assert a == d * (a / d) + a % d;
    if a % d + 1 == d {
      assert a + 1 == d * (a / d + 1) + 0 by { assert d * (a / d + 1) == d * (a / d) + d; }
      RemainderIs(a + 1, d, a / d + 1, 0);
    } else {
      RemainderIs(a + 1, d, a / d, a % d + 1);
    }
  }

  /** A put appends: the slot it writes holds no live element. */
  lemma PutAppends<T>(c: Cib, slots: seq<T>, x: T)
    requires Valid(c, |slots|) && !Full(c)
    ensures Valid(AdvanceWrite(c), |slots|) && WriteIndex(c) < |slots|
    ensures Contents(AdvanceWrite(c), slots[WriteIndex(c) := x]) == Contents(c, slots) + [x]
  {
    PutKeepsValid(c, |slots|);
    FullIffAvailIsSize(c, |slots|);
    var n, after := Avail(c), slots[WriteIndex(c) := x];
    WriteSlotIsNext(c, |slots|);
    forall i | 0 <= i <= n
      ensures Window(after, c.read, n + 1)[i] == (Window(slots, c.read, n) + [x])[i]
    {
      WindowAt(after, c.read, n + 1, i);
      if i < n {
        WindowAt(slots, c.read, n, i);
        RemaindersDiffer(c.read + i, c.read + n, |slots|);
      }
    }
  }

  /** Counter values modulo 2^32 and modulo the size agree. */
  lemma WriteSlotIsNext(c: Cib, size: nat)
    requires Valid(c, size) && size != 0
    ensures c.write % size == (c.read + Avail(c)) % size
  {
    if c.write < c.read {
      var q := SizeBound(size);
      assert c.read + Avail(c) == c.write + U32;
      assert c.write + U32 == size * (c.write / size + q) + c.write % size by {
        assert size * (c.write / size + q) == size * (c.write / size) + size * q;
      }
      RemainderIs(c.write + U32, size, c.write / size + q, c.write % size);
    }
  }

  /** A get takes the oldest element. */
  lemma GetTakesHead<T>(c: Cib, slots: seq<T>)
    requires Valid(c, |slots|) && Avail(c) != 0
    ensures Valid(AdvanceRead(c), |slots|) && ReadIndex(c) < |slots|
    ensures Contents(c, slots) == [slots[ReadIndex(c)]] + Contents(AdvanceRead(c), slots)
  {
    GetKeepsValid(c, |slots|);
    WrapKeepsRemainder(c.read, |slots|);
    WindowCongruent(slots, c.read + 1, Inc(c.read), Avail(c) - 1);
  }

  lemma InitIsEmpty(size: nat)
    requires IsSize(size) && size < U32
    ensures Valid(Init(size), size) && Avail(Init(size)) == 0
    ensures size == 0 ==> Full(Init(size))
  {
    if size != 0 { var _ := SizeBound(size); }
  }

  // Runs of guarded unsafe calls

  /** A call of cib_put_unsafe guarded by `!cib_full`, or of cib_get_unsafe
      guarded by `cib_avail`; a call whose guard fails does nothing. */
  datatype Call = PutCall | GetCall

  /** The buffer after the calls, and the slots that puts and gets were given. */
  function Play(c: Cib, calls: seq<Call>): (Cib, seq<nat>, seq<nat>) {
    if calls == [] then (c, [], [])
    else
      var (d, puts, gets) := Play(c, calls[..|calls| - 1]);
      match calls[|calls| - 1]
      case PutCall => if Full(d) then (d, puts, gets) else (AdvanceWrite(d), puts + [WriteIndex(d)], gets)
      case GetCall => if Avail(d) == 0 then (d, puts, gets) else (AdvanceRead(d), puts, gets + [ReadIndex(d)])
  }

  function Iota(n: nat): (s: seq<nat>)
    ensures |s| == n
    ensures forall i :: 0 <= i < n ==> s[i] == i
  {
    if n == 0 then [] else Iota(n - 1) + [n - 1]
  }

  /** The slots in use, oldest first. */
  function Live(c: Cib, size: nat): seq<nat>
    requires Avail(c) <= size
  {
    Contents(c, Iota(size))
  }

  lemma LiveSlotsDiffer(c: Cib, size: nat, i: nat, j: nat)
    requires Valid(c, size) && i < j < Avail(c)
    ensures Live(c, size)[i] != Live(c, size)[j]
  {
    WindowAt(Iota(size), c.read, Avail(c), i);
    WindowAt(Iota(size), c.read, Avail(c), j);
    RemaindersDiffer(c.read + i, c.read + j, size);
  }

  /** Every run from any counter values, across any number of wraps: the slots
      given to gets are those given to puts, in the same order; the rest are
      live, and no live slot is given out twice. */
  lemma {:induction false} GuardedCallsAreFifo(c: Cib, size: nat, calls: seq<Call>)
    requires Valid(c, size) && Avail(c) == 0
    ensures var (d, puts, gets) := Play(c, calls);
            Valid(d, size) && puts == gets + Live(d, size)
    decreases |calls|
  {
    if calls != [] {
      var front := calls[..|calls| - 1];
      GuardedCallsAreFifo(c, size, front);
      var (d, puts, gets) := Play(c, front);
      match calls[|calls| - 1] {
        case PutCall =>
          if !Full(d) {
            PutKeepsValid(d, size);
            PutAppends(d, Iota(size), WriteIndex(d));
            assert Iota(size)[WriteIndex(d) := WriteIndex(d)] == Iota(size);
            assert puts + [WriteIndex(d)] == gets + Live(AdvanceWrite(d), size);
          }
        case GetCall =>
          if Avail(d) != 0 {
            GetKeepsValid(d, size);
            GetTakesHead(d, Iota(size));
            assert puts == gets + [ReadIndex(d)] + Live(AdvanceRead(d), size);
          }
      }
    }
  }
}
