/** Unsigned words as natural numbers: the bit operations the kernel uses on
    `runqueue_bitcache` and on the masks of circular index buffers, and the
    loop of core/bitarithm.c that selects a run queue. */
module Bits {

  function Pow2(n: nat): (r: nat)
    ensures r > 0
  {
    if n == 0 then 1 else 2 * Pow2(n - 1)
  }

  /** Bit `p` of the word `v`. */
  predicate Bit(v: nat, p: nat) {
    if p == 0 then v % 2 == 1 else Bit(v / 2, p - 1)
  }

  function Or(a: nat, b: nat): nat {
    if a == 0 && b == 0 then 0
    else 2 * Or(a / 2, b / 2) + (if a % 2 == 1 || b % 2 == 1 then 1 else 0)
  }

  function And(a: nat, b: nat): nat {
    if a == 0 || b == 0 then 0
    else 2 * And(a / 2, b / 2) + (if a % 2 == 1 && b % 2 == 1 then 1 else 0)
  }

  /** a & ~b */
  function AndNot(a: nat, b: nat): nat {
    if a == 0 then 0
    else 2 * AndNot(a / 2, b / 2) + (if a % 2 == 1 && b % 2 == 0 then 1 else 0)
  }

  lemma {:induction false} ZeroHasNoBit(p: nat)
    ensures !Bit(0, p)
  {
    if p > 0 { ZeroHasNoBit(p - 1); }
  }

  lemma {:induction false} BitOfOr(a: nat, b: nat, p: nat)
    ensures Bit(Or(a, b), p) <==> Bit(a, p) || Bit(b, p)
  {
    if a == 0 && b == 0 {
      ZeroHasNoBit(p);
    } else if p > 0 {
      BitOfOr(a / 2, b / 2, p - 1);
      assert Or(a, b) / 2 == Or(a / 2, b / 2);
    }
  }

  lemma {:induction false} BitOfAndNot(a: nat, b: nat, p: nat)
    ensures Bit(AndNot(a, b), p) <==> Bit(a, p) && !Bit(b, p)
  {
    if a == 0 {
      ZeroHasNoBit(p);
    } else if p > 0 {
      BitOfAndNot(a / 2, b / 2, p - 1);
      assert AndNot(a, b) / 2 == AndNot(a / 2, b / 2);
    }
  }

  /** `1 << p` has bit `p` and no other. */
  lemma {:induction false} BitOfPow2(p: nat, q: nat)
    ensures Bit(Pow2(p), q) <==> p == q
  {
    if p == 0 {
      if q > 0 { ZeroHasNoBit(q - 1); }
    } else if q > 0 {
      assert Pow2(p) / 2 == Pow2(p - 1);
      BitOfPow2(p - 1, q - 1);
    }
  }

  lemma {:induction false} ABitMakesNonZero(v: nat, p: nat)
    requires Bit(v, p)
    ensures v >= Pow2(p)
  {
    if p > 0 { ABitMakesNonZero(v / 2, p - 1); }
  }

  /** Masking with a power of two minus one is taking the remainder. */
  lemma {:induction false} MaskIsRemainder(x: nat, k: nat)
    ensures And(x, Pow2(k) - 1) == x % Pow2(k)
  {
    if k == 0 {
    } else if x == 0 {
    } else {
      MaskIsRemainder(x / 2, k - 1);
      var h := Pow2(k - 1);
      assert (Pow2(k) - 1) / 2 == h - 1;
      HalfRemainder(x, h);
    }
  }

  lemma HalfRemainder(x: nat, h: nat)
    requires h > 0
    ensures x % (2 * h) == 2 * ((x / 2) % h) + x % 2
  {
    var q := (x / 2) / h;
    var r := (x / 2) % h;
    assert x / 2 == q * h + r;
    assert x == (2 * h) * q + (2 * r + x % 2);
    RemainderIs(x, 2 * h, q, 2 * r + x % 2);
  }

  lemma RemainderIs(x: nat, d: nat, q: int, r: nat)
    requires d > 0 && r < d && x == d * q + r
    ensures x % d == r
  {
    var e := q - x / d;
    assert d * e == x % d - r by {
      assert x == d * (x / d) + x % d;
      assert d * e == d * q - d * (x / d);
    }
    MultipleIsFar(d, e);
  }

  lemma MultipleIsFar(d: int, e: int)
    requires d > 0
    ensures e >= 1 ==> d * e >= d
    ensures e <= -1 ==> d * e <= -d
  {
    if e >= 1 {
      assert d * e == d + d * (e - 1);
    } else if e <= -1 {
      assert d * e == -d + d * (e + 1);
    }
  }

  /** The position of the lowest set bit. */
  ghost function Lowest(v: nat): nat
    requires v != 0
  {
    if v % 2 == 1 then 0 else 1 + Lowest(v / 2)
  }

  lemma {:induction false} LowestIsLowest(v: nat)
    requires v != 0
    ensures Bit(v, Lowest(v))
    ensures forall q :: 0 <= q < Lowest(v) ==> !Bit(v, q)
  {
    if v % 2 == 0 {
      LowestIsLowest(v / 2);
      forall q | 0 <= q < Lowest(v)
        ensures !Bit(v, q)
      {
        if q > 0 { assert !Bit(v / 2, q - 1); }
      }
    }
  }

  /** core/bitarithm.c, bitarithm_lsb. The loop stops because some bit is set. */
  method Lsb(v: nat) returns (r: nat)
    requires v != 0
    ensures Bit(v, r)
    ensures forall q :: 0 <= q < r ==> !Bit(v, q)
  {
    var x := v;
    r := 0;
    while x % 2 == 0
      invariant x != 0
      invariant r + Lowest(x) == Lowest(v)
      decreases x
    {
      x := x / 2;
      r := r + 1;
    }
    LowestIsLowest(v);
  }
}
