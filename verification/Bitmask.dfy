/** Bitwise operations on non-negative integers, and the sets of positions they stand for. */
module Bitmask {
  function Pow2(n: nat): (p: nat)
    ensures p >= 1
  {
    if n == 0 then 1 else 2 * Pow2(n - 1)
  }

  predicate Bit(n: nat, i: nat) {
    if i == 0 then n % 2 == 1 else Bit(n / 2, i - 1)
  }

  /** a | b */
  function Or(a: nat, b: nat): nat
    decreases a + b
  {
    if a == 0 && b == 0 then 0
    else 2 * Or(a / 2, b / 2) + if a % 2 == 1 || b % 2 == 1 then 1 else 0
  }

  /** a ^ b */
  function Xor(a: nat, b: nat): nat
    decreases a + b
  {
    if a == 0 && b == 0 then 0
    else 2 * Xor(a / 2, b / 2) + if a % 2 != b % 2 then 1 else 0
  }

  /** n.bit_count() */
  function BitCount(n: nat): nat {
    if n == 0 then 0 else n % 2 + BitCount(n / 2)
  }

  function Positions(n: nat, width: nat): set<nat> {
    set i | 0 <= i < width && Bit(n, i)
  }

  lemma {:induction false} ZeroHasNoBits(i: nat)
    ensures !Bit(0, i)
  {
    if i > 0 { ZeroHasNoBits(i - 1); }
  }

  /** Both operations work on the lowest bit and the remaining bits separately. */
  lemma Halves(a: nat, b: nat)
    ensures Or(a, b) / 2 == Or(a / 2, b / 2) && (Or(a, b) % 2 == 1 <==> a % 2 == 1 || b % 2 == 1)
    ensures Xor(a, b) / 2 == Xor(a / 2, b / 2) && (Xor(a, b) % 2 == 1 <==> a % 2 != b % 2)
  {
  }

  lemma {:induction false} OrBit(a: nat, b: nat, i: nat)
    ensures Bit(Or(a, b), i) <==> Bit(a, i) || Bit(b, i)
  {
    Halves(a, b);
    if i > 0 { OrBit(a / 2, b / 2, i - 1); }
  }

  lemma {:induction false} XorBit(a: nat, b: nat, i: nat)
    ensures Bit(Xor(a, b), i) <==> Bit(a, i) != Bit(b, i)
  {
    Halves(a, b);
    if i > 0 { XorBit(a / 2, b / 2, i - 1); }
  }

  lemma {:induction false} OrZero(a: nat)
    ensures Or(a, 0) == a && Xor(a, a) == 0
  {
    if a > 0 { OrZero(a / 2); }
  }

  lemma {:induction false} OrBelow(a: nat, b: nat, width: nat)
    requires a < Pow2(width) && b < Pow2(width)
    ensures Or(a, b) < Pow2(width) && Xor(a, b) < Pow2(width)
  {
    if width > 0 { OrBelow(a / 2, b / 2, width - 1); }
  }

  /** Adding a power of two above every set bit sets exactly that bit. */
  lemma {:induction false} AddTopBit(m: nat, n: nat, i: nat)
    requires m < Pow2(n)
    ensures Bit(m + Pow2(n), i) <==> i == n || Bit(m, i)
  {
    if n == 0 {
      if i > 0 { ZeroHasNoBits(i - 1); }
    } else {
      assert (m + Pow2(n)) / 2 == m / 2 + Pow2(n - 1);
      if i > 0 { AddTopBit(m / 2, n - 1, i - 1); }
    }
  }

  function CountBelow(n: nat, width: nat): nat {
    if width == 0 then 0 else CountBelow(n, width - 1) + if Bit(n, width - 1) then 1 else 0
  }

  lemma {:induction false} CountBelowHalves(n: nat, width: nat)
    requires width > 0
    ensures CountBelow(n, width) == n % 2 + CountBelow(n / 2, width - 1)
  {
    if width > 1 { CountBelowHalves(n, width - 1); }
  }

  lemma {:induction false} CountBelowIsBitCount(n: nat, width: nat)
    requires n < Pow2(width)
    ensures CountBelow(n, width) == BitCount(n)
  {
    if width > 0 {
      CountBelowHalves(n, width);
      CountBelowIsBitCount(n / 2, width - 1);
    }
  }

  lemma {:induction false} CountBelowIsSize(n: nat, width: nat)
    ensures |Positions(n, width)| == CountBelow(n, width)
  {
    if width == 0 {
      assert Positions(n, 0) == {};
    } else {
      CountBelowIsSize(n, width - 1);
      var top: set<nat> := if Bit(n, width - 1) then {width - 1} else {};
      assert Positions(n, width) == Positions(n, width - 1) + top;
    }
  }

  /** The bits that m adds to c: the population count of (c | m) ^ c. */
  function NewBits(c: nat, m: nat): nat {
    BitCount(Xor(Or(c, m), c))
  }

  /** The arithmetic on masks counts a set difference. */
  lemma NewBitsIsDifference(c: nat, m: nat, width: nat)
    requires c < Pow2(width) && m < Pow2(width)
    ensures NewBits(c, m) == |Positions(m, width) - Positions(c, width)|
    ensures Positions(Or(c, m), width) == Positions(c, width) + Positions(m, width)
  {
    OrBelow(c, m, width);
    OrBelow(Or(c, m), c, width);
    var x := Xor(Or(c, m), c);
    CountBelowIsBitCount(x, width);
    CountBelowIsSize(x, width);
    forall i | 0 <= i < width
      ensures Bit(Or(c, m), i) <==> Bit(c, i) || Bit(m, i)
      ensures Bit(x, i) <==> Bit(m, i) && !Bit(c, i)
    {
      OrBit(c, m, i);
      XorBit(Or(c, m), c, i);
    }
    assert Positions(x, width) == Positions(m, width) - Positions(c, width);
  }

  lemma ZeroAddsNothing(c: nat)
    ensures Or(c, 0) == c && NewBits(c, 0) == 0
  {
    OrZero(c);
  }
}
