/**
 CRC-32 by table, against the bit-serial shift register of section 8 of RFC 1952:
 one message bit at a time, least significant bit first.  Words are unsigned
 integers; exclusive-or is that of Bits, shifts and masks are those of Shifts.
 */
module Crc {
  import opened Bits
  import opened Shifts

  const POLY: nat := 0xedb88320
  const ONES: nat := 0xffffffff

  type Word = x: nat | x < 0x1_0000_0000
  type Octet = x: nat | x < 256

  // ---- reference: the shift register -------------------------------------------------------

  /** Feed one message bit to the register. */
  function Feed(c: nat, bit: nat): nat {
    if c % 2 != bit then Xor(POLY, c / 2) else c / 2
  }

  /** The low k bits of b, lowest first. */
  function FeedBits(c: nat, b: nat, k: nat): nat
    decreases k, b
  {
    if k == 0 then c else FeedBits(Feed(c, b % 2), b / 2, k - 1)
  }

  const OCTET_BITS: nat := 8

  function FeedOctet(c: nat, b: Octet): nat { FeedBits(c, b, OCTET_BITS) }

  function Serial(c: nat, data: seq<Octet>): nat
    decreases |data|
  {
    if data == [] then c else Serial(FeedOctet(c, data[0]), data[1..])
  }

  /** Feeding a concatenation is feeding the parts in turn. */
  lemma {:induction false} SerialConcat(c: nat, a: seq<Octet>, b: seq<Octet>)
    ensures Serial(c, a + b) == Serial(Serial(c, a), b)
    decreases |a|
  {
    if a == [] {
      assert a + b == b;
    } else {
      assert (a + b)[1..] == a[1..] + b;
      SerialConcat(FeedOctet(c, a[0]), a[1..], b);
    }
  }

  // ---- exclusive-or --------------------------------------------------------------------------

  lemma {:induction false} XorZero(a: nat)
    ensures Xor(a, 0) == a == Xor(0, a)
  {
    if a > 0 { XorZero(a / 2); }
  }

  lemma {:induction false} XorAssoc(a: nat, b: nat, c: nat)
    ensures Xor(Xor(a, b), c) == Xor(a, Xor(b, c))
    decreases a + b + c
  {
    if a + b + c > 0 {
      XorAssoc(a / 2, b / 2, c / 2);
      XorHalf(a, b);
      XorHalf(b, c);
      XorHalf(Xor(a, b), c);
      XorHalf(a, Xor(b, c));
    }
  }

  lemma {:induction false} XorBound(a: nat, b: nat, k: nat)
    requires a < Pow2(k) && b < Pow2(k)
    ensures Xor(a, b) < Pow2(k)
    decreases k
  {
    if k > 0 { XorBound(a / 2, b / 2, k - 1); }
  }

  // ---- one table look-up does eight steps ------------------------------------------------------

  /** One step of the loop that computes a table entry. */
  function Step(c: nat): nat { if c % 2 == 1 then Xor(POLY, c / 2) else c / 2 }

  function Steps(c: nat, k: nat): nat
    decreases k
  {
    if k == 0 then c else Steps(Step(c), k - 1)
  }

  lemma StepSplit(c: nat, b: nat)
    ensures Step(Xor(c, b)) == Xor(Feed(c, b % 2), b / 2)
  {
    XorHalf(c, b);
    XorAssoc(POLY, c / 2, b / 2);
  }

  /** Stepping the register with the pending bits in it feeds the bits. */
  lemma {:induction false} StepsFeed(c: nat, b: nat, k: nat)
    ensures Steps(Xor(c, b), k) == Xor(FeedBits(c, b, k), Shr(b, k))
    decreases k
  {
    if k > 0 {
      StepSplit(c, b);
      StepsFeed(Feed(c, b % 2), b / 2, k - 1);
    }
  }

  lemma FeedFirst(c: nat, a: nat, h: nat, k: nat)
    requires k > 0
    ensures FeedBits(c, a + 2 * h, k) == FeedBits(Feed(c, a % 2), a / 2 + h, k - 1)
  {
    assert (a + 2 * h) % 2 == a % 2 && (a + 2 * h) / 2 == a / 2 + h;
  }

  lemma {:induction false} FeedZeros(c: nat, q: nat, k: nat)
    ensures FeedBits(c, Pow2(k) * q, k) == Steps(c, k)
    decreases k
  {
    if k > 0 {
      PowTimes(k - 1, q);
      FeedFirst(c, 0, Pow2(k - 1) * q, k);
      FeedZeros(Step(c), q, k - 1);
    }
  }

  /** Words without a common digit: exclusive-or adds them. */
  lemma {:induction false} XorAdds(low: nat, high: nat, q: nat, k: nat)
    requires low < Pow2(k) && high == Pow2(k) * q
    ensures Xor(low, high) == low + high
    decreases k
  {
    if k == 0 {
      XorZero(high);
    } else {
      var half := Pow2(k - 1) * q;
      assert high == 2 * half;
      XorAdds(low / 2, half, q, k - 1);
      XorHalf(low, high);
    }
  }

  /** The steps of the low bits and the shifted rest add up. */
  lemma StepsParts(low: nat, high: nat, q: nat, k: nat)
    requires low < Pow2(k) && high == Pow2(k) * q
    ensures Steps(low + high, k) == Xor(Steps(low, k), q)
  {
    XorAdds(low, high, q, k);
    StepsFeed(low, high, k);
    FeedZeros(low, q, k);
    ShrIsDiv(high, k);
    DivUnique(high, Pow2(k), q, 0);
  }

  lemma Euclid(c: nat, p: nat)
    requires p > 0
    ensures c % p < p && c >= c % p && c - c % p == p * (c / p)
  {
  }

  lemma StepsSplit(c: nat, k: nat)
    ensures Steps(c, k) == Xor(Steps(c % Pow2(k), k), Shr(c, k))
  {
    Euclid(c, Pow2(k));
    var low, q := c % Pow2(k), c / Pow2(k);
    StepsParts(low, c - low, q, k);
    ShrIsDiv(c, k);
  }

  lemma {:induction false} ShrXor(c: nat, b: nat, k: nat)
    ensures Shr(Xor(c, b), k) == Xor(Shr(c, k), Shr(b, k))
    decreases k
  {
    if k > 0 {
      XorHalf(c, b);
      ShrXor(c / 2, b / 2, k - 1);
    }
  }

  /** What one iteration of the fast loop does, with k bits to a table index. */
  lemma TableStep(c: nat, b: nat, k: nat)
    requires b < Pow2(k)
    ensures Xor(Steps(Xor(c, b) % Pow2(k), k), Shr(c, k)) == FeedBits(c, b, k)
  {
    StepsFeed(c, b, k);
    ShrIsDiv(b, k);
    DivUnique(b, Pow2(k), 0, b);
    XorZero(FeedBits(c, b, k));
    StepsSplit(Xor(c, b), k);
    ShrXor(c, b, k);
    XorZero(Shr(c, k));
  }

  /** Exclusive-or with all ones complements. */
  lemma {:induction false} XorOnes(c: nat, k: nat)
    requires c < Pow2(k)
    ensures Xor(c, Pow2(k) - 1) == Pow2(k) - 1 - c
    decreases k
  {
    if k > 0 {
      XorOnes(c / 2, k - 1);
      assert (Pow2(k) - 1) / 2 == Pow2(k - 1) - 1;
      XorHalf(c, Pow2(k) - 1);
    }
  }

  lemma Pow32()
    ensures Pow2(32) == 0x1_0000_0000
  {
    assert Pow2(8) == 256;
    Pow2Sum(8, 8);
    Pow2Sum(16, 16);
  }

  lemma StepIsWord(c: nat)
    requires c < 0x1_0000_0000
    ensures Step(c) < 0x1_0000_0000
  {
    Pow32();
    XorBound(POLY, c / 2, 32);
  }

  // ---- what the register computes: a remainder ---------------------------------------------------

  // A polynomial over GF(2) is the number whose digit k is its coefficient of x^k: addition is
  // exclusive-or, and multiplication by x^k is multiplication by Pow2(k).

  /** The generator polynomial, power by power. */
  const GENERATOR: nat :=
    Pow2(32) + Pow2(26) + Pow2(23) + Pow2(22) + Pow2(16) + Pow2(12) + Pow2(11) + Pow2(10)
    + Pow2(8) + Pow2(7) + Pow2(5) + Pow2(4) + Pow2(2) + Pow2(1) + Pow2(0)

  /** The product of two polynomials. */
  function Times(p: nat, q: nat): nat
    decreases p
  {
    if p == 0 then 0 else Xor(2 * Times(p / 2, q), if p % 2 == 1 then q else 0)
  }

  /** Division of p by g, a polynomial of degree n, leaves r. */
  ghost predicate Leaves(p: nat, g: nat, n: nat, r: nat) {
    r < Pow2(n) && exists q: nat :: p == Xor(Times(q, g), r)
  }

  /** The low k digits of c in reverse: digit i stands for x^(k - 1 - i). */
  function Reflected(c: nat, k: nat): nat
    decreases k
  {
    if k == 0 then 0 else (if c % 2 == 1 then Pow2(k - 1) else 0) + Reflected(c / 2, k - 1)
  }

  /** The low k bits of b, lowest first, behind m. */
  function Appended(m: nat, b: nat, k: nat): nat
    decreases k, b
  {
    if k == 0 then m else Appended(2 * m + b % 2, b / 2, k - 1)
  }

  /** A buffer as a polynomial: the bits in the order in which they travel, the first one highest. */
  function Message(data: seq<Octet>): nat {
    if data == [] then 0 else Appended(Message(data[..|data| - 1]), data[|data| - 1], OCTET_BITS)
  }

  lemma LargePowers()
    ensures Pow2(16) == 0x1_0000 && Pow2(22) == 0x40_0000 && Pow2(23) == 0x80_0000 && Pow2(26) == 0x400_0000
  {
    assert Pow2(8) == 256 && Pow2(6) == 64 && Pow2(7) == 128 && Pow2(10) == 1024;
    Pow2Sum(8, 8);
    Pow2Sum(16, 6);
    Pow2Sum(16, 7);
    Pow2Sum(16, 10);
  }

  lemma SmallPowers()
    ensures Pow2(12) + Pow2(11) + Pow2(10) + Pow2(8) + Pow2(7) == 0x1d80
    ensures Pow2(5) + Pow2(4) + Pow2(2) + Pow2(1) + Pow2(0) == 0x37
  {
    assert Pow2(5) == 32 && Pow2(4) == 16 && Pow2(2) == 4 && Pow2(1) == 2;
    assert Pow2(7) == 128 && Pow2(8) == 256 && Pow2(10) == 1024 && Pow2(11) == 2048 && Pow2(12) == 4096;
  }

  lemma GeneratorIs()
    ensures GENERATOR == 0x1_04c1_1db7
  {
    LargePowers();
    Pow32();
    SmallPowers();
  }

  // ---- products ---------------------------------------------------------------------------------

  lemma {:induction false} XorSym(a: nat, b: nat)
    ensures Xor(a, b) == Xor(b, a)
    decreases a + b
  {
    if a + b > 0 { XorSym(a / 2, b / 2); }
  }

  lemma {:induction false} XorSelf(a: nat)
    ensures Xor(a, a) == 0
  {
    if a > 0 { XorSelf(a / 2); }
  }

  lemma XorDouble(a: nat, b: nat)
    ensures Xor(2 * a, 2 * b) == 2 * Xor(a, b)
  {
    XorHalf(2 * a, 2 * b);
  }

  /** (a + b) + (c + d) == (a + c) + (b + d). */
  lemma XorFour(a: nat, b: nat, c: nat, d: nat)
    ensures Xor(Xor(a, b), Xor(c, d)) == Xor(Xor(a, c), Xor(b, d))
  {
    XorAssoc(a, b, Xor(c, d));
    XorAssoc(b, c, d);
    XorSym(b, c);
    XorAssoc(c, b, d);
    XorAssoc(a, c, Xor(b, d));
  }

  lemma {:induction false} TimesSum(p: nat, q: nat, g: nat)
    ensures Times(Xor(p, q), g) == Xor(Times(p, g), Times(q, g))
    decreases p + q
  {
    XorZero(p);
    XorZero(q);
    XorZero(Times(p, g));
    XorZero(Times(q, g));
    if p > 0 && q > 0 {
      TimesSum(p / 2, q / 2, g);
      XorHalf(p, q);
      XorDouble(Times(p / 2, g), Times(q / 2, g));
      var a, b := if p % 2 == 1 then g else 0, if q % 2 == 1 then g else 0;
      XorFour(2 * Times(p / 2, g), a, 2 * Times(q / 2, g), b);
      XorSelf(g);
      XorZero(g);
      XorZero(0);
      TimesHalf(Xor(p, q), g);
    }
  }

  lemma TimesHalf(p: nat, g: nat)
    ensures Times(p, g) == Xor(2 * Times(p / 2, g), if p % 2 == 1 then g else 0)
  {
    XorZero(0);
  }

  lemma TimesDouble(p: nat, g: nat)
    ensures Times(2 * p, g) == 2 * Times(p, g)
  {
    TimesHalf(2 * p, g);
    XorZero(2 * Times(p, g));
  }

  lemma XorTwice(a: nat, b: nat)
    ensures Xor(Xor(a, b), b) == a
  {
    XorAssoc(a, b, b);
    XorSelf(b);
    XorZero(a);
  }

  lemma XorTop(a: nat, b: nat, k: nat)
    requires Pow2(k) <= a < Pow2(k + 1) && b < Pow2(k)
    ensures Pow2(k) <= Xor(a, b) < Pow2(k + 1)
  {
    XorBound(a, b, k + 1);
    if Xor(a, b) < Pow2(k) {
      XorBound(Xor(a, b), b, k);
      XorTwice(a, b);
    }
  }

  /** The degree of a product is the sum of the degrees. */
  lemma {:induction false} TimesSize(p: nat, k: nat, g: nat, n: nat)
    requires Pow2(k) <= p < Pow2(k + 1) && Pow2(n) <= g < Pow2(n + 1)
    ensures Pow2(n + k) <= Times(p, g) < Pow2(n + k + 1)
    decreases k
  {
    TimesHalf(p, g);
    if k == 0 {
      XorZero(g);
    } else {
      TimesSize(p / 2, k - 1, g, n);
      Pow2Grows(n + 1, n + k);
      XorTop(2 * Times(p / 2, g), if p % 2 == 1 then g else 0, n + k);
    }
  }

  lemma {:induction false} Degree(p: nat) returns (k: nat)
    requires p > 0
    ensures Pow2(k) <= p < Pow2(k + 1)
  {
    if p == 1 {
      k := 0;
    } else {
      k := Degree(p / 2);
      k := k + 1;
    }
  }

  lemma SameSum(t: nat, r: nat, t': nat, r': nat)
    requires Xor(t, r) == Xor(t', r')
    ensures Xor(t, t') == Xor(r, r')
  {
    XorFour(t, r, t', r');
    XorSelf(Xor(t, r));
    XorTwice(Xor(t, t'), Xor(r, r'));
    XorZero(Xor(r, r'));
  }

  lemma SumZero(a: nat, b: nat)
    requires Xor(a, b) == 0
    ensures a == b
  {
    XorTwice(a, b);
    XorZero(b);
  }

  /** A multiple of g that is smaller than g is zero. */
  lemma SmallMultiple(q: nat, g: nat, n: nat)
    requires Pow2(n) <= g < Pow2(n + 1) && Times(q, g) < Pow2(n)
    ensures Times(q, g) == 0
  {
    if q > 0 {
      var k := Degree(q);
      TimesSize(q, k, g, n);
      Pow2Grows(n, n + k);
    }
  }

  /** There is one remainder only. */
  lemma OneRemainder(p: nat, g: nat, n: nat, r: nat, r': nat)
    requires Pow2(n) <= g < Pow2(n + 1) && Leaves(p, g, n, r) && Leaves(p, g, n, r')
    ensures r == r'
  {
    var q: nat :| p == Xor(Times(q, g), r);
    var q': nat :| p == Xor(Times(q', g), r');
    SameSum(Times(q, g), r, Times(q', g), r');
    TimesSum(q, q', g);
    XorBound(r, r', n);
    SmallMultiple(Xor(q, q'), g, n);
    SumZero(r, r');
  }

  // ---- one bit at a time ----------------------------------------------------------------------------

  lemma LeavesMore(p: nat, g: nat, n: nat, r: nat, m: nat)
    requires Leaves(p, g, n, r) && m < Pow2(n)
    ensures Leaves(Xor(p, m), g, n, Xor(r, m))
  {
    var q: nat :| p == Xor(Times(q, g), r);
    XorAssoc(Times(q, g), r, m);
    XorBound(r, m, n);
  }

  /** The remainder of twice the polynomial. */
  function Shifted(r: nat, g: nat, n: nat): nat { if 2 * r >= Pow2(n) then Xor(2 * r, g) else 2 * r }

  /** The highest digits of two numbers cancel. */
  lemma TopsCancel(a: nat, b: nat, k: nat)
    requires a < Pow2(k) && b < Pow2(k)
    ensures Xor(Pow2(k) + a, Pow2(k) + b) == Xor(a, b)
  {
    XorAdds(a, Pow2(k), 1, k);
    XorAdds(b, Pow2(k), 1, k);
    XorFour(a, Pow2(k), b, Pow2(k));
    XorSelf(Pow2(k));
    XorZero(Xor(a, b));
  }

  /** One more multiple of g does not matter. */
  lemma OneMore(t: nat, r: nat, g: nat)
    ensures Xor(Xor(t, g), Xor(r, g)) == Xor(t, r)
  {
    XorFour(t, g, r, g);
    XorSelf(g);
    XorZero(Xor(t, r));
  }

  lemma ShiftedBound(r: nat, g: nat, n: nat)
    requires r < Pow2(n) && Pow2(n) <= g < Pow2(n + 1)
    ensures Shifted(r, g, n) < Pow2(n)
  {
    if 2 * r >= Pow2(n) {
      var a, b := 2 * r - Pow2(n), g - Pow2(n);
      TopsCancel(a, b, n);
      XorBound(a, b, n);
    }
  }

  lemma LeavesBy(p: nat, g: nat, n: nat, q: nat, r: nat)
    requires r < Pow2(n) && p == Xor(Times(q, g), r)
    ensures Leaves(p, g, n, r)
  {
  }

  lemma ShiftedSum(p: nat, t: nat, r: nat, g: nat, n: nat)
    requires p == Xor(t, r)
    ensures 2 * p == Xor(if 2 * r >= Pow2(n) then Xor(2 * t, g) else 2 * t, Shifted(r, g, n))
  {
    XorDouble(t, r);
    OneMore(2 * t, 2 * r, g);
  }

  lemma LeavesShifted(p: nat, g: nat, n: nat, r: nat)
    requires Leaves(p, g, n, r) && Pow2(n) <= g < Pow2(n + 1)
    ensures Leaves(2 * p, g, n, Shifted(r, g, n))
  {
    var q: nat :| p == Xor(Times(q, g), r);
    var t := Times(q, g);
    ShiftedBound(r, g, n);
    ShiftedSum(p, t, r, g, n);
    TimesDouble(q, g);
    if 2 * r >= Pow2(n) {
      TimesOdd(q, g);
      LeavesBy(2 * p, g, n, 2 * q + 1, Shifted(r, g, n));
    } else {
      LeavesBy(2 * p, g, n, 2 * q, Shifted(r, g, n));
    }
  }

  lemma TimesOdd(p: nat, g: nat)
    ensures Times(2 * p + 1, g) == Xor(2 * Times(p, g), g)
  {
    assert (2 * p + 1) / 2 == p && (2 * p + 1) % 2 == 1;
  }

  lemma {:induction false} ReflectedBound(c: nat, k: nat)
    ensures Reflected(c, k) < Pow2(k)
    decreases k
  {
    if k > 0 { ReflectedBound(c / 2, k - 1); }
  }

  /** The highest digit of a reflected number and the rest of it. */
  lemma ReflectedParts(c: nat, k: nat)
    requires k > 0
    ensures Reflected(c, k) == Xor(Reflected(c / 2, k - 1), if c % 2 == 1 then Pow2(k - 1) else 0)
  {
    ReflectedBound(c / 2, k - 1);
    XorAdds(Reflected(c / 2, k - 1), Pow2(k - 1), 1, k - 1);
    XorZero(Reflected(c / 2, k - 1));
  }

  lemma XorTops(a: bool, b: bool, p: nat)
    ensures Xor(if a then p else 0, if b then p else 0) == if a != b then p else 0
  {
    XorSelf(p);
    XorZero(p);
    XorZero(0);
  }

  lemma {:induction false} ReflectedXor(a: nat, b: nat, k: nat)
    ensures Reflected(Xor(a, b), k) == Xor(Reflected(a, k), Reflected(b, k))
    decreases k
  {
    if k == 0 {
      XorZero(0);
    } else {
      var p := Pow2(k - 1);
      ReflectedXor(a / 2, b / 2, k - 1);
      XorHalf(a, b);
      ReflectedParts(a, k);
      ReflectedParts(b, k);
      ReflectedParts(Xor(a, b), k);
      XorFour(Reflected(a / 2, k - 1), if a % 2 == 1 then p else 0,
              Reflected(b / 2, k - 1), if b % 2 == 1 then p else 0);
      XorTops(a % 2 == 1, b % 2 == 1, p);
    }
  }

  lemma {:induction false} ReflectedShort(c: nat, k: nat)
    requires c < Pow2(k)
    ensures Reflected(c, k + 1) == 2 * Reflected(c, k)
    decreases k
  {
    if k > 0 { ReflectedShort(c / 2, k - 1); }
  }

  lemma ShiftedTop(low: nat, g: nat, n: nat)
    requires n > 0 && low < Pow2(n - 1) && Pow2(n) <= g < Pow2(n + 1)
    ensures Shifted(Xor(low, Pow2(n - 1)), g, n) == Xor(g - Pow2(n), 2 * low)
  {
    XorAdds(low, Pow2(n - 1), 1, n - 1);
    var b := g - Pow2(n);
    TopsCancel(2 * low, b, n);
    XorSym(b, 2 * low);
  }

  /** Adding a message bit in front and shifting is what the register does, seen from the other end. */
  lemma StepReflected(c: nat, bit: bool, poly: nat, g: nat, n: nat)
    requires n > 0 && c < Pow2(n) && Pow2(n) <= g < Pow2(n + 1) && Reflected(poly, n) == g - Pow2(n)
    ensures Reflected(if (c % 2 == 1) != bit then Xor(poly, c / 2) else c / 2, n) ==
            Shifted(Xor(Reflected(c, n), if bit then Pow2(n - 1) else 0), g, n)
  {
    var low, top := Reflected(c / 2, n - 1), Pow2(n - 1);
    ReflectedParts(c, n);
    ReflectedBound(c / 2, n - 1);
    ReflectedShort(c / 2, n - 1);
    XorAssoc(low, if c % 2 == 1 then top else 0, if bit then top else 0);
    XorTops(c % 2 == 1, bit, top);
    if (c % 2 == 1) != bit {
      ReflectedXor(poly, c / 2, n);
      ShiftedTop(low, g, n);
    } else {
      XorZero(low);
    }
  }

  lemma {:induction false} ReflectedZero(n: nat)
    ensures Reflected(0, n) == 0
  {
    if n > 0 { ReflectedZero(n - 1); }
  }

  /** Digit i becomes digit n - 1 - i. */
  lemma {:induction false} ReflectedDigit(low: nat, i: nat, n: nat)
    requires low < Pow2(i) && i < n
    ensures Reflected(low + Pow2(i), n) == Reflected(low, n) + Pow2(n - 1 - i)
    decreases i
  {
    if i == 0 {
      ReflectedZero(n - 1);
    } else {
      ReflectedDigit(low / 2, i - 1, n - 1);
    }
  }

  /** One more digit at the low end. */
  lemma OneDigit(c: nat, d: bool, k: nat, r: nat, p: nat)
    requires Reflected(c, k) == r && Pow2(k) == p
    ensures Reflected(2 * c + if d then 1 else 0, k + 1) == r + (if d then p else 0) && Pow2(k + 1) == 2 * p
  {
  }

  function Number(d3: bool, d2: bool, d1: bool, d0: bool): nat {
    (if d3 then 8 else 0) + (if d2 then 4 else 0) + (if d1 then 2 else 0) + if d0 then 1 else 0
  }

  lemma TwoDigits(c: nat, d1: bool, d0: bool, k: nat, r: nat, p: nat)
    requires Reflected(c, k) == r && Pow2(k) == p
    ensures Reflected(4 * c + Number(false, false, d1, d0), k + 2) ==
            r + (if d1 then p else 0) + if d0 then 2 * p else 0
    ensures Pow2(k + 2) == 4 * p
  {
    OneDigit(c, d1, k, r, p);
    OneDigit(2 * c + if d1 then 1 else 0, d0, k + 1, r + if d1 then p else 0, 2 * p);
  }

  /** Four more digits at the low end. */
  lemma FourDigits(c: nat, d3: bool, d2: bool, d1: bool, d0: bool, k: nat, r: nat, p: nat)
    requires Reflected(c, k) == r && Pow2(k) == p
    ensures Reflected(16 * c + Number(d3, d2, d1, d0), k + 4) ==
            r + (if d3 then p else 0) + (if d2 then 2 * p else 0) + (if d1 then 4 * p else 0) + if d0 then 8 * p else 0
    ensures Pow2(k + 4) == 16 * p
  {
    TwoDigits(c, d3, d2, k, r, p);
    var c2, r2 := 4 * c + Number(false, false, d3, d2), r + (if d3 then p else 0) + if d2 then 2 * p else 0;
    TwoDigits(c2, d1, d0, k + 2, r2, 4 * p);
  }

  lemma HighHalf(k: nat)
    requires k == 0
    ensures Reflected(0xedb8, k + 16) == 0x1db7 && Pow2(k + 16) == 0x1_0000
  {
    FourDigits(0, true, true, true, false, k, 0, 1);
    FourDigits(0xe, true, true, false, true, k + 4, 0x7, 0x10);
    FourDigits(0xed, true, false, true, true, k + 8, 0xb7, 0x100);
    FourDigits(0xedb, true, false, false, false, k + 12, 0xdb7, 0x1000);
  }

  /** The constant of the code is the generator without its highest power, in reverse. */
  lemma PolyReflected(k: nat)
    requires k == 0
    ensures Reflected(POLY, k + 32) == 0x4c1_1db7
  {
    HighHalf(k);
    FourDigits(0xedb8, true, false, false, false, k + 16, 0x1db7, 0x1_0000);
    FourDigits(0xe_db88, false, false, true, true, k + 20, 0x1_1db7, 0x10_0000);
    FourDigits(0xed_b883, false, false, true, false, k + 24, 0xc1_1db7, 0x100_0000);
    FourDigits(0xedb_8832, false, false, false, false, k + 28, 0x4c1_1db7, 0x1000_0000);
  }

  /** g has degree n, and the constant of the code is the rest of it in reverse. */
  ghost predicate Divisor(g: nat, n: nat) {
    n > 0 && Pow2(n) <= g < Pow2(n + 1) && POLY < Pow2(n) && Reflected(POLY, n) == g - Pow2(n)
  }

  lemma FeedLeaves(p: nat, c: nat, bit: nat, g: nat, n: nat)
    requires Divisor(g, n) && c < Pow2(n) && bit < 2 && Leaves(p, g, n, Reflected(c, n))
    ensures Feed(c, bit) < Pow2(n)
    ensures Leaves(2 * Xor(p, if bit == 1 then Pow2(n - 1) else 0), g, n, Reflected(Feed(c, bit), n))
  {
    var m := if bit == 1 then Pow2(n - 1) else 0;
    LeavesMore(p, g, n, Reflected(c, n), m);
    LeavesShifted(Xor(p, m), g, n, Xor(Reflected(c, n), m));
    StepReflected(c, bit == 1, POLY, g, n);
    XorBound(POLY, c / 2, n);
  }

  /** What is divided: the register's own polynomial times x^k, and the message times x^n. */
  function Dividend(r: nat, k: nat, m: nat, n: nat): nat { Xor(Pow2(k) * r, Pow2(n) * m) }

  lemma PowTimes(k: nat, r: nat)
    ensures Pow2(k + 1) * r == 2 * (Pow2(k) * r)
  {
    Twice(Pow2(k), r);
  }

  lemma Twice(a: nat, b: nat)
    ensures 2 * a * b == 2 * (a * b) && a * (2 * b) == 2 * (a * b)
  {
  }

  lemma PowMore(n: nat, m: nat, bit: nat)
    requires bit < 2 && n > 0
    ensures Pow2(n) * (2 * m + bit) == 2 * (Pow2(n) * m + if bit == 1 then Pow2(n - 1) else 0)
  {
    Twice(Pow2(n), m);
    assert Pow2(n) * (2 * m + bit) == Pow2(n) * (2 * m) + Pow2(n) * bit;
  }

  lemma SumMore(a: nat, b: nat, c: nat, m: nat, n: nat)
    requires c < Pow2(n) && b == Pow2(n) * m
    ensures Xor(2 * a, 2 * (b + c)) == 2 * Xor(Xor(a, b), c)
  {
    XorAdds(c, b, m, n);
    XorSym(b, c);
    XorAssoc(a, b, c);
    XorDouble(a, b + c);
  }

  lemma DividendOn(r: nat, k: nat, m: nat, bit: nat, n: nat)
    requires bit < 2 && n > 0
    ensures Dividend(r, k + 1, 2 * m + bit, n) ==
            2 * Xor(Dividend(r, k, m, n), if bit == 1 then Pow2(n - 1) else 0)
  {
    PowTimes(k, r);
    PowMore(n, m, bit);
    SumMore(Pow2(k) * r, Pow2(n) * m, if bit == 1 then Pow2(n - 1) else 0, m, n);
  }

  /** The register c is the remainder. */
  ghost predicate Holds(r: nat, k: nat, m: nat, c: nat, g: nat, n: nat) {
    c < Pow2(n) && Leaves(Dividend(r, k, m, n), g, n, Reflected(c, n))
  }

  lemma HoldsOn(r: nat, k: nat, m: nat, c: nat, bit: nat, g: nat, n: nat)
    requires Divisor(g, n) && bit < 2 && Holds(r, k, m, c, g, n)
    ensures Holds(r, k + 1, 2 * m + bit, Feed(c, bit), g, n)
  {
    FeedLeaves(Dividend(r, k, m, n), c, bit, g, n);
    DividendOn(r, k, m, bit, n);
  }

  /** Feeding k bits. */
  lemma {:induction false} BitsHold(r: nat, j: nat, m: nat, c: nat, b: nat, k: nat, g: nat, n: nat)
    requires Divisor(g, n) && Holds(r, j, m, c, g, n)
    ensures Holds(r, j + k, Appended(m, b, k), FeedBits(c, b, k), g, n)
    decreases k
  {
    if k > 0 {
      HoldsOn(r, j, m, c, b % 2, g, n);
      BitsHold(r, j + 1, 2 * m + b % 2, Feed(c, b % 2), b / 2, k - 1, g, n);
    }
  }

  lemma StartHolds(c: nat, g: nat, n: nat)
    requires c < Pow2(n)
    ensures Holds(Reflected(c, n), 0, 0, c, g, n)
  {
    var r := Reflected(c, n);
    ReflectedBound(c, n);
    XorZero(r);
    LeavesBy(r, g, n, 0, r);
  }

  lemma {:induction false} SerialHolds(c: nat, data: seq<Octet>, g: nat, n: nat)
    requires Divisor(g, n) && c < Pow2(n)
    ensures Holds(Reflected(c, n), 8 * |data|, Message(data), Serial(c, data), g, n)
    decreases |data|
  {
    var r := Reflected(c, n);
    if data == [] {
      StartHolds(c, g, n);
    } else {
      var k := |data| - 1;
      var front, m, c' := data[..k], Message(data[..k]), Serial(c, data[..k]);
      SerialHolds(c, front, g, n);
      OctetHolds(r, 8 * k, m, c', data[k], g, n);
      SerialLast(c, data, k);
    }
  }

  lemma SerialLast(c: nat, data: seq<Octet>, k: nat)
    requires |data| == k + 1
    ensures Serial(c, data) == FeedOctet(Serial(c, data[..k]), data[k])
  {
    assert data == data[..k] + [data[k]];
    SerialConcat(c, data[..k], [data[k]]);
    SerialFirst(Serial(c, data[..k]), data[k], []);
  }

  lemma SerialFirst(c: nat, b: Octet, rest: seq<Octet>)
    ensures Serial(c, [b] + rest) == Serial(FeedOctet(c, b), rest)
  {
    assert ([b] + rest)[1..] == rest;
  }

  lemma OctetHolds(r: nat, j: nat, m: nat, c: nat, b: Octet, g: nat, n: nat)
    requires Divisor(g, n) && Holds(r, j, m, c, g, n)
    ensures Holds(r, j + 8, Appended(m, b, OCTET_BITS), FeedOctet(c, b), g, n)
  {
    BitsHold(r, j, m, c, b, OCTET_BITS, g, n);
  }

  lemma Generator(n: nat)
    requires n == 32
    ensures Divisor(GENERATOR, n)
  {
    GeneratorIs();
    Pow32();
    PolyReflected(0);
  }

  /**
   What the CRC is.  The register after a buffer is, in reverse, the remainder that
   the generator leaves of the message times x^32, with the register before it
   added to the first 32 coefficients.
   */
  lemma SerialRemainder(c: Word, data: seq<Octet>)
    ensures Leaves(Dividend(Reflected(c, 32), 8 * |data|, Message(data), 32), GENERATOR, 32,
                   Reflected(Serial(c, data), 32))
  {
    var n := 32;
    Generator(n);
    Pow32();
    SerialHolds(c, data, GENERATOR, n);
  }

  // ---- a buffer followed by its CRC -----------------------------------------------------------------

  lemma {:induction false} FeedMore(c: nat, b: nat, j: nat, k: nat)
    ensures FeedBits(c, b, j + k) == FeedBits(FeedBits(c, b, j), Shr(b, j), k)
    decreases j
  {
    if j > 0 { FeedMore(Feed(c, b % 2), b / 2, j - 1, k); }
  }

  /** Only the low k bits are fed. */
  lemma {:induction false} FeedLow(c: nat, a: nat, x: nat, y: nat, k: nat)
    requires y == Pow2(k) * x
    ensures FeedBits(c, a + y, k) == FeedBits(c, a, k)
    decreases k
  {
    if k > 0 {
      var h := Pow2(k - 1) * x;
      PowTimes(k - 1, x);
      FeedFirst(c, a, h, k);
      FeedFirst(c, a, 0, k);
      FeedLow(Feed(c, a % 2), a / 2, x, h, k - 1);
    }
  }

  /** The k octets of b, lowest first. */
  function Octets(b: nat, k: nat): seq<Octet> {
    if k == 0 then [] else [b % 256] + Octets(b / 256, k - 1)
  }

  lemma BitsSplit(c: nat, low: nat, high: nat, p: nat, j: nat, k: nat)
    requires p == Pow2(j) && low < p
    ensures FeedBits(c, low + p * high, j + k) == FeedBits(FeedBits(c, low, j), high, k)
  {
    var b := low + p * high;
    FeedLow(c, low, high, p * high, j);
    FeedMore(c, b, j, k);
    ShrIsDiv(b, j);
    DivUnique(b, p, high, low);
  }

  lemma OctetSplits(c: nat, b: nat, j: nat, k: nat)
    requires j == 8
    ensures FeedBits(c, b, j + k) == FeedBits(FeedBits(c, b % 256, j), b / 256, k)
  {
    assert Pow2(8) == 256;
    BitsSplit(c, b % 256, b / 256, 256, j, k);
  }

  lemma {:induction false} SerialOctets(c: nat, b: nat, k: nat, n: nat)
    requires n == OCTET_BITS * k
    ensures Serial(c, Octets(b, k)) == FeedBits(c, b, n)
    decreases k
  {
    if k > 0 {
      OctetSplits(c, b, OCTET_BITS, n - OCTET_BITS);
      SerialOctets(FeedOctet(c, b % 256), b / 256, k - 1, n - OCTET_BITS);
      SerialFirst(c, b % 256, Octets(b / 256, k - 1));
    }
  }

  /** Bits that complement the register leave in it what zeros leave of all ones. */
  lemma FeedComplement(c: nat, b: nat, ones: nat, k: nat)
    requires ones == Pow2(k) - 1 && c + b == ones
    ensures FeedBits(c, b, k) == FeedBits(ones, 0, k)
  {
    XorOnes(c, k);
    XorAssoc(c, c, ones);
    XorSelf(c);
    XorZero(ones);
    StepsFeed(c, b, k);
    ShrIsDiv(b, k);
    DivUnique(b, Pow2(k), 0, b);
    XorZero(FeedBits(c, b, k));
    FeedZeros(ones, 0, k);
  }

  lemma TailOf(ones: nat, c: nat, b: nat, k: nat, n: nat)
    requires n == OCTET_BITS * k && ones == Pow2(n) - 1 && c + b == ones
    ensures Serial(c, Octets(b, k)) == Serial(ones, Octets(0, k))
  {
    SerialOctets(c, b, k, n);
    SerialOctets(ones, 0, k, n);
    FeedComplement(c, b, ones, n);
  }

  lemma SerialBound(c: nat, data: seq<Octet>, g: nat, n: nat)
    requires Divisor(g, n) && c < Pow2(n)
    ensures Serial(c, data) < Pow2(n)
  {
    SerialHolds(c, data, g, n);
  }

  lemma ResidueOf(ones: nat, data: seq<Octet>, k: nat, g: nat, n: nat)
    requires Divisor(g, n) && n == OCTET_BITS * k && ones == Pow2(n) - 1
    ensures Serial(ones, data) <= ones
    ensures Serial(ones, data + Octets(ones - Serial(ones, data), k)) == Serial(ones, Octets(0, k))
  {
    SerialBound(ones, data, g, n);
    var c := Serial(ones, data);
    var tail := Octets(ones - c, k);
    SerialConcat(ones, data, tail);
    TailOf(ones, c, ones - c, k, n);
  }

  /** A buffer followed by its CRC leaves the same in the register, whatever the buffer. */
  lemma Residue(data: seq<Octet>)
    ensures Serial(ONES, data) <= ONES
    ensures Serial(ONES, data + Octets(ONES - Serial(ONES, data), 4)) == Serial(ONES, Octets(0, 4))
  {
    var k, n := 4, 32;
    Pow32();
    Generator(n);
    ResidueOf(ONES, data, k, GENERATOR, n);
  }

  // ---- the code ---------------------------------------------------------------------------------

  ghost predicate Computed(entries: seq<Word>) {
    forall i :: 0 <= i < |entries| ==> entries[i] == Steps(i, 8)
  }

  /** The lazily computed table. */
  class Table {
    const entries: array<Word>
    var computed: bool

    constructor ()
      ensures Valid() && fresh(entries)
    {
      entries, computed := new Word[256](_ => 0), false;
    }

    ghost predicate Valid()
      reads this, entries
    {
      entries.Length == 256 && (computed ==> Computed(entries[..]))
    }

    /** Eight steps for each index. */
    method Make()
      requires entries.Length == 256
      modifies this`computed, entries
      ensures Valid() && computed
    {
      for n := 0 to 256
        invariant Computed(entries[..n])
      {
        var c := Entry(n);
        entries[n] := c;
      }
      computed := true;
    }

    static method Entry(n: nat) returns (c: Word)
      requires n < 256
      ensures c == Steps(n, 8)
    {
      c := n;
      for k := 0 to 8
        invariant Steps(c, 8 - k) == Steps(n, 8)
      {
        StepIsWord(c);
        c := if c % 2 == 1 then Xor(POLY, c / 2) else c / 2;
      }
    }

    /** One byte through the table. */
    method Advance(crc: Word, b: Octet) returns (c: Word)
      requires Valid() && computed
      ensures c == FeedBits(crc, b, 8)
    {
      MaskIsMod(Xor(crc, b), 8);
      assert Pow2(8) == 256;
      TableStep(crc, b, 8);
      Pow32();
      ShrIsDiv(crc, 8);
      var entry := entries[And(Xor(crc, b), 0xff)];
      XorBound(entry, Shr(crc, 8), 32);
      c := Xor(entry, Shr(crc, 8));
    }

    /** Update a running CRC over a buffer: the register after all its bits. */
    method Update(crc: Word, buf: seq<Octet>) returns (c: Word)
      requires Valid()
      modifies this`computed, entries
      ensures Valid() && c == Serial(crc, buf)
    {
      c := crc;
      if !computed { Make(); }
      assert buf[0..] == buf;
      for n := 0 to |buf|
        invariant Valid() && computed && Serial(c, buf[n..]) == Serial(crc, buf)
      {
        assert buf[n..][1..] == buf[n + 1..];
        c := Advance(c, buf[n]);
      }
    }

    /** The CRC of a buffer: the complement of the register started from all ones. */
    method Crc(buf: seq<Octet>) returns (r: Word)
      requires Valid()
      modifies this`computed, entries
      ensures Valid() && r == ONES - Serial(ONES, buf)
    {
      var c := Update(ONES, buf);
      Pow32();
      XorOnes(c, 32);
      r := Xor(c, ONES);
    }
  }
}
