/** Powers of two: what a shift and a mask compute, and what the usual one-line test accepts. */
module Shifts {
  import opened Bits

  function Pow2(s: nat): (p: nat)
    ensures p > 0
  {
    if s == 0 then 1 else 2 * Pow2(s - 1)
  }

  function Shr(a: nat, s: nat): nat { if s == 0 then a else Shr(a / 2, s - 1) }

  /** Dividing twice is dividing by the product. */
  lemma HalfThenDiv(a: nat, p: nat)
    requires p > 0
    ensures a / 2 / p == a / (2 * p) && a % (2 * p) == 2 * (a / 2 % p) + a % 2
  {
    var q, r := a / 2 / p, a / 2 % p;
    assert a == 2 * (q * p + r) + a % 2 == q * (2 * p) + (2 * r + a % 2);
    DivUnique(a, 2 * p, q, 2 * r + a % 2);
  }

  lemma MulMono(a: nat, b: nat, n: nat)
    requires a <= b
    ensures a * n <= b * n
  {
  }

  lemma {:induction false} MulGap(x: nat, y: nat, d: nat)
    requires x > y
    ensures x * d >= y * d + d
    decreases x
  {
    assert x * d == (x - 1) * d + d;
    if x - 1 > y { MulGap(x - 1, y, d); }
  }

  lemma DivUnique(a: nat, d: nat, q: nat, r: nat)
    requires d > 0 && a == q * d + r && r < d
    ensures a / d == q && a % d == r
  {
    var q', r' := a / d, a % d;
    assert a == q' * d + r';
    if q' > q { MulGap(q', q, d); }
    if q' < q { MulGap(q, q', d); }
  }

  lemma {:induction false} ShrIsDiv(a: nat, s: nat)
    ensures Shr(a, s) == a / Pow2(s)
  {
    if s > 0 {
      ShrIsDiv(a / 2, s - 1);
      HalfThenDiv(a, Pow2(s - 1));
    }
  }

  lemma {:induction false} MaskIsMod(a: nat, s: nat)
    ensures And(a, Pow2(s) - 1) == a % Pow2(s)
  {
    if s == 0 {
      assert Pow2(0) - 1 == 0;
    } else {
      MaskIsMod(a / 2, s - 1);
      HalfThenDiv(a, Pow2(s - 1));
      assert (Pow2(s) - 1) / 2 == Pow2(s - 1) - 1 && (Pow2(s) - 1) % 2 == 1;
    }
  }

  // ---- digits -----------------------------------------------------------------------------

  /** Halving moves the digits down by one. */
  lemma DigitHalf(a: nat, k: nat)
    requires k > 0
    ensures a / Pow2(k) % 2 == a / 2 / Pow2(k - 1) % 2
  {
    HalfThenDiv(a, Pow2(k - 1));
  }

  lemma AndHalf(a: nat, b: nat)
    ensures And(a, b) / 2 == And(a / 2, b / 2) && (And(a, b) % 2 == 1 <==> a % 2 == 1 && b % 2 == 1)
  {
  }

  lemma XorHalf(a: nat, b: nat)
    ensures Xor(a, b) / 2 == Xor(a / 2, b / 2) && (Xor(a, b) % 2 == 1 <==> a % 2 != b % 2)
  {
  }

  /** A digit of the bitwise and is one if and only if both digits are. */
  lemma {:induction false} AndDigits(a: nat, b: nat, k: nat)
    ensures And(a, b) / Pow2(k) % 2 == 1 <==> a / Pow2(k) % 2 == 1 && b / Pow2(k) % 2 == 1
    decreases k
  {
    AndHalf(a, b);
    if k > 0 {
      AndDigits(a / 2, b / 2, k - 1);
      DigitHalf(a, k);
      DigitHalf(b, k);
      DigitHalf(And(a, b), k);
    }
  }

  /** A digit of the exclusive or is one if and only if the digits differ. */
  lemma {:induction false} XorDigits(a: nat, b: nat, k: nat)
    ensures Xor(a, b) / Pow2(k) % 2 == 1 <==> a / Pow2(k) % 2 != b / Pow2(k) % 2
    decreases k
  {
    XorHalf(a, b);
    if k > 0 {
      XorDigits(a / 2, b / 2, k - 1);
      DigitHalf(a, k);
      DigitHalf(b, k);
      DigitHalf(Xor(a, b), k);
    }
  }

  /** A number other than zero has a digit one. */
  lemma {:induction false} SomeDigit(a: nat) returns (k: nat)
    requires a > 0
    ensures a / Pow2(k) % 2 == 1
  {
    if a % 2 == 1 {
      k := 0;
    } else {
      k := SomeDigit(a / 2);
      k := k + 1;
      DigitHalf(a, k);
    }
  }

  lemma {:induction false} AndSelf(a: nat)
    ensures And(a, a) == a
  {
    if a > 0 { AndSelf(a / 2); }
  }

  ghost predicate IsPow2(n: nat) { exists s: nat :: n == Pow2(s) }

  /** n & (n - 1) == 0, on 32-bit unsigned integers. */
  predicate PowerOfTwo(n: nat)
    requires n < 0x1_0000_0000
  {
    And(n, if n == 0 then 0xFFFF_FFFF else n - 1) == 0
  }

  /** The test accepts exactly the powers of two, and zero. */
  lemma {:induction false} PowerOfTwoTest(n: nat)
    requires n < 0x1_0000_0000
    ensures PowerOfTwo(n) <==> n == 0 || IsPow2(n)
  {
    if n > 0 { OnePow2(n); }
  }

  lemma {:induction false} OnePow2(n: nat)
    requires n > 0
    ensures And(n, n - 1) == 0 <==> IsPow2(n)
  {
    if n == 1 {
      assert n == Pow2(0);
    } else if n % 2 == 0 {
      OnePow2(n / 2);
      HalfPow2(n);
      assert (n - 1) / 2 == n / 2 - 1;
    } else {
      AndSelf(n / 2);
      assert (n - 1) / 2 == n / 2;
      OddNotPow2(n);
    }
  }

  lemma HalfPow2(n: nat)
    requires n > 0 && n % 2 == 0
    ensures IsPow2(n) <==> IsPow2(n / 2)
  {
    if IsPow2(n) {
      var s: nat :| n == Pow2(s);
      assert n / 2 == Pow2(s - 1);
    }
    if IsPow2(n / 2) {
      var s: nat :| n / 2 == Pow2(s);
      assert n == Pow2(s + 1);
    }
  }

  lemma OddNotPow2(n: nat)
    requires n > 1 && n % 2 == 1
    ensures !IsPow2(n)
  {
  }

  lemma {:induction false} Pow2Sum(a: nat, b: nat)
    ensures Pow2(a + b) == Pow2(a) * Pow2(b)
  {
    if a > 0 {
      Pow2Sum(a - 1, b);
      assert Pow2(a) * Pow2(b) == 2 * (Pow2(a - 1) * Pow2(b));
    }
  }

  lemma {:induction false} Pow2Grows(a: nat, b: nat)
    requires a <= b
    ensures Pow2(a) <= Pow2(b)
    decreases b
  {
    if a < b { Pow2Grows(a, b - 1); }
  }

  /** The smaller of two powers divides the larger. */
  lemma Pow2Divides(p: nat, q: nat) returns (k: nat)
    requires IsPow2(p) && IsPow2(q) && p <= q
    ensures k > 0 && q == k * p && q / p == k
  {
    var a: nat :| p == Pow2(a);
    var b: nat :| q == Pow2(b);
    if b < a { Pow2Grows(b, a); }
    if a <= b {
      k := Pow2(b - a);
      Pow2Sum(b - a, a);
    } else {
      k := 1;
    }
    DivUnique(q, p, k, 0);
  }
}
