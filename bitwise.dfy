/**
 * Unsigned-integer bit operations on naturals, defined one bit at a time
 * (the lowest bit is `x % 2`, the rest is `x / 2`).  The C++ operators
 * `|`, `&`, `<<` and `>>` on `uint32_t` are these functions on values
 * below 2^32; none of the uses modelled here overflows 32 bits.
 */
module Bitwise {

  function Pow2(k: nat): (r: nat)
    ensures r > 0
  {
    if k == 0 then 1 else 2 * Pow2(k - 1)
  }

  lemma {:induction false} Pow2Add(a: nat, b: nat)
    ensures Pow2(a + b) == Pow2(a) * Pow2(b)
    decreases b
  {
    if b > 0 {
      Pow2Add(a, b - 1);
      assert Pow2(a + b) == 2 * Pow2(a + b - 1);
    }
  }

  /** `a | b` */
  function BitOr(a: nat, b: nat): nat
    decreases a + b
  {
    if a == 0 then b
    else if b == 0 then a
    else 2 * BitOr(a / 2, b / 2) + (if a % 2 == 1 || b % 2 == 1 then 1 else 0)
  }

  /** `a & b` */
  function BitAnd(a: nat, b: nat): nat
    decreases a + b
  {
    if a == 0 || b == 0 then 0
    else 2 * BitAnd(a / 2, b / 2) + (if a % 2 == 1 && b % 2 == 1 then 1 else 0)
  }

  /** `x << k` */
  function Shl(x: nat, k: nat): nat {
    if k == 0 then x else 2 * Shl(x, k - 1)
  }

  /** `x >> k`: the bits from position `k` up. */
  function Shr(x: nat, k: nat): nat {
    if k == 0 then x else Shr(x / 2, k - 1)
  }

  /** The lowest `k` bits of `x` (`x % 2^k`). */
  function Low(x: nat, k: nat): (r: nat)
    ensures r < Pow2(k)
  {
    if k == 0 then 0 else 2 * Low(x / 2, k - 1) + x % 2
  }

  // ---------------------------------------------------------------------
  // One bit at a time

  lemma OrStep(a: nat, b: nat)
    ensures BitOr(a, b) % 2 == (if a % 2 == 1 || b % 2 == 1 then 1 else 0)
    ensures BitOr(a, b) / 2 == BitOr(a / 2, b / 2)
  {
    if a == 0 {
      assert a / 2 == 0;
    } else if b == 0 {
      assert b / 2 == 0;
    } else {
      assert BitOr(a, b) == 2 * BitOr(a / 2, b / 2) + (if a % 2 == 1 || b % 2 == 1 then 1 else 0);
    }
  }

  lemma AndStep(a: nat, b: nat)
    ensures BitAnd(a, b) % 2 == (if a % 2 == 1 && b % 2 == 1 then 1 else 0)
    ensures BitAnd(a, b) / 2 == BitAnd(a / 2, b / 2)
  {
    if a == 0 || b == 0 {
      assert a / 2 == 0 || b / 2 == 0;
    }
  }

  /** Two naturals with the same lowest bit and the same upper bits are equal. */
  lemma EqualByHalves(x: nat, y: nat)
    requires x % 2 == y % 2 && x / 2 == y / 2
    ensures x == y
  {
  }

  // ---------------------------------------------------------------------
  // Algebra of `|`

  lemma {:induction false} OrZero(a: nat)
    ensures BitOr(a, 0) == a && BitOr(0, a) == a
  {
  }

  lemma {:induction false} OrComm(a: nat, b: nat)
    ensures BitOr(a, b) == BitOr(b, a)
    decreases a + b
  {
    if a != 0 && b != 0 {
      OrComm(a / 2, b / 2);
    }
  }

  lemma {:induction false} OrAssoc(a: nat, b: nat, c: nat)
    ensures BitOr(BitOr(a, b), c) == BitOr(a, BitOr(b, c))
    decreases a + b + c
  {
    if a == 0 || b == 0 || c == 0 {
      OrZero(a); OrZero(b); OrZero(c); OrZero(BitOr(a, b)); OrZero(BitOr(b, c));
    } else {
      OrAssoc(a / 2, b / 2, c / 2);
      OrStep(a, b); OrStep(b, c);
      OrStep(BitOr(a, b), c); OrStep(a, BitOr(b, c));
      EqualByHalves(BitOr(BitOr(a, b), c), BitOr(a, BitOr(b, c)));
    }
  }

  /** ORing the same bits in twice is ORing them in once. */
  lemma {:induction false} OrAbsorb(a: nat, b: nat)
    ensures BitOr(BitOr(a, b), b) == BitOr(a, b)
    decreases a + b
  {
    if a == 0 || b == 0 {
      OrZero(a); OrZero(b);
      if b != 0 { OrSelf(b); }
    } else {
      OrAbsorb(a / 2, b / 2);
      OrStep(a, b); OrStep(BitOr(a, b), b);
      EqualByHalves(BitOr(BitOr(a, b), b), BitOr(a, b));
    }
  }

  lemma {:induction false} OrSelf(a: nat)
    ensures BitOr(a, a) == a
    decreases a
  {
    if a != 0 {
      OrSelf(a / 2);
      OrStep(a, a);
      EqualByHalves(BitOr(a, a), a);
    }
  }

  /** The bits of `a` stay set in `a | b`. */
  lemma OrKeeps(a: nat, b: nat)
    ensures BitOr(a, BitOr(a, b)) == BitOr(a, b)
  {
    OrComm(a, b);
    OrComm(a, BitOr(b, a));
    OrAbsorb(b, a);
  }

  /** `a | b` fits in `n` bits when both operands do. */
  lemma {:induction false} OrBound(a: nat, b: nat, n: nat)
    requires a < Pow2(n) && b < Pow2(n)
    ensures BitOr(a, b) < Pow2(n)
    decreases n
  {
    if a != 0 && b != 0 {
      assert n > 0;
      OrBound(a / 2, b / 2, n - 1);
    }
  }

  // ---------------------------------------------------------------------
  // `|` against the low and the high part of a word

  /** ORing in a value below 2^k changes only the lowest k bits. */
  lemma {:induction false} OrLow(a: nat, b: nat, k: nat)
    requires b < Pow2(k)
    ensures Shr(BitOr(a, b), k) == Shr(a, k)
    ensures Low(BitOr(a, b), k) == BitOr(Low(a, k), b)
    decreases k
  {
    if k == 0 {
      OrZero(a);
    } else {
      OrLow(a / 2, b / 2, k - 1);
      OrStep(a, b);
      OrStep(Low(a, k), b);
      EqualByHalves(Low(BitOr(a, b), k), BitOr(Low(a, k), b));
    }
  }

  /** ORing in `c << k` leaves the lowest k bits alone and ORs `c` into the rest. */
  lemma {:induction false} OrHigh(a: nat, c: nat, k: nat)
    ensures Low(BitOr(a, Shl(c, k)), k) == Low(a, k)
    ensures Shr(BitOr(a, Shl(c, k)), k) == BitOr(Shr(a, k), c)
    decreases k
  {
    if k > 0 {
      OrHigh(a / 2, c, k - 1);
      OrStep(a, Shl(c, k));
    }
  }

  /** `c << k` fits in k + m bits when c fits in m bits. */
  lemma {:induction false} ShlBound(c: nat, k: nat, m: nat)
    requires c < Pow2(m)
    ensures Shl(c, k) < Pow2(k + m)
    decreases k
  {
    if k > 0 { ShlBound(c, k - 1, m); }
  }

  lemma {:induction false} ShlOne(k: nat)
    ensures Shl(1, k) == Pow2(k)
    decreases k
  {
    if k > 0 { ShlOne(k - 1); }
  }

  lemma {:induction false} ShlZero(k: nat)
    ensures Shl(0, k) == 0
  {
    if k > 0 { ShlZero(k - 1); }
  }

  // ---------------------------------------------------------------------
  // Masks with `&`

  /** `x & (2^k - 1)` is the lowest k bits of x. */
  lemma {:induction false} AndLowMask(x: nat, k: nat)
    ensures BitAnd(x, Pow2(k) - 1) == Low(x, k)
    decreases k
  {
    if k > 0 {
      AndLowMask(x / 2, k - 1);
      AndStep(x, Pow2(k) - 1);
      EqualByHalves(BitAnd(x, Pow2(k) - 1), Low(x, k));
    } else {
      assert BitAnd(x, 0) == 0;
    }
  }

  /** `x & 2^k` is either 2^k or 0, according to bit k of x. */
  lemma {:induction false} AndBit(x: nat, k: nat)
    ensures BitAnd(x, Pow2(k)) == if Shr(x, k) % 2 == 1 then Pow2(k) else 0
    decreases k
  {
    if k > 0 {
      AndBit(x / 2, k - 1);
      AndStep(x, Pow2(k));
      EqualByHalves(BitAnd(x, Pow2(k)), if Shr(x, k) % 2 == 1 then Pow2(k) else 0);
    } else {
      AndStep(x, 1);
      assert BitAnd(x / 2, 0) == 0;
    }
  }

  // ---------------------------------------------------------------------
  // Reading fields

  lemma {:induction false} ZeroFields(a: nat, k: nat)
    ensures Shr(0, a) == 0 && Low(0, k) == 0
  {
    if a > 0 { ZeroFields(a - 1, 0); }
    if k > 0 { ZeroFields(0, k - 1); }
  }

  lemma {:induction false} ShrShr(x: nat, a: nat, b: nat)
    ensures Shr(Shr(x, a), b) == Shr(x, a + b)
    decreases a
  {
    if a > 0 { ShrShr(x / 2, a - 1, b); }
  }

  /** Two words that agree on their lowest n bits agree on every field inside them. */
  lemma {:induction false} LowAgree(x: nat, y: nat, n: nat, a: nat, b: nat)
    requires Low(x, n) == Low(y, n) && a + b <= n
    ensures Low(Shr(x, a), b) == Low(Shr(y, a), b)
    decreases n
  {
    if n > 0 {
      assert x % 2 == y % 2 && Low(x / 2, n - 1) == Low(y / 2, n - 1);
      if a > 0 {
        LowAgree(x / 2, y / 2, n - 1, a - 1, b);
      } else if b > 0 {
        LowAgree(x / 2, y / 2, n - 1, 0, b - 1);
      }
    }
  }
}
