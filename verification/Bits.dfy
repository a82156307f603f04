/**
  Unsigned words as natural numbers, with the handful of word operations the
  simulation uses (shift, or, and, and-not, trailing zeros, population count)
  and the one view every other module reasons with: `Bit(r, x)`.
 */
module Bits {

  const WORD: nat := 0x1_0000_0000_0000_0000

  type uint8 = n: int | 0 <= n < 0x100
  type uint16 = n: int | 0 <= n < 0x1_0000
  type uint64 = n: int | 0 <= n < 0x1_0000_0000_0000_0000

  /** Bit `x` of `r`: what `(r >> x) & 1 == 1` reads. */
  predicate Bit(r: nat, x: nat)
  {
    if x == 0 then r % 2 == 1 else Bit(r / 2, x - 1)
  }

  function Pow2(x: nat): (p: nat)
    ensures p > 0
  {
    if x == 0 then 1 else 2 * Pow2(x - 1)
  }

  function Or(a: nat, b: nat): nat
  {
    if a == 0 then b else 2 * Or(a / 2, b / 2) + (if a % 2 == 1 || b % 2 == 1 then 1 else 0)
  }

  function And(a: nat, b: nat): nat
  {
    if a == 0 then 0 else 2 * And(a / 2, b / 2) + (if a % 2 == 1 && b % 2 == 1 then 1 else 0)
  }

  /** Go's `a &^ b`. */
  function AndNot(a: nat, b: nat): (r: nat)
    ensures r <= a
  {
    if a == 0 then 0 else 2 * AndNot(a / 2, b / 2) + (if a % 2 == 1 && b % 2 == 0 then 1 else 0)
  }

  /** A 64-bit left shift drops what leaves the word. */
  function Shl(r: uint64, k: nat): uint64
    decreases k
  {
    if k == 0 then r else Shl((2 * r) % WORD, k - 1)
  }

  /** `bits.TrailingZeros64`. */
  function TrailingZeros(r: uint64): (z: nat)
    ensures r == 0 ==> z == 64
    ensures r != 0 ==> z < 64 && Bit(r, z) && forall k :: 0 <= k < z ==> !Bit(r, k)
  {
    if r == 0 then 64 else Pow2Word(); LowestBitLemma(r, 64); LowestBit(r)
  }

  function LowestBit(r: nat): (z: nat)
    requires r > 0
  {
    if r % 2 == 1 then 0 else 1 + LowestBit(r / 2)
  }

  lemma {:induction false} LowestBitLemma(r: nat, n: nat)
    requires 0 < r < Pow2(n)
    ensures LowestBit(r) < n && Bit(r, LowestBit(r))
    ensures forall k :: 0 <= k < LowestBit(r) ==> !Bit(r, k)
  {
    if r % 2 == 0 {
      LowestBitLemma(r / 2, n - 1);
    }
  }

  /** `bits.OnesCount64`. */
  function OnesCount(r: nat): nat
  {
    if r == 0 then 0 else r % 2 + OnesCount(r / 2)
  }

  lemma Pow2Word()
    ensures Pow2(64) == WORD
    ensures Pow2(61) == 0x2000_0000_0000_0000
  {
    assert Pow2(8) == 0x100;
    assert Pow2(16) == 0x1_0000;
    assert Pow2(24) == 0x100_0000;
    assert Pow2(32) == 0x1_0000_0000;
    assert Pow2(40) == 0x100_0000_0000;
    assert Pow2(48) == 0x1_0000_0000_0000;
    assert Pow2(56) == 0x100_0000_0000_0000;
  }

  lemma {:induction false} Pow2Mono(a: nat, b: nat)
    requires a < b
    ensures 2 * Pow2(a) <= Pow2(b)
  {
    if a + 1 < b {
      Pow2Mono(a, b - 1);
    }
  }

  lemma {:induction false} BitOfZero(x: nat)
    ensures !Bit(0, x)
  {
    if x > 0 {
      BitOfZero(x - 1);
    }
  }

  lemma {:induction false} BitOfPow2(k: nat, x: nat)
    ensures Bit(Pow2(k), x) <==> x == k
  {
    if k == 0 && x > 0 {
      BitOfZero(x - 1);
    } else if k > 0 && x > 0 {
      BitOfPow2(k - 1, x - 1);
    }
  }

  lemma {:induction false} BitOfOr(a: nat, b: nat, x: nat)
    ensures Bit(Or(a, b), x) <==> Bit(a, x) || Bit(b, x)
  {
    if a == 0 {
      BitOfZero(x);
    } else if x > 0 {
      BitOfOr(a / 2, b / 2, x - 1);
    }
  }

  lemma {:induction false} BitOfAnd(a: nat, b: nat, x: nat)
    ensures Bit(And(a, b), x) <==> Bit(a, x) && Bit(b, x)
  {
    if a == 0 {
      BitOfZero(x);
    } else if x > 0 {
      BitOfAnd(a / 2, b / 2, x - 1);
    }
  }

  lemma {:induction false} BitOfAndNot(a: nat, b: nat, x: nat)
    ensures Bit(AndNot(a, b), x) <==> Bit(a, x) && !Bit(b, x)
  {
    if a == 0 {
      BitOfZero(x);
    } else if x > 0 {
      BitOfAndNot(a / 2, b / 2, x - 1);
    }
  }

  lemma {:induction false} BitOfShl(r: uint64, k: nat, x: nat)
    requires x < 64
    ensures Bit(Shl(r, k), x) <==> x >= k && Bit(r, x - k)
    decreases k
  {
    if k > 0 {
      BitOfShl((2 * r) % WORD, k - 1, x);
      if x >= k {
        BitOfMod(2 * r, 64, x - k + 1);
      } else if x == k - 1 {
        assert !Bit((2 * r) % WORD, 0);
      }
    }
  }

  lemma {:induction false} BitOfMod(r: nat, n: nat, x: nat)
    requires x < n
    ensures Bit(r % Pow2(n), x) <==> Bit(r, x)
    ensures n == 64 ==> Pow2(n) == WORD
  {
    if n == 64 {
      Pow2Word();
    }
    var p := Pow2(n - 1);
    ModTwice(r, p);
    if x > 0 {
      BitOfMod(r / 2, n - 1, x - 1);
    }
  }

  /** Halving commutes with reduction modulo an even number. */
  lemma ModTwice(r: nat, p: nat)
    requires p > 0
    ensures (r % (2 * p)) % 2 == r % 2
    ensures (r % (2 * p)) / 2 == (r / 2) % p
  {
    var q, m := r / (2 * p), r % (2 * p);
    assert r == 2 * (p * q) + m;
    assert r / 2 == p * q + m / 2;
    var q', m' := (r / 2) / p, (r / 2) % p;
    assert r / 2 == p * q' + m';
    assert (q' - q) * p == m / 2 - m';
    SmallMultiple(q' - q, p);
  }

  lemma SmallMultiple(d: int, p: int)
    requires -p < d * p < p
    ensures d == 0
  {
  }

  /** The word with the low `n` bits set. */
  lemma {:induction false} LowMask(n: nat, x: nat)
    ensures Bit(Pow2(n) - 1, x) <==> x < n
  {
    if n == 0 {
      BitOfZero(x);
    } else if x > 0 {
      LowMask(n - 1, x - 1);
    }
  }

  lemma {:induction false} AndBound(a: nat, b: nat)
    ensures And(a, b) <= a
  {
    if a > 0 {
      AndBound(a / 2, b / 2);
    }
  }

  lemma {:induction false} HighBitsClear(r: nat, n: nat, x: nat)
    requires r < Pow2(n) && n <= x
    ensures !Bit(r, x)
  {
    if n == 0 {
      BitOfZero(x);
    } else {
      HighBitsClear(r / 2, n - 1, x - 1);
    }
  }

  lemma {:induction false} OrBound(a: nat, b: nat, n: nat)
    requires a < Pow2(n) && b < Pow2(n)
    ensures Or(a, b) < Pow2(n)
  {
    if n > 0 && a > 0 {
      OrBound(a / 2, b / 2, n - 1);
    }
  }

  /** Two words below 2^n with the same n bits are the same word. */
  lemma {:induction false} BitsDetermine(a: nat, b: nat, n: nat)
    requires a < Pow2(n) && b < Pow2(n)
    requires forall x :: 0 <= x < n ==> (Bit(a, x) <==> Bit(b, x))
    ensures a == b
  {
    if n > 0 {
      assert Bit(a, 0) <==> Bit(b, 0);
      forall x | 0 <= x < n - 1
        ensures Bit(a / 2, x) <==> Bit(b / 2, x)
      {
        assert Bit(a, x + 1) <==> Bit(b, x + 1);
      }
      BitsDetermine(a / 2, b / 2, n - 1);
    }
  }

  /** The 64-bit instance, for words. */
  lemma WordsEqual(a: uint64, b: uint64)
    requires forall x :: 0 <= x < 64 ==> (Bit(a, x) <==> Bit(b, x))
    ensures a == b
  {
    Pow2Word();
    BitsDetermine(a, b, 64);
  }

  /** A non-zero word has a bit, below 64. */
  lemma NonZeroHasBit(r: uint64) returns (x: nat)
    requires r != 0
    ensures x < 64 && Bit(r, x)
  {
    x := TrailingZeros(r);
  }

  /** `1 << k` inside the word. */
  lemma ShlOne(k: nat)
    requires k < 64
    ensures Pow2(k) < WORD && Shl(1, k) == Pow2(k)
  {
    hide Shl, Pow2;
    Pow2Word();
    Pow2Mono(k, 64);
    forall x | 0 <= x < 64
      ensures Bit(Shl(1, k), x) <==> Bit(Pow2(k), x)
    {
      BitOfShl(1, k, x);
      BitOfPow2(k, x);
      if x >= k {
        BitOfOne(x - k);
      }
    }
    WordsEqual(Shl(1, k), Pow2(k));
  }

  lemma BitOfOne(x: nat)
    ensures Bit(1, x) <==> x == 0
  {
    BitOfZero(x);
  }

  /** `r | 1 << x` as used by AddCell and the rule loop. */
  function SetBit(r: uint64, x: nat): (s: uint64)
    requires x < 64
    ensures forall k: nat :: Bit(s, k) <==> Bit(r, k) || k == x
  {
    Pow2Word();
    ShlOne(x);
    OrBound(r, Pow2(x), 64);
    assert forall k: nat :: Bit(Or(r, Pow2(x)), k) <==> Bit(r, k) || k == x by {
      forall k: nat
        ensures Bit(Or(r, Pow2(x)), k) <==> Bit(r, k) || k == x
      {
        BitOfOr(r, Pow2(x), k);
        BitOfPow2(x, k);
      }
    }
    Or(r, Shl(1, x))
  }

  /** `r &^ (1 << x)`. */
  function ClearBit(r: uint64, x: nat): (s: uint64)
    requires x < 64
    ensures s <= r
    ensures forall k: nat :: Bit(s, k) <==> Bit(r, k) && k != x
  {
    Pow2Word();
    ShlOne(x);
    assert forall k: nat :: Bit(AndNot(r, Pow2(x)), k) <==> Bit(r, k) && k != x by {
      forall k: nat
        ensures Bit(AndNot(r, Pow2(x)), k) <==> Bit(r, k) && k != x
      {
        BitOfAndNot(r, Pow2(x), k);
        BitOfPow2(x, k);
      }
    }
    AndNot(r, Shl(1, x))
  }

  lemma {:induction false} OnesCountClears(r: nat, x: nat)
    requires Bit(r, x)
    ensures OnesCount(AndNot(r, Pow2(x))) == OnesCount(r) - 1
  {
    BitOfZero(x);
    if x == 0 {
      AndNotZero(r / 2);
      assert AndNot(r, 1) == 2 * (r / 2);
    } else {
      OnesCountClears(r / 2, x - 1);
      assert AndNot(r, Pow2(x)) == 2 * AndNot(r / 2, Pow2(x - 1)) + r % 2;
    }
  }

  lemma {:induction false} AndNotZero(a: nat)
    ensures AndNot(a, 0) == a
  {
    if a > 0 {
      AndNotZero(a / 2);
    }
  }

  /** Clearing a set bit lowers the population count by one: the measure of the
      `for row != 0` loops. */
  lemma ClearBitCount(r: uint64, x: nat)
    requires x < 64 && Bit(r, x)
    ensures OnesCount(ClearBit(r, x)) == OnesCount(r) - 1
  {
    Pow2Word();
    ShlOne(x);
    OnesCountClears(r, x);
  }

  lemma {:induction false} OnesCountZero(r: nat)
    ensures OnesCount(r) == 0 <==> r == 0
  {
    if r > 0 {
      OnesCountZero(r / 2);
    }
  }
}
