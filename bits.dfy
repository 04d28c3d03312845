/**
 * 32-bit register words, the read-modify-writes the drivers apply to them,
 * the one-bit masks they build with `1 << n`, and the four-bit fields they
 * address with `0xF << 4*k`.
 *
 * A register the drivers only ever change one bit at a time (the clock
 * enable registers, GPIO ODR, the EXTI line registers) is modelled by the
 * set of positions of its 1-bits.  `Ones` relates such a set to a word, and
 * the lemmas below show that `|= 1 << n`, `&= ~(1 << n)` and the truth value
 * of the word are the set's `+ {n}`, `- {n}` and `!= {}`.
 */
module Bits {

  /** The mask `1 << n` of bit `n` of a 32-bit register; `n` is a five-bit bit position. */
  function Bit(n: bv5): bv32
  {
    (1 as bv32) << n
  }

  /** `w | m`: the read-modify-write `REG |= m`. */
  function SetMask(w: bv32, m: bv32): bv32
  {
    w | m
  }

  /** `w & ~m`: the read-modify-write `REG &= ~m`. */
  function ClearMask(w: bv32, m: bv32): bv32
  {
    w & !m
  }

  /** `(w & ~field) | v`: the write `REG = (REG & ~field) | v`. */
  function WriteField(w: bv32, field: bv32, v: bv32): bv32
  {
    (w & !field) | v
  }

  /** `2^k` as an integer, for the power-of-two divisors of the clock prescalers. */
  function Pow2(k: nat): (r: nat)
    ensures r >= 1
  {
    if k == 0 then 1 else 2 * Pow2(k - 1)
  }

  // ---------------------------------------------------------------------------
  // Words and the sets of their 1-bits

  /** `s` is exactly the set of positions of the 1-bits of `w`. */
  ghost predicate Ones(w: bv32, s: set<bv5>)
  {
    forall n: bv5 :: n in s <==> w & Bit(n) != 0
  }

  /** Bit `b` of `w | (1 << a)`. */
  lemma OrAt(w: bv32, a: bv5, b: bv5)
    ensures (w | Bit(a)) & Bit(b) != 0 <==> (b == a || w & Bit(b) != 0)
  {
  }

  /** Bit `b` of `w & ~(1 << a)`. */
  lemma ClearAt(w: bv32, a: bv5, b: bv5)
    ensures (w & !Bit(a)) & Bit(b) != 0 <==> (b != a && w & Bit(b) != 0)
  {
  }

  /** `w |= 1 << a` adds `a` to the 1-bits of `w`. */
  lemma OnesAfterSet(w: bv32, s: set<bv5>, a: bv5)
    requires Ones(w, s)
    ensures Ones(w | Bit(a), s + {a})
  {
    forall b: bv5 {
      OrAt(w, a, b);
    }
  }

  /** `w &= ~(1 << a)` removes `a` from the 1-bits of `w`. */
  lemma OnesAfterClear(w: bv32, s: set<bv5>, a: bv5)
    requires Ones(w, s)
    ensures Ones(w & !Bit(a), s - {a})
  {
    forall b: bv5 {
      ClearAt(w, a, b);
    }
  }

  /** A word none of whose 32 bits is set is zero. */
  lemma NoBitMeansZero(w: bv32)
    requires forall n: bv5 :: w & Bit(n) == 0
    ensures w == 0
  {
    assert w & Bit(0) == 0 && w & Bit(1) == 0 && w & Bit(2) == 0 && w & Bit(3) == 0;
    assert w & Bit(4) == 0 && w & Bit(5) == 0 && w & Bit(6) == 0 && w & Bit(7) == 0;
    assert w & Bit(8) == 0 && w & Bit(9) == 0 && w & Bit(10) == 0 && w & Bit(11) == 0;
    assert w & Bit(12) == 0 && w & Bit(13) == 0 && w & Bit(14) == 0 && w & Bit(15) == 0;
    assert w & Bit(16) == 0 && w & Bit(17) == 0 && w & Bit(18) == 0 && w & Bit(19) == 0;
    assert w & Bit(20) == 0 && w & Bit(21) == 0 && w & Bit(22) == 0 && w & Bit(23) == 0;
    assert w & Bit(24) == 0 && w & Bit(25) == 0 && w & Bit(26) == 0 && w & Bit(27) == 0;
    assert w & Bit(28) == 0 && w & Bit(29) == 0 && w & Bit(30) == 0 && w & Bit(31) == 0;
  }

  /** The zero word has no bit set. */
  lemma ZeroHasNoBit(n: bv5)
    ensures (0 as bv32) & Bit(n) == 0
  {
  }

  /** A word is nonzero, which is what the C cast `(bool)w` tests, exactly when some bit of it is set. */
  lemma OnesNonzero(w: bv32, s: set<bv5>)
    requires Ones(w, s)
    ensures w != 0 <==> s != {}
  {
    if w == 0 {
      forall n: bv5 ensures n !in s {
        ZeroHasNoBit(n);
      }
    } else if s == {} {
      NoBitMeansZero(w);
    }
  }

  // ---------------------------------------------------------------------------
  // Four-bit fields

  /** The mask `0xF << 4*k` of four-bit field `k`. */
  function NibbleMask(k: bv5): bv32
  {
    (0xF as bv32) << (4 * k)
  }

  /** Four-bit field `k` of `w` (bits 4k to 4k+3), as `(w >> 4*k) & 0xF` reads it. */
  function Nibble(w: bv32, k: bv5): bv32
  {
    (w >> (4 * k)) & 0xF
  }

  /** `w` with field `k` cleared and `v` OR-ed in at that field: `w &= ~(0xF << 4k); w |= v << 4k`. */
  function WithNibble(w: bv32, k: bv5, v: bv32): bv32
  {
    OrNibble(ClearNibble(w, k), k, v)
  }

  /** `w &= ~(0xF << 4*k)`: field `k` cleared. */
  function ClearNibble(w: bv32, k: bv5): bv32
  {
    ClearMask(w, NibbleMask(k))
  }

  /** `w |= v << 4*k`: `v` OR-ed in at field `k`. */
  function OrNibble(w: bv32, k: bv5, v: bv32): bv32
  {
    SetMask(w, v << (4 * k))
  }

  /** Writing a four-bit value into field `k` leaves that value there. */
  lemma WithNibbleSets(w: bv32, k: bv5, v: bv32)
    requires k < 8 && v < 16
    ensures Nibble(WithNibble(w, k, v), k) == v
  {
  }

  /** Writing a four-bit value into field `k` leaves every other field as it was. */
  lemma WithNibbleKeeps(w: bv32, k: bv5, j: bv5, v: bv32)
    requires k < 8 && j < 8 && j != k && v < 16
    ensures Nibble(WithNibble(w, k, v), j) == Nibble(w, j)
  {
  }

  /** A second write to field `k` overrides the first when the first value fits the field. */
  lemma WithNibbleTwice(w: bv32, k: bv5, u: bv32, v: bv32)
    requires k < 8 && u < 16
    ensures WithNibble(WithNibble(w, k, u), k, v) == WithNibble(w, k, v)
  {
  }
}
