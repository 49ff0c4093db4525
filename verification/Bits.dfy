/** Powers of two, alignment and the exclusive-or that the buddy allocator uses. */
module Bits {

  function Pow2(k: nat): (p: nat)
    ensures p > 0
  {
    if k == 0 then 1 else 2 * Pow2(k - 1)
  }

  /** The k low bits of `off` are zero, that is, 2^k divides `off` (AlignedIsDivisible). */
  ghost predicate Aligned(off: int, k: nat)
    decreases k
  {
    k == 0 || (off % 2 == 0 && Aligned(off / 2, k - 1))
  }

  /** Exclusive-or of two naturals, bit by bit. */
  function Xor(a: nat, b: nat): nat {
    if a == 0 && b == 0 then 0
    else (if a % 2 != b % 2 then 1 else 0) + 2 * Xor(a / 2, b / 2)
  }

  lemma {:induction false} Pow2Mono(j: nat, k: nat)
    requires j <= k
    ensures Pow2(j) <= Pow2(k)
    ensures j < k ==> 2 * Pow2(j) <= Pow2(k)
  {
    if j < k { Pow2Mono(j, k - 1); }
  }

  lemma {:induction false} AlignedIsDivisible(off: int, k: nat)
    ensures Aligned(off, k) <==> exists i :: off == i * Pow2(k)
    decreases k
  {
    if k == 0 {
      assert off == off * Pow2(0);
    } else {
      AlignedIsDivisible(off / 2, k - 1);
      if i :| off == i * Pow2(k) {
        assert off == 2 * (i * Pow2(k - 1));
        assert off / 2 == i * Pow2(k - 1);
      }
      if Aligned(off, k) {
        var i :| off / 2 == i * Pow2(k - 1);
        assert off == i * Pow2(k);
      }
    }
  }

  lemma {:induction false} AlignedZero(k: nat)
    ensures Aligned(0, k)
  {
    if k > 0 { AlignedZero(k - 1); }
  }

  lemma {:induction false} AlignedWeaken(off: int, j: nat, k: nat)
    requires j <= k && Aligned(off, k)
    ensures Aligned(off, j)
    decreases k
  {
    if j > 0 { AlignedWeaken(off / 2, j - 1, k - 1); }
  }

  lemma {:induction false} AlignedAdd(off: int, k: nat)
    requires Aligned(off, k)
    ensures Aligned(off + Pow2(k), k) && Aligned(off - Pow2(k), k)
    decreases k
  {
    if k > 0 { AlignedAdd(off / 2, k - 1); }
  }

  /** Of two neighbouring 2^k-aligned offsets exactly one is 2^(k+1)-aligned. */
  lemma {:induction false} AlignedUp(off: int, k: nat)
    requires Aligned(off, k)
    ensures Aligned(off, k + 1) <==> !Aligned(off + Pow2(k), k + 1)
    ensures Aligned(off, k + 1) <==> !Aligned(off - Pow2(k), k + 1)
    decreases k
  {
    if k == 0 {
      assert Aligned(off / 2, 0) && Aligned((off + 1) / 2, 0) && Aligned((off - 1) / 2, 0);
    } else {
      AlignedUp(off / 2, k - 1);
    }
  }

  /** Distinct 2^k-aligned offsets are at least 2^k apart. */
  lemma {:induction false} AlignedApart(a: int, b: int, k: nat)
    requires Aligned(a, k) && Aligned(b, k) && a < b
    ensures a + Pow2(k) <= b
    decreases k
  {
    if k > 0 { AlignedApart(a / 2, b / 2, k - 1); }
  }

  /** Flipping the bit of weight 2^k of a 2^k-aligned offset adds or subtracts 2^k, by the
      parity of off / 2^k. */
  lemma {:induction false} XorFlips(off: nat, k: nat)
    requires Aligned(off, k)
    ensures Xor(off, Pow2(k)) == if Aligned(off, k + 1) then off + Pow2(k) else off - Pow2(k)
    decreases k
  {
    if k == 0 {
      XorZero(off / 2);
      assert Aligned(off / 2, 0);
    } else {
      XorFlips(off / 2, k - 1);
    }
  }

  lemma {:induction false} XorZero(a: nat)
    ensures Xor(a, 0) == a
  {
    if a > 0 { XorZero(a / 2); }
  }
}
