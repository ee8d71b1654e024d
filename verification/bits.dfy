/** Bit counting on a single byte: the `u8::count_ones` and `u8::count_zeros`
    that the truth rule of a Coin compares. The two counts are defined
    independently, each by recursion over the bit positions, because the
    truth rule deliberately compares two computed counts instead of
    comparing one count against the constant 4. */
module Bits {

  /** Bit `i` of `x`, counting from the least significant bit. */
  predicate Bit(x: bv8, i: nat)
    requires i < 8
  {
    (x >> i) & 1 == 1
  }

  /** Number of 1-bits among the `k` lowest bits of `x`. */
  function OnesBelow(x: bv8, k: nat): (r: nat)
    requires k <= 8
    ensures r <= k
    ensures r == 0 <==> forall i :: 0 <= i < k ==> !Bit(x, i)
    decreases k
  {
    if k == 0 then 0 else OnesBelow(x, k - 1) + (if Bit(x, k - 1) then 1 else 0)
  }

  /** Number of 0-bits among the `k` lowest bits of `x`. */
  function ZerosBelow(x: bv8, k: nat): (r: nat)
    requires k <= 8
    ensures r <= k
    ensures r == 0 <==> forall i :: 0 <= i < k ==> Bit(x, i)
    decreases k
  {
    if k == 0 then 0 else ZerosBelow(x, k - 1) + (if Bit(x, k - 1) then 0 else 1)
  }

  /** `u8::count_ones`: the number of 1-bits of the byte. */
  function CountOnes(x: bv8): (r: nat)
    ensures r <= 8
    ensures r == 0 <==> x == 0x00
  {
    ZeroHasNoOnes(x);
    OnesBelow(x, 8)
  }

  /** `u8::count_zeros`: the number of 0-bits of the byte. */
  function CountZeros(x: bv8): (r: nat)
    ensures r <= 8
    ensures r == 0 <==> x == 0xFF
  {
    FullHasNoZeros(x);
    ZerosBelow(x, 8)
  }

  /** A byte is zero exactly when none of its eight bits is set. */
  lemma ZeroHasNoOnes(x: bv8)
    ensures x == 0x00 <==> forall i :: 0 <= i < 8 ==> !Bit(x, i)
  {
    if forall i :: 0 <= i < 8 ==> !Bit(x, i) {
      assert !Bit(x, 0) && !Bit(x, 1) && !Bit(x, 2) && !Bit(x, 3);
      assert !Bit(x, 4) && !Bit(x, 5) && !Bit(x, 6) && !Bit(x, 7);
    }
  }

  /** A byte is 0xFF exactly when all of its eight bits are set. */
  lemma FullHasNoZeros(x: bv8)
    ensures x == 0xFF <==> forall i :: 0 <= i < 8 ==> Bit(x, i)
  {
    if forall i :: 0 <= i < 8 ==> Bit(x, i) {
      assert Bit(x, 0) && Bit(x, 1) && Bit(x, 2) && Bit(x, 3);
      assert Bit(x, 4) && Bit(x, 5) && Bit(x, 6) && Bit(x, 7);
    }
  }

  /** Every bit position is counted exactly once, as a one or as a zero. */
  lemma {:induction false} OnesPlusZerosBelow(x: bv8, k: nat)
    requires k <= 8
    ensures OnesBelow(x, k) + ZerosBelow(x, k) == k
    decreases k
  {
    if k > 0 {
      OnesPlusZerosBelow(x, k - 1);
    }
  }

  /** The two counts of a byte add up to its width. */
  lemma OnesPlusZeros(x: bv8)
    ensures CountOnes(x) + CountZeros(x) == 8
  {
    OnesPlusZerosBelow(x, 8);
  }

  /** Complementing a byte turns its 1-bits into 0-bits, position by position. */
  lemma {:induction false} ComplementOnesBelow(x: bv8, k: nat)
    requires k <= 8
    ensures OnesBelow(!x, k) == ZerosBelow(x, k)
    decreases k
  {
    if k > 0 {
      ComplementOnesBelow(x, k - 1);
      assert Bit(!x, k - 1) == !Bit(x, k - 1);
    }
  }

  /** The complement of a byte has as many ones as the byte has zeros. */
  lemma ComplementOnes(x: bv8)
    ensures CountOnes(!x) == CountZeros(x) == 8 - CountOnes(x)
  {
    ComplementOnesBelow(x, 8);
    OnesPlusZeros(x);
  }
}
