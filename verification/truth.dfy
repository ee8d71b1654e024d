/** The truth rule of a Coin and the byte-level meaning of its operations.
    A Coin stores one byte; its truth value is decided by comparing the
    count of 1-bits with the count of 0-bits. Every function here works on
    the stored byte as a value; the class in module Coins carries out the
    same steps on a mutable field. */
module Truth {
  import opened Bits

  /** The outcome of a three-way comparison (`std::cmp::Ordering`). */
  datatype Ordering = Less | Equal | Greater {
    /** The outcome seen from the other operand. */
    function Reverse(): Ordering {
      match this
      case Less => Greater
      case Equal => Equal
      case Greater => Less
    }
  }

  datatype Option<T> = None | Some(value: T)

  /** `to_bool`: true when the byte has at least as many ones as zeros.
      For eight bits this is "four or more bits set". */
  function ToBool(x: bv8): (r: bool)
    ensures r <==> CountOnes(x) >= 4
    ensures r <==> CountZeros(x) <= 4
  {
    OnesPlusZeros(x);
    CountOnes(x) >= CountZeros(x)
  }

  /** The canonical byte for a truth value: `u8::MAX` for `truthy`,
      `u8::MIN` for `falsey`; also the byte `degauss` writes back. */
  function Canonical(b: bool): (r: bv8)
    ensures CountOnes(r) == (if b then 8 else 0)
    ensures CountZeros(r) == (if b then 0 else 8)
  {
    OnesPlusZeros(if b then 0xFF else 0x00);
    if b then 0xFF else 0x00
  }

  /** The byte `degauss` leaves behind when it finds `x` stored. */
  function Degaussed(x: bv8): (r: bv8)
    ensures r == 0xFF || r == 0x00
    ensures ToBool(r) == ToBool(x)
  {
    Canonical(ToBool(x))
  }

  /** `eq`: both operands are degaussed, then their truth values compared. */
  function Eq(x: bv8, y: bv8): (r: bool)
    ensures r <==> ToBool(x) == ToBool(y)
  {
    ToBool(Degaussed(x)) == ToBool(Degaussed(y))
  }

  /** `bool::cmp`, where `false` orders before `true`. */
  function CompareBools(a: bool, b: bool): (o: Ordering)
    ensures o == Equal <==> a == b
    ensures o == Less <==> !a && b
    ensures o == Greater <==> a && !b
  {
    if a == b then Equal else if b then Less else Greater
  }

  /** `cmp`: both operands are degaussed, then their truth values ordered. */
  function Cmp(x: bv8, y: bv8): (o: Ordering)
    ensures o == Equal <==> ToBool(x) == ToBool(y)
    ensures o == Less <==> !ToBool(x) && ToBool(y)
    ensures o == Greater <==> ToBool(x) && !ToBool(y)
  {
    CompareBools(ToBool(Degaussed(x)), ToBool(Degaussed(y)))
  }

  /** `partial_cmp`: the same as `cmp`, always defined, as `bool`'s is. */
  function PartialCmp(x: bv8, y: bv8): (o: Option<Ordering>)
    ensures o.Some?
    ensures o.value == Equal <==> Eq(x, y)
  {
    Some(Cmp(x, y))
  }

  /** `hash`: the value fed to the hasher, the truth value after degaussing. */
  function HashInput(x: bv8): (h: bool)
    ensures h == ToBool(x)
  {
    ToBool(Degaussed(x))
  }

  // Conversions

  /** From a bool to a Coin and back gives the same bool. */
  lemma RoundTrip(b: bool)
    ensures ToBool(Canonical(b)) == b
  {
  }

  /** The canonical bytes are the only bytes that are fixed points of degauss,
      and degauss is idempotent. */
  lemma DegaussCanonical(x: bv8)
    ensures Degaussed(Degaussed(x)) == Degaussed(x)
    ensures Degaussed(x) == x <==> x == 0xFF || x == 0x00
    ensures Degaussed(x) == Canonical(ToBool(x))
  {
  }

  // Fault tolerance. Corrupting a byte flips the bits set in a mask `m`;
  // the number of flipped bits is CountOnes(m).

  /** Flipping bits of the canonical true byte 0xFF (clearing them) leaves
      it true exactly when at most four bits were flipped: four cleared bits
      leave four ones against four zeros, which still reads true. */
  lemma TrueUnderFlips(m: bv8)
    ensures ToBool(0xFF ^ m) <==> CountOnes(m) <= 4
  {
    assert 0xFF ^ m == !m;
    ComplementOnes(m);
  }

  /** Flipping bits of the canonical false byte 0x00 (setting them) leaves
      it false exactly when at most three bits were flipped. */
  lemma FalseUnderFlips(m: bv8)
    ensures !ToBool(0x00 ^ m) <==> CountOnes(m) <= 3
  {
    assert 0x00 ^ m == m;
  }

  /** Either canonical byte keeps its truth value under any three bit flips. */
  lemma ToleratesThreeFlips(b: bool, m: bv8)
    requires CountOnes(m) <= 3
    ensures ToBool(Canonical(b) ^ m) == b
  {
    if b {
      TrueUnderFlips(m);
    } else {
      FalseUnderFlips(m);
    }
  }

  /** The tolerance is as large as it can be: four flips can turn the
      canonical false byte into a byte read as true, and five flips can turn
      the canonical true byte into a byte read as false. */
  lemma ToleranceIsTight()
    ensures CountOnes(0x0F) == 4 && ToBool(Canonical(false) ^ 0x0F)
    ensures CountOnes(0x1F) == 5 && !ToBool(Canonical(true) ^ 0x1F)
  {
    TrueUnderFlips(0x1F);
    FalseUnderFlips(0x0F);
  }

  // Equality, ordering and hashing

  /** `eq` is an equivalence relation on bytes. */
  lemma EqIsEquivalence(x: bv8, y: bv8, z: bv8)
    ensures Eq(x, x)
    ensures Eq(x, y) == Eq(y, x)
    ensures Eq(x, y) && Eq(y, z) ==> Eq(x, z)
  {
  }

  /** `eq` does not look at the raw byte: two different bytes compare equal
      whenever they read the same truth value. */
  lemma EqIgnoresCorruption(m: bv8)
    requires CountOnes(m) <= 3
    ensures Eq(0xFF ^ m, 0xFF) && Eq(0x00 ^ m, 0x00)
  {
    ToleratesThreeFlips(true, m);
    ToleratesThreeFlips(false, m);
  }

  /** Bytes that are equal under `eq` feed the hasher the same value. */
  lemma HashAgreesWithEq(x: bv8, y: bv8)
    ensures Eq(x, y) ==> HashInput(x) == HashInput(y)
  {
  }

  /** `cmp` is a total order on truth values, consistent with `eq`,
      and `partial_cmp` always agrees with it. */
  lemma CmpIsTotalOrder(x: bv8, y: bv8, z: bv8)
    ensures Cmp(x, y) == Cmp(y, x).Reverse()
    ensures Cmp(x, y) == Equal <==> Eq(x, y)
    ensures Cmp(x, y) != Greater && Cmp(y, z) != Greater ==> Cmp(x, z) != Greater
    ensures Cmp(x, y) == Less && Cmp(y, z) != Greater ==> Cmp(x, z) == Less
    ensures PartialCmp(x, y) == Some(Cmp(x, y))
  {
  }

  /** `from(false) < from(true)`. */
  lemma FalseBeforeTrue()
    ensures Cmp(Canonical(false), Canonical(true)) == Less
  {
  }
}
