/** The Coin itself: a boolean stored as a whole byte. Reading it
    (`ToBool`) leaves the byte alone; comparing and hashing first degauss
    the operands, rewriting each stored byte to the canonical pattern of
    its truth value, and so heal corruption that has not yet crossed the
    decision boundary. */
module Coins {
  import opened Bits
  import opened Truth

  class Coin {
    /** The storage byte, a plain mutable field that `Degauss` overwrites. */
    var bits: bv8

    /** `Coin::truthy`: the all-ones byte. */
    constructor Truthy()
      ensures bits == 0xFF && ToBool()
    {
      bits := 0xFF;
    }

    /** `Coin::falsey`: the all-zeros byte. */
    constructor Falsey()
      ensures bits == 0x00 && !ToBool()
    {
      bits := 0x00;
    }

    /** `From<bool> for Coin`: `truthy` for true, `falsey` for false. */
    constructor FromBool(b: bool)
      ensures bits == Canonical(b)
      ensures ToBool() == b
    {
      if b {
        bits := 0xFF;
      } else {
        bits := 0x00;
      }
    }

    /** `to_bool`: the truth rule applied to the stored byte, without healing. */
    function ToBool(): (r: bool)
      reads this
      ensures r <==> CountOnes(bits) >= CountZeros(bits)
      ensures r <==> CountOnes(bits) >= 4
    {
      Truth.ToBool(bits)
    }

    /** `degauss`: overwrite the byte with the canonical pattern of the
        truth value it currently reads. */
    method Degauss()
      modifies this
      ensures bits == Canonical(old(ToBool()))
      ensures bits == Degaussed(old(bits))
      ensures ToBool() == old(ToBool())
    {
      var freshBits: bv8 := if ToBool() then 0xFF else 0x00;
      bits := freshBits;
    }

    /** Degauss this coin and then `other`, as `eq`, `cmp` and `partial_cmp`
        do before comparing; when both are the same coin the second call
        finds the byte already canonical and leaves it so. */
    method DegaussBoth(other: Coin)
      modifies this, other
      ensures bits == Degaussed(old(bits))
      ensures other.bits == Degaussed(old(other.bits))
    {
      ghost var mine := bits;
      Degauss();
      if other == this {
        DegaussCanonical(mine);
      }
      other.Degauss();
    }

    /** `Hash::hash`: degauss, then hand the truth value to the hasher;
        the hasher is not modelled, so the value it would receive is returned. */
    method Hash() returns (h: bool)
      modifies this
      ensures h == old(ToBool())
      ensures h == HashInput(old(bits))
      ensures bits == Degaussed(old(bits))
    {
      Degauss();
      h := ToBool();
    }

    /** `PartialEq::eq`: degauss both operands (which may be the same
        coin), then compare truth values. */
    method Eq(other: Coin) returns (r: bool)
      modifies this, other
      ensures r <==> old(ToBool()) == old(other.ToBool())
      ensures r == Truth.Eq(old(bits), old(other.bits))
      ensures bits == Degaussed(old(bits))
      ensures other.bits == Degaussed(old(other.bits))
    {
      DegaussBoth(other);
      r := ToBool() == other.ToBool();
    }

    /** `Ord::cmp`: degauss both operands, then order truth values
        with false before true. */
    method Cmp(other: Coin) returns (o: Ordering)
      modifies this, other
      ensures o == CompareBools(old(ToBool()), old(other.ToBool()))
      ensures o == Truth.Cmp(old(bits), old(other.bits))
      ensures bits == Degaussed(old(bits))
      ensures other.bits == Degaussed(old(other.bits))
    {
      DegaussBoth(other);
      o := CompareBools(ToBool(), other.ToBool());
    }

    /** `PartialOrd::partial_cmp`: as `cmp`, wrapped in `Some`. */
    method PartialCmp(other: Coin) returns (o: Option<Ordering>)
      modifies this, other
      ensures o == Some(CompareBools(old(ToBool()), old(other.ToBool())))
      ensures o == Truth.PartialCmp(old(bits), old(other.bits))
      ensures bits == Degaussed(old(bits))
      ensures other.bits == Degaussed(old(other.bits))
    {
      DegaussBoth(other);
      o := Some(CompareBools(ToBool(), other.ToBool()));
    }
  }

  /** `From<Coin> for bool` and `From<&Coin> for bool`: the truth value,
      read without healing. */
  function BoolFromCoin(c: Coin): (r: bool)
    reads c
    ensures r <==> CountOnes(c.bits) >= 4
  {
    c.ToBool()
  }

  /** The documentation example: a coin made from `true`, read as a bool,
      widened to the integer 1 and turned back into a coin, equals the
      original coin. */
  method WidenedRoundTrip() returns (same: bool)
    ensures same
  {
    var c := new Coin.FromBool(true);
    var one: int := if c.ToBool() then 1 else 0;
    var d := new Coin.FromBool(one == 1);
    same := d.Eq(c);
  }

  /** The unit tests: a coin made from `true` whose byte is then overwritten
      with 1, 3, 3, 4 and 5 cleared bits in turn. */
  method BitFlipTests() returns (one: bool, two: bool, three: bool, four: bool, five: bool)
    ensures one && two && three && four && !five
  {
    var coin := new Coin.FromBool(true);
    coin.bits := 0xFB; // 1111_1011
    one := coin.ToBool();
    coin.bits := 0xD3; // 1101_0011
    two := coin.ToBool();
    coin.bits := 0xD3; // 1101_0011
    three := coin.ToBool();
    coin.bits := 0xC3; // 1100_0011
    four := coin.ToBool();
    coin.bits := 0x83; // 1000_0011
    five := coin.ToBool();
  }
}
