# Coin: a bit-flip resistant boolean, modelled in Dafny

`Coin` stores a boolean in a whole byte. Its truth value is decided by
majority. It counts the byte's 1-bits and its 0-bits and reads `true` when
the ones are at least as many as the zeros. For eight bits that means four
or more set bits. `true` is stored as `0xFF` and `false` as `0x00`, so a few
bit flips in long-lived memory do not change the value that is read.
Equality, ordering and hashing first *degauss* their operands. Degaussing
rewrites each stored byte to the canonical pattern of the truth value it
currently reads, which heals corruption before it can cross the boundary.
They then compare or hash only the truth values.

The model has three modules:

- `Bits` (`bits.dfy`): `count_ones` and `count_zeros` of a byte (`bv8`).
  Each is defined on its own, by recursion over the bit positions. The
  module also proves that the two counts add up to eight and that
  complementing a byte swaps them.
- `Truth` (`truth.dfy`): the truth rule, the canonical bytes, and what
  degauss, `eq`, `cmp`, `partial_cmp` and `hash` compute, all as functions
  of the stored byte. It also holds the lemmas about them: the round trip,
  fault tolerance and its exact limits, equivalence, total order, and the
  hash law.
- `Coins` (`coin.dfy`): the `Coin` class. Its mutable `bits` field is the
  storage byte. Methods that degauss (`modifies this, other`) cover the case
  where both operands are the same coin. Each method's `ensures` ties the
  result and the new bytes to the `Truth` functions of the old bytes.

Bit corruption is modelled as XOR with a mask `m`, so `CountOnes(m)` is the
number of flipped bits. Clearing bits of `0xFF` and setting bits of `0x00`
are both such flips.

The decision boundary is ones ≥ zeros (`src/lib.rs:73`), so `0b1100_0011`
(four bits cleared from `0xFF`) reads `true`, as the test at
`src/lib.rs:172-177` asserts. The documentation at `src/lib.rs:50-51` says a
Coin tolerates 3 bit flips per byte. The code tolerates four cleared bits of
`0xFF` (`Truth.TrueUnderFlips`) but only three set bits of `0x00`
(`Truth.FalseUnderFlips`), since a fourth set bit makes it read `true`.
`Truth.ToleranceIsTight` proves that three flips is the largest number both
canonical bytes survive.

The unit tests named `two_bits_flipped` and `three_bits_flipped`
(`src/lib.rs:158-170`) both store `0b1101_0011`, which has three bits
cleared. No test stores a byte with exactly two bits cleared.
`Coins.BitFlipTests` uses the bytes as written.

## Model

| member | source | states |
|---|---|---|
| Bits.CountOnes | src/lib.rs:73 | `count_ones` is at most 8 and is 0 exactly for the byte 0x00 |
| Bits.CountZeros | src/lib.rs:73 | `count_zeros` is at most 8 and is 0 exactly for the byte 0xFF |
| Bits.OnesPlusZeros | src/lib.rs:49-50 | every bit is counted once, as a one or a zero: the two counts add up to 8, so comparing them is the same as comparing the ones with 4 |
| Bits.ComplementOnes | src/lib.rs:49-51 | complementing a byte swaps its ones and zeros: ones of `!x` = zeros of `x` = 8 − ones of `x` |
| Truth.ToBool | src/lib.rs:71-75 | the ones-versus-zeros comparison is true exactly when 4 or more bits are set, that is, when at most 4 bits are clear |
| Truth.Canonical | src/lib.rs:61-68 | the true byte has 8 ones and no zeros; the false byte has no ones and 8 zeros |
| Truth.Degaussed | src/lib.rs:77-85 | the degaussed byte is 0xFF or 0x00 and reads the same truth value as the byte it replaces |
| Truth.Eq | src/lib.rs:97-104 | after degaussing both bytes, `eq` is true exactly when the original bytes read the same truth value |
| Truth.CompareBools | src/lib.rs:110 | `bool::cmp`: Equal iff the values are equal, Less iff false against true, Greater iff true against false |
| Truth.Cmp | src/lib.rs:106-112 | after degaussing both bytes, `cmp` is Equal, Less or Greater exactly as the original truth values are equal, false-before-true or true-before-false |
| Truth.PartialCmp | src/lib.rs:114-120 | `partial_cmp` is always `Some`, and its ordering is Equal exactly when `eq` holds |
| Truth.HashInput | src/lib.rs:88-93 | the value fed to the hasher after degaussing is the byte's original truth value |
| Truth.RoundTrip | src/lib.rs:136-144 | converting a bool to a Coin and back gives the same bool |
| Truth.DegaussCanonical | src/lib.rs:77-85 | degauss is idempotent, its fixed points are exactly 0xFF and 0x00, and it writes the canonical byte of the truth value it reads |
| Truth.TrueUnderFlips | src/lib.rs:151-184 | flipping the bits of a mask in 0xFF keeps it true exactly when at most 4 bits flip (1, 3 and 4 flips read true; 5 read false) |
| Truth.FalseUnderFlips | src/lib.rs:49-51 | flipping the bits of a mask in 0x00 keeps it false exactly when at most 3 bits flip |
| Truth.ToleratesThreeFlips | src/lib.rs:49-51 | both canonical bytes keep their truth value under any corruption of up to 3 bits |
| Truth.ToleranceIsTight | src/lib.rs:49-51 | the bound of 3 is tight: some 4-bit flip turns false into true, and some 5-bit flip turns true into false |
| Truth.EqIsEquivalence | src/lib.rs:95-104 | `eq` is reflexive, symmetric and transitive, as the `Eq` marker promises |
| Truth.EqIgnoresCorruption | src/lib.rs:97-104 | a byte with up to 3 corrupted bits compares equal to the canonical byte it came from |
| Truth.HashAgreesWithEq | src/lib.rs:88-104 | bytes that compare equal under `eq` feed the hasher the same value |
| Truth.CmpIsTotalOrder | src/lib.rs:106-120 | `cmp` is antisymmetric (swapping operands reverses it), transitive, Equal exactly when `eq` holds, and `partial_cmp` is always `Some(cmp)` |
| Truth.FalseBeforeTrue | src/lib.rs:106-112 | the coin made from `false` orders before the coin made from `true` |
| Coins.Coin.Truthy | src/lib.rs:60-63 | a new coin holds 0xFF and reads true |
| Coins.Coin.Falsey | src/lib.rs:65-68 | a new coin holds 0x00 and reads false |
| Coins.Coin.FromBool | src/lib.rs:136-144 | the new coin holds the canonical byte of `b` and reads `b` back |
| Coins.Coin.ToBool | src/lib.rs:70-75 | reading the coin compares its ones with its zeros, which is true exactly when at least 4 bits are set |
| Coins.Coin.Degauss | src/lib.rs:77-85 | the stored byte becomes the canonical byte of the truth value read before the call, and that truth value is unchanged |
| Coins.Coin.DegaussBoth | src/lib.rs:100-101 | degausses this coin and then `other`; each ends at the canonical byte of its own truth value before the call, also when both are the same coin |
| Coins.Coin.Hash | src/lib.rs:88-93 | returns the truth value read before the call (what the hasher receives) and leaves the coin degaussed |
| Coins.Coin.Eq | src/lib.rs:97-104 | returns whether the two coins read the same truth value before the call, and leaves both degaussed, also when they are the same coin |
| Coins.Coin.Cmp | src/lib.rs:106-112 | returns the false-before-true ordering of the truth values read before the call, and leaves both coins degaussed |
| Coins.Coin.PartialCmp | src/lib.rs:114-120 | returns `Some` of that same ordering, and leaves both coins degaussed |
| Coins.BoolFromCoin | src/lib.rs:122-134 | converting a coin to `bool` is true exactly when 4 or more of its bits are set |
| Coins.WidenedRoundTrip | src/lib.rs:35-41 | a true coin, read, widened to the integer 1 and rebuilt from `one == 1`, compares equal to the original |
| Coins.BitFlipTests | src/lib.rs:151-184 | a true coin overwritten with 0xFB, 0xD3, 0xD3 and 0xC3 reads true, and overwritten with 0x83 reads false |

## Left out

- The `Cell` around the byte is modelled as a plain mutable field. Its interior mutability behind `&self` and its single-thread restriction are not modelled.
- `std::hash::Hasher` is a foreign trait. `Coins.Coin.Hash` returns the bool that `hash` would feed to it, instead of updating a hasher.
- The `Debug` and `Clone` derives (`src/lib.rs:56`) and the `println!` in the documentation example have no logic to model.
- Faults in the running code itself are not modelled: an opcode bit flip or corrupted `u8::MAX`/`u8::MIN` constants (`src/lib.rs:74`, `src/lib.rs:78`). The model corrupts only the stored byte.
- The fact that the truth rule compares two counts instead of one count against the constant 4 is kept in the definition (`Truth.ToBool`). What it protects against, a corrupted immediate operand, is outside the model.
