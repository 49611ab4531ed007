/** The all-bits mask test `flag_set`, in the two forms its callers rely on:
    as a word operation, and bit by bit. */
module Bits {

  /** Bit `i` of `x`, counting from the least significant. */
  predicate Bit(x: bv32, i: bv32)
    requires i < 32
  {
    (x >> i) & 1 == 1
  }

  /** `flag_set`: the word `flags` contains the whole mask `flag`. */
  predicate FlagSet(flags: bv32, flag: bv32) {
    flags & flag == flag
  }

  /** A set bit of a nonzero word, found by shifting the word right one bit at a time. */
  lemma {:induction false} SomeSetBit(w: bv32) returns (i: bv32)
    requires w != 0
    ensures i < 32 && Bit(w, i)
    decreases w
  {
    if w & 1 == 1 {
      i := 0;
    } else {
      var j := SomeSetBit(w >> 1);
      ShiftedBit(w, j);
      i := j + 1;
    }
  }

  /** Bit `j` of the word shifted right by one is bit `j + 1` of the word. */
  lemma ShiftedBit(w: bv32, j: bv32)
    requires j < 32 && Bit(w >> 1, j)
    ensures j < 31 && Bit(w, j + 1)
  {
    assert (w >> 1) >> j == w >> (j + 1);
  }

  /** A bit of the mask that is clear in the word, when the mask is not contained. */
  lemma MissingBit(flags: bv32, flag: bv32) returns (i: bv32)
    requires !FlagSet(flags, flag)
    ensures i < 32 && Bit(flag, i) && !Bit(flags, i)
  {
    var d := flag & !flags;
    NonzeroDifference(flags, flag);
    i := SomeSetBit(d);
    MissingBitIsInMask(flags, flag, i);
    MissingBitIsClear(flags, flag, i);
  }

  /** A mask not contained in a word has a bit outside it. */
  lemma NonzeroDifference(flags: bv32, flag: bv32)
    requires !FlagSet(flags, flag)
    ensures flag & !flags != 0
  {
  }

  /** A bit of `flag & !flags` is a bit of `flag`. */
  lemma MissingBitIsInMask(flags: bv32, flag: bv32, i: bv32)
    requires i < 32 && Bit(flag & !flags, i)
    ensures Bit(flag, i)
  {
  }

  /** A bit of `flag & !flags` is clear in `flags`. */
  lemma MissingBitIsClear(flags: bv32, flag: bv32, i: bv32)
    requires i < 32 && Bit(flag & !flags, i)
    ensures !Bit(flags, i)
  {
  }

  /** Each bit of a contained mask is set in the word. */
  lemma ContainedBitIsSet(flags: bv32, flag: bv32, i: bv32)
    requires FlagSet(flags, flag) && i < 32 && Bit(flag, i)
    ensures Bit(flags, i)
  {
  }

  /** A mask is contained in a word exactly when each of its bits is set there. */
  lemma FlagSetEveryBit(flags: bv32, flag: bv32)
    ensures FlagSet(flags, flag) <==> (forall i: bv32 :: i < 32 && Bit(flag, i) ==> Bit(flags, i))
  {
    if !FlagSet(flags, flag) {
      var i := MissingBit(flags, flag);
    } else {
      forall i: bv32 | i < 32 && Bit(flag, i)
        ensures Bit(flags, i)
      {
        ContainedBitIsSet(flags, flag, i);
      }
    }
  }

  /** A mask is contained in a word exactly when none of its bits is clear there. */
  lemma FlagSetNoClearBit(flags: bv32, flag: bv32)
    ensures FlagSet(flags, flag) <==> flag & !flags == 0
  {
    if FlagSet(flags, flag) {
      NoClearBitOfContained(flags, flag);
    } else {
      NonzeroDifference(flags, flag);
    }
  }

  /** A contained mask has no bit outside the word. */
  lemma NoClearBitOfContained(flags: bv32, flag: bv32)
    requires FlagSet(flags, flag)
    ensures flag & !flags == 0
  {
  }

  /** The empty mask is contained in every word. */
  lemma FlagSetEmptyMask(flags: bv32)
    ensures FlagSet(flags, 0)
  {
  }

  /** Setting more bits in the word keeps a match. */
  lemma FlagSetMoreBits(flags: bv32, flag: bv32, extra: bv32)
    requires FlagSet(flags, flag)
    ensures FlagSet(flags | extra, flag)
  {
  }

  /** Two contained masks contain their union. */
  lemma FlagSetUnion(flags: bv32, flag: bv32, other: bv32)
    requires FlagSet(flags, flag) && FlagSet(flags, other)
    ensures FlagSet(flags, flag | other)
  {
  }

  /** A mask is contained in any word it is OR-ed into. */
  lemma FlagSetOwnMask(flags: bv32, flag: bv32)
    ensures FlagSet(flags | flag, flag)
  {
  }

  /** OR-ing zero changes nothing. */
  lemma FlagSetOrZero(flags: bv32)
    ensures flags | 0 == flags
  {
  }
}
