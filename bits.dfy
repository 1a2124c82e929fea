/** Single-bit operations on a byte, as the button state uses them. */
module Bits {

  type BitIndex = b: nat | b < 8

  /** The byte with only bit `bit` set (Go's `1 << bit`). */
  function Mask(bit: BitIndex): bv8 {
    1 << bit
  }

  /** Go's `(b >> bit) & 1 == 1`. */
  predicate IsSet(b: bv8, bit: BitIndex) {
    (b >> bit) & 1 == 1
  }

  /** Flipping a clear bit sets it: the same as or-ing its mask in. */
  lemma FlipClear(b: bv8, bit: BitIndex)
    requires !IsSet(b, bit)
    ensures b ^ Mask(bit) == b | Mask(bit)
  {
  }

  /** Flipping a set bit clears it: the same as and-ing with the complement of its mask. */
  lemma FlipSet(b: bv8, bit: BitIndex)
    requires IsSet(b, bit)
    ensures b ^ Mask(bit) == b & !Mask(bit)
  {
  }

  /** Or-ing in the mask of a set bit, or clearing a clear bit, changes nothing. */
  lemma MaskNoChange(b: bv8, bit: BitIndex)
    ensures IsSet(b, bit) ==> b | Mask(bit) == b
    ensures !IsSet(b, bit) ==> b & !Mask(bit) == b
  {
  }

  /** Testing a bit by shifting is testing it against its mask. */
  lemma IsSetByMask(b: bv8, y: BitIndex)
    ensures IsSet(b, y) == (b & Mask(y) != 0)
  {
    if y == 0 {} else if y == 1 {} else if y == 2 {} else if y == 3 {}
    else if y == 4 {} else if y == 5 {} else if y == 6 {} else {}
  }

  /** Masks of distinct bits share no bit. */
  lemma MasksDisjoint(x: BitIndex, y: BitIndex)
    ensures x != y ==> Mask(x) & Mask(y) == 0
    ensures Mask(x) != 0
  {
    if x == 0 {} else if x == 1 {} else if x == 2 {} else if x == 3 {}
    else if x == 4 {} else if x == 5 {} else if x == 6 {} else {}
  }

  /** Bit `y` of `b` after bit `x` is or-ed in or cleared: only bit `x` moves. */
  lemma MaskBits(b: bv8, x: BitIndex, y: BitIndex)
    ensures IsSet(b | Mask(x), y) == (x == y || IsSet(b, y))
    ensures IsSet(b & !Mask(x), y) == (x != y && IsSet(b, y))
  {
    IsSetByMask(b | Mask(x), y);
    IsSetByMask(b & !Mask(x), y);
    IsSetByMask(b, y);
    MasksDisjoint(x, y);
    if x == y {
      assert (b | Mask(x)) & Mask(y) != 0;
    }
  }

  /** Clearing one mask and then another is clearing their union. */
  lemma ClearBoth(x: bv8, m: bv8, k: bv8)
    ensures (x & !m) & !k == x & !(m | k)
  {
  }

  /** Or-ing in one mask and then another is or-ing in their union; or-ing in zero changes nothing. */
  lemma OrBoth(x: bv8, m: bv8, k: bv8)
    ensures (x | m) | k == x | (m | k)
    ensures x | 0 == x && x & !0 == x
  {
  }
}
