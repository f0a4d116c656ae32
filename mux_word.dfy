/**
 * The 32-bit multiplexer (MUX) register word of an IOMUXC pad, and the three
 * read-modify-write updates applied to it: setting and clearing the SION bit,
 * and replacing the alternate-function field.
 */
module MuxWord {

  /** SION ("software input on"): bit 4 of a pad's multiplexer register. */
  const SionBit: bv32 := 1 << 4

  /** The alternate-function field: the low four bits of the multiplexer register. */
  const AltMask: bv32 := 0xF

  /** The word with SION set and every other bit as in `w`. */
  function WithSion(w: bv32): (r: bv32)
    ensures r & SionBit == SionBit
    ensures r & !SionBit == w & !SionBit
  {
    w | SionBit
  }

  /** The word with SION clear and every other bit as in `w`. */
  function WithoutSion(w: bv32): (r: bv32)
    ensures r & SionBit == 0
    ensures r & !SionBit == w & !SionBit
  {
    w & !SionBit
  }

  /**
   * The word whose alternate-function field is `alt` truncated to four bits,
   * with bits 4..31 (SION among them) as in `w`.
   */
  function WithAlternate(w: bv32, alt: bv32): (r: bv32)
    ensures r & AltMask == alt & AltMask
    ensures r & !AltMask == w & !AltMask
  {
    (w & !AltMask) | (alt & AltMask)
  }

  /** A word is determined by its bits inside and outside a mask, so the
      contracts above pin each result down completely. */
  lemma FieldsDetermineWord(a: bv32, b: bv32, mask: bv32)
    requires a & mask == b & mask && a & !mask == b & !mask
    ensures a == b
  {
  }

  lemma WithSionIdempotent(w: bv32)
    ensures WithSion(WithSion(w)) == WithSion(w)
  {
  }

  lemma WithoutSionIdempotent(w: bv32)
    ensures WithoutSion(WithoutSion(w)) == WithoutSion(w)
  {
  }

  /** Clearing after setting leaves SION clear and every other bit as it started. */
  lemma ClearAfterSet(w: bv32)
    ensures WithoutSion(WithSion(w)) == WithoutSion(w)
  {
  }

  /** Setting after clearing leaves SION set and every other bit as it started. */
  lemma SetAfterClear(w: bv32)
    ensures WithSion(WithoutSion(w)) == WithSion(w)
  {
    assert WithSion(WithoutSion(w)) == (w & !SionBit) | SionBit;
  }

  /** Set then clear (or clear then set) restores the word when SION started
      in the state the second operation leaves it in. */
  lemma SionRoundTrip(w: bv32)
    ensures w & SionBit == 0 ==> WithoutSion(WithSion(w)) == w
    ensures w & SionBit != 0 ==> WithSion(WithoutSion(w)) == w
  {
  }

  /** The SION updates leave the alternate-function field alone, and the
      alternate-function update leaves SION alone. */
  lemma FieldsIndependent(w: bv32, alt: bv32)
    ensures WithSion(w) & AltMask == w & AltMask
    ensures WithoutSion(w) & AltMask == w & AltMask
    ensures WithAlternate(w, alt) & SionBit == w & SionBit
  {
  }

  /** Alternate values above 15 are silently truncated to their low four bits. */
  lemma AlternateTruncates(w: bv32, alt: bv32)
    ensures WithAlternate(w, alt) == WithAlternate(w, alt & AltMask)
    ensures WithAlternate(w, 0x19) == WithAlternate(w, 9)
  {
  }

  /** Writing the alternate field twice keeps only the last value. */
  lemma AlternateLastWins(w: bv32, a: bv32, b: bv32)
    ensures WithAlternate(WithAlternate(w, a), b) == WithAlternate(w, b)
  {
  }

  lemma AlternateIdempotent(w: bv32, alt: bv32)
    ensures WithAlternate(WithAlternate(w, alt), alt) == WithAlternate(w, alt)
  {
  }

  /** A word holding only SION, given alternate value 9, becomes 0x19. */
  lemma AlternateExample()
    ensures WithAlternate(0x10, 9) == 0x19
  {
  }
}
