/**
 * The coordinate mix every coordinate-derived generator is seeded with:
 * `(x & 0xFFFF) << 16 | (y & 0xFFFF)` on 32-bit unsigned coordinates.
 */
module Sectors {
  import opened Rand

  /**
   * The seed of sector (x, y), written arithmetically: masking with 0xFFFF
   * keeps x mod 2^16, shifting a 16-bit value left by 16 multiplies it by
   * 2^16 without losing bits, and OR-ing two disjoint bit ranges adds them
   * (`MaskShiftOr` states that last step on 32-bit vectors).
   */
  function CoordSeed(x: Word, y: Word): Word {
    (x % 0x1_0000) * 0x1_0000 + y % 0x1_0000
  }

  /** On 32-bit vectors, the source's mask, shift and OR is the arithmetic form of `CoordSeed`. */
  lemma MaskShiftOr(a: bv32, b: bv32)
    ensures ((a & 0xFFFF) << 16) | (b & 0xFFFF) == (a % 0x1_0000) * 0x1_0000 + b % 0x1_0000
  {
  }

  /** Only the low 16 bits of each coordinate reach the seed. */
  lemma CoordSeedLow16(x: Word, y: Word, x': Word, y': Word)
    requires x % 0x1_0000 == x' % 0x1_0000 && y % 0x1_0000 == y' % 0x1_0000
    ensures CoordSeed(x, y) == CoordSeed(x', y')
  {
  }

  /** Within one 65536 x 65536 tile no two sectors share a seed. */
  lemma CoordSeedInjectiveLow16(x: Word, y: Word, x': Word, y': Word)
    requires CoordSeed(x, y) == CoordSeed(x', y')
    ensures x % 0x1_0000 == x' % 0x1_0000 && y % 0x1_0000 == y' % 0x1_0000
  {
    var s := CoordSeed(x, y);
    assert s / 0x1_0000 == x % 0x1_0000 && s % 0x1_0000 == y % 0x1_0000;
    assert s / 0x1_0000 == x' % 0x1_0000 && s % 0x1_0000 == y' % 0x1_0000;
  }

  /** `x + 65536` on a `uint`: the sector one tile to the east. */
  function TileEast(x: Word): Word {
    (x + 0x1_0000) % TwoTo32
  }

  /** The sector one tile further east has the same seed. */
  lemma CoordSeedTileEast(x: Word, y: Word)
    ensures CoordSeed(TileEast(x), y) == CoordSeed(x, y)
  {
    assert TileEast(x) % 0x1_0000 == x % 0x1_0000;
  }
}
