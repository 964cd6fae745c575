/**
  The glyph table of `SevenSegment::set`: a total function from a `u8` to the seven
  segment bits a, b, c, d, e, f, g. Values 0x0 to 0xF are the hexadecimal digits,
  every other value is the blank pattern.
 */
module Glyph {

  /** The source's `u8`. */
  type Byte = x: int | 0 <= x < 0x100

  /** Position of a segment: 0 is a, 1 is b, ..., 6 is g. */
  type SegmentIndex = i: int | 0 <= i < 7

  /** Segment bits in the order a, b, c, d, e, f, g; the source writes them as a `u8` 7-tuple. */
  type Mask = (Byte, Byte, Byte, Byte, Byte, Byte, Byte)

  /** The pattern with no segment lit. */
  const Blank: Mask := (0, 0, 0, 0, 0, 0, 0)

  /** The bit of segment `i` in `m`. */
  function Bit(m: Mask, i: SegmentIndex): Byte
  {
    match i
    case 0 => m.0
    case 1 => m.1
    case 2 => m.2
    case 3 => m.3
    case 4 => m.4
    case 5 => m.5
    case _ => m.6
  }

  /**
    The glyph table. The blank pattern is produced exactly for the values outside
    0x0..0xF (no digit is drawn blank), and every entry is a bit.
   */
  function MaskOf(value: Byte): (m: Mask)
    ensures m == Blank <==> value > 0xF
    ensures forall i: SegmentIndex :: Bit(m, i) == 0 || Bit(m, i) == 1
  {
    match value
    //     a  b  c  d  e  f  g
    case 0x0 => (1, 1, 1, 1, 1, 1, 0)
    case 0x1 => (0, 1, 1, 0, 0, 0, 0)
    case 0x2 => (1, 1, 0, 1, 1, 0, 1)
    case 0x3 => (1, 1, 1, 1, 0, 0, 1)
    case 0x4 => (0, 1, 1, 0, 0, 1, 1)
    case 0x5 => (1, 0, 1, 1, 0, 1, 1)
    case 0x6 => (1, 0, 1, 1, 1, 1, 1)
    case 0x7 => (1, 1, 1, 0, 0, 0, 0)
    case 0x8 => (1, 1, 1, 1, 1, 1, 1)
    case 0x9 => (1, 1, 1, 1, 0, 1, 1)
    case 0xa => (1, 1, 1, 0, 1, 1, 1)
    case 0xb => (0, 0, 1, 1, 1, 1, 1)
    case 0xc => (1, 0, 0, 1, 1, 1, 0)
    case 0xd => (0, 1, 1, 1, 1, 0, 1)
    case 0xe => (1, 0, 0, 1, 1, 1, 1)
    case 0xf => (1, 0, 0, 0, 1, 1, 1)
    case _ => Blank
  }

  /** Segment `i` is lit when `value` is shown. */
  predicate Lit(value: Byte, i: SegmentIndex)
  {
    Bit(MaskOf(value), i) == 1
  }

  /** Every value outside the hexadecimal digits is blank: no segment is lit. */
  lemma OutOfRangeIsBlank(value: Byte, i: SegmentIndex)
    requires value > 0xF
    ensures !Lit(value, i)
  {
  }

  /** The sixteen digit glyphs are pairwise different, so each digit can be told apart on the display. */
  lemma GlyphsDistinct(v: Byte, w: Byte)
    requires v <= 0xF && w <= 0xF && v != w
    ensures MaskOf(v) != MaskOf(w)
  {
  }

  /** The expected segment tuples of the crate's tests, digit by digit, and of the invalid value 0x10. */
  lemma TestVectors()
    ensures MaskOf(0x0) == (1, 1, 1, 1, 1, 1, 0)
    ensures MaskOf(0x1) == (0, 1, 1, 0, 0, 0, 0)
    ensures MaskOf(0x2) == (1, 1, 0, 1, 1, 0, 1)
    ensures MaskOf(0x3) == (1, 1, 1, 1, 0, 0, 1)
    ensures MaskOf(0x4) == (0, 1, 1, 0, 0, 1, 1)
    ensures MaskOf(0x5) == (1, 0, 1, 1, 0, 1, 1)
    ensures MaskOf(0x6) == (1, 0, 1, 1, 1, 1, 1)
    ensures MaskOf(0x7) == (1, 1, 1, 0, 0, 0, 0)
    ensures MaskOf(0x8) == (1, 1, 1, 1, 1, 1, 1)
    ensures MaskOf(0x9) == (1, 1, 1, 1, 0, 1, 1)
    ensures MaskOf(0xa) == (1, 1, 1, 0, 1, 1, 1)
    ensures MaskOf(0xb) == (0, 0, 1, 1, 1, 1, 1)
    ensures MaskOf(0xc) == (1, 0, 0, 1, 1, 1, 0)
    ensures MaskOf(0xd) == (0, 1, 1, 1, 1, 0, 1)
    ensures MaskOf(0xe) == (1, 0, 0, 1, 1, 1, 1)
    ensures MaskOf(0xf) == (1, 0, 0, 0, 1, 1, 1)
    ensures MaskOf(0x10) == (0, 0, 0, 0, 0, 0, 0)
  {
  }
}
