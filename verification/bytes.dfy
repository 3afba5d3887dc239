/** The fixed-width integer types of the driver and the casts it performs on them. */
module Bytes {

  /** `u8`, as it travels on the SPI bus and sits in a plane buffer. */
  type Byte = bv8

  /** `u32`: widths, heights, RAM coordinates and repetition counts. */
  type U32 = x: int | 0 <= x < 0x1_0000_0000

  /** `i32`: the coordinates of a drawing-library point. */
  type I32 = x: int | -0x8000_0000 <= x < 0x8000_0000

  /** The byte whose unsigned value is `m`. It is `m as Byte`, built up one bit at a time
      (at most eight steps) so that the solver reasons about a short recursion instead of a
      direct int-to-bitvector conversion, which makes proofs that use it much slower. */
  function ByteOf(m: nat): (b: Byte)
    requires m < 256
    ensures b as int == m
    decreases m
  {
    if m == 0 then 0 else 2 * ByteOf(m / 2) + (if m % 2 == 1 then 1 else 0)
  }

  /** `v as u8`: keeps the low eight bits of an unsigned value. */
  function AsByte(v: nat): (b: Byte)
    ensures b as int == v % 256
  {
    ByteOf(v % 256)
  }

  /** `n` copies of one byte. */
  function Filled(b: Byte, n: nat): (s: seq<Byte>)
    ensures |s| == n && forall i :: 0 <= i < n ==> s[i] == b
  {
    seq(n, _ => b)
  }

  /** Splitting a 16-bit value into `v as u8` and `(v >> 8) as u8` loses nothing:
      the two bytes read back little-endian give the value again. */
  lemma LittleEndianSplit(v: nat)
    requires v < 0x1_0000
    ensures AsByte(v) as int + 256 * AsByte(v / 256) as int == v
  {
    assert (v / 256) % 256 == v / 256;
  }
}
