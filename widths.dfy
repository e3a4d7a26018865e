/*
 * The bit-set value types of every width the two modelled files refer to.
 * Each wraps exactly one unsigned integer (`u8`, `u16`, `u32`, `u64`, `u128`),
 * here a natural number below the width's bound. They live in one module so
 * that the conversions between `Bitfield8` and `Bitfield128` do not form an
 * import cycle.
 */
module Widths {

  type u8 = n: nat | n < 0x100
  type u16 = n: nat | n < 0x1_0000
  type u32 = n: nat | n < 0x1_0000_0000
  type u64 = n: nat | n < 0x1_0000_0000_0000_0000
  type u128 = n: nat | n < 0x1_0000_0000_0000_0000_0000_0000_0000_0000

  datatype Bitfield8 = Bitfield8(inner: u8)
  datatype Bitfield16 = Bitfield16(inner: u16)
  datatype Bitfield32 = Bitfield32(inner: u32)
  datatype Bitfield64 = Bitfield64(inner: u64)
  datatype Bitfield128 = Bitfield128(inner: u128)

  /** `Index<Bitfield8>`: a bit position of an 8-bit set. */
  type Index8 = i: nat | i < 8

  /** `BitfieldIndex<Bitfield128>`: a bit position of a 128-bit set. */
  type Index128 = i: nat | i < 128
}
