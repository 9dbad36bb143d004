/**
 * Shared definitions of the engine: the fixed-width integer ranges, the
 * TCLAMP macro and an Option type used wherever the C code returns a null
 * pointer or leaves an out-parameter unwritten.
 */
module Defines {

  const U8Limit: nat := 0x100
  const U16Limit: nat := 0x1_0000
  const U32Limit: nat := 0x1_0000_0000
  const U32Max: nat := 0xFFFF_FFFF
  const U64Limit: nat := 0x1_0000_0000_0000_0000

  type u8 = x: nat | x < U8Limit
  type u16 = x: nat | x < U16Limit
  type u32 = x: nat | x < U32Limit
  type u64 = x: nat | x < U64Limit
  type s8 = x: int | -0x80 <= x < 0x80
  type s16 = x: int | -0x8000 <= x < 0x8000

  datatype Option<T> = None | Some(value: T)

  /** The TCLAMP macro: `min` at or below `min`, `max` at or above `max`, else `value` itself. */
  function TClamp(value: int, min: int, max: int): (r: int)
    ensures r == value || r == min || r == max
    ensures min <= max ==> min <= r <= max
    ensures min <= value <= max ==> r == value
    ensures value <= min ==> r == min
    ensures min < value && max <= value ==> r == max
  {
    if value <= min then min else if value >= max then max else value
  }

  /** Conversion of a signed value to an unsigned field of `limit` values, as a C cast does. */
  function Truncate(value: int, limit: nat): (r: nat)
    requires limit > 0
    ensures r < limit
    ensures 0 <= value < limit ==> r == value
  {
    value % limit
  }
}
