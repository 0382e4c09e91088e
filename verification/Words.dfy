/** Machine words of the source: bounded subsets of `int` with saturating arithmetic. */
module Words {
  const U64_MAX: int := 0xFFFF_FFFF_FFFF_FFFF
  const U32_MAX: int := 0xFFFF_FFFF
  const U16_MAX: int := 0xFFFF

  type U64 = x: int | 0 <= x <= U64_MAX
  type U32 = x: int | 0 <= x <= U32_MAX
  type U16 = x: int | 0 <= x <= U16_MAX
  type U8 = x: int | 0 <= x <= 255

  datatype Option<+T> = None | Some(value: T)

  function Min(a: int, b: int): int {
    if a <= b then a else b
  }

  function Max(a: int, b: int): int {
    if a <= b then b else a
  }

  /** `u64::saturating_add`. */
  function SatAdd(a: U64, b: U64): U64 {
    Min(a + b, U64_MAX)
  }

  /** `u64::saturating_sub`. */
  function SatSub(a: U64, b: U64): U64 {
    Max(a - b, 0)
  }
}
