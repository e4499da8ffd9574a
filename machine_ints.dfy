/**
 * Rust's 64-bit machine integers as subsets of the mathematical integers,
 * with the two's-complement reinterpretation that an `as` cast between
 * `u64` and `i64` performs.
 */
module MachineInts {

  const TWO_64: int := 0x1_0000_0000_0000_0000
  const U64_MAX: int := 0xFFFF_FFFF_FFFF_FFFF
  const I64_MAX: int := 0x7FFF_FFFF_FFFF_FFFF
  const I64_MIN: int := -0x8000_0000_0000_0000

  type U8 = x: int | 0 <= x < 0x100
  type U64 = x: int | 0 <= x <= U64_MAX
  type I64 = x: int | I64_MIN <= x <= I64_MAX

  /** `u as i64`: the same 64 bits read as a two's-complement number. */
  function AsI64(u: U64): (r: I64)
    ensures r >= 0 <==> u <= I64_MAX
    ensures r == u || r == u - TWO_64
  {
    if u <= I64_MAX then u else u - TWO_64
  }

  /** `i as u64`: the same 64 bits read as an unsigned number. */
  function AsU64(i: I64): (r: U64)
    ensures (r - i) % TWO_64 == 0
  {
    if i >= 0 then i else i + TWO_64
  }

  /** The `i64` that a wrapping operation leaves when the exact result is `x`. */
  function WrapI64(x: int): (r: I64)
    ensures I64_MIN <= x <= I64_MAX ==> r == x
    ensures (r - x) % TWO_64 == 0
  {
    (x - I64_MIN) % TWO_64 + I64_MIN
  }

  /** The `u64` that a wrapping operation leaves when the exact result is `x`. */
  function WrapU64(x: int): (r: U64)
    ensures 0 <= x <= U64_MAX ==> r == x
    ensures (r - x) % TWO_64 == 0
  {
    x % TWO_64
  }
}
