/** Fixed-width integer types of the Rust program and the `as` casts between them.
    `usize` and `isize` are taken at their width on 64-bit targets. */
module Ints {
  const TWO_8: int := 0x100
  const TWO_63: int := 0x8000_0000_0000_0000
  const TWO_64: int := 0x1_0000_0000_0000_0000

  type u8 = x: int | 0 <= x < TWO_8
  type u64 = x: int | 0 <= x < TWO_64
  type i64 = x: int | -TWO_63 <= x < TWO_63
  type usize = u64
  type isize = i64

  /** `v as u8`: keeps the low eight bits of `v`. */
  function U64AsU8(v: u64): (r: u8)
    ensures (v - r) % TWO_8 == 0
    ensures r == v <==> v < TWO_8
  {
    v % TWO_8
  }

  /** `v as usize` on a 64-bit target: every `u64` fits, nothing is lost. */
  function U64AsUsize(v: u64): (r: usize)
    ensures r as int == v as int
  {
    v
  }

  /** `v as u64` for a signed `v`: the same 64 bits read as unsigned (two's complement). */
  function I64AsU64(v: i64): (r: u64)
    ensures (r - v) % TWO_64 == 0
    ensures r == v <==> v >= 0
    ensures v < 0 ==> r >= TWO_63
  {
    if v < 0 then v + TWO_64 else v
  }
}
