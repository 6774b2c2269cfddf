/** Fixed-width integers, 32-byte keys and digests, and Rust's checked
    arithmetic on `u64`, shared by both on-chain programs. */
module Primitives {

  const U64_MAX: int := 0xFFFF_FFFF_FFFF_FFFF

  newtype u8 = x: int | 0 <= x < 0x100
  newtype u64 = x: int | 0 <= x <= 0xFFFF_FFFF_FFFF_FFFF
  newtype i64 = x: int | -0x8000_0000_0000_0000 <= x < 0x8000_0000_0000_0000

  /** A `[u8; 32]`: account addresses (`Pubkey`) and SHA-256 digests. */
  type Bytes32 = s: seq<u8> | |s| == 32 witness seq(32, _ => 0)
  type Pubkey = Bytes32
  type Digest = Bytes32

  const ZERO_KEY: Pubkey := seq(32, _ => 0)

  datatype Option<T> = None | Some(value: T)

  /** `u64::checked_add`: `None` exactly when the sum leaves the `u64` range. */
  function CheckedAdd(a: u64, b: u64): (r: Option<u64>)
    ensures r.None? <==> a as int + b as int > U64_MAX
    ensures r.Some? ==> r.value as int == a as int + b as int && r.value >= a
  {
    if a as int + b as int <= U64_MAX then Some((a as int + b as int) as u64) else None
  }

  /** `u64::checked_sub`: `None` exactly when the difference would be negative. */
  function CheckedSub(a: u64, b: u64): (r: Option<u64>)
    ensures r.None? <==> b > a
    ensures r.Some? ==> r.value as int + b as int == a as int
  {
    if b <= a then Some(a - b) else None
  }

  /** `u64::checked_mul`: `None` exactly when the product leaves the `u64` range. */
  function CheckedMul(a: u64, b: u64): (r: Option<u64>)
    ensures r.None? <==> a as int * b as int > U64_MAX
    ensures r.Some? ==> r.value as int == a as int * b as int
  {
    if a as int * b as int <= U64_MAX then Some((a as int * b as int) as u64) else None
  }

  /** `u64::checked_div`: `None` exactly for a zero divisor; otherwise the
      quotient rounded down (unsigned, so no rounding-direction question). */
  function CheckedDiv(a: u64, b: u64): (r: Option<u64>)
    ensures r.None? <==> b == 0
    ensures r.Some? ==> r.value as int * b as int <= a as int < (r.value as int + 1) * b as int
  {
    if b == 0 then None else Some(a / b)
  }
}
