/** Machine widths and the optional value shared by every module. */
module Prelude {

  const U64_MAX: nat := 0xFFFF_FFFF_FFFF_FFFF

  type u64 = n: int | 0 <= n <= U64_MAX

  type u8 = bv8

  /** UTF-8 text. */
  type Text = seq<u8>

  /** RGB contract identifiers are opaque labels. */
  type ContractId = nat

  type PaymentHash = h: seq<u8> | |h| == 32 witness seq(32, _ => 0)

  datatype Option<+T> = None | Some(value: T)

  function Min(a: nat, b: nat): nat {
    if a <= b then a else b
  }

  /** Rust's `saturating_sub` on u64. */
  function SaturatingSub(a: u64, b: u64): u64 {
    if a >= b then a - b else 0
  }
}
