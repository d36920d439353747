/** Machine integer widths, byte strings, accounts and call outcomes shared by
    the fee-charging token and the collection contract. */
module Types {

  const U8_LIMIT: int := 0x100
  const U16_LIMIT: int := 0x1_0000
  const U32_LIMIT: int := 0x1_0000_0000
  const U64_LIMIT: int := 0x1_0000_0000_0000_0000
  const U128_LIMIT: int := 0x1_0000_0000_0000_0000_0000_0000_0000_0000

  type U8 = x: int | 0 <= x < U8_LIMIT
  type U16 = x: int | 0 <= x < U16_LIMIT
  type U32 = x: int | 0 <= x < U32_LIMIT
  type U64 = x: int | 0 <= x < U64_LIMIT
  type U128 = x: int | 0 <= x < U128_LIMIT

  /** Strings are kept as their bytes; UTF-8 decoding is the identity. */
  type Bytes = seq<U8>

  /** An account; the all-zero account id is 0. */
  type AccountId = nat

  const ZERO_ADDRESS: AccountId := 0

  datatype Option<+T> = None | Some(value: T)

  /** What a contract message ends with. `Panic` stands for a trap (an
      overflow in checked or debug-checked arithmetic, an `unwrap` of
      nothing): the host discards every write of a call that traps, so a
      `Panic` outcome always leaves the storage as it was. */
  datatype Outcome<+E> = Ok | Err(error: E) | Panic

  /** Rust's `checked_add` on u64. */
  function CheckedAddU64(a: U64, b: U64): (r: Option<U64>)
    ensures r.Some? <==> a + b < U64_LIMIT
    ensures r.Some? ==> r.value == a + b
  {
    if a + b < U64_LIMIT then Some(a + b) else None
  }

  /** Rust's `checked_mul` on u128 (the factors are u128 at every call). */
  function CheckedMulU128(a: nat, b: nat): (r: Option<nat>)
    ensures r.Some? <==> a * b < U128_LIMIT
    ensures r.Some? ==> r.value == a * b
  {
    if a * b < U128_LIMIT then Some(a * b) else None
  }
}
