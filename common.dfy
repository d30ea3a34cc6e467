/**
 * Types shared by every pallet and contract of the model: the integer widths
 * the runtime uses, account identifiers, and the outcome of a dispatched call.
 */
module Common {

  /** The largest `u32`: kitty identifiers and `NextKittyId` are `u32`. */
  const U32_MAX: nat := 0xFFFF_FFFF

  /** The largest `u64`. */
  const U64_MAX: nat := 0xFFFF_FFFF_FFFF_FFFF

  /** The largest `u128`: ink! `Balance` is `u128`. */
  const U128_MAX: nat := 0xFFFF_FFFF_FFFF_FFFF_FFFF_FFFF_FFFF_FFFF

  type u32 = x: nat | x <= U32_MAX
  type u64 = x: nat | x <= U64_MAX
  type u128 = x: nat | x <= U128_MAX

  /** Accounts are opaque identities that can only be compared. */
  type AccountId = nat

  datatype Option<T> = None | Some(value: T)

  /** A computation that either produces a value or fails with a reason. */
  datatype Result<T, E> = Success(value: T) | Failure(error: E)

  /**
   * The result of a dispatched call: success, a declared error, or a panic
   * (`unwrap`/`expect` on a missing value, an arithmetic trap). A panic aborts
   * the call, so nothing it wrote survives.
   */
  datatype Outcome<E> = Ok | Err(error: E) | Panic

  /** `u32::checked_add`: `None` exactly when the sum leaves the `u32` range. */
  function CheckedAddU32(a: u32, b: u32): (r: Option<u32>)
    ensures r.Some? <==> a + b <= U32_MAX
    ensures r.Some? ==> r.value == a + b
  {
    if a + b <= U32_MAX then Some(a + b) else None
  }

  /** `n as u32`: the low 32 bits, which is `n` itself when it fits. */
  function TruncateU32(n: nat): (r: u32)
    ensures n <= U32_MAX ==> r == n
    ensures r <= n
  {
    n % (U32_MAX + 1)
  }

  /** `u128::checked_add`. */
  function CheckedAddU128(a: u128, b: u128): (r: Option<u128>)
    ensures r.Some? <==> a + b <= U128_MAX
    ensures r.Some? ==> r.value == a + b
  {
    if a + b <= U128_MAX then Some(a + b) else None
  }

  /** A storage-map read with a default of 0 (`get(..).unwrap_or_default()`). */
  function GetOrZero<K(==)>(m: map<K, nat>, k: K): (r: nat)
    ensures k in m ==> r == m[k]
    ensures k !in m ==> r == 0
  {
    if k in m then m[k] else 0
  }
}
