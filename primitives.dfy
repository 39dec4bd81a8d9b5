/** Fixed-width integers, public keys and the error plumbing shared by the adapter. */
module Primitives {

  const U64_LIMIT: int := 0x1_0000_0000_0000_0000
  const U128_LIMIT: int := 0x1_0000_0000_0000_0000_0000_0000_0000_0000
  const I64_LIMIT: int := 0x8000_0000_0000_0000

  type Byte = x: int | 0 <= x < 256
  type U64 = x: int | 0 <= x < U64_LIMIT
  type U128 = x: int | 0 <= x < U128_LIMIT
  type I64 = x: int | -I64_LIMIT <= x < I64_LIMIT

  /** A Solana public key: 32 bytes. */
  type Pubkey = s: seq<Byte> | |s| == 32 witness seq(32, _ => 0)

  datatype Option<+T> = None | Some(value: T)

  /** The failures the adapter reports. The source reports them through `anyhow`;
      here each failing step has its own kind. */
  datatype Error =
    | SlicePanic                     // `data[1..]` on empty account data
    | PoolDecodeFailed               // `SwapV1::unpack` rejected the pool data
    | AccountNotFound(address: Pubkey) // `try_get_account_data`: address missing from the map
    | TokenDecodeFailed(address: Pubkey) // `TokenAccount::unpack` rejected the account data
    | ClockUnavailable               // `Clock::get()` failed
    | QuoteFailed                    // the curve swap returned no result
    | FeePctFailed                   // the fee percentage could not be computed
    | AmountOutOfRange               // `try_into` from u128 to u64 failed

  /** Success value or error, usable with `:-` like Rust's `?`. */
  datatype Result<+T> = Ok(value: T) | Err(error: Error) {
    predicate IsFailure() {
      Err?
    }

    function PropagateFailure<U>(): Result<U>
      requires Err?
    {
      Err(error)
    }

    function Extract(): T
      requires Ok?
    {
      value
    }
  }

  /** `u128::try_into::<u64>()`: succeeds exactly when the value fits in 64 bits. */
  function TryIntoU64(x: nat): (r: Result<U64>)
    ensures r.Ok? <==> x < U64_LIMIT
    ensures r.Ok? ==> r.value == x
    ensures r.Err? ==> r.error == AmountOutOfRange
  {
    if x < U64_LIMIT then Ok(x) else Err(AmountOutOfRange)
  }

  /** `t as u128` for an `i64`: sign extension, so a negative value wraps around 2^128. */
  function I64AsU128(t: I64): (r: U128)
    ensures (r - t) % U128_LIMIT == 0
    ensures 0 <= t ==> r == t
    ensures t < 0 ==> U128_LIMIT - I64_LIMIT <= r
  {
    if 0 <= t then t else t + U128_LIMIT
  }

  /** Widening a u64 and narrowing it back gives the same value. */
  lemma WidenThenNarrow(x: U64)
    ensures TryIntoU64(x as U128) == Ok(x)
  {
  }

  /** The timestamp cast loses nothing: distinct timestamps stay distinct. */
  lemma I64AsU128Injective(s: I64, t: I64)
    ensures I64AsU128(s) == I64AsU128(t) ==> s == t
  {
  }
}
