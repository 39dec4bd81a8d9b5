# NOVA PSM quote adapter, modelled in Dafny

This project models the adapter that lets a swap router (Jupiter's AMM interface) quote
and route trades through a NOVA PSM two-asset pool. The adapter does the following:

- It decodes the pool account into the pool state (`SwapV1`). It records the two reserve
  mints, token A first, and starts with an empty reserve cache.
- It names the two reserve token accounts the host must fetch. It refreshes the cache from
  them, and the cache changes only when both balances were found and decoded.
- It quotes a trade. It picks the trade direction and the (source, destination) reserves
  from the input mint, evaluates the pool's curve (`get_swap_curve_result`) and narrows
  the amounts to 64 bits.
- It builds the account list of a token-swap instruction. The pool's source and
  destination accounts are ordered by the source mint.

The curve math, the fee-percentage helper, the byte decoders, program-address derivation
and the clock are outside the code modelled here. Each one is a function-typed parameter or
an input, so the model makes no claim about what they compute.

Modules:

- `Primitives`: fixed-width integers, `Pubkey`, `Option`/`Result`, the error kinds, and the
  `u128 -> u64` and `i64 as u128` conversions.
- `NovaPsm`: the pool state and curve types of the `nova_psm` crate.
- `AmmInterface`: the host interface types.
- `SwapCurveInfo`: `get_swap_curve_result`.
- `NovaPsmAmmAdapter`: the class `NovaPsmAmm` and the lemmas about it.

In `NovaPsmAmm`, only `reserves` is a mutable field. The key, the pool state, the reserve
mints and the program id are `const`, because the source never writes them after
construction. So "update changes no other field" holds by construction.

Behaviours this code does not have:

- Quoting has no unknown-asset error. Any input mint other than token A's is quoted as a
  B-to-A trade.
- There is no fee-denominator consistency check. The fee percentage is whatever
  `Fees::fee_pct` returns.
- The timestamp is not passed in by the caller. For the redemption-rate curve, the adapter
  reads the cluster clock itself, and failing to read it is an error.
- The first byte of the pool account's data is skipped without being checked. Only the
  bytes after it are decoded (src/amm/nova_psm_amm.rs:61).

## Model

| member | source | states |
|---|---|---|
| `Primitives.TryIntoU64` | src/amm/nova_psm_amm.rs:134-136 | narrowing succeeds exactly when the value is below 2^64, keeps the value, and otherwise reports an out-of-range error |
| `Primitives.I64AsU128` | src/math/swap_curve_info.rs:20 | the `i64 as u128` cast is congruent to the timestamp modulo 2^128, keeps non-negative values and sends negative ones to the top of the range |
| `Primitives.WidenThenNarrow` | src/math/swap_curve_info.rs:26 | widening a u64 amount to u128 and narrowing it back is lossless |
| `Primitives.I64AsU128Injective` | src/math/swap_curve_info.rs:20 | distinct timestamps reach the curve as distinct values |
| `SwapCurveInfo.CurveTimestamp` | src/math/swap_curve_info.rs:19-22 | the timestamp is present if and only if the curve is the redemption-rate curve; then it is the clock cast to u128; a missing clock fails only for that curve |
| `SwapCurveInfo.CurveInputFor` | src/math/swap_curve_info.rs:24-31 | the curve receives the amount widened losslessly, the source and destination reserves, the direction and the fees exactly as given; the timestamp is present exactly for the redemption-rate curve and is then the clock cast to u128 |
| `SwapCurveInfo.FeeRatioOf` | src/math/swap_curve_info.rs:35-40 | the fee-percentage helper is built from the pool's trade-fee and owner-trade-fee numerators and denominators, each in its own place |
| `SwapCurveInfo.GetSwapCurveResult` | src/math/swap_curve_info.rs:10-50 | fails with a clock error, then a curve error, then a fee-percentage error, in that order, and never returns a partial result; on success the output is the destination amount swapped, the input is the source amount swapped, fees are trade fee plus owner fee, and the fee percentage is the helper's |
| `SwapCurveInfo.ClockIgnoredUnlessRedemptionRate` | src/math/swap_curve_info.rs:19-22 | for every curve but the redemption-rate curve the result does not depend on the clock |
| `SwapCurveInfo.CurveConsultedOnlyAtItsInput` | src/math/swap_curve_info.rs:24-33 | two curves that agree at the constructed input give the same result, so the curve is consulted at that one input only |
| `AmmInterface.TryGetAccountData` | src/amm/nova_psm_amm.rs:101 | succeeds exactly when the address is in the fetched map, giving that account's data, and otherwise reports the missing address |
| `NovaPsmAmmAdapter.ParsePoolState` | src/amm/nova_psm_amm.rs:61 | empty pool data fails at the slice; otherwise the state is the decoder's result on the data after the first byte, and a decoder failure is an error |
| `NovaPsmAmmAdapter.ParseIgnoresLeadingByte` | src/amm/nova_psm_amm.rs:61 | pool data that differ only in the first byte decode to the same state |
| `NovaPsmAmmAdapter.UnpackTokenAccount` | src/amm/nova_psm_amm.rs:102 | succeeds exactly when the token-account decoder does, with its value, and otherwise reports the account's address |
| `NovaPsmAmmAdapter.ReadReserves` | src/amm/nova_psm_amm.rs:100-110 | the refresh succeeds if and only if both reserve accounts are present and decode; the new reserves are [amount of token A account, amount of token B account]; the first failing step (find A, decode A, find B, decode B) is the one reported |
| `NovaPsmAmmAdapter.CacheHoldsLastSuccessfulRefresh` | src/amm/nova_psm_amm.rs:100-112 | after any sequence of refreshes the cache holds the reserves of the most recent successful one, or the starting reserves if none succeeded |
| `NovaPsmAmmAdapter.NovaPsmAmm.constructor` | src/amm/nova_psm_amm.rs:62-71 | a new adapter has reserves [0, 0], reserve mints [token A mint, token B mint], and the given key, state and program id |
| `NovaPsmAmmAdapter.NovaPsmAmm.FromKeyedAccount` | src/amm/nova_psm_amm.rs:57-72 | succeeds exactly when the pool data parse, with the parse error otherwise; the program id is the account's owner, the key is the account's key and the cache is zero |
| `NovaPsmAmmAdapter.NovaPsmAmm.Clone` | src/amm/nova_psm_amm.rs:28-54 | a fresh adapter whose key, state, reserve mints, program id and reserves equal the original's |
| `NovaPsmAmmAdapter.NovaPsmAmm.GetReserveMints` | src/amm/nova_psm_amm.rs:89-91 | the tradeable mints are the state's token A mint then token B mint |
| `NovaPsmAmmAdapter.NovaPsmAmm.GetAccountsToUpdate` | src/amm/nova_psm_amm.rs:94-96 | exactly the token A account then the token B account, whatever the cache holds |
| `NovaPsmAmmAdapter.NovaPsmAmm.Update` | src/amm/nova_psm_amm.rs:100-113 | succeeds exactly when `ReadReserves` does and then installs its reserves; on failure returns its error and leaves the cache as it was; no other field changes |
| `NovaPsmAmmAdapter.NovaPsmAmm.TradeRoute` | src/amm/nova_psm_amm.rs:116-121 | the direction is A-to-B if and only if the input mint is the first reserve mint, with (reserves[0], reserves[1]) as (source, destination); otherwise B-to-A with them swapped; the two amounts are always the cached pair |
| `NovaPsmAmmAdapter.NovaPsmAmm.Quote` | src/amm/nova_psm_amm.rs:115-140 | reads but does not change the adapter; propagates the curve evaluation's error; fails if the consumed input, the output or the fee total is 2^64 or more; otherwise returns those amounts and the fee percentage, with the fee charged in the input mint |
| `NovaPsmAmmAdapter.NovaPsmAmm.Authority` | src/amm/nova_psm_amm.rs:23-25 | the swap authority is the program address derived with the pool key as the only seed under the pool's program, without its bump seed |
| `NovaPsmAmmAdapter.NovaPsmAmm.GetSwapAndAccountMetas` | src/amm/nova_psm_amm.rs:143-178 | the pool's (source, destination) accounts are (token A, token B) when the source mint is token A's mint and (token B, token A) otherwise, always the pool's pair and distinct when the pool's accounts are; the program, token program, pool key, derived authority, caller accounts, pool mint and fee account fill their roles |
| `NovaPsmAmmAdapter.NovaPsmAmm.HasDynamicAccounts` | src/amm/nova_psm_amm.rs:181-183 | always false |
| `NovaPsmAmmAdapter.NovaPsmAmm.RequiresUpdateForReserveMints` | src/amm/nova_psm_amm.rs:186-188 | always false |
| `NovaPsmAmmAdapter.NovaPsmAmm.SupportsExactOut` | src/amm/nova_psm_amm.rs:191-193 | always false |
| `NovaPsmAmmAdapter.QuoteIgnoresOutputMintAndSwapMode` | src/amm/nova_psm_amm.rs:115-139 | a quote depends only on the amount and the input mint; an exact-out request is quoted as exact-in |
| `NovaPsmAmmAdapter.ForeignMintQuotedAsTokenB` | src/amm/nova_psm_amm.rs:116-121 | a mint that is neither pool mint is routed B-to-A and, when the pool's mints differ, quoted exactly as token B except for the fee mint |
| `NovaPsmAmmAdapter.QuoteAndSwapAgreeOnPoolAccounts` | src/amm/nova_psm_amm.rs:155-159 | after a successful refresh, the source and destination reserves a quote uses are the balances of the accounts the swap instruction names as pool source and destination |
| `NovaPsmAmmAdapter.RefreshReadsOnlyAccountsToUpdate` | src/amm/nova_psm_amm.rs:94-110 | two account maps that agree on the accounts to update give the same refresh |
| `NovaPsmAmmAdapter.UpdateEach` | src/amm/nova_psm_amm.rs:100-113 | refreshing an adapter once per account map, in order, leaves its cache at `ReservesAfter` the whole history, which `CacheHoldsLastSuccessfulRefresh` shows is the most recent successful refresh, or the previous cache if none succeeded |
| `NovaPsmAmmAdapter.CloneIsIndependent` | src/amm/nova_psm_amm.rs:28-54 | refreshing a clone updates the clone's cache and leaves the original's unchanged |

## Left out

- The curve math (`SwapCurve::swap`, with its constant-product, stable and redemption-rate formulas and its fee deduction) lives in the `nova_psm` crate and is not part of this model. It is the parameter `curveSwap`, and nothing is claimed about its outputs.
- `Fees::fee_pct` (src/math/fees.rs) is not part of this model. It is the parameter `feePct`, which may fail, and its value is an opaque `real`.
- `SwapV1::unpack` and `TokenAccount::unpack` are byte decoders. They are the parameters `unpackSwap` and `unpackToken`.
- `Pubkey::find_program_address` hashes its seeds and is the parameter `findProgramAddress`. `spl_token::id()` is the parameter `tokenProgram`.
- `Clock::get()` is the input `clock`; `None` means the clock could not be read.
- `NovaPsmAmmAdapter.ParsePoolState`: slicing empty data panics in the source. The model reports that case as the error `SlicePanic`.
- `SwapCurveInfo.GetSwapCurveResult`: the source adds the two fee components in u128. Depending on the build's overflow checks, that addition panics or wraps when the sum reaches 2^128. The model keeps the exact sum, so `Quote` rejects such a sum as out of range.
- The conversion of the token-swap account roles into the host's account-meta list (`.into()`) happens in a module that is not part of this model. The model stops at the roles.
- The `label` string, `get_accounts_len`'s constant 32 and `clone_amm`'s boxing are host plumbing. The `key` and `program_id` getters are the adapter's `const` fields.
- The fields of the pool's fee schedule beyond the four the adapter reads are not modelled. They only reach the curve, which is opaque. The same goes for the fields of the host's quote and swap parameters, and of the swap result, that the adapter neither reads nor sets.
- `NovaPsmAmmAdapter.UnpackTokenAccount`: the source's token-account decode error names no account, so a decode failure on account A and one on account B carry the same error. The model's `TokenDecodeFailed` tags the error with the account's address, which the source does not do.
- The adapter context passed to `from_keyed_account` is unused and not modelled.
