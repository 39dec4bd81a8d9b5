/** Boundary types of the `nova_psm` crate, which holds the pool's on-chain state layout and
    its curve math. Only the fields the adapter reads or copies are modelled; the curve's
    swap and the state decoder are function-typed parameters, since their code is not part
    of this model. */
module NovaPsm {
  import opened Primitives

  datatype TradeDirection = AtoB | BtoA

  /** The curve family. The adapter only tells the redemption-rate curve apart from the
      others, so the other families are one constructor carrying their tag. */
  datatype CurveType = RedemptionRateCurve | OtherCurve(tag: Byte)

  /** The fee components the adapter reads. */
  datatype Fees = Fees(
    tradeFeeNumerator: U64,
    tradeFeeDenominator: U64,
    ownerTradeFeeNumerator: U64,
    ownerTradeFeeDenominator: U64)

  /** A curve: its family and the calculator's parameters, kept as opaque bytes. */
  datatype SwapCurve = SwapCurve(curveType: CurveType, calculator: seq<Byte>)

  /** The decoded pool account. */
  datatype SwapV1 = SwapV1(
    isInitialized: bool,
    bumpSeed: Byte,
    tokenProgramId: Pubkey,
    tokenA: Pubkey,
    tokenB: Pubkey,
    poolMint: Pubkey,
    tokenAMint: Pubkey,
    tokenBMint: Pubkey,
    poolFeeAccount: Pubkey,
    fees: Fees,
    swapCurve: SwapCurve)

  /** The arguments of `SwapCurve::swap`. */
  datatype CurveInput = CurveInput(
    sourceAmount: U128,
    swapSourceAmount: U128,
    swapDestinationAmount: U128,
    tradeDirection: TradeDirection,
    fees: Fees,
    timestamp: Option<U128>)

  /** The fields of the curve's result that the adapter reads. */
  datatype CurveResult = CurveResult(
    sourceAmountSwapped: U128,
    destinationAmountSwapped: U128,
    tradeFee: U128,
    ownerFee: U128)

  /** `SwapCurve::swap`: `None` when the curve cannot quote the trade. */
  type CurveSwapFn = (SwapCurve, CurveInput) -> Option<CurveResult>

  /** `SwapV1::unpack`: `None` on malformed data. */
  type SwapV1UnpackFn = seq<Byte> -> Option<SwapV1>
}
