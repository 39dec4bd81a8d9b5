/** `get_swap_curve_result`: evaluate the pool's curve for one trade and package the
    amounts and the fee percentage. The curve itself and the fee-percentage computation are
    parameters: their code lives outside this model. */
module SwapCurveInfo {
  import opened Primitives
  import opened NovaPsm

  /** The four fee numbers the fee-percentage helper is built from. */
  datatype FeeRatio = FeeRatio(
    tradeFeeNumerator: U64,
    tradeFeeDenominator: U64,
    ownerTradeFeeNumerator: U64,
    ownerTradeFeeDenominator: U64)

  /** `Fees::fee_pct`: `None` when the percentage cannot be computed. */
  type FeePctFn = FeeRatio -> Option<real>

  /** What the evaluation hands back. `fees` is the exact sum of the two fee components. */
  datatype SwapResult = SwapResult(
    feePct: real,
    inputAmount: U128,
    expectedOutputAmount: U128,
    fees: nat)

  /** The timestamp handed to the curve. `clock` is the cluster's unix time, or `None` when
      the clock cannot be read; it is consulted only for the redemption-rate curve. */
  function CurveTimestamp(curveType: CurveType, clock: Option<I64>): (r: Result<Option<U128>>)
    ensures r.Err? <==> curveType == RedemptionRateCurve && clock.None?
    ensures r.Err? ==> r.error == ClockUnavailable
    ensures r.Ok? ==> (r.value.Some? <==> curveType == RedemptionRateCurve)
    ensures r.Ok? && r.value.Some? ==> r.value.value == I64AsU128(clock.value)
  {
    match curveType
    case RedemptionRateCurve =>
      if clock.None? then Err(ClockUnavailable) else Ok(Some(I64AsU128(clock.value)))
    case OtherCurve(_) => Ok(None)
  }

  /** The arguments the curve receives: the amount widened to 128 bits, the reserves,
      direction and fees as given, and the timestamp chosen by `CurveTimestamp`. */
  function CurveInputFor(
    swapCurve: SwapCurve, amount: U64, swapSourceAmount: U128, swapDestinationAmount: U128,
    tradeDirection: TradeDirection, fees: Fees, clock: Option<I64>): (r: Result<CurveInput>)
    ensures r.Err? <==> swapCurve.curveType == RedemptionRateCurve && clock.None?
    ensures r.Ok? ==>
      && r.value.sourceAmount == amount
      && r.value.swapSourceAmount == swapSourceAmount
      && r.value.swapDestinationAmount == swapDestinationAmount
      && r.value.tradeDirection == tradeDirection
      && r.value.fees == fees
      && (r.value.timestamp.Some? <==> swapCurve.curveType == RedemptionRateCurve)
      && (r.value.timestamp.Some? ==> r.value.timestamp.value == I64AsU128(clock.value))
  {
    var timestamp :- CurveTimestamp(swapCurve.curveType, clock);
    Ok(CurveInput(amount as U128, swapSourceAmount, swapDestinationAmount, tradeDirection, fees, timestamp))
  }

  /** The fee numbers of the pool's schedule, as the fee-percentage helper takes them. */
  function FeeRatioOf(fees: Fees): (r: FeeRatio)
    ensures r.tradeFeeNumerator == fees.tradeFeeNumerator && r.tradeFeeDenominator == fees.tradeFeeDenominator
    ensures r.ownerTradeFeeNumerator == fees.ownerTradeFeeNumerator
    ensures r.ownerTradeFeeDenominator == fees.ownerTradeFeeDenominator
  {
    FeeRatio(fees.tradeFeeNumerator, fees.tradeFeeDenominator,
             fees.ownerTradeFeeNumerator, fees.ownerTradeFeeDenominator)
  }

  /** Evaluate the curve for one trade. Fails when the clock is needed and unavailable, when
      the curve gives no result, or when the fee percentage cannot be computed, in that
      order; never returns a partial result. */
  function GetSwapCurveResult(
    swapCurve: SwapCurve, amount: U64, swapSourceAmount: U128, swapDestinationAmount: U128,
    tradeDirection: TradeDirection, fees: Fees,
    curveSwap: CurveSwapFn, feePct: FeePctFn, clock: Option<I64>): (r: Result<SwapResult>)
    ensures swapCurve.curveType == RedemptionRateCurve && clock.None? ==> r == Err(ClockUnavailable)
    ensures
      var input := CurveInputFor(swapCurve, amount, swapSourceAmount, swapDestinationAmount, tradeDirection, fees, clock);
      && (input.Ok? && curveSwap(swapCurve, input.value).None? ==> r == Err(QuoteFailed))
      && (input.Ok? && curveSwap(swapCurve, input.value).Some? && feePct(FeeRatioOf(fees)).None? ==> r == Err(FeePctFailed))
      && (r.Ok? <==> input.Ok? && curveSwap(swapCurve, input.value).Some? && feePct(FeeRatioOf(fees)).Some?)
      && (r.Ok? ==>
            var res := curveSwap(swapCurve, input.value).value;
            && r.value.expectedOutputAmount == res.destinationAmountSwapped
            && r.value.inputAmount == res.sourceAmountSwapped
            && r.value.fees == res.tradeFee + res.ownerFee
            && r.value.feePct == feePct(FeeRatioOf(fees)).value)
  {
    var input :- CurveInputFor(swapCurve, amount, swapSourceAmount, swapDestinationAmount, tradeDirection, fees, clock);
    var curveResult :- match curveSwap(swapCurve, input)
      case None => Err(QuoteFailed)
      case Some(res) => Ok(res);
    var pct :- match feePct(FeeRatioOf(fees))
      case None => Err(FeePctFailed)
      case Some(p) => Ok(p);
    Ok(SwapResult(pct, curveResult.sourceAmountSwapped, curveResult.destinationAmountSwapped,
                  curveResult.tradeFee + curveResult.ownerFee))
  }

  /** Only the redemption-rate curve reads the clock: for every other curve the result is
      the same whatever the clock says, or if it cannot be read. */
  lemma ClockIgnoredUnlessRedemptionRate(
    swapCurve: SwapCurve, amount: U64, swapSourceAmount: U128, swapDestinationAmount: U128,
    tradeDirection: TradeDirection, fees: Fees,
    curveSwap: CurveSwapFn, feePct: FeePctFn, clock1: Option<I64>, clock2: Option<I64>)
    requires swapCurve.curveType != RedemptionRateCurve
    ensures GetSwapCurveResult(swapCurve, amount, swapSourceAmount, swapDestinationAmount, tradeDirection, fees, curveSwap, feePct, clock1)
         == GetSwapCurveResult(swapCurve, amount, swapSourceAmount, swapDestinationAmount, tradeDirection, fees, curveSwap, feePct, clock2)
  {
  }

  /** The curve is consulted once, at the input `CurveInputFor` builds: two curves that agree
      there give the same result. */
  lemma CurveConsultedOnlyAtItsInput(
    swapCurve: SwapCurve, amount: U64, swapSourceAmount: U128, swapDestinationAmount: U128,
    tradeDirection: TradeDirection, fees: Fees,
    curve1: CurveSwapFn, curve2: CurveSwapFn, feePct: FeePctFn, clock: Option<I64>)
    requires
      var input := CurveInputFor(swapCurve, amount, swapSourceAmount, swapDestinationAmount, tradeDirection, fees, clock);
      input.Ok? ==> curve1(swapCurve, input.value) == curve2(swapCurve, input.value)
    ensures GetSwapCurveResult(swapCurve, amount, swapSourceAmount, swapDestinationAmount, tradeDirection, fees, curve1, feePct, clock)
         == GetSwapCurveResult(swapCurve, amount, swapSourceAmount, swapDestinationAmount, tradeDirection, fees, curve2, feePct, clock)
  {
  }
}
