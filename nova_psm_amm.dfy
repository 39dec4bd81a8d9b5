/** The quote-routing adapter: a pool's identity, its decoded state and a cache of its two
    reserve balances, with the operations the routing host calls. */
module NovaPsmAmmAdapter {
  import opened Primitives
  import opened NovaPsm
  import opened AmmInterface
  import opened SwapCurveInfo

  /** The cached reserve balances, slot 0 for token A and slot 1 for token B. */
  type Reserves = s: seq<U128> | |s| == 2 witness [0, 0]

  /** The trade direction and the (source, destination) reserves a quote uses. */
  datatype Route = Route(direction: TradeDirection, sourceAmount: U128, destinationAmount: U128)

  /** The pool state held in a pool account: `SwapV1::unpack` of everything after the first
      byte. Empty data makes the slice itself fail. */
  function ParsePoolState(data: seq<Byte>, unpackSwap: SwapV1UnpackFn): (r: Result<SwapV1>)
    ensures |data| == 0 ==> r == Err(SlicePanic)
    ensures 0 < |data| ==> (r.Ok? <==> unpackSwap(data[1..]).Some?)
    ensures 0 < |data| && r.Err? ==> r.error == PoolDecodeFailed
    ensures r.Ok? ==> 0 < |data| && r.value == unpackSwap(data[1..]).value
  {
    if |data| == 0 then Err(SlicePanic)
    else match unpackSwap(data[1..])
      case None => Err(PoolDecodeFailed)
      case Some(state) => Ok(state)
  }

  /** The leading byte of the pool data is skipped: it never affects the decoded state. */
  lemma ParseIgnoresLeadingByte(data1: seq<Byte>, data2: seq<Byte>, unpackSwap: SwapV1UnpackFn)
    requires 0 < |data1| && 0 < |data2| && data1[1..] == data2[1..]
    ensures ParsePoolState(data1, unpackSwap) == ParsePoolState(data2, unpackSwap)
  {
  }

  /** `TokenAccount::unpack` of the data found at `address`. */
  function UnpackTokenAccount(unpackToken: TokenUnpackFn, data: seq<Byte>, address: Pubkey): (r: Result<TokenAccount>)
    ensures r.Ok? <==> unpackToken(data).Some?
    ensures r.Ok? ==> r.value == unpackToken(data).value
    ensures r.Err? ==> r.error == TokenDecodeFailed(address)
  {
    match unpackToken(data)
    case None => Err(TokenDecodeFailed(address))
    case Some(account) => Ok(account)
  }

  /** The reserves a refresh reads from the fetched accounts: the balances of the pool's
      token A and token B accounts. The four fallible steps run in order (find A, decode A,
      find B, decode B) and the first failure is the one reported. */
  function ReadReserves(state: SwapV1, accounts: AccountMap, unpackToken: TokenUnpackFn): (r: Result<Reserves>)
    ensures r.Ok? <==>
      && state.tokenA in accounts && unpackToken(accounts[state.tokenA].data).Some?
      && state.tokenB in accounts && unpackToken(accounts[state.tokenB].data).Some?
    ensures r.Ok? ==>
      r.value == [unpackToken(accounts[state.tokenA].data).value.amount as U128,
                  unpackToken(accounts[state.tokenB].data).value.amount as U128]
    ensures state.tokenA !in accounts ==> r == Err(AccountNotFound(state.tokenA))
    ensures state.tokenA in accounts && unpackToken(accounts[state.tokenA].data).None? ==>
      r == Err(TokenDecodeFailed(state.tokenA))
    ensures state.tokenA in accounts && unpackToken(accounts[state.tokenA].data).Some? ==>
      (state.tokenB !in accounts ==> r == Err(AccountNotFound(state.tokenB))) &&
      (state.tokenB in accounts && unpackToken(accounts[state.tokenB].data).None? ==>
         r == Err(TokenDecodeFailed(state.tokenB)))
  {
    var tokenAData :- TryGetAccountData(accounts, state.tokenA);
    var tokenAAccount :- UnpackTokenAccount(unpackToken, tokenAData, state.tokenA);
    var tokenBData :- TryGetAccountData(accounts, state.tokenB);
    var tokenBAccount :- UnpackTokenAccount(unpackToken, tokenBData, state.tokenB);
    Ok([tokenAAccount.amount as U128, tokenBAccount.amount as U128])
  }

  /** The cache after a sequence of refreshes starting from `start`: each successful refresh
      replaces it, each failed one leaves it alone. */
  function ReservesAfter(start: Reserves, state: SwapV1, history: seq<AccountMap>, unpackToken: TokenUnpackFn): Reserves
    decreases |history|
  {
    if |history| == 0 then start
    else
      var earlier := ReservesAfter(start, state, history[..|history| - 1], unpackToken);
      match ReadReserves(state, history[|history| - 1], unpackToken)
      case Ok(refreshed) => refreshed
      case Err(_) => earlier
  }

  /** After any sequence of refreshes the cache holds the reserves of the most recent
      successful one, or the starting reserves when none succeeded. */
  lemma {:induction false} CacheHoldsLastSuccessfulRefresh(
    start: Reserves, state: SwapV1, history: seq<AccountMap>, unpackToken: TokenUnpackFn)
    ensures (forall i :: 0 <= i < |history| ==> ReadReserves(state, history[i], unpackToken).Err?) ==>
      ReservesAfter(start, state, history, unpackToken) == start
    ensures forall i ::
      && 0 <= i < |history|
      && ReadReserves(state, history[i], unpackToken).Ok?
      && (forall j :: i < j < |history| ==> ReadReserves(state, history[j], unpackToken).Err?)
      ==> ReservesAfter(start, state, history, unpackToken) == ReadReserves(state, history[i], unpackToken).value
  {
    if |history| != 0 {
      var n := |history| - 1;
      var prefix := history[..n];
      CacheHoldsLastSuccessfulRefresh(start, state, prefix, unpackToken);
      assert forall i :: 0 <= i < n ==> prefix[i] == history[i];
      if ReadReserves(state, history[n], unpackToken).Err? {
        assert ReservesAfter(start, state, history, unpackToken) == ReservesAfter(start, state, prefix, unpackToken);
      }
    }
  }

  class NovaPsmAmm {
    const key: Pubkey
    const state: SwapV1
    const reserveMints: seq<Pubkey>
    const programId: Pubkey
    var reserves: Reserves

    /** The mints are those of the decoded state, token A first. */
    ghost predicate Valid()
      reads this
    {
      reserveMints == [state.tokenAMint, state.tokenBMint]
    }

    /** A fresh adapter for a decoded pool: the mints in pool order and an empty cache. */
    constructor (key: Pubkey, state: SwapV1, programId: Pubkey)
      ensures Valid()
      ensures this.key == key && this.state == state && this.programId == programId
      ensures reserveMints == [state.tokenAMint, state.tokenBMint]
      ensures reserves == [0, 0]
    {
      this.key := key;
      this.state := state;
      this.reserveMints := [state.tokenAMint, state.tokenBMint];
      this.programId := programId;
      this.reserves := [0, 0];
    }

    /** `from_keyed_account`: decode the pool account; the account's owner is the program. */
    static method FromKeyedAccount(keyedAccount: KeyedAccount, unpackSwap: SwapV1UnpackFn) returns (r: Result<NovaPsmAmm>)
      ensures r.Ok? <==> ParsePoolState(keyedAccount.account.data, unpackSwap).Ok?
      ensures r.Err? ==> r.error == ParsePoolState(keyedAccount.account.data, unpackSwap).error
      ensures r.Ok? ==>
        && fresh(r.value) && r.value.Valid()
        && r.value.key == keyedAccount.key
        && r.value.state == ParsePoolState(keyedAccount.account.data, unpackSwap).value
        && r.value.programId == keyedAccount.account.owner
        && r.value.reserves == [0, 0]
    {
      var state :- ParsePoolState(keyedAccount.account.data, unpackSwap);
      var amm := new NovaPsmAmm(keyedAccount.key, state, keyedAccount.account.owner);
      r := Ok(amm);
    }

    /** `clone`: an independent adapter with equal fields. */
    method Clone() returns (c: NovaPsmAmm)
      requires Valid()
      ensures fresh(c) && c.Valid()
      ensures c.key == key && c.state == state && c.reserveMints == reserveMints
      ensures c.programId == programId && c.reserves == reserves
    {
      c := new NovaPsmAmm(key, state, programId);
      c.reserves := reserves;
    }

    /** `get_reserve_mints`: the tradeable mints, token A first. */
    function GetReserveMints(): (r: seq<Pubkey>)
      requires Valid()
      reads this
      ensures r == [state.tokenAMint, state.tokenBMint]
    {
      reserveMints
    }

    /** `get_accounts_to_update`: the two reserve accounts, token A first; the cache plays
        no part. */
    function GetAccountsToUpdate(): (r: seq<Pubkey>)
      reads this
      ensures |r| == 2 && r[0] == state.tokenA && r[1] == state.tokenB
    {
      [state.tokenA, state.tokenB]
    }

    /** `update`: refresh the cache from the fetched accounts. The cache is replaced only
        when both balances were found and decoded; on any failure it is left as it was. */
    method Update(accounts: AccountMap, unpackToken: TokenUnpackFn) returns (r: Result<()>)
      modifies this
      ensures r.Ok? <==> ReadReserves(state, accounts, unpackToken).Ok?
      ensures r.Ok? ==> reserves == ReadReserves(state, accounts, unpackToken).value
      ensures r.Err? ==> r.error == ReadReserves(state, accounts, unpackToken).error && reserves == old(reserves)
      ensures reserves == ReservesAfter(old(reserves), state, [accounts], unpackToken)
    {
      var tokenAData :- TryGetAccountData(accounts, state.tokenA);
      var tokenAAccount :- UnpackTokenAccount(unpackToken, tokenAData, state.tokenA);
      var tokenBData :- TryGetAccountData(accounts, state.tokenB);
      var tokenBAccount :- UnpackTokenAccount(unpackToken, tokenBData, state.tokenB);
      reserves := [tokenAAccount.amount as U128, tokenBAccount.amount as U128];
      r := Ok(());
    }

    /** The direction of a trade selling `inputMint`, and which reserve is the source. Any
        mint other than the first reserve mint is sold as token B. */
    function TradeRoute(inputMint: Pubkey): (r: Route)
      requires Valid()
      reads this
      ensures r.direction == AtoB <==> inputMint == reserveMints[0]
      ensures r.direction == AtoB ==> r.sourceAmount == reserves[0] && r.destinationAmount == reserves[1]
      ensures r.direction == BtoA ==> r.sourceAmount == reserves[1] && r.destinationAmount == reserves[0]
      ensures multiset{r.sourceAmount, r.destinationAmount} == multiset(reserves)
    {
      assert reserves == [reserves[0], reserves[1]];
      if inputMint == reserveMints[0] then Route(AtoB, reserves[0], reserves[1])
      else Route(BtoA, reserves[1], reserves[0])
    }

    /** `quote`: evaluate the curve on the cached reserves for the route of the input mint and
        narrow the amounts to 64 bits. The fee is charged in the input mint. */
    function Quote(params: QuoteParams, curveSwap: CurveSwapFn, feePct: FeePctFn, clock: Option<I64>): (r: Result<AmmInterface.Quote>)
      requires Valid()
      reads this
      ensures r.Ok? ==> r.value.feeMint == params.inputMint
      ensures
        var route := TradeRoute(params.inputMint);
        var s := GetSwapCurveResult(state.swapCurve, params.amount, route.sourceAmount, route.destinationAmount,
                                    route.direction, state.fees, curveSwap, feePct, clock);
        && (s.Err? ==> r == Err(s.error))
        && (s.Ok? ==> (r.Ok? <==> s.value.inputAmount < U64_LIMIT && s.value.expectedOutputAmount < U64_LIMIT
                                  && s.value.fees < U64_LIMIT))
        && (s.Ok? && r.Err? ==> r.error == AmountOutOfRange)
        && (r.Ok? ==> r.value.inAmount == s.value.inputAmount && r.value.outAmount == s.value.expectedOutputAmount
                      && r.value.feeAmount == s.value.fees && r.value.feePct == s.value.feePct)
    {
      var route := TradeRoute(params.inputMint);
      var swapResult :- GetSwapCurveResult(state.swapCurve, params.amount, route.sourceAmount, route.destinationAmount,
                                           route.direction, state.fees, curveSwap, feePct, clock);
      var inAmount :- TryIntoU64(swapResult.inputAmount);
      var outAmount :- TryIntoU64(swapResult.expectedOutputAmount);
      var feeAmount :- TryIntoU64(swapResult.fees);
      Ok(AmmInterface.Quote(swapResult.feePct, inAmount, outAmount, feeAmount, params.inputMint))
    }

    /** `get_authority`: the program address derived with the pool key as the only seed,
        under the pool's program; the bump seed is dropped. */
    function Authority(findProgramAddress: FindProgramAddressFn): (r: Pubkey)
      reads this
      ensures r == findProgramAddress([key], programId).0
    {
      findProgramAddress([key], programId).0
    }

    /** `get_swap_and_account_metas`: a token swap whose pool-side source and destination
        accounts follow the source mint; everything else is copied from the pool or the
        caller. `tokenProgram` is the SPL token program's id. */
    function GetSwapAndAccountMetas(params: SwapParams, tokenProgram: Pubkey, findProgramAddress: FindProgramAddressFn): (r: SwapAndAccountMetas)
      reads this
      ensures r.swap == TokenSwap
      ensures params.sourceMint == state.tokenAMint ==>
        r.accountMetas.swapSource == state.tokenA && r.accountMetas.swapDestination == state.tokenB
      ensures params.sourceMint != state.tokenAMint ==>
        r.accountMetas.swapSource == state.tokenB && r.accountMetas.swapDestination == state.tokenA
      ensures multiset{r.accountMetas.swapSource, r.accountMetas.swapDestination} == multiset{state.tokenA, state.tokenB}
      ensures state.tokenA != state.tokenB ==> r.accountMetas.swapSource != r.accountMetas.swapDestination
      ensures
        var m := r.accountMetas;
        && m.tokenSwapProgram == programId && m.tokenProgram == tokenProgram && m.swap == key
        && m.authority == Authority(findProgramAddress)
        && m.userTransferAuthority == params.tokenTransferAuthority
        && m.source == params.sourceTokenAccount && m.destination == params.destinationTokenAccount
        && m.poolMint == state.poolMint && m.poolFee == state.poolFeeAccount
    {
      var (swapSource, swapDestination) :=
        if params.sourceMint == state.tokenAMint then (state.tokenA, state.tokenB)
        else (state.tokenB, state.tokenA);
      SwapAndAccountMetas(TokenSwap, TokenSwapAccounts(
        programId, tokenProgram, key, Authority(findProgramAddress),
        params.tokenTransferAuthority, params.sourceTokenAccount, params.destinationTokenAccount,
        state.poolMint, state.poolFeeAccount, swapDestination, swapSource))
    }

    /** `has_dynamic_accounts`: the accounts to update never change. */
    function HasDynamicAccounts(): (r: bool)
      ensures !r
    {
      false
    }

    /** `requires_update_for_reserve_mints`: the mints are known without a refresh. */
    function RequiresUpdateForReserveMints(): (r: bool)
      ensures !r
    {
      false
    }

    /** `supports_exact_out`: only exact-input quotes. */
    function SupportsExactOut(): (r: bool)
      ensures !r
    {
      false
    }
  }

  /** A quote depends on neither the output mint nor the swap mode: an exact-out request is
      quoted as exact-in. */
  lemma QuoteIgnoresOutputMintAndSwapMode(
    amm: NovaPsmAmm, params1: QuoteParams, params2: QuoteParams,
    curveSwap: CurveSwapFn, feePct: FeePctFn, clock: Option<I64>)
    requires amm.Valid()
    requires params1.amount == params2.amount && params1.inputMint == params2.inputMint
    ensures amm.Quote(params1, curveSwap, feePct, clock) == amm.Quote(params2, curveSwap, feePct, clock)
  {
  }

  /** There is no unknown-asset check: a mint that is neither of the pool's is quoted
      exactly as the second reserve mint is, as a B-to-A trade. */
  lemma ForeignMintQuotedAsTokenB(
    amm: NovaPsmAmm, params: QuoteParams, curveSwap: CurveSwapFn, feePct: FeePctFn, clock: Option<I64>)
    requires amm.Valid()
    requires params.inputMint != amm.reserveMints[0] && params.inputMint != amm.reserveMints[1]
    ensures amm.TradeRoute(params.inputMint).direction == BtoA
    ensures
      var viaB := params.(inputMint := amm.reserveMints[1]);
      amm.reserveMints[0] != amm.reserveMints[1] ==>
        match (amm.Quote(params, curveSwap, feePct, clock), amm.Quote(viaB, curveSwap, feePct, clock))
        case (Ok(q1), Ok(q2)) => q1 == q2.(feeMint := params.inputMint)
        case (Err(e1), Err(e2)) => e1 == e2
        case _ => false
  {
  }

  /** Quoting and swapping agree on the pool side: for a cache filled by a successful
      refresh, the reserve a quote uses as source is the balance of the account the swap
      instruction names as source, and likewise for the destination. */
  lemma QuoteAndSwapAgreeOnPoolAccounts(
    amm: NovaPsmAmm, accounts: AccountMap, unpackToken: TokenUnpackFn,
    params: SwapParams, tokenProgram: Pubkey, findProgramAddress: FindProgramAddressFn)
    requires amm.Valid()
    requires ReadReserves(amm.state, accounts, unpackToken) == Ok(amm.reserves)
    ensures
      var route := amm.TradeRoute(params.sourceMint);
      var metas := amm.GetSwapAndAccountMetas(params, tokenProgram, findProgramAddress).accountMetas;
      && metas.swapSource in accounts && metas.swapDestination in accounts
      && unpackToken(accounts[metas.swapSource].data).Some?
      && unpackToken(accounts[metas.swapDestination].data).Some?
      && route.sourceAmount == unpackToken(accounts[metas.swapSource].data).value.amount
      && route.destinationAmount == unpackToken(accounts[metas.swapDestination].data).value.amount
  {
  }

  /** A refresh reads exactly the accounts `GetAccountsToUpdate` names: two account maps that
      agree on those addresses give the same refresh. */
  lemma RefreshReadsOnlyAccountsToUpdate(amm: NovaPsmAmm, accounts1: AccountMap, accounts2: AccountMap, unpackToken: TokenUnpackFn)
    requires forall a :: a in amm.GetAccountsToUpdate() ==>
      (a in accounts1 <==> a in accounts2) && (a in accounts1 ==> accounts1[a] == accounts2[a])
    ensures ReadReserves(amm.state, accounts1, unpackToken) == ReadReserves(amm.state, accounts2, unpackToken)
  {
  }

  /** A host refreshing the adapter once per fetched account map, in order: afterwards the
      cache is `ReservesAfter` the whole history, so by `CacheHoldsLastSuccessfulRefresh`
      it holds the reserves of the most recent successful refresh. */
  method UpdateEach(amm: NovaPsmAmm, history: seq<AccountMap>, unpackToken: TokenUnpackFn)
    modifies amm
    ensures amm.reserves == ReservesAfter(old(amm.reserves), amm.state, history, unpackToken)
  {
    var i := 0;
    while i < |history|
      invariant 0 <= i <= |history|
      invariant amm.reserves == ReservesAfter(old(amm.reserves), amm.state, history[..i], unpackToken)
    {
      var _ := amm.Update(history[i], unpackToken);
      assert history[..i + 1][..i] == history[..i];
      i := i + 1;
    }
    assert history[..|history|] == history;
  }

  /** A clone is independent: refreshing it leaves the original's cache untouched. */
  method CloneIsIndependent(amm: NovaPsmAmm, accounts: AccountMap, unpackToken: TokenUnpackFn) returns (copy: NovaPsmAmm)
    requires amm.Valid()
    ensures fresh(copy) && copy.Valid() && copy.state == amm.state
    ensures amm.reserves == old(amm.reserves)
    ensures copy.reserves == ReservesAfter(amm.reserves, amm.state, [accounts], unpackToken)
  {
    copy := amm.Clone();
    var _ := copy.Update(accounts, unpackToken);
  }
}
