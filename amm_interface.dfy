/** Boundary types of the routing host's AMM interface (`jupiter_amm_interface`) and of the
    SPL token account, limited to the fields the adapter reads or fills in. */
module AmmInterface {
  import opened Primitives

  /** An on-chain account: its data and its owning program. */
  datatype Account = Account(data: seq<Byte>, owner: Pubkey)

  /** The accounts the host fetched, by address. */
  type AccountMap = map<Pubkey, Account>

  datatype KeyedAccount = KeyedAccount(key: Pubkey, account: Account)

  datatype SwapMode = ExactIn | ExactOut

  datatype QuoteParams = QuoteParams(
    amount: U64,
    inputMint: Pubkey,
    outputMint: Pubkey,
    swapMode: SwapMode)

  /** A quote handed back to the host; the fields the adapter leaves at their defaults are
      not modelled. */
  datatype Quote = Quote(
    feePct: real,
    inAmount: U64,
    outAmount: U64,
    feeAmount: U64,
    feeMint: Pubkey)

  datatype SwapParams = SwapParams(
    sourceMint: Pubkey,
    sourceTokenAccount: Pubkey,
    destinationTokenAccount: Pubkey,
    tokenTransferAuthority: Pubkey)

  /** The kind of swap instruction; this adapter only ever asks for a token swap. */
  datatype Swap = TokenSwap

  /** The accounts of a token-swap instruction, by role. */
  datatype TokenSwapAccounts = TokenSwapAccounts(
    tokenSwapProgram: Pubkey,
    tokenProgram: Pubkey,
    swap: Pubkey,
    authority: Pubkey,
    userTransferAuthority: Pubkey,
    source: Pubkey,
    destination: Pubkey,
    poolMint: Pubkey,
    poolFee: Pubkey,
    swapDestination: Pubkey,
    swapSource: Pubkey)

  datatype SwapAndAccountMetas = SwapAndAccountMetas(swap: Swap, accountMetas: TokenSwapAccounts)

  /** The part of a decoded SPL token account the adapter reads. */
  datatype TokenAccount = TokenAccount(amount: U64)

  /** `TokenAccount::unpack`: `None` on malformed data. */
  type TokenUnpackFn = seq<Byte> -> Option<TokenAccount>

  /** `Pubkey::find_program_address`: the derived address and its bump seed. */
  type FindProgramAddressFn = (seq<seq<Byte>>, Pubkey) -> (Pubkey, Byte)

  /** `try_get_account_data`: the data of the account at `address`, or an error naming it. */
  function TryGetAccountData(accounts: AccountMap, address: Pubkey): (r: Result<seq<Byte>>)
    ensures r.Ok? <==> address in accounts
    ensures r.Ok? ==> r.value == accounts[address].data
    ensures r.Err? ==> r.error == AccountNotFound(address)
  {
    if address in accounts then Ok(accounts[address].data) else Err(AccountNotFound(address))
  }
}
