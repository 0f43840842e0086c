/**
 * The constant-product market: `amm_setup`, `add_liquidity` and
 * `swap_tokens`, each a function from the ledger before the instruction to
 * the ledger after it, or to the error that rejects the whole instruction.
 */
module Market {
  import opened Keys
  import opened Errors
  import opened Tokens
  import opened State
  import opened Pricing

  /**
   * Two transfers on distinct accounts, `amount1` from `from1` to `to1` and
   * `amount2` from `from2` to `to2`, and nothing else on the ledger changed.
   */
  predicate TwoMoves(before: Accounts, after: Accounts, from1: Key, to1: Key, amount1: int, from2: Key, to2: Key, amount2: int)
    requires from1 in before && to1 in before && from2 in before && to2 in before
  {
    && after.Keys == before.Keys
    && (forall k :: k in before && k != from1 && k != to1 && k != from2 && k != to2 ==> after[k] == before[k])
    && (forall k :: k in before ==> after[k].mint == before[k].mint && after[k].owner == before[k].owner)
    && after[from1].amount == before[from1].amount - amount1
    && after[to1].amount == before[to1].amount + amount1
    && after[from2].amount == before[from2].amount - amount2
    && after[to2].amount == before[to2].amount + amount2
  }

  /** No two of the four keys are equal. */
  predicate Distinct4(a: Key, b: Key, c: Key, d: Key)
  {
    a != b && a != c && a != d && b != c && b != d && c != d
  }

  // ----- amm_setup -----

  /**
   * Creates the market record of `beneficiary` and its two empty vaults,
   * owned by the market record. The fee ratio is stored as given.
   */
  function AmmSetup(w: World, signers: set<nat>, beneficiary: Key, tokenMint: Key, solMint: Key,
                    feeNumerator: u64, feeDenominator: u64, stateBump: u8, tokenVaultBump: u8, solVaultBump: u8): (r: Result<World>)
    ensures var market := MarketStateAddress(beneficiary);
      var tokenVault, solVault := TokenVaultAddress(market, beneficiary), SolVaultAddress(market, beneficiary);
      r.Ok? <==> Signed(signers, beneficiary) && !InUse(w, market) && !InUse(w, tokenVault) && !InUse(w, solVault)
    ensures var market := MarketStateAddress(beneficiary);
      r.Ok? ==>
        && r.value.markets.Keys == w.markets.Keys + {market}
        && (forall k :: k in w.markets ==> r.value.markets[k] == w.markets[k])
        && r.value.markets[market] == MarketState(feeNumerator, feeDenominator, stateBump, tokenVaultBump, solVaultBump)
        && r.value.escrows == w.escrows
    ensures var market := MarketStateAddress(beneficiary);
      var tokenVault, solVault := TokenVaultAddress(market, beneficiary), SolVaultAddress(market, beneficiary);
      r.Ok? ==>
        && r.value.accounts.Keys == w.accounts.Keys + {tokenVault, solVault}
        && (forall k :: k in w.accounts ==> r.value.accounts[k] == w.accounts[k])
        && r.value.accounts[tokenVault] == TokenAccount(tokenMint, market, 0)
        && r.value.accounts[solVault] == TokenAccount(solMint, market, 0)
  {
    var market := MarketStateAddress(beneficiary);
    var tokenVault, solVault := TokenVaultAddress(market, beneficiary), SolVaultAddress(market, beneficiary);
    :- Need(Signed(signers, beneficiary), MissingSigner);
    :- Need(!InUse(w, market), AccountInUse);
    :- Need(!InUse(w, tokenVault), AccountInUse);
    :- Need(!InUse(w, solVault), AccountInUse);
    var record := MarketState(feeNumerator, feeDenominator, stateBump, tokenVaultBump, solVaultBump);
    var vaults := Open(Open(w.accounts, tokenVault, tokenMint, market), solVault, solMint, market);
    Ok(World(vaults, w.escrows, w.markets[market := record]))
  }

  // ----- add_liquidity -----

  /** The account constraints of `AddLiquidity`. */
  function LiquidityAccounts(w: World, signers: set<nat>, beneficiary: Key, tokenAccount: Key, solAccount: Key): Outcome
  {
    var market := MarketStateAddress(beneficiary);
    var tokenVault, solVault := TokenVaultAddress(market, beneficiary), SolVaultAddress(market, beneficiary);
    if market !in w.markets || tokenVault !in w.accounts || solVault !in w.accounts then Fail(AccountNotInitialized)
    else if tokenAccount !in w.accounts || solAccount !in w.accounts then Fail(AccountNotInitialized)
    else if w.accounts[tokenAccount].owner != beneficiary || w.accounts[solAccount].owner != beneficiary then Fail(ConstraintTokenOwner)
    else if !Signed(signers, beneficiary) then Fail(MissingSigner)
    else Pass
  }

  /**
   * The beneficiary pays `tokenAmount` tokens into the token vault and the
   * sol side `LiquidityDeposit` fixes into the sol vault.
   */
  function AddLiquidity(w: World, signers: set<nat>, beneficiary: Key, tokenAccount: Key, solAccount: Key,
                        tokenAmount: u64, solAmount: u64): (r: Result<World>)
    ensures r.Ok? ==> LiquidityAccounts(w, signers, beneficiary, tokenAccount, solAccount) == Pass
    ensures var tokenVault, solVault := MarketTokenVault(beneficiary), MarketSolVault(beneficiary);
      LiquidityAccounts(w, signers, beneficiary, tokenAccount, solAccount) == Pass ==>
        var deposit := LiquidityDeposit(tokenAmount, solAmount, w.accounts[tokenVault].amount, w.accounts[solVault].amount);
        && (deposit.Err? ==> r == Err(Panic))
        && (deposit.Ok? && deposit.value > w.accounts[solAccount].amount ==> r == Err(NotEnoughBalance))
        && (deposit.Ok? && tokenAmount > w.accounts[tokenAccount].amount ==> r == Err(NotEnoughBalance))
    ensures var tokenVault, solVault := MarketTokenVault(beneficiary), MarketSolVault(beneficiary);
      r.Ok? ==>
        && r.value.escrows == w.escrows && r.value.markets == w.markets
        && var deposit := LiquidityDeposit(tokenAmount, solAmount, w.accounts[tokenVault].amount, w.accounts[solVault].amount);
        && deposit.Ok?
        && (Distinct4(tokenAccount, tokenVault, solAccount, solVault) ==>
              TwoMoves(w.accounts, r.value.accounts, tokenAccount, tokenVault, tokenAmount, solAccount, solVault, deposit.value))
  {
    var market := MarketStateAddress(beneficiary);
    :- LiquidityAccounts(w, signers, beneficiary, tokenAccount, solAccount);
    var tokenVault, solVault := TokenVaultAddress(market, beneficiary), SolVaultAddress(market, beneficiary);
    var solDeposit :- LiquidityDeposit(tokenAmount, solAmount, w.accounts[tokenVault].amount, w.accounts[solVault].amount);
    :- Need(solDeposit <= w.accounts[solAccount].amount, NotEnoughBalance);
    :- Need(tokenAmount <= w.accounts[tokenAccount].amount, NotEnoughBalance);
    var tokensIn :- Transfer(w.accounts, beneficiary, tokenAccount, tokenVault, tokenAmount);
    var bothIn :- Transfer(tokensIn, beneficiary, solAccount, solVault, solDeposit);
    Ok(World(bothIn, w.escrows, w.markets))
  }

  // ----- swap_tokens -----

  /** The account constraints of `Swap`. */
  function SwapAccounts(w: World, signers: set<nat>, player: Key, beneficiary: Key, playerTokenAccount: Key, playerSolAccount: Key): Outcome
  {
    var market := MarketStateAddress(beneficiary);
    var tokenVault, solVault := TokenVaultAddress(market, beneficiary), SolVaultAddress(market, beneficiary);
    if market !in w.markets || tokenVault !in w.accounts || solVault !in w.accounts then Fail(AccountNotInitialized)
    else if playerTokenAccount !in w.accounts || playerSolAccount !in w.accounts then Fail(AccountNotInitialized)
    else if w.accounts[playerTokenAccount].owner != player || w.accounts[playerSolAccount].owner != player then Fail(ConstraintTokenOwner)
    else if !Signed(signers, player) then Fail(MissingSigner)
    else Pass
  }

  /**
   * Which accounts a swap reads and moves: the player's account the input
   * leaves, the player's account the output reaches, the vault the input
   * enters and the vault the output leaves.
   */
  datatype Route = Route(source: Key, destination: Key, inVault: Key, outVault: Key)

  function Direction(solToToken: bool, playerTokenAccount: Key, playerSolAccount: Key, tokenVault: Key, solVault: Key): Route
  {
    if solToToken then Route(playerSolAccount, playerTokenAccount, solVault, tokenVault)
    else Route(playerTokenAccount, playerSolAccount, tokenVault, solVault)
  }

  /**
   * The balances after a swap of `amountIn` from `source` into `inVault`,
   * priced by `SwapOut` on the reserves of `inVault` and `outVault` before
   * the swap and paid from `outVault` to `destination`: the price is
   * defined and, when the four accounts are distinct, these are the only
   * two moves.
   */
  predicate Swapped(w: World, after: Accounts, beneficiary: Key, source: Key, inVault: Key, outVault: Key, destination: Key, amountIn: u64)
    requires MarketStateAddress(beneficiary) in w.markets
    requires source in w.accounts && inVault in w.accounts && outVault in w.accounts && destination in w.accounts
  {
    var fees := w.markets[MarketStateAddress(beneficiary)];
    var out := SwapOut(amountIn, fees.feeNumerator, fees.feeDenominator, w.accounts[inVault].amount, w.accounts[outVault].amount);
    && out.Ok?
    && (Distinct4(source, inVault, outVault, destination) ==>
          TwoMoves(w.accounts, after, source, inVault, amountIn, outVault, destination, out.value))
  }

  /**
   * The player pays `amountIn` into the input vault and receives the
   * `SwapOut` of the reserves as they stood before the swap; with
   * `solToToken` the input is sol and the output tokens, otherwise the
   * reverse.
   */
  function Swap(w: World, signers: set<nat>, player: Key, beneficiary: Key, playerTokenAccount: Key, playerSolAccount: Key,
                amountIn: u64, solToToken: bool): (r: Result<World>)
    ensures r.Ok? ==> SwapAccounts(w, signers, player, beneficiary, playerTokenAccount, playerSolAccount) == Pass
    ensures var source := if solToToken then playerSolAccount else playerTokenAccount;
      (SwapAccounts(w, signers, player, beneficiary, playerTokenAccount, playerSolAccount) == Pass
       && amountIn > w.accounts[source].amount)
        ==> r == Err(NotEnoughBalance)
    ensures r.Ok? ==> r.value.escrows == w.escrows && r.value.markets == w.markets
    ensures var tokenVault, solVault := MarketTokenVault(beneficiary), MarketSolVault(beneficiary);
      r.Ok? && solToToken ==>
        Swapped(w, r.value.accounts, beneficiary, playerSolAccount, solVault, tokenVault, playerTokenAccount, amountIn)
    ensures var tokenVault, solVault := MarketTokenVault(beneficiary), MarketSolVault(beneficiary);
      r.Ok? && !solToToken ==>
        Swapped(w, r.value.accounts, beneficiary, playerTokenAccount, tokenVault, solVault, playerSolAccount, amountIn)
  {
    var market := MarketStateAddress(beneficiary);
    :- SwapAccounts(w, signers, player, beneficiary, playerTokenAccount, playerSolAccount);
    var tokenVault, solVault := TokenVaultAddress(market, beneficiary), SolVaultAddress(market, beneficiary);
    var route := Direction(solToToken, playerTokenAccount, playerSolAccount, tokenVault, solVault);
    :- Need(amountIn <= w.accounts[route.source].amount, NotEnoughBalance);
    var fees := w.markets[market];
    var amountOut :- SwapOut(amountIn, fees.feeNumerator, fees.feeDenominator,
                             w.accounts[route.inVault].amount, w.accounts[route.outVault].amount);
    var paid :- Transfer(w.accounts, player, route.source, route.inVault, amountIn);
    var swapped :- Transfer(paid, market, route.outVault, route.destination, amountOut);
    Ok(World(swapped, w.escrows, w.markets))
  }

  // ----- when the market instructions succeed -----

  /**
   * Once the accounts check out, and when the beneficiary's two accounts and
   * the two vaults are four distinct accounts, adding liquidity succeeds
   * exactly when the sol side is defined, both balances cover their side,
   * each account is of its vault's mint and both vaults have room.
   */
  lemma AddLiquiditySucceeds(w: World, signers: set<nat>, beneficiary: Key, tokenAccount: Key, solAccount: Key,
                             tokenAmount: u64, solAmount: u64)
    requires LiquidityAccounts(w, signers, beneficiary, tokenAccount, solAccount) == Pass
    requires Distinct4(tokenAccount, MarketTokenVault(beneficiary), solAccount, MarketSolVault(beneficiary))
    ensures var tokenVault, solVault := MarketTokenVault(beneficiary), MarketSolVault(beneficiary);
      var deposit := LiquidityDeposit(tokenAmount, solAmount, w.accounts[tokenVault].amount, w.accounts[solVault].amount);
      AddLiquidity(w, signers, beneficiary, tokenAccount, solAccount, tokenAmount, solAmount).Ok? <==>
        && deposit.Ok?
        && tokenAmount <= w.accounts[tokenAccount].amount && deposit.value <= w.accounts[solAccount].amount
        && w.accounts[tokenAccount].mint == w.accounts[tokenVault].mint && w.accounts[solAccount].mint == w.accounts[solVault].mint
        && w.accounts[tokenVault].amount + tokenAmount <= MAX_U64 && w.accounts[solVault].amount + deposit.value <= MAX_U64
  {
    var tokenVault, solVault := MarketTokenVault(beneficiary), MarketSolVault(beneficiary);
    var deposit := LiquidityDeposit(tokenAmount, solAmount, w.accounts[tokenVault].amount, w.accounts[solVault].amount);
    if deposit.Ok? && tokenAmount <= w.accounts[tokenAccount].amount {
      var tokensIn := Transfer(w.accounts, beneficiary, tokenAccount, tokenVault, tokenAmount);
      if tokensIn.Ok? {
        assert tokensIn.value[solAccount] == w.accounts[solAccount];
        assert tokensIn.value[solVault] == w.accounts[solVault];
      }
    }
  }

  /**
   * Once the accounts check out and the player holds `amountIn`, a price
   * `SwapOut` cannot compute makes the swap panic.
   */
  lemma SwapPricePanics(w: World, signers: set<nat>, player: Key, beneficiary: Key, playerTokenAccount: Key, playerSolAccount: Key,
                        amountIn: u64, solToToken: bool)
    requires SwapAccounts(w, signers, player, beneficiary, playerTokenAccount, playerSolAccount) == Pass
    ensures var route := Direction(solToToken, playerTokenAccount, playerSolAccount, MarketTokenVault(beneficiary), MarketSolVault(beneficiary));
      var fees := w.markets[MarketStateAddress(beneficiary)];
      (amountIn <= w.accounts[route.source].amount
       && SwapOut(amountIn, fees.feeNumerator, fees.feeDenominator, w.accounts[route.inVault].amount, w.accounts[route.outVault].amount).Err?)
        ==> Swap(w, signers, player, beneficiary, playerTokenAccount, playerSolAccount, amountIn, solToToken) == Err(Panic)
  {
  }

  /**
   * Once the accounts check out, and when the player's two accounts and the
   * two vaults are four distinct accounts, a swap succeeds exactly when the
   * player holds `amountIn`, the price is defined, the input goes to a vault
   * of its mint and the output comes from a vault of the destination's
   * mint under the market record's authority, and both receiving accounts
   * have room.
   */
  lemma SwapSucceeds(w: World, signers: set<nat>, player: Key, beneficiary: Key, playerTokenAccount: Key, playerSolAccount: Key,
                     amountIn: u64, solToToken: bool)
    requires SwapAccounts(w, signers, player, beneficiary, playerTokenAccount, playerSolAccount) == Pass
    requires Distinct4(playerTokenAccount, MarketTokenVault(beneficiary), playerSolAccount, MarketSolVault(beneficiary))
    ensures var route := Direction(solToToken, playerTokenAccount, playerSolAccount, MarketTokenVault(beneficiary), MarketSolVault(beneficiary));
      var fees := w.markets[MarketStateAddress(beneficiary)];
      var out := SwapOut(amountIn, fees.feeNumerator, fees.feeDenominator, w.accounts[route.inVault].amount, w.accounts[route.outVault].amount);
      Swap(w, signers, player, beneficiary, playerTokenAccount, playerSolAccount, amountIn, solToToken).Ok? <==>
        && amountIn <= w.accounts[route.source].amount
        && out.Ok?
        && w.accounts[route.source].mint == w.accounts[route.inVault].mint
        && w.accounts[route.outVault].mint == w.accounts[route.destination].mint
        && w.accounts[route.outVault].owner == MarketStateAddress(beneficiary)
        && w.accounts[route.inVault].amount + amountIn <= MAX_U64
        && w.accounts[route.destination].amount + out.value <= MAX_U64
  {
    var market := MarketStateAddress(beneficiary);
    var route := Direction(solToToken, playerTokenAccount, playerSolAccount, MarketTokenVault(beneficiary), MarketSolVault(beneficiary));
    var fees := w.markets[market];
    var out := SwapOut(amountIn, fees.feeNumerator, fees.feeDenominator, w.accounts[route.inVault].amount, w.accounts[route.outVault].amount);
    if amountIn <= w.accounts[route.source].amount && out.Ok? {
      var paid := Transfer(w.accounts, player, route.source, route.inVault, amountIn);
      if paid.Ok? {
        assert paid.value[route.outVault] == w.accounts[route.outVault];
        assert paid.value[route.destination] == w.accounts[route.destination];
      }
    }
  }
}
