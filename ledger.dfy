/**
 * The instructions as the program runs them: a ledger object whose three
 * maps the handlers update step by step, with the token program's calls as
 * methods on it. A failing step rejects the whole instruction, so a
 * handler that fails after an earlier step has changed balances restores
 * the ledger it started from. Each method is proved to do exactly what
 * the matching function of `Escrow` or `Market` describes.
 */
module Ledgers {
  import opened Keys
  import opened Errors
  import opened Stages
  import opened Tokens
  import opened State
  import opened Pricing
  import Escrow
  import Market

  /**
   * A step that ended in `r` and left `after` behind did what `spec`
   * describes: it passed and produced the state `spec` holds, or it failed
   * with the error of `spec` and changed nothing.
   */
  predicate Commits<T(==)>(before: T, after: T, spec: Result<T>, r: Outcome)
  {
    match spec
    case Ok(next) => r == Pass && after == next
    case Err(e) => r == Fail(e) && after == before
  }

  class Ledger {
    var accounts: Accounts
    var escrows: map<Key, TransactionState>
    var markets: map<Key, MarketState>

    /** The ledger as a value. */
    function Snapshot(): World
      reads this
    {
      World(accounts, escrows, markets)
    }

    constructor (w: World)
      ensures Snapshot() == w
    {
      accounts, escrows, markets := w.accounts, w.escrows, w.markets;
    }

    // ----- the token program -----

    /** `secure_transfer_cpi`: the token program's transfer, check by check. */
    method SecureTransfer(authority: Key, from: Key, to: Key, amount: u64) returns (r: Outcome)
      modifies this
      ensures escrows == old(escrows) && markets == old(markets)
      ensures Commits(old(accounts), accounts, Transfer(old(accounts), authority, from, to, amount), r)
    {
      if from !in accounts || to !in accounts {
        return Fail(AccountNotInitialized);
      }
      var source, destination := accounts[from], accounts[to];
      if source.amount < amount {
        return Fail(InsufficientFunds);
      }
      if source.mint != destination.mint {
        return Fail(MintMismatch);
      }
      if source.owner != authority {
        return Fail(OwnerMismatch);
      }
      if from == to {
        return Pass;
      }
      if destination.amount + amount > MAX_U64 {
        return Fail(Overflow);
      }
      accounts := accounts[from := source.(amount := source.amount - amount)];
      accounts := accounts[to := destination.(amount := destination.amount + amount)];
      r := Pass;
    }

    /** `close_account_cpi`: deletes an empty token account on its authority's word. */
    method CloseAccount(account: Key, authority: Key) returns (r: Outcome)
      modifies this
      ensures escrows == old(escrows) && markets == old(markets)
      ensures Commits(old(accounts), accounts, Close(old(accounts), account, authority), r)
    {
      if account !in accounts {
        return Fail(AccountNotInitialized);
      }
      if accounts[account].amount != 0 {
        return Fail(NonNativeHasBalance);
      }
      if accounts[account].owner != authority {
        return Fail(OwnerMismatch);
      }
      accounts := accounts - {account};
      r := Pass;
    }

    // ----- the escrow -----

    /**
     * `transaction_setup`: creates the record and the vault, then writes
     * the record's fields, the stage last.
     */
    method TransactionSetup(signers: set<nat>, player: Key, beneficiary: Key, mint: Key, stateBump: u8, escrowBump: u8)
      returns (r: Outcome)
      modifies this
      ensures Commits(old(Snapshot()), Snapshot(), Escrow.Setup(old(Snapshot()), signers, player, beneficiary, mint, stateBump, escrowBump), r)
    {
      var st, vault := TransactionStateAddress(player, beneficiary, mint), EscrowAccountAddress(player, beneficiary, mint);
      if !Signed(signers, player) {
        return Fail(MissingSigner);
      }
      if InUse(Snapshot(), st) || InUse(Snapshot(), vault) {
        return Fail(AccountInUse);
      }
      // the record starts zeroed: stage 0 is not a stage
      escrows := escrows[st := TransactionState(player, beneficiary, mint, vault, 0, 0, stateBump, escrowBump)];
      accounts := accounts[vault := TokenAccount(mint, st, 0)];
      escrows := escrows[st := escrows[st].(stage := ToCode(Initialized))];
      r := Pass;
    }

    /**
     * `deposit_by_both_parties`: the player's transfer, the beneficiary's
     * transfer, then the amount and the stage.
     */
    method DepositByBothParties(signers: set<nat>, player: Key, beneficiary: Key, mint: Key, amount: u64) returns (r: Outcome)
      modifies this
      ensures Commits(old(Snapshot()), Snapshot(), Escrow.Deposit(old(Snapshot()), signers, player, beneficiary, mint, amount), r)
    {
      r := Escrow.DepositAccounts(Snapshot(), signers, player, beneficiary, mint);
      if r.Fail? {
        return;
      }
      var st, vault := TransactionStateAddress(player, beneficiary, mint), EscrowAccountAddress(player, beneficiary, mint);
      var playerAta, beneficiaryAta := AssociatedTokenAddress(player, mint), AssociatedTokenAddress(beneficiary, mint);
      var stage := FromCode(escrows[st].stage);
      if stage.Err? {
        return Fail(stage.error);
      }
      if stage.value != Initialized {
        return Fail(StageInvalid);
      }
      var saved := accounts;
      r := SecureTransfer(player, playerAta, vault, amount);
      if r.Fail? {
        return;
      }
      r := SecureTransfer(beneficiary, beneficiaryAta, vault, amount);
      if r.Fail? {
        accounts := saved;
        return;
      }
      escrows := escrows[st := escrows[st].(amountOfTokens := amount)];
      escrows := escrows[st := escrows[st].(stage := ToCode(FundsDeposited))];
    }

    /**
     * `transfer_to_winner`: pays both deposits out, closes the vault, marks
     * the record complete, and the record is closed as the instruction ends.
     */
    method TransferToWinner(player: Key, beneficiary: Key, mint: Key, winner: Key, winnerAccount: Key) returns (r: Outcome)
      requires Escrow.PayoutFits(Snapshot(), player, beneficiary, mint)
      modifies this
      ensures Commits(old(Snapshot()), Snapshot(), Escrow.TransferToWinner(old(Snapshot()), player, beneficiary, mint, winner, winnerAccount), r)
    {
      r := Escrow.WinnerAccounts(Snapshot(), player, beneficiary, mint, winner, winnerAccount);
      if r.Fail? {
        return;
      }
      var st, vault := TransactionStateAddress(player, beneficiary, mint), EscrowAccountAddress(player, beneficiary, mint);
      var stage := FromCode(escrows[st].stage);
      if stage.Err? {
        return Fail(stage.error);
      }
      if stage.value != FundsDeposited {
        return Fail(StageInvalid);
      }
      var saved := accounts;
      r := SecureTransfer(st, vault, winnerAccount, 2 * escrows[st].amountOfTokens);
      if r.Fail? {
        return;
      }
      r := CloseAccount(vault, st);
      if r.Fail? {
        accounts := saved;
        return;
      }
      escrows := escrows[st := escrows[st].(stage := ToCode(EscrowComplete))];
      // `close = player`
      escrows := escrows - {st};
    }

    /**
     * `pull_back`: checks the vault holds both deposits, refunds the player,
     * refunds the beneficiary, closes the vault; the record is closed as the
     * instruction ends.
     */
    method PullBack(player: Key, beneficiary: Key, mint: Key) returns (r: Outcome)
      requires Escrow.PayoutFits(Snapshot(), player, beneficiary, mint)
      modifies this
      ensures Commits(old(Snapshot()), Snapshot(), Escrow.PullBack(old(Snapshot()), player, beneficiary, mint), r)
    {
      r := Escrow.PullBackAccounts(Snapshot(), player, beneficiary, mint);
      if r.Fail? {
        return;
      }
      var st, vault := TransactionStateAddress(player, beneficiary, mint), EscrowAccountAddress(player, beneficiary, mint);
      var playerAta, beneficiaryAta := AssociatedTokenAddress(player, mint), AssociatedTokenAddress(beneficiary, mint);
      var stage := FromCode(escrows[st].stage);
      if stage.Err? {
        return Fail(stage.error);
      }
      if stage.value != FundsDeposited {
        return Fail(StageInvalid);
      }
      var amount := escrows[st].amountOfTokens;
      if accounts[vault].amount != 2 * amount {
        return Fail(Panic);
      }
      var saved := accounts;
      r := SecureTransfer(st, vault, playerAta, amount);
      if r.Fail? {
        return;
      }
      r := SecureTransfer(st, vault, beneficiaryAta, amount);
      if r.Fail? {
        accounts := saved;
        return;
      }
      // the two refunds emptied the vault, so closing it cannot fail
      r := CloseAccount(vault, st);
      assert r == Pass;
      // `close = player`
      escrows := escrows - {st};
    }

    // ----- the market -----

    /**
     * `amm_setup`: creates the market record and its two vaults, then writes
     * the fee ratio and the bumps into the record.
     */
    method AmmSetup(signers: set<nat>, beneficiary: Key, tokenMint: Key, solMint: Key,
                    feeNumerator: u64, feeDenominator: u64, stateBump: u8, tokenVaultBump: u8, solVaultBump: u8)
      returns (r: Outcome)
      modifies this
      ensures Commits(old(Snapshot()), Snapshot(),
                      Market.AmmSetup(old(Snapshot()), signers, beneficiary, tokenMint, solMint,
                                      feeNumerator, feeDenominator, stateBump, tokenVaultBump, solVaultBump), r)
    {
      var market := MarketStateAddress(beneficiary);
      var tokenVault, solVault := TokenVaultAddress(market, beneficiary), SolVaultAddress(market, beneficiary);
      if !Signed(signers, beneficiary) {
        return Fail(MissingSigner);
      }
      if InUse(Snapshot(), market) || InUse(Snapshot(), tokenVault) || InUse(Snapshot(), solVault) {
        return Fail(AccountInUse);
      }
      markets := markets[market := MarketState(0, 0, 0, 0, 0)];
      accounts := accounts[tokenVault := TokenAccount(tokenMint, market, 0)];
      accounts := accounts[solVault := TokenAccount(solMint, market, 0)];
      var state := markets[market];
      state := state.(feeNumerator := feeNumerator);
      state := state.(feeDenominator := feeDenominator);
      state := state.(stateBump := stateBump);
      state := state.(tokenVaultBump := tokenVaultBump);
      state := state.(solVaultBump := solVaultBump);
      markets := markets[market := state];
      r := Pass;
    }

    /**
     * `add_liquidity`: fixes the sol side from the vaults, checks both
     * balances, then moves the tokens and the sol into the vaults.
     */
    method AddLiquidity(signers: set<nat>, beneficiary: Key, tokenAccount: Key, solAccount: Key, tokenAmount: u64, solAmount: u64)
      returns (r: Outcome)
      modifies this
      ensures Commits(old(Snapshot()), Snapshot(),
                      Market.AddLiquidity(old(Snapshot()), signers, beneficiary, tokenAccount, solAccount, tokenAmount, solAmount), r)
    {
      r := Market.LiquidityAccounts(Snapshot(), signers, beneficiary, tokenAccount, solAccount);
      if r.Fail? {
        return;
      }
      var market := MarketStateAddress(beneficiary);
      var tokenVault, solVault := TokenVaultAddress(market, beneficiary), SolVaultAddress(market, beneficiary);
      var tokenBalance, solBalance := accounts[tokenAccount].amount, accounts[solAccount].amount;
      var deposit := LiquidityDeposit(tokenAmount, solAmount, accounts[tokenVault].amount, accounts[solVault].amount);
      if deposit.Err? {
        return Fail(deposit.error);
      }
      if deposit.value > solBalance || tokenAmount > tokenBalance {
        return Fail(NotEnoughBalance);
      }
      var saved := accounts;
      r := SecureTransfer(beneficiary, tokenAccount, tokenVault, tokenAmount);
      if r.Fail? {
        return;
      }
      r := SecureTransfer(beneficiary, solAccount, solVault, deposit.value);
      if r.Fail? {
        accounts := saved;
      }
    }

    /**
     * `swap_tokens`: checks the player's balance, prices the swap on the
     * reserves as they stand, takes the input into one vault and pays the
     * output from the other.
     */
    method SwapTokens(signers: set<nat>, player: Key, beneficiary: Key, playerTokenAccount: Key, playerSolAccount: Key,
                      amountIn: u64, solToToken: bool)
      returns (r: Outcome)
      modifies this
      ensures Commits(old(Snapshot()), Snapshot(),
                      Market.Swap(old(Snapshot()), signers, player, beneficiary, playerTokenAccount, playerSolAccount, amountIn, solToToken), r)
    {
      r := Market.SwapAccounts(Snapshot(), signers, player, beneficiary, playerTokenAccount, playerSolAccount);
      if r.Fail? {
        return;
      }
      var market := MarketStateAddress(beneficiary);
      var tokenVault, solVault := TokenVaultAddress(market, beneficiary), SolVaultAddress(market, beneficiary);
      var route := Market.Direction(solToToken, playerTokenAccount, playerSolAccount, tokenVault, solVault);
      if amountIn > accounts[route.source].amount {
        return Fail(NotEnoughBalance);
      }
      var fees := markets[market];
      var amountOut := SwapOut(amountIn, fees.feeNumerator, fees.feeDenominator,
                               accounts[route.inVault].amount, accounts[route.outVault].amount);
      if amountOut.Err? {
        return Fail(amountOut.error);
      }
      var saved := accounts;
      r := SecureTransfer(player, route.source, route.inVault, amountIn);
      if r.Fail? {
        return;
      }
      r := SecureTransfer(market, route.outVault, route.destination, amountOut.value);
      if r.Fail? {
        accounts := saved;
      }
    }
  }
}
