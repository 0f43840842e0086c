/**
 * The two-party escrow: `transaction_setup`, `deposit_by_both_parties`,
 * `transfer_to_winner` and `pull_back`, each a function from the ledger
 * before the instruction to the ledger after it, or to the error that
 * rejects the whole instruction.
 */
module Escrow {
  import opened Keys
  import opened Errors
  import opened Stages
  import opened Tokens
  import opened State

  /** The `associated_token::authority` and `associated_token::mint` constraints. */
  predicate IsAssociated(accts: Accounts, address: Key, authority: Key, mint: Key)
    requires address in accts
  {
    accts[address].owner == authority && accts[address].mint == mint
  }

  // ----- transaction_setup -----

  /** Creates the escrow record and its empty vault; only the player signs. */
  function Setup(w: World, signers: set<nat>, player: Key, beneficiary: Key, mint: Key, stateBump: u8, escrowBump: u8): (r: Result<World>)
    ensures var st, vault := TransactionStateAddress(player, beneficiary, mint), EscrowAccountAddress(player, beneficiary, mint);
      r.Ok? <==> Signed(signers, player) && !InUse(w, st) && !InUse(w, vault)
    ensures var st, vault := TransactionStateAddress(player, beneficiary, mint), EscrowAccountAddress(player, beneficiary, mint);
      r.Ok? ==>
        && r.value.escrows.Keys == w.escrows.Keys + {st}
        && (forall k :: k in w.escrows ==> r.value.escrows[k] == w.escrows[k])
        && var record := r.value.escrows[st];
        && record.player == player && record.beneficiary == beneficiary
        && record.mintOfToken == mint && record.escrowAccount == vault
        && record.amountOfTokens == 0 && FromCode(record.stage) == Ok(Initialized)
    ensures var st, vault := TransactionStateAddress(player, beneficiary, mint), EscrowAccountAddress(player, beneficiary, mint);
      r.Ok? ==>
        && r.value.accounts.Keys == w.accounts.Keys + {vault}
        && (forall k :: k in w.accounts ==> r.value.accounts[k] == w.accounts[k])
        && r.value.accounts[vault] == TokenAccount(mint, st, 0)
        && r.value.markets == w.markets
  {
    var st, vault := TransactionStateAddress(player, beneficiary, mint), EscrowAccountAddress(player, beneficiary, mint);
    :- Need(Signed(signers, player), MissingSigner);
    :- Need(!InUse(w, st), AccountInUse);
    :- Need(!InUse(w, vault), AccountInUse);
    var record := TransactionState(player, beneficiary, mint, vault, 0, ToCode(Initialized), stateBump, escrowBump);
    Ok(World(Open(w.accounts, vault, mint, st), w.escrows[st := record], w.markets))
  }

  // ----- deposit_by_both_parties -----

  /** The account constraints of `DepositByBothParties`. */
  function DepositAccounts(w: World, signers: set<nat>, player: Key, beneficiary: Key, mint: Key): Outcome
  {
    var st, vault := TransactionStateAddress(player, beneficiary, mint), EscrowAccountAddress(player, beneficiary, mint);
    var playerAta, beneficiaryAta := AssociatedTokenAddress(player, mint), AssociatedTokenAddress(beneficiary, mint);
    if st !in w.escrows || vault !in w.accounts then Fail(AccountNotInitialized)
    else if !Signed(signers, player) || !Signed(signers, beneficiary) then Fail(MissingSigner)
    else if playerAta !in w.accounts || beneficiaryAta !in w.accounts then Fail(AccountNotInitialized)
    else if !IsAssociated(w.accounts, playerAta, player, mint) || !IsAssociated(w.accounts, beneficiaryAta, beneficiary, mint) then Fail(ConstraintAssociated)
    else Pass
  }

  /**
   * The balances after a joint deposit of `amount`: the vault gains both
   * deposits, each party's associated account loses its own (one account
   * loses both when the parties are the same key), and nothing else changes.
   */
  predicate Deposited(before: Accounts, after: Accounts, player: Key, beneficiary: Key, mint: Key, amount: int)
  {
    var vault := EscrowAccountAddress(player, beneficiary, mint);
    var playerAta, beneficiaryAta := AssociatedTokenAddress(player, mint), AssociatedTokenAddress(beneficiary, mint);
    && vault in before && playerAta in before && beneficiaryAta in before
    && after.Keys == before.Keys
    && (forall k :: k in before && k !in {vault, playerAta, beneficiaryAta} ==> after[k] == before[k])
    && (forall k :: k in before ==> after[k].owner == before[k].owner && after[k].mint == before[k].mint)
    && after[vault].amount == before[vault].amount + 2 * amount
    && (player != beneficiary ==>
          && after[playerAta].amount == before[playerAta].amount - amount
          && after[beneficiaryAta].amount == before[beneficiaryAta].amount - amount)
    && (player == beneficiary ==> after[playerAta].amount == before[playerAta].amount - 2 * amount)
  }

  /**
   * Both parties pay `amount` into the vault in one instruction; the record
   * then holds `amount` and the stage `FundsDeposited`.
   */
  function Deposit(w: World, signers: set<nat>, player: Key, beneficiary: Key, mint: Key, amount: u64): (r: Result<World>)
    ensures r.Ok? ==> Signed(signers, player) && Signed(signers, beneficiary)
    ensures var st := TransactionStateAddress(player, beneficiary, mint);
      r.Ok? ==> st in w.escrows && w.escrows[st].stage == ToCode(Initialized)
    ensures var st := TransactionStateAddress(player, beneficiary, mint);
      (DepositAccounts(w, signers, player, beneficiary, mint) == Pass && w.escrows[st].stage != ToCode(Initialized))
        ==> r == Err(StageInvalid)
    ensures var st := TransactionStateAddress(player, beneficiary, mint);
      r.Ok? ==>
        && r.value.escrows.Keys == w.escrows.Keys
        && (forall k :: k in w.escrows && k != st ==> r.value.escrows[k] == w.escrows[k])
        && r.value.escrows[st] == w.escrows[st].(amountOfTokens := amount, stage := r.value.escrows[st].stage)
        && FromCode(r.value.escrows[st].stage) == Ok(FundsDeposited)
        && r.value.markets == w.markets
    ensures r.Ok? ==> Deposited(w.accounts, r.value.accounts, player, beneficiary, mint, amount)
  {
    var st, vault := TransactionStateAddress(player, beneficiary, mint), EscrowAccountAddress(player, beneficiary, mint);
    :- DepositAccounts(w, signers, player, beneficiary, mint);
    var playerAta, beneficiaryAta := AssociatedTokenAddress(player, mint), AssociatedTokenAddress(beneficiary, mint);
    var record := w.escrows[st];
    var stage :- FromCode(record.stage);
    :- Need(stage == Initialized, StageInvalid);
    var afterPlayer :- Transfer(w.accounts, player, playerAta, vault, amount);
    var afterBoth :- Transfer(afterPlayer, beneficiary, beneficiaryAta, vault, amount);
    var funded := record.(amountOfTokens := amount, stage := ToCode(FundsDeposited));
    Ok(World(afterBoth, w.escrows[st := funded], w.markets))
  }

  // ----- transfer_to_winner -----

  /** The account constraints of `TransferToWinner`; `winner` itself is not checked against the parties. */
  function WinnerAccounts(w: World, player: Key, beneficiary: Key, mint: Key, winner: Key, winnerAccount: Key): Outcome
  {
    var st, vault := TransactionStateAddress(player, beneficiary, mint), EscrowAccountAddress(player, beneficiary, mint);
    if st !in w.escrows || vault !in w.accounts || winnerAccount !in w.accounts then Fail(AccountNotInitialized)
    else if w.accounts[winnerAccount].owner != winner || w.accounts[winnerAccount].mint != mint then Fail(ConstraintRaw)
    else Pass
  }

  /** `2 * amount_of_tokens` fits in a `u64` (every reachable ledger has this; see `Invariants`). */
  predicate PayoutFits(w: World, player: Key, beneficiary: Key, mint: Key)
  {
    var st := TransactionStateAddress(player, beneficiary, mint);
    st in w.escrows ==> 2 * w.escrows[st].amountOfTokens <= MAX_U64
  }

  /**
   * The record at `st` is gone and every other record, every market record
   * is as it was.
   */
  predicate Resolved(w: World, next: World, st: Key)
  {
    && next.escrows.Keys == w.escrows.Keys - {st}
    && (forall k :: k in next.escrows ==> next.escrows[k] == w.escrows[k])
    && next.markets == w.markets
  }

  /**
   * The balances after a payout of `payout`: the vault is gone, the winner
   * account gains `payout` and keeps its owner and mint, and no other
   * account changes.
   */
  predicate PaidOut(before: Accounts, after: Accounts, player: Key, beneficiary: Key, mint: Key, winnerAccount: Key, payout: int)
  {
    var vault := EscrowAccountAddress(player, beneficiary, mint);
    && after.Keys == before.Keys - {vault}
    && (forall k :: k in after && k != winnerAccount ==> after[k] == before[k])
    && (winnerAccount != vault && winnerAccount in before ==>
          && after[winnerAccount].amount == before[winnerAccount].amount + payout
          && after[winnerAccount].owner == before[winnerAccount].owner
          && after[winnerAccount].mint == before[winnerAccount].mint)
  }

  /**
   * Pays both deposits to the token account `winnerAccount` of `winner`,
   * closes the vault and deletes the record. Nobody has to sign.
   */
  function TransferToWinner(w: World, player: Key, beneficiary: Key, mint: Key, winner: Key, winnerAccount: Key): (r: Result<World>)
    requires PayoutFits(w, player, beneficiary, mint)
    ensures var st, vault := TransactionStateAddress(player, beneficiary, mint), EscrowAccountAddress(player, beneficiary, mint);
      r.Ok? ==>
        && st in w.escrows && w.escrows[st].stage == ToCode(FundsDeposited)
        && vault in w.accounts && w.accounts[vault].amount == 2 * w.escrows[st].amountOfTokens
        && winnerAccount in w.accounts && w.accounts[winnerAccount].owner == winner && w.accounts[winnerAccount].mint == mint
    ensures var st := TransactionStateAddress(player, beneficiary, mint);
      (WinnerAccounts(w, player, beneficiary, mint, winner, winnerAccount) == Pass && w.escrows[st].stage != ToCode(FundsDeposited))
        ==> r == Err(StageInvalid)
    ensures var st := TransactionStateAddress(player, beneficiary, mint);
      r.Ok? ==> Resolved(w, r.value, st) && PaidOut(w.accounts, r.value.accounts, player, beneficiary, mint, winnerAccount, 2 * w.escrows[st].amountOfTokens)
  {
    var st, vault := TransactionStateAddress(player, beneficiary, mint), EscrowAccountAddress(player, beneficiary, mint);
    :- WinnerAccounts(w, player, beneficiary, mint, winner, winnerAccount);
    var record := w.escrows[st];
    var stage :- FromCode(record.stage);
    :- Need(stage == FundsDeposited, StageInvalid);
    var paid :- Transfer(w.accounts, st, vault, winnerAccount, 2 * record.amountOfTokens);
    var closed :- Close(paid, vault, st);
    Ok(World(closed, w.escrows - {st}, w.markets))
  }

  // ----- pull_back -----

  /** The account constraints of `PullBack`. */
  function PullBackAccounts(w: World, player: Key, beneficiary: Key, mint: Key): Outcome
  {
    var st, vault := TransactionStateAddress(player, beneficiary, mint), EscrowAccountAddress(player, beneficiary, mint);
    var playerAta, beneficiaryAta := AssociatedTokenAddress(player, mint), AssociatedTokenAddress(beneficiary, mint);
    if st !in w.escrows || vault !in w.accounts then Fail(AccountNotInitialized)
    else if playerAta !in w.accounts || beneficiaryAta !in w.accounts then Fail(AccountNotInitialized)
    else if !IsAssociated(w.accounts, playerAta, player, mint) || !IsAssociated(w.accounts, beneficiaryAta, beneficiary, mint) then Fail(ConstraintAssociated)
    else Pass
  }

  /**
   * The balances after a refund of `amount` to each party: the vault is
   * gone, each party's associated account gains its own deposit back (one
   * account gains both when the parties are the same key), and nothing else
   * changes.
   */
  predicate Refunded(before: Accounts, after: Accounts, player: Key, beneficiary: Key, mint: Key, amount: int)
  {
    var vault := EscrowAccountAddress(player, beneficiary, mint);
    var playerAta, beneficiaryAta := AssociatedTokenAddress(player, mint), AssociatedTokenAddress(beneficiary, mint);
    && playerAta in before && beneficiaryAta in before
    && after.Keys == before.Keys - {vault}
    && (forall k :: k in after && k !in {playerAta, beneficiaryAta} ==> after[k] == before[k])
    && (forall k :: k in after ==> after[k].owner == before[k].owner && after[k].mint == before[k].mint)
    && (player != beneficiary ==>
          && after[playerAta].amount == before[playerAta].amount + amount
          && after[beneficiaryAta].amount == before[beneficiaryAta].amount + amount)
    && (player == beneficiary ==> after[playerAta].amount == before[playerAta].amount + 2 * amount)
  }

  /**
   * Returns each party its own deposit, closes the vault and deletes the
   * record. Nobody has to sign; the vault must hold exactly both deposits.
   */
  function PullBack(w: World, player: Key, beneficiary: Key, mint: Key): (r: Result<World>)
    requires PayoutFits(w, player, beneficiary, mint)
    ensures var st, vault := TransactionStateAddress(player, beneficiary, mint), EscrowAccountAddress(player, beneficiary, mint);
      r.Ok? ==>
        && st in w.escrows && w.escrows[st].stage == ToCode(FundsDeposited)
        && vault in w.accounts && w.accounts[vault].amount == 2 * w.escrows[st].amountOfTokens
    ensures var st := TransactionStateAddress(player, beneficiary, mint);
      (PullBackAccounts(w, player, beneficiary, mint) == Pass && w.escrows[st].stage != ToCode(FundsDeposited))
        ==> r == Err(StageInvalid)
    ensures var st, vault := TransactionStateAddress(player, beneficiary, mint), EscrowAccountAddress(player, beneficiary, mint);
      (PullBackAccounts(w, player, beneficiary, mint) == Pass && w.escrows[st].stage == ToCode(FundsDeposited)
       && w.accounts[vault].amount != 2 * w.escrows[st].amountOfTokens)
        ==> r == Err(Panic)
    ensures var st := TransactionStateAddress(player, beneficiary, mint);
      r.Ok? ==> Resolved(w, r.value, st) && Refunded(w.accounts, r.value.accounts, player, beneficiary, mint, w.escrows[st].amountOfTokens)
  {
    var st, vault := TransactionStateAddress(player, beneficiary, mint), EscrowAccountAddress(player, beneficiary, mint);
    :- PullBackAccounts(w, player, beneficiary, mint);
    var playerAta, beneficiaryAta := AssociatedTokenAddress(player, mint), AssociatedTokenAddress(beneficiary, mint);
    var record := w.escrows[st];
    var stage :- FromCode(record.stage);
    :- Need(stage == FundsDeposited, StageInvalid);
    :- Need(w.accounts[vault].amount == 2 * record.amountOfTokens, Panic);
    var toPlayer :- Transfer(w.accounts, st, vault, playerAta, record.amountOfTokens);
    var toBoth :- Transfer(toPlayer, st, vault, beneficiaryAta, record.amountOfTokens);
    var closed :- Close(toBoth, vault, st);
    Ok(World(closed, w.escrows - {st}, w.markets))
  }
}
